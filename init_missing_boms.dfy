/** inventory/management/commands/init_missing_boms.py: the command that
    gives every product without a bill of materials a default recipe. */
module InitMissingBoms {
  import opened Common
  import opened InventoryModels

  // ---------------------------------------------------------------------
  // The material dictionary

  /** The `materials` dictionary the command builds: SKU to material row,
      a later row replacing an earlier one with the same SKU. */
  function MaterialsBySku(materials: seq<Material>): (r: map<string, MaterialId>)
    ensures forall s :: s in r ==> r[s] < |materials| && materials[r[s]].sku == s
    ensures forall k :: 0 <= k < |materials| ==> materials[k].sku in r
  {
    if materials == [] then map[]
    else
      var n := |materials| - 1;
      var prior := MaterialsBySku(materials[..n]);
      assert forall k :: 0 <= k < n ==> materials[..n][k] == materials[k];
      prior[materials[n].sku := n]
  }

  /** The loop that fills the dictionary. */
  method IndexMaterials(materials: seq<Material>) returns (bySku: map<string, MaterialId>)
    ensures bySku == MaterialsBySku(materials)
  {
    bySku := map[];
    var i := 0;
    while i < |materials|
      invariant 0 <= i <= |materials|
      invariant bySku == MaterialsBySku(materials[..i])
    {
      assert materials[..i + 1][..i] == materials[..i];
      bySku := bySku[materials[i].sku := i];
      i := i + 1;
    }
    assert materials[..i] == materials;
  }

  // ---------------------------------------------------------------------
  // get_bom_items_for_product

  const Cement := "MAT-001"
  const FineSand := "MAT-003"
  const WaterReducer := "MAT-101"
  const Thickener := "MAT-102"
  const FlyAsh := "MAT-201"
  const ExpandedPearlite := "MAT-301"
  const FlameRetardant := "MAT-302"

  /** One line of a default recipe: a material by SKU, its quantity per
      unit of product and its unit. */
  datatype RecipeLine = RecipeLine(materialSku: string, quantity: real, unit: string)

  /** The list each product SKU's branch builds; other SKUs have none. */
  function Recipe(sku: string): (r: seq<RecipeLine>)
    ensures forall i :: 0 <= i < |r| ==> r[i].quantity >= MinBomQuantity
    ensures forall i, j :: 0 <= i < j < |r| ==> r[i].materialSku != r[j].materialSku
  {
    if sku == "PROD-006" then
      [RecipeLine(Cement, 48.0, "kg"), RecipeLine(WaterReducer, 0.8, "kg"), RecipeLine(FlyAsh, 1.2, "kg")]
    else if sku == "PROD-007" then
      [RecipeLine(Cement, 48.0, "kg"), RecipeLine(WaterReducer, 0.5, "kg"), RecipeLine(FlyAsh, 1.5, "kg")]
    else if sku == "PROD-009" then
      [RecipeLine(Cement, 15.0, "kg"), RecipeLine(FlameRetardant, 8.0, "kg"),
       RecipeLine(Thickener, 1.5, "kg"), RecipeLine(ExpandedPearlite, 12.0, "kg"),
       RecipeLine(WaterReducer, 0.5, "kg"), RecipeLine(FlyAsh, 3.0, "kg")]
    else if sku == "PROD-010" then
      [RecipeLine(Cement, 20.0, "kg"), RecipeLine(FlameRetardant, 10.0, "kg"),
       RecipeLine(Thickener, 2.0, "kg"), RecipeLine(FineSand, 15.0, "kg"),
       RecipeLine(WaterReducer, 0.6, "kg"), RecipeLine(FlyAsh, 2.4, "kg")]
    else []
  }

  /** The `if` of each branch: the materials it tests before it builds
      its list. */
  predicate GuardAsWritten(sku: string, bySku: map<string, MaterialId>)
  {
    if sku == "PROD-006" || sku == "PROD-007" then
      Cement in bySku && WaterReducer in bySku && FlyAsh in bySku
    else if sku == "PROD-009" then
      Cement in bySku && FlameRetardant in bySku && Thickener in bySku && ExpandedPearlite in bySku
    else if sku == "PROD-010" then
      Cement in bySku && FlameRetardant in bySku && Thickener in bySku
    else false
  }

  /** An item of the returned list: `material` is what materials.get()
      gave, None for a SKU that is not in the dictionary. */
  datatype BomItem = BomItem(material: Option<MaterialId>, quantity: real, unit: string)

  function Lookup(bySku: map<string, MaterialId>, sku: string): (r: Option<MaterialId>)
    ensures r.Some? <==> sku in bySku
  {
    if sku in bySku then Some(bySku[sku]) else None
  }

  function Resolved(recipe: seq<RecipeLine>, bySku: map<string, MaterialId>): (r: seq<BomItem>)
    ensures |r| == |recipe|
    ensures forall k :: 0 <= k < |r| ==>
      r[k] == BomItem(Lookup(bySku, recipe[k].materialSku), recipe[k].quantity, recipe[k].unit)
  {
    seq(|recipe|, k requires 0 <= k < |recipe| =>
      BomItem(Lookup(bySku, recipe[k].materialSku), recipe[k].quantity, recipe[k].unit))
  }

  predicate AllPresent(skus: seq<string>, bySku: map<string, MaterialId>)
  {
    forall k :: 0 <= k < |skus| ==> skus[k] in bySku
  }

  /** get_bom_items_for_product as written: the recipe when the branch's
      guard materials exist, otherwise nothing. PROD-006 and PROD-007 give
      their three items exactly when cement, water reducer and fly ash
      exist; PROD-009 and PROD-010 give six items once their four or three
      guard materials exist, whether or not the other materials they name
      do; any other SKU gives nothing. */
  function BomItemsAsWritten(sku: string, bySku: map<string, MaterialId>): (r: seq<BomItem>)
    ensures sku != "PROD-006" && sku != "PROD-007" && sku != "PROD-009" && sku != "PROD-010" ==> r == []
    ensures sku == "PROD-006" || sku == "PROD-007" ==>
      (r != [] <==> Cement in bySku && WaterReducer in bySku && FlyAsh in bySku)
    ensures sku == "PROD-009" ==>
      (r != [] <==> Cement in bySku && FlameRetardant in bySku && Thickener in bySku && ExpandedPearlite in bySku)
    ensures sku == "PROD-010" ==>
      (r != [] <==> Cement in bySku && FlameRetardant in bySku && Thickener in bySku)
    ensures r != [] ==> r == Resolved(Recipe(sku), bySku)
  {
    if GuardAsWritten(sku, bySku) then Resolved(Recipe(sku), bySku) else []
  }

  /** get_bom_items_for_product as evidently intended: each branch tests
      every material its list names, so every returned item has one. */
  function BomItemsCorrected(sku: string, bySku: map<string, MaterialId>): (r: seq<BomItem>)
    ensures r != [] ==> r == Resolved(Recipe(sku), bySku)
    ensures forall k :: 0 <= k < |r| ==> r[k].material.Some? && r[k].quantity >= MinBomQuantity
    ensures r != [] <==> Recipe(sku) != [] && AllPresent(MaterialSkus(Recipe(sku)), bySku)
  {
    var recipe := Recipe(sku);
    if AllPresent(MaterialSkus(recipe), bySku) then Resolved(recipe, bySku) else []
  }

  function MaterialSkus(recipe: seq<RecipeLine>): (r: seq<string>)
    ensures |r| == |recipe| && forall k :: 0 <= k < |r| ==> r[k] == recipe[k].materialSku
  {
    seq(|recipe|, k requires 0 <= k < |recipe| => recipe[k].materialSku)
  }

  /** When every material a recipe names exists, its guard holds. */
  lemma {:induction false} GuardWithinRecipe(sku: string, bySku: map<string, MaterialId>)
    requires Recipe(sku) != [] && AllPresent(MaterialSkus(Recipe(sku)), bySku)
    ensures GuardAsWritten(sku, bySku)
  {
    var skus := MaterialSkus(Recipe(sku));
    assert skus[0] == Cement && skus[0] in bySku;
    if sku == "PROD-006" || sku == "PROD-007" {
      assert skus[1] == WaterReducer && skus[1] in bySku;
      assert skus[2] == FlyAsh && skus[2] in bySku;
    } else {
      assert skus[1] == FlameRetardant && skus[1] in bySku;
      assert skus[2] == Thickener && skus[2] in bySku;
      if sku == "PROD-009" {
        assert skus[3] == ExpandedPearlite && skus[3] in bySku;
      }
    }
  }

  /** The corrected function returns what the original does whenever every
      item the original returns has its material, and nothing otherwise. */
  lemma CorrectedAgreesWhenComplete(sku: string, bySku: map<string, MaterialId>)
    ensures BomItemsCorrected(sku, bySku) ==
      var items := BomItemsAsWritten(sku, bySku);
      if forall k :: 0 <= k < |items| ==> items[k].material.Some? then items else []
  {
    var items := BomItemsAsWritten(sku, bySku);
    var recipe := Recipe(sku);
    var skus := MaterialSkus(recipe);
    if recipe != [] && AllPresent(skus, bySku) {
      GuardWithinRecipe(sku, bySku);
    } else if items != [] {
      var k :| 0 <= k < |skus| && skus[k] !in bySku;
      assert items[k].material.None?;
    }
  }

  /** With cement, flame retardant, thickener and expanded pearlite but no
      water reducer or fly ash, PROD-009 passes its guard and returns items
      whose material is None; with cement, flame retardant and thickener
      (and so no fine sand, water reducer or fly ash), PROD-010 returns
      items 3, 4 and 5 without a material. The corrected function
      returns nothing for either. */
  lemma GuardLetsMissingMaterialThrough()
    ensures var bySku := map[Cement := 0, FlameRetardant := 1, Thickener := 2, ExpandedPearlite := 3];
      && BomItemsAsWritten("PROD-009", bySku)[4].material == None
      && BomItemsAsWritten("PROD-009", bySku)[5].material == None
      && BomItemsCorrected("PROD-009", bySku) == []
    ensures var bySku := map[Cement := 0, FlameRetardant := 1, Thickener := 2];
      && BomItemsAsWritten("PROD-010", bySku)[3].material == None
      && BomItemsAsWritten("PROD-010", bySku)[4].material == None
      && BomItemsAsWritten("PROD-010", bySku)[5].material == None
      && BomItemsCorrected("PROD-010", bySku) == []
  {
    var bySku := map[Cement := 0, FlameRetardant := 1, Thickener := 2, ExpandedPearlite := 3];
    assert MaterialSkus(Recipe("PROD-009"))[4] !in bySku;
    var bySku2 := map[Cement := 0, FlameRetardant := 1, Thickener := 2];
    assert MaterialSkus(Recipe("PROD-010"))[3] !in bySku2;
  }

  // ---------------------------------------------------------------------
  // Command.handle

  /** Some BOM row names `product` (BOM.objects.filter(product=...).exists()). */
  predicate HasBom(boms: seq<BomLine>, product: ProductId)
  {
    exists k :: 0 <= k < |boms| && boms[k].product == product
  }

  /** The rows BOM.objects.create makes for `product` from `items`, in order. */
  function RowsOf(product: ProductId, items: seq<BomItem>): (r: seq<BomLine>)
    requires forall k :: 0 <= k < |items| ==> items[k].material.Some?
    ensures |r| == |items|
    ensures forall k :: 0 <= k < |r| ==>
      r[k] == BomLine(product, items[k].material.value, items[k].quantity, items[k].unit)
  {
    seq(|items|, k requires 0 <= k < |items| =>
      BomLine(product, items[k].material.value, items[k].quantity, items[k].unit))
  }

  /** The corrected items of one SKU name distinct materials, all of them
      rows of the material table. */
  lemma CorrectedMaterialsDistinct(sku: string, materials: seq<Material>)
    ensures var items := BomItemsCorrected(sku, MaterialsBySku(materials));
      && (forall k :: 0 <= k < |items| ==> items[k].material.value < |materials|)
      && (forall i, j :: 0 <= i < j < |items| ==> items[i].material != items[j].material)
  {
    var bySku := MaterialsBySku(materials);
    var items := BomItemsCorrected(sku, bySku);
    var recipe := Recipe(sku);
    if items != [] {
      forall i, j | 0 <= i < j < |items| ensures items[i].material != items[j].material {
        assert materials[items[i].material.value].sku == recipe[i].materialSku;
        assert materials[items[j].material.value].sku == recipe[j].materialSku;
      }
    }
  }

  /** The rows the command creates for product `p`: none when it already
      has a BOM, otherwise its corrected recipe. */
  function ProductRows(boms: seq<BomLine>, products: seq<Product>, bySku: map<string, MaterialId>, p: ProductId): (r: seq<BomLine>)
    requires p < |products|
    ensures forall k :: 0 <= k < |r| ==> r[k].product == p
  {
    if HasBom(boms, p) then [] else RowsOf(p, BomItemsCorrected(products[p].sku, bySku))
  }

  /** The rows planned for each product, by product id. */
  function Plan(boms: seq<BomLine>, products: seq<Product>, bySku: map<string, MaterialId>): (r: seq<seq<BomLine>>)
    ensures |r| == |products|
    ensures forall q :: 0 <= q < |r| ==> r[q] == ProductRows(boms, products, bySku, q)
  {
    seq(|products|, q requires 0 <= q < |products| => ProductRows(boms, products, bySku, q))
  }

  /** Each product's planned rows name that product. */
  ghost predicate RowsOwned(rows: seq<seq<BomLine>>)
  {
    forall q, k :: 0 <= q < |rows| && 0 <= k < |rows[q]| ==> rows[q][k].product == q
  }

  /** The planned rows of the first products, in product order. */
  function Flatten(rows: seq<seq<BomLine>>): seq<BomLine>
  {
    if rows == [] then [] else Flatten(rows[..|rows| - 1]) + rows[|rows| - 1]
  }

  /** How many of the first `n` products already had a BOM (skipped_count). */
  function Skips(boms: seq<BomLine>, n: nat): nat
  {
    if n == 0 then 0 else Skips(boms, n - 1) + (if HasBom(boms, n - 1) then 1 else 0)
  }

  /** How many of the first `n` products got a BOM (updated_count). */
  function Fills(boms: seq<BomLine>, products: seq<Product>, bySku: map<string, MaterialId>, n: nat): nat
    requires n <= |products|
  {
    if n == 0 then 0
    else
      Fills(boms, products, bySku, n - 1) +
      (if !HasBom(boms, n - 1) && BomItemsCorrected(products[n - 1].sku, bySku) != [] then 1 else 0)
  }

  lemma {:induction false} BomOfAppend(a: seq<BomLine>, b: seq<BomLine>, product: ProductId)
    ensures BomOf(a + b, product) == BomOf(a, product) + BomOf(b, product)
  {
    if a == [] {
      assert a + b == b;
    } else {
      var ab := a + b;
      var head := if a[0].product == product then [a[0]] else [];
      assert ab[0] == a[0] && ab[1..] == a[1..] + b;
      BomOfAppend(a[1..], b, product);
      assert BomOf(ab, product) == head + (BomOf(a[1..], product) + BomOf(b, product));
      assert BomOf(a, product) == head + BomOf(a[1..], product);
    }
  }

  lemma {:induction false} BomOfOthers(boms: seq<BomLine>, product: ProductId)
    requires forall k :: 0 <= k < |boms| ==> boms[k].product != product
    ensures BomOf(boms, product) == []
  {
    if boms != [] {
      BomOfOthers(boms[1..], product);
    }
  }

  lemma {:induction false} BomOfOwn(boms: seq<BomLine>, product: ProductId)
    requires forall k :: 0 <= k < |boms| ==> boms[k].product == product
    ensures BomOf(boms, product) == boms
  {
    if boms != [] {
      BomOfOwn(boms[1..], product);
    }
  }

  lemma {:induction false} FlattenOwned(rows: seq<seq<BomLine>>, p: ProductId)
    requires RowsOwned(rows) && |rows| <= p
    ensures BomOf(Flatten(rows), p) == []
  {
    if rows != [] {
      var n := |rows| - 1;
      assert RowsOwned(rows[..n]);
      FlattenOwned(rows[..n], p);
      BomOfAppend(Flatten(rows[..n]), rows[n], p);
      BomOfOthers(rows[n], p);
    }
  }

  /** Appending the planned rows leaves product `p` with its old rows
      followed by the rows planned for it. */
  lemma {:induction false} FlattenBom(boms: seq<BomLine>, rows: seq<seq<BomLine>>, p: ProductId)
    requires RowsOwned(rows) && p < |rows|
    ensures BomOf(boms + Flatten(rows), p) == BomOf(boms, p) + rows[p]
  {
    var n := |rows| - 1;
    var prior := Flatten(rows[..n]);
    assert boms + Flatten(rows) == (boms + prior) + rows[n];
    assert RowsOwned(rows[..n]);
    BomOfAppend(boms + prior, rows[n], p);
    if p == n {
      FlattenOwned(rows[..n], p);
      BomOfAppend(boms, prior, p);
      BomOfOwn(rows[n], p);
      assert BomOf(boms + prior, p) == BomOf(boms, p) + [];
    } else {
      FlattenBom(boms, rows[..n], p);
      BomOfOthers(rows[n], p);
      assert rows[..n][p] == rows[p];
      assert BomOf(boms + Flatten(rows), p) == BomOf(boms + prior, p) + [];
    }
  }

  /** After the command, a product that had a BOM keeps exactly its rows,
      and any other product's BOM is exactly its corrected recipe. */
  lemma HandleBoms(boms: seq<BomLine>, products: seq<Product>, bySku: map<string, MaterialId>, p: ProductId)
    requires p < |products|
    ensures var after := boms + Flatten(Plan(boms, products, bySku));
      && (HasBom(boms, p) ==> BomOf(after, p) == BomOf(boms, p))
      && (!HasBom(boms, p) ==> BomOf(after, p) == RowsOf(p, BomItemsCorrected(products[p].sku, bySku)))
  {
    var plan := Plan(boms, products, bySku);
    assert RowsOwned(plan);
    FlattenBom(boms, plan, p);
    if !HasBom(boms, p) {
      BomOfOthers(boms, p);
    }
  }

  lemma {:induction false} FlattenBelow(rows: seq<seq<BomLine>>)
    requires RowsOwned(rows)
    ensures forall k :: 0 <= k < |Flatten(rows)| ==> Flatten(rows)[k].product < |rows|
  {
    if rows != [] {
      var n := |rows| - 1;
      assert RowsOwned(rows[..n]);
      FlattenBelow(rows[..n]);
      var prior := Flatten(rows[..n]);
      assert Flatten(rows) == prior + rows[n];
      forall k | 0 <= k < |Flatten(rows)| ensures Flatten(rows)[k].product < |rows| {
        if k >= |prior| {
          assert Flatten(rows)[k] == rows[n][k - |prior|];
        }
      }
    }
  }

  lemma HasBomAppendOthers(boms: seq<BomLine>, extra: seq<BomLine>, p: ProductId)
    requires forall k :: 0 <= k < |extra| ==> extra[k].product < p
    ensures HasBom(boms + extra, p) == HasBom(boms, p)
  {
    forall k | |boms| <= k < |boms + extra| ensures (boms + extra)[k].product != p {
      assert (boms + extra)[k] == extra[k - |boms|];
    }
    if HasBom(boms + extra, p) {
      var k :| 0 <= k < |boms + extra| && (boms + extra)[k].product == p;
      assert (boms + extra)[k] == boms[k];
    }
    if HasBom(boms, p) {
      var k :| 0 <= k < |boms| && boms[k].product == p;
      assert (boms + extra)[k] == boms[k];
    }
  }

  /** Rows for one product that has none yet, with distinct materials and
      valid quantities, keep the BOM table's rules. */
  lemma AppendRowsValid(boms: seq<BomLine>, rows: seq<BomLine>, product: ProductId)
    requires BomTableValid(boms) && !HasBom(boms, product)
    requires forall k :: 0 <= k < |rows| ==> rows[k].product == product && rows[k].quantity >= MinBomQuantity
    requires forall i, j :: 0 <= i < j < |rows| ==> rows[i].material != rows[j].material
    ensures BomTableValid(boms + rows)
  {
    var all := boms + rows;
    assert forall k :: 0 <= k < |boms| ==> all[k] == boms[k] && all[k].product != product;
    assert forall k :: |boms| <= k < |all| ==> all[k] == rows[k - |boms|];
  }

  /** The inner loop: one BOM.objects.create per item, counted. */
  method CreateRows(catalog: Catalog, product: ProductId, items: seq<BomItem>) returns (created: nat)
    requires catalog.Valid() && product < |catalog.products| && !HasBom(catalog.boms, product)
    requires forall k :: 0 <= k < |items| ==>
      items[k].material.Some? && items[k].material.value < |catalog.materials| && items[k].quantity >= MinBomQuantity
    requires forall i, j :: 0 <= i < j < |items| ==> items[i].material != items[j].material
    modifies catalog`boms
    ensures catalog.Valid()
    ensures catalog.boms == old(catalog.boms) + RowsOf(product, items)
    ensures created == |items|
  {
    var rows := RowsOf(product, items);
    ghost var start := catalog.boms;
    created := 0;
    var j := 0;
    while j < |items|
      invariant 0 <= j <= |items| && created == j
      invariant catalog.boms == start + rows[..j]
    {
      var item := items[j];
      catalog.boms := catalog.boms + [BomLine(product, item.material.value, item.quantity, item.unit)];
      assert rows[..j + 1] == rows[..j] + [rows[j]];
      created := created + 1;
      j := j + 1;
    }
    assert rows[..j] == rows;
    AppendRowsValid(start, rows, product);
    assert forall l :: l in rows ==> l.product < |catalog.products| && l.material < |catalog.materials|;
  }

  /** What the loop knows before product `i`: the rows added so far name
      earlier products only, so the product's BOM check sees the table it
      started from, and the plan grows by that product's rows. */
  lemma PlanStep(
    start: seq<BomLine>, products: seq<Product>, bySku: map<string, MaterialId>, i: nat, boms: seq<BomLine>)
    requires i < |products|
    requires boms == start + Flatten(Plan(start, products, bySku)[..i])
    ensures HasBom(boms, i) == HasBom(start, i)
    ensures Flatten(Plan(start, products, bySku)[..i + 1]) ==
      Flatten(Plan(start, products, bySku)[..i]) + ProductRows(start, products, bySku, i)
  {
    var plan := Plan(start, products, bySku);
    assert RowsOwned(plan[..i]);
    FlattenBelow(plan[..i]);
    HasBomAppendOthers(start, Flatten(plan[..i]), i);
    assert plan[..i + 1][..i] == plan[..i];
  }

  /** One pass of the product loop: skip a product with a BOM, otherwise
      create the rows of its corrected recipe. */
  method HandleProduct(catalog: Catalog, ghost start: seq<BomLine>, bySku: map<string, MaterialId>, i: nat)
    returns (skip: bool, created: nat, filled: bool)
    requires catalog.Valid() && i < |catalog.products| && bySku == MaterialsBySku(catalog.materials)
    requires HasBom(catalog.boms, i) == HasBom(start, i)
    modifies catalog`boms
    ensures catalog.Valid()
    ensures catalog.boms == old(catalog.boms) + ProductRows(start, catalog.products, bySku, i)
    ensures skip == HasBom(start, i)
    ensures filled == (!HasBom(start, i) && BomItemsCorrected(catalog.products[i].sku, bySku) != [])
    ensures created == |catalog.boms| - |old(catalog.boms)|
  {
    skip, created, filled := false, 0, false;
    if HasBom(catalog.boms, i) {
      skip := true;
    } else {
      var items := BomItemsCorrected(catalog.products[i].sku, bySku);
      if items != [] {
        CorrectedMaterialsDistinct(catalog.products[i].sku, catalog.materials);
        created := CreateRows(catalog, i, items);
        filled := true;
      }
    }
  }

  /** The loop body of Command.handle with its counters: from the state
      after the first `i` products to the state after `i + 1`. */
  method HandleStep(
    catalog: Catalog, ghost start: seq<BomLine>, bySku: map<string, MaterialId>, i: nat,
    created: nat, skipped: nat, updated: nat)
    returns (created': nat, skipped': nat, updated': nat)
    requires catalog.Valid() && i < |catalog.products| && bySku == MaterialsBySku(catalog.materials)
    requires catalog.boms == start + Flatten(Plan(start, catalog.products, bySku)[..i])
    requires created == |catalog.boms| - |start|
    requires skipped == Skips(start, i) && updated == Fills(start, catalog.products, bySku, i)
    modifies catalog`boms
    ensures catalog.Valid()
    ensures catalog.boms == start + Flatten(Plan(start, catalog.products, bySku)[..i + 1])
    ensures created' == |catalog.boms| - |start|
    ensures skipped' == Skips(start, i + 1) && updated' == Fills(start, catalog.products, bySku, i + 1)
  {
    ghost var plan := Plan(start, catalog.products, bySku);
    PlanStep(start, catalog.products, bySku, i, catalog.boms);
    ghost var before := catalog.boms;
    var skip, n, filled := HandleProduct(catalog, start, bySku, i);
    created', skipped', updated' := created + n, skipped, updated;
    if skip {
      skipped' := skipped + 1;
    }
    if filled {
      updated' := updated + 1;
    }
    AppendAssoc(start, Flatten(plan[..i]), plan[i]);
  }

  /** Command.handle, with the corrected recipe guard (BomItemsCorrected):
      inside one transaction, every product without a BOM row gets the rows
      of its recipe when all of the recipe's materials exist; products with
      a BOM are skipped. Where the guard as written lets a missing material
      through, the source's create(material=None) fails and the whole
      transaction rolls back instead (see GuardLetsMissingMaterialThrough).
      The counters report the rows created, the products skipped and the
      products given a BOM. */
  method Handle(catalog: Catalog) returns (created: nat, skipped: nat, updated: nat)
    requires catalog.Valid()
    modifies catalog`boms
    ensures catalog.Valid()
    ensures catalog.boms ==
      old(catalog.boms) + Flatten(Plan(old(catalog.boms), catalog.products, MaterialsBySku(catalog.materials)))
    ensures created == |catalog.boms| - |old(catalog.boms)|
    ensures skipped == Skips(old(catalog.boms), |catalog.products|)
    ensures updated == Fills(old(catalog.boms), catalog.products, MaterialsBySku(catalog.materials), |catalog.products|)
  {
    var bySku := IndexMaterials(catalog.materials);
    ghost var start := catalog.boms;
    ghost var plan := Plan(start, catalog.products, bySku);
    created, skipped, updated := 0, 0, 0;
    var i := 0;
    while i < |catalog.products|
      invariant 0 <= i <= |catalog.products|
      invariant catalog.Valid()
      invariant catalog.boms == start + Flatten(plan[..i])
      invariant created == |catalog.boms| - |start|
      invariant skipped == Skips(start, i)
      invariant updated == Fills(start, catalog.products, bySku, i)
    {
      created, skipped, updated := HandleStep(catalog, start, bySku, i, created, skipped, updated);
      i := i + 1;
    }
    assert plan[..i] == plan;
  }
}

/** The inventory app's tables: the product and material catalog with its
    bills of materials, the Inventory rows with their batches, and the
    append-only stock transaction log. Quantities and prices are Django
    Decimals, modelled as exact reals. */
module InventoryModels {
  import opened Common

  type ProductId = nat
  type MaterialId = nat

  datatype Product = Product(
    sku: string, name: string, unitPrice: real, salePrice: real, safetyStock: real, unit: string)

  datatype Material = Material(
    sku: string, name: string, unitPrice: real, safetyStock: real, unit: string)

  /** One BOM row: `quantity` of `material` goes into one unit of `product`. */
  datatype BomLine = BomLine(product: ProductId, material: MaterialId, quantity: real, unit: string)

  /** MinValueValidator(0.0001) on BOM.quantity. */
  const MinBomQuantity: real := 0.0001

  /** The BOM table's declared rules: the quantity validator, and
      unique_together on (product, material). */
  ghost predicate BomTableValid(boms: seq<BomLine>)
  {
    && (forall i :: 0 <= i < |boms| ==> boms[i].quantity >= MinBomQuantity)
    && (forall i, j :: 0 <= i < j < |boms| && boms[i].product == boms[j].product ==>
          boms[i].material != boms[j].material)
  }

  /** BOM.objects.filter(product=product), in table order. */
  function BomOf(boms: seq<BomLine>, product: ProductId): (r: seq<BomLine>)
    ensures |r| <= |boms|
  {
    if boms == [] then []
    else (if boms[0].product == product then [boms[0]] else []) + BomOf(boms[1..], product)
  }

  /** BomOf keeps exactly the rows of the table that name `product`. */
  lemma {:induction false} BomOfMembers(boms: seq<BomLine>, product: ProductId)
    ensures forall l :: l in BomOf(boms, product) <==> l in boms && l.product == product
  {
    if boms != [] {
      BomOfMembers(boms[1..], product);
      assert boms == [boms[0]] + boms[1..];
    }
  }

  /** By the (product, material) uniqueness, one product's BOM names each
      material at most once. */
  lemma {:induction false} BomOfDistinctMaterials(boms: seq<BomLine>, product: ProductId)
    requires BomTableValid(boms)
    ensures forall i, j :: 0 <= i < j < |BomOf(boms, product)| ==>
      BomOf(boms, product)[i].material != BomOf(boms, product)[j].material
  {
    if boms != [] {
      var tail := boms[1..];
      assert BomTableValid(tail) by {
        forall i, j | 0 <= i < j < |tail| && tail[i].product == tail[j].product
          ensures tail[i].material != tail[j].material
        {
          assert tail[i] == boms[i + 1] && tail[j] == boms[j + 1];
        }
      }
      BomOfDistinctMaterials(tail, product);
      BomOfMembers(tail, product);
      var rest := BomOf(tail, product);
      if boms[0].product == product {
        forall j | 0 <= j < |rest| ensures rest[j].material != boms[0].material {
          assert rest[j] in rest;
          var k :| 0 <= k < |tail| && tail[k] == rest[j];
          assert boms[k + 1] == rest[j];
        }
        assert BomOf(boms, product) == [boms[0]] + rest;
      } else {
        assert BomOf(boms, product) == rest;
      }
    }
  }

  /** The product and material tables and the BOM table. */
  class Catalog {
    var products: seq<Product>
    var materials: seq<Material>
    var boms: seq<BomLine>

    /** Foreign keys resolve, material SKUs are unique (Material.sku is
        unique=True) and the BOM rules hold. */
    ghost predicate Valid()
      reads this
    {
      && (forall l :: l in boms ==> l.product < |products| && l.material < |materials|)
      && (forall i, j :: 0 <= i < j < |materials| ==> materials[i].sku != materials[j].sku)
      && BomTableValid(boms)
    }

    constructor (products: seq<Product>, materials: seq<Material>, boms: seq<BomLine>)
      ensures this.products == products && this.materials == materials && this.boms == boms
    {
      this.products := products;
      this.materials := materials;
      this.boms := boms;
    }
  }

  // ---------------------------------------------------------------------
  // Inventory rows

  datatype InventoryType = ProductStock | MaterialStock | OtherStock

  /** One Inventory row; `product` and `material` are nullable foreign keys. */
  datatype Inventory = Inventory(
    inventoryType: InventoryType, product: Option<ProductId>, material: Option<MaterialId>,
    otherName: string, quantity: real, unit: string)

  /** The object get_item() hands back. */
  datatype Item = ProductItem(product: Product) | MaterialItem(material: Material)

  /** Foreign-key integrity of a row against the catalog tables. */
  ghost predicate LinksResolve(inv: Inventory, products: seq<Product>, materials: seq<Material>)
  {
    && (inv.product.Some? ==> inv.product.value < |products|)
    && (inv.material.Some? ==> inv.material.value < |materials|)
  }

  /** Inventory.get_item: the catalog row that the row's unique-constraint
      key names; an `other` row, or a product or material row with a null
      link, has no item. */
  function GetItem(inv: Inventory, products: seq<Product>, materials: seq<Material>): (r: Option<Item>)
    requires LinksResolve(inv, products, materials)
    ensures r.Some? <==> KeyOf(inv).Some? && !KeyOf(inv).value.OtherKey?
    ensures r.Some? && r.value.ProductItem? ==>
      KeyOf(inv).value.ProductKey? && r.value.product == products[KeyOf(inv).value.product]
    ensures r.Some? && r.value.MaterialItem? ==>
      KeyOf(inv).value.MaterialKey? && r.value.material == materials[KeyOf(inv).value.material]
  {
    match inv.inventoryType
    case ProductStock => if inv.product.Some? then Some(ProductItem(products[inv.product.value])) else None
    case MaterialStock => if inv.material.Some? then Some(MaterialItem(materials[inv.material.value])) else None
    case OtherStock => None
  }

  /** Inventory.check_safety_stock: below the linked item's safety stock. */
  function CheckSafetyStock(inv: Inventory, products: seq<Product>, materials: seq<Material>): (r: bool)
    requires LinksResolve(inv, products, materials)
    ensures inv.inventoryType == OtherStock ==> !r
    ensures r <==>
      || (inv.inventoryType == ProductStock && inv.product.Some?
          && inv.quantity < products[inv.product.value].safetyStock)
      || (inv.inventoryType == MaterialStock && inv.material.Some?
          && inv.quantity < materials[inv.material.value].safetyStock)
  {
    match GetItem(inv, products, materials)
    case Some(ProductItem(p)) => inv.quantity < p.safetyStock
    case Some(MaterialItem(m)) => inv.quantity < m.safetyStock
    case None => false
  }

  /** Inventory.get_unit_price (`unit_price or 0` is unit_price: the column is not nullable). */
  function GetUnitPrice(inv: Inventory, products: seq<Product>, materials: seq<Material>): (r: real)
    requires LinksResolve(inv, products, materials)
    ensures GetItem(inv, products, materials) == None ==> r == 0.0
    ensures inv.inventoryType == ProductStock && inv.product.Some? ==>
      r == products[inv.product.value].unitPrice
    ensures inv.inventoryType == MaterialStock && inv.material.Some? ==>
      r == materials[inv.material.value].unitPrice
  {
    if inv.inventoryType == ProductStock && inv.product.Some? then products[inv.product.value].unitPrice
    else if inv.inventoryType == MaterialStock && inv.material.Some? then materials[inv.material.value].unitPrice
    else 0.0
  }

  /** Inventory.get_total_value, computed exactly (the final float cast is left out). */
  function GetTotalValue(inv: Inventory, products: seq<Product>, materials: seq<Material>): (r: real)
    requires LinksResolve(inv, products, materials)
    ensures GetItem(inv, products, materials) == None ==> r == 0.0
    ensures inv.inventoryType == OtherStock ==> r == 0.0
    ensures inv.inventoryType == MaterialStock && inv.material.Some? ==>
      r == materials[inv.material.value].unitPrice * inv.quantity
    ensures inv.inventoryType == ProductStock && inv.product.Some? ==>
      r == products[inv.product.value].unitPrice * inv.quantity
  {
    GetUnitPrice(inv, products, materials) * inv.quantity
  }

  // ---------------------------------------------------------------------
  // The unique constraints of the Inventory table

  /** Which key a row gets under the table's three conditional unique
      constraints; None for rows no constraint covers (a null product or
      material, or an `other` row with an empty name). */
  datatype ItemKey = ProductKey(product: ProductId) | MaterialKey(material: MaterialId) | OtherKey(name: string)

  function KeyOf(inv: Inventory): Option<ItemKey>
  {
    match inv.inventoryType
    case ProductStock => if inv.product.Some? then Some(ProductKey(inv.product.value)) else None
    case MaterialStock => if inv.material.Some? then Some(MaterialKey(inv.material.value)) else None
    case OtherStock => if inv.otherName != "" then Some(OtherKey(inv.otherName)) else None
  }

  /** unique_product_inventory, unique_material_inventory and unique_other_inventory. */
  ghost predicate UniqueConstraints(rows: seq<Inventory>)
  {
    forall i, j :: 0 <= i < j < |rows| && KeyOf(rows[i]).Some? ==> KeyOf(rows[i]) != KeyOf(rows[j])
  }

  /** The keyed rows of an Inventory table as a map from key to quantity:
      the form in which the ledger below keeps the table. */
  function StockOf(rows: seq<Inventory>): map<ItemKey, real>
  {
    if rows == [] then map[]
    else
      var m := StockOf(rows[..|rows| - 1]);
      var last := rows[|rows| - 1];
      if KeyOf(last).Some? then m[KeyOf(last).value := last.quantity] else m
  }

  /** The keys of the map are exactly the keys of the keyed rows. */
  lemma {:induction false} StockOfKeys(rows: seq<Inventory>)
    ensures forall k :: k in StockOf(rows) <==> exists i :: 0 <= i < |rows| && KeyOf(rows[i]) == Some(k)
  {
    if rows != [] {
      var init := rows[..|rows| - 1];
      var n := |rows| - 1;
      StockOfKeys(init);
      forall k ensures k in StockOf(rows) <==> exists i :: 0 <= i < |rows| && KeyOf(rows[i]) == Some(k) {
        if k in StockOf(init) {
          var i :| 0 <= i < |init| && KeyOf(init[i]) == Some(k);
          assert rows[i] == init[i];
        }
        if exists i :: 0 <= i < |rows| && KeyOf(rows[i]) == Some(k) {
          var i :| 0 <= i < |rows| && KeyOf(rows[i]) == Some(k);
          if i < n {
            assert init[i] == rows[i];
          }
        }
      }
    }
  }

  /** Under the unique constraints the map loses no row: every keyed row
      is found under its key with its own quantity. */
  lemma {:induction false} StockOfKeepsEveryRow(rows: seq<Inventory>)
    requires UniqueConstraints(rows)
    ensures forall i :: 0 <= i < |rows| && KeyOf(rows[i]).Some? ==>
      KeyOf(rows[i]).value in StockOf(rows) && StockOf(rows)[KeyOf(rows[i]).value] == rows[i].quantity
  {
    if rows != [] {
      var init := rows[..|rows| - 1];
      var n := |rows| - 1;
      assert UniqueConstraints(init) by {
        forall i, j | 0 <= i < j < |init| && KeyOf(init[i]).Some?
          ensures KeyOf(init[i]) != KeyOf(init[j])
        {
          assert init[i] == rows[i] && init[j] == rows[j];
        }
      }
      StockOfKeepsEveryRow(init);
      forall i | 0 <= i < |rows| && KeyOf(rows[i]).Some?
        ensures KeyOf(rows[i]).value in StockOf(rows) && StockOf(rows)[KeyOf(rows[i]).value] == rows[i].quantity
      {
        if i < n {
          assert init[i] == rows[i];
          assert KeyOf(rows[i]) != KeyOf(rows[n]);
        }
      }
    }
  }

  // ---------------------------------------------------------------------
  // Batches

  /** One Batch row; dates are day numbers, `createdAt` a timestamp. */
  datatype Batch = Batch(
    batchNo: string, inventory: ItemKey, batchDate: int, createdAt: int,
    quantity: real, unitPrice: Option<real>, expiryDate: Option<int>)

  /** Batch.is_expired, with today's date passed in. */
  function IsExpired(b: Batch, today: int): (r: bool)
    ensures b.expiryDate == None ==> !r
    ensures b.expiryDate.Some? ==> (r <==> b.expiryDate.value < today)
  {
    match b.expiryDate
    case Some(d) => today > d
    case None => false
  }

  /** Once a batch has expired it stays expired on every later day, and a
      batch without an expiry date never expires. */
  lemma ExpiredStaysExpired(b: Batch, today: int, later: int)
    requires today <= later
    ensures IsExpired(b, today) ==> IsExpired(b, later)
    ensures b.expiryDate == None ==> !IsExpired(b, later)
  {
  }

  /** The (batch_date, created_at) order of Batch.Meta.ordering and get_batches. */
  predicate BatchPrecedes(a: Batch, b: Batch)
  {
    a.batchDate < b.batchDate || (a.batchDate == b.batchDate && a.createdAt <= b.createdAt)
  }

  predicate InBatchOrder(s: seq<Batch>)
  {
    forall i, j :: 0 <= i < j < |s| ==> BatchPrecedes(s[i], s[j])
  }

  /** A batch that precedes every batch of an ordered sequence can head it. */
  lemma ConsInOrder(x: Batch, t: seq<Batch>)
    requires InBatchOrder(t)
    requires forall k :: 0 <= k < |t| ==> BatchPrecedes(x, t[k])
    ensures InBatchOrder([x] + t)
  {
    forall i, j | 0 <= i < j < |[x] + t| ensures BatchPrecedes(([x] + t)[i], ([x] + t)[j]) {
      if i > 0 {
        assert ([x] + t)[i] == t[i - 1];
      }
      assert ([x] + t)[j] == t[j - 1];
    }
  }

  function InsertBatch(b: Batch, s: seq<Batch>): (r: seq<Batch>)
    requires InBatchOrder(s)
    ensures InBatchOrder(r)
    ensures multiset(r) == multiset(s) + multiset{b}
  {
    if s == [] then [b]
    else if BatchPrecedes(b, s[0]) then
      assert forall k :: 0 <= k < |s| ==> BatchPrecedes(b, s[k]) by {
        forall k | 0 <= k < |s| ensures BatchPrecedes(b, s[k]) {
          if k > 0 {
            assert BatchPrecedes(s[0], s[k]);
          }
        }
      }
      ConsInOrder(b, s);
      [b] + s
    else
      var t := InsertBatch(b, s[1..]);
      assert s == [s[0]] + s[1..];
      assert forall k :: 0 <= k < |t| ==> BatchPrecedes(s[0], t[k]) by {
        forall k | 0 <= k < |t| ensures BatchPrecedes(s[0], t[k]) {
          assert t[k] in multiset(t);
          if t[k] != b {
            assert t[k] in multiset(s[1..]);
            var m :| 0 <= m < |s[1..]| && s[1..][m] == t[k];
            assert s[m + 1] == t[k];
          }
        }
      }
      ConsInOrder(s[0], t);
      [s[0]] + t
  }

  function SortBatches(s: seq<Batch>): (r: seq<Batch>)
    ensures InBatchOrder(r)
    ensures multiset(r) == multiset(s)
  {
    if s == [] then []
    else
      assert s == [s[0]] + s[1..];
      InsertBatch(s[0], SortBatches(s[1..]))
  }

  /** Batch.objects.filter(inventory=key), in table order. */
  function BatchesOf(batches: seq<Batch>, key: ItemKey): (r: seq<Batch>)
    ensures forall b :: b in r <==> b in batches && b.inventory == key
  {
    if batches == [] then []
    else
      assert batches == [batches[0]] + batches[1..];
      (if batches[0].inventory == key then [batches[0]] else []) + BatchesOf(batches[1..], key)
  }

  /** Inventory.get_batches: this inventory's batches, oldest first. */
  function GetBatches(batches: seq<Batch>, key: ItemKey): (r: seq<Batch>)
    ensures InBatchOrder(r)
    ensures multiset(r) == multiset(BatchesOf(batches, key))
    ensures forall b :: b in r <==> b in batches && b.inventory == key
  {
    var r := SortBatches(BatchesOf(batches, key));
    assert forall b :: b in r <==> b in multiset(r);
    r
  }

  /** Sum('quantity') over some batches, with 0 for none (`... or 0`). */
  function TotalQuantity(s: seq<Batch>): real
  {
    if s == [] then 0.0 else TotalQuantity(s[..|s| - 1]) + s[|s| - 1].quantity
  }

  lemma {:induction false} TotalQuantityAppend(a: seq<Batch>, b: seq<Batch>)
    ensures TotalQuantity(a + b) == TotalQuantity(a) + TotalQuantity(b)
  {
    if b != [] {
      assert (a + b)[..|a + b| - 1] == a + b[..|b| - 1];
      TotalQuantityAppend(a, b[..|b| - 1]);
    } else {
      assert a + b == a;
    }
  }

  /** The sum does not depend on the order the batches come in. */
  lemma {:induction false} TotalQuantityPermutation(a: seq<Batch>, b: seq<Batch>)
    requires multiset(a) == multiset(b)
    ensures TotalQuantity(a) == TotalQuantity(b)
  {
    if a == [] {
      assert |b| == |multiset(b)| == 0;
    } else {
      var x := a[|a| - 1];
      var a' := a[..|a| - 1];
      assert a == a' + [x];
      assert x in multiset(b);
      var i :| 0 <= i < |b| && b[i] == x;
      var front, back := b[..i], b[i + 1..];
      var b' := front + back;
      assert b == front + [x] + back;
      assert multiset(b') == multiset(b) - multiset{x};
      assert multiset(a') == multiset(a) - multiset{x};
      TotalQuantityPermutation(a', b');
      TotalQuantityAppend(front + [x], back);
      TotalQuantityAppend(front, [x]);
      TotalQuantityAppend(front, back);
      assert [x][..0] == [];
      assert TotalQuantity([x]) == x.quantity;
      assert TotalQuantity(a) == TotalQuantity(a') + x.quantity;
      assert TotalQuantity(b) == TotalQuantity(front) + x.quantity + TotalQuantity(back);
    }
  }

  // ---------------------------------------------------------------------
  // The stock ledger

  datatype TransactionType = SaleOut | ProductionOut | ProductionIn | PurchaseIn | Adjustment

  /** The document a stock transaction's reference_no points back to. */
  datatype Reference =
    | RequisitionRef(requisition: nat)
    | ShipmentRef(shipment: nat)
    | InboundRef(inbound: nat)
    | PurchaseTaskRef(task: nat)

  datatype StockTransaction = StockTransaction(
    transactionType: TransactionType, inventory: ItemKey, quantity: real, reference: Reference)

  /** A quantity to move in or out of one inventory row. */
  datatype StockLine = StockLine(inventory: ItemKey, quantity: real)

  /** Quantity on hand, 0 when the row does not exist (the views' DoesNotExist fallback). */
  function Available(stock: map<ItemKey, real>, key: ItemKey): real
  {
    if key in stock then stock[key] else 0.0
  }

  /** The summed quantity of the lines that name `key`. */
  function QuantityFor(lines: seq<StockLine>, key: ItemKey): real
  {
    if lines == [] then 0.0
    else
      var last := lines[|lines| - 1];
      QuantityFor(lines[..|lines| - 1], key) + (if last.inventory == key then last.quantity else 0.0)
  }

  predicate RowsExist(stock: map<ItemKey, real>, lines: seq<StockLine>)
  {
    forall l :: l in lines ==> l.inventory in stock
  }

  /** The stock after `inventory.quantity -= q; inventory.save()` for each line in turn. */
  function Deducted(stock: map<ItemKey, real>, lines: seq<StockLine>): (r: map<ItemKey, real>)
    requires RowsExist(stock, lines)
    ensures r.Keys == stock.Keys
  {
    if lines == [] then stock
    else
      var init := lines[..|lines| - 1];
      var last := lines[|lines| - 1];
      assert last in lines;
      var s := Deducted(stock, init);
      s[last.inventory := s[last.inventory] - last.quantity]
  }

  /** The stock after `get_or_create(..., defaults={'quantity': 0})` and
      `inventory.quantity += q` for each line in turn. */
  function Added(stock: map<ItemKey, real>, lines: seq<StockLine>): map<ItemKey, real>
  {
    if lines == [] then stock
    else
      var s := Added(stock, lines[..|lines| - 1]);
      var last := lines[|lines| - 1];
      s[last.inventory := Available(s, last.inventory) + last.quantity]
  }

  /** Deducting lines takes from every row exactly the summed quantity of
      the lines naming it, and creates or drops no row. */
  lemma {:induction false} DeductedNet(stock: map<ItemKey, real>, lines: seq<StockLine>)
    requires RowsExist(stock, lines)
    ensures forall k :: k in stock ==> Deducted(stock, lines)[k] == stock[k] - QuantityFor(lines, k)
  {
    if lines != [] {
      DeductedNet(stock, lines[..|lines| - 1]);
    }
  }

  lemma {:induction false} QuantityForUnnamed(lines: seq<StockLine>, key: ItemKey)
    requires forall l :: l in lines ==> l.inventory != key
    ensures QuantityFor(lines, key) == 0.0
  {
    if lines != [] {
      QuantityForUnnamed(lines[..|lines| - 1], key);
    }
  }

  /** Adding lines creates exactly the rows the lines name and were missing. */
  lemma {:induction false} AddedKeys(stock: map<ItemKey, real>, lines: seq<StockLine>)
    ensures Added(stock, lines).Keys == stock.Keys + set l | l in lines :: l.inventory
  {
    if lines != [] {
      var init := lines[..|lines| - 1];
      var last := lines[|lines| - 1];
      AddedKeys(stock, init);
      assert lines == init + [last];
      assert (set l | l in lines :: l.inventory) == (set l | l in init :: l.inventory) + {last.inventory};
    }
  }

  /** Adding lines gives every row exactly the summed quantity of the lines
      naming it, creating at 0 the rows that were missing. */
  lemma {:induction false} AddedNet(stock: map<ItemKey, real>, lines: seq<StockLine>)
    ensures Added(stock, lines).Keys == stock.Keys + set l | l in lines :: l.inventory
    ensures forall k :: k in Added(stock, lines) ==>
      Added(stock, lines)[k] == Available(stock, k) + QuantityFor(lines, k)
  {
    AddedKeys(stock, lines);
    if lines != [] {
      var init := lines[..|lines| - 1];
      var last := lines[|lines| - 1];
      AddedNet(stock, init);
      var s := Added(stock, init);
      var after := Added(stock, lines);
      assert after == s[last.inventory := Available(s, last.inventory) + last.quantity];
      forall k | k in after
        ensures after[k] == Available(stock, k) + QuantityFor(lines, k)
      {
        assert QuantityFor(lines, k) == QuantityFor(init, k) + (if last.inventory == k then last.quantity else 0.0);
        if k == last.inventory && k !in s {
          assert k !in stock;
          assert forall l :: l in init ==> l.inventory in (set l | l in init :: l.inventory);
          QuantityForUnnamed(init, k);
        }
      }
    }
  }

  lemma DeductedSnoc(stock: map<ItemKey, real>, lines: seq<StockLine>, line: StockLine)
    requires RowsExist(stock, lines) && line.inventory in stock
    ensures RowsExist(stock, lines + [line])
    ensures Deducted(stock, lines + [line]) ==
      Deducted(stock, lines)[line.inventory := Deducted(stock, lines)[line.inventory] - line.quantity]
  {
    assert (lines + [line])[..|lines|] == lines;
  }

  lemma AddedSnoc(stock: map<ItemKey, real>, lines: seq<StockLine>, line: StockLine)
    ensures Added(stock, lines + [line]) ==
      Added(stock, lines)[line.inventory := Available(Added(stock, lines), line.inventory) + line.quantity]
  {
    assert (lines + [line])[..|lines|] == lines;
  }

  lemma LoggedSnoc(kind: TransactionType, lines: seq<StockLine>, line: StockLine, ref: Reference)
    ensures Logged(kind, lines + [line], ref) ==
      Logged(kind, lines, ref) + [StockTransaction(kind, line.inventory, line.quantity, ref)]
  {
    assert (lines + [line])[..|lines|] == lines;
  }

  predicate DistinctRows(lines: seq<StockLine>)
  {
    forall i, j :: 0 <= i < j < |lines| ==> lines[i].inventory != lines[j].inventory
  }

  /** When no two lines name the same row, the summed quantity for a line's
      row is that line's own quantity. */
  lemma {:induction false} QuantityForDistinct(lines: seq<StockLine>, i: nat)
    requires DistinctRows(lines) && i < |lines|
    ensures QuantityFor(lines, lines[i].inventory) == lines[i].quantity
  {
    var n := |lines| - 1;
    var init := lines[..n];
    if i == n {
      assert forall l :: l in init ==> l.inventory != lines[n].inventory;
      QuantityForUnnamed(init, lines[n].inventory);
    } else {
      assert DistinctRows(init);
      QuantityForDistinct(init, i);
    }
  }

  /** The log rows a loop over `lines` appends. */
  function Logged(kind: TransactionType, lines: seq<StockLine>, ref: Reference): (r: seq<StockTransaction>)
    ensures |r| == |lines|
  {
    if lines == [] then []
    else Logged(kind, lines[..|lines| - 1], ref) + [StockTransaction(kind, lines[|lines| - 1].inventory, lines[|lines| - 1].quantity, ref)]
  }

  /** One transaction per line, in line order, of the given kind and reference. */
  lemma {:induction false} LoggedEntries(kind: TransactionType, lines: seq<StockLine>, ref: Reference)
    ensures forall i :: 0 <= i < |lines| ==>
      Logged(kind, lines, ref)[i] == StockTransaction(kind, lines[i].inventory, lines[i].quantity, ref)
  {
    if lines != [] {
      LoggedEntries(kind, lines[..|lines| - 1], ref);
    }
  }

  /** The Inventory, Batch and StockTransaction tables. `stock` holds the
      keyed Inventory rows as StockOf projects them. */
  class Ledger {
    var stock: map<ItemKey, real>
    var batches: seq<Batch>
    var log: seq<StockTransaction>

    constructor (stock: map<ItemKey, real>, batches: seq<Batch>)
      ensures this.stock == stock && this.batches == batches && log == []
    {
      this.stock := stock;
      this.batches := batches;
      log := [];
    }

    /** Inventory.update_quantity_from_batches: the row's quantity becomes
        the sum of its batches' quantities; nothing else changes. */
    method UpdateQuantityFromBatches(key: ItemKey)
      requires key in stock
      modifies this`stock
      ensures stock == old(stock)[key := TotalQuantity(BatchesOf(batches, key))]
      ensures BatchesOf(batches, key) == [] ==> stock[key] == 0.0
    {
      var ordered := GetBatches(batches, key);
      TotalQuantityPermutation(ordered, BatchesOf(batches, key));
      stock := stock[key := TotalQuantity(ordered)];
    }

    /** `inventory.quantity -= quantity; inventory.save()` on an existing row. */
    method Deduct(line: StockLine)
      requires line.inventory in stock
      modifies this`stock
      ensures stock == old(stock)[line.inventory := old(stock)[line.inventory] - line.quantity]
    {
      stock := stock[line.inventory := stock[line.inventory] - line.quantity];
    }

    /** get_or_create the row at 0, then `inventory.quantity += quantity`. */
    method Add(line: StockLine)
      modifies this`stock
      ensures stock == old(stock)[line.inventory := Available(old(stock), line.inventory) + line.quantity]
    {
      stock := stock[line.inventory := Available(stock, line.inventory) + line.quantity];
    }

    /** A debit loop: for each line in turn, `inventory.quantity -= q;
        inventory.save()` on an existing row and one `kind` transaction
        referring to `ref`. */
    method Issue(lines: seq<StockLine>, kind: TransactionType, ref: Reference)
      requires RowsExist(stock, lines)
      modifies this`stock, this`log
      ensures stock == Deducted(old(stock), lines)
      ensures log == old(log) + Logged(kind, lines, ref)
    {
      ghost var start, startLog := stock, log;
      var i := 0;
      while i < |lines|
        invariant 0 <= i <= |lines|
        invariant RowsExist(start, lines[..i])
        invariant stock == Deducted(start, lines[..i])
        invariant log == startLog + Logged(kind, lines[..i], ref)
      {
        IssueStep(start, startLog, lines, i, kind, ref);
        i := i + 1;
      }
      assert lines[..|lines|] == lines;
    }

    /** One turn of Issue's loop, on line `i`. */
    method IssueStep(ghost start: map<ItemKey, real>, ghost startLog: seq<StockTransaction>,
                     lines: seq<StockLine>, i: nat, kind: TransactionType, ref: Reference)
      requires i < |lines| && RowsExist(start, lines) && RowsExist(start, lines[..i])
      requires stock == Deducted(start, lines[..i]) && log == startLog + Logged(kind, lines[..i], ref)
      modifies this`stock, this`log
      ensures RowsExist(start, lines[..i + 1])
      ensures stock == Deducted(start, lines[..i + 1])
      ensures log == startLog + Logged(kind, lines[..i + 1], ref)
    {
      var line := lines[i];
      assert line in lines;
      TakeSnoc(lines, i);
      DeductedSnoc(start, lines[..i], line);
      LoggedSnoc(kind, lines[..i], line, ref);
      Deduct(line);
      Record(StockTransaction(kind, line.inventory, line.quantity, ref));
    }

    /** A credit loop: for each line in turn, get_or_create the row at 0,
        `inventory.quantity += q`, and one `kind` transaction referring to
        `ref`. */
    method Receive(lines: seq<StockLine>, kind: TransactionType, ref: Reference)
      modifies this`stock, this`log
      ensures stock == Added(old(stock), lines)
      ensures log == old(log) + Logged(kind, lines, ref)
    {
      ghost var start, startLog := stock, log;
      var i := 0;
      while i < |lines|
        invariant 0 <= i <= |lines|
        invariant stock == Added(start, lines[..i])
        invariant log == startLog + Logged(kind, lines[..i], ref)
      {
        TakeSnoc(lines, i);
        ReceiveStep(start, startLog, lines[..i], lines[i], kind, ref);
        i := i + 1;
      }
      assert lines[..|lines|] == lines;
    }

    /** One turn of Receive's loop, after the lines `done`. */
    method ReceiveStep(ghost start: map<ItemKey, real>, ghost startLog: seq<StockTransaction>,
                       ghost done: seq<StockLine>, line: StockLine, kind: TransactionType, ref: Reference)
      requires stock == Added(start, done) && log == startLog + Logged(kind, done, ref)
      modifies this`stock, this`log
      ensures stock == Added(start, done + [line])
      ensures log == startLog + Logged(kind, done + [line], ref)
    {
      AddedSnoc(start, done, line);
      LoggedSnoc(kind, done, line, ref);
      Add(line);
      Record(StockTransaction(kind, line.inventory, line.quantity, ref));
    }

    /** StockTransaction.objects.create(...). */
    method Record(t: StockTransaction)
      modifies this`log
      ensures log == old(log) + [t]
    {
      log := log + [t];
    }
  }
}

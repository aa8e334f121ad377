/** inventory/management/commands/set_product_unit_prices.py: the command
    that gives every finished product a base unit price derived from its
    sale price. */
module SetProductUnitPrices {
  import opened InventoryModels

  /** The price given to a product without a positive sale price. */
  const DefaultUnitPrice: real := 100.00

  /** A product that already has a positive unit price is left alone
      unless --force is given. */
  predicate Skipped(p: Product, force: bool)
  {
    p.unitPrice > 0.0 && !force
  }

  /** The command's effect on one product: only the unit price changes; a
      skipped product keeps it, a product with a positive sale price gets
      sale price times the ratio, any other product the default 100.00. */
  function Repriced(p: Product, ratio: real, force: bool): (r: Product)
    ensures r.(unitPrice := p.unitPrice) == p
    ensures Skipped(p, force) ==> r == p
    ensures !Skipped(p, force) && p.salePrice > 0.0 ==> r.unitPrice == p.salePrice * ratio
    ensures !Skipped(p, force) && p.salePrice <= 0.0 ==> r.unitPrice == DefaultUnitPrice
  {
    if Skipped(p, force) then p
    else if p.salePrice > 0.0 then p.(unitPrice := p.salePrice * ratio)
    else p.(unitPrice := DefaultUnitPrice)
  }

  /** How many products the loop skips. */
  function CountSkipped(products: seq<Product>, force: bool): (n: nat)
    ensures n <= |products|
    ensures force ==> n == 0
  {
    if products == [] then 0
    else (if Skipped(products[0], force) then 1 else 0) + CountSkipped(products[1..], force)
  }

  lemma {:induction false} CountSkippedSnoc(products: seq<Product>, p: Product, force: bool)
    ensures CountSkipped(products + [p], force) ==
      CountSkipped(products, force) + (if Skipped(p, force) then 1 else 0)
  {
    if products != [] {
      assert (products + [p])[1..] == products[1..] + [p];
      CountSkippedSnoc(products[1..], p, force);
    }
  }

  /** With a positive ratio every product leaves the command with a
      positive unit price, so a second run without --force skips it and
      changes nothing. */
  lemma RepricedIsPositiveAndStable(p: Product, ratio: real, force: bool)
    requires ratio > 0.0
    ensures Repriced(p, ratio, force).unitPrice > 0.0
    ensures Skipped(Repriced(p, ratio, force), false)
    ensures Repriced(Repriced(p, ratio, force), ratio, false) == Repriced(p, ratio, force)
  {
    if !Skipped(p, force) && p.salePrice > 0.0 {
      assert p.salePrice * ratio > 0.0;
    }
  }

  /** The loop of Command.handle over all products: each is repriced, and
      the updated and skipped counts add up to the number of products. */
  method RepriceAll(products: seq<Product>, ratio: real, force: bool)
    returns (repriced: seq<Product>, updated: nat, skipped: nat)
    ensures |repriced| == |products|
    ensures forall k :: 0 <= k < |products| ==> repriced[k] == Repriced(products[k], ratio, force)
    ensures skipped == CountSkipped(products, force)
    ensures updated + skipped == |products|
  {
    repriced := products;
    updated, skipped := 0, 0;
    var i := 0;
    while i < |products|
      invariant 0 <= i <= |products| == |repriced|
      invariant forall k :: 0 <= k < i ==> repriced[k] == Repriced(products[k], ratio, force)
      invariant forall k :: i <= k < |products| ==> repriced[k] == products[k]
      invariant skipped == CountSkipped(products[..i], force)
      invariant updated + skipped == i
    {
      CountSkippedSnoc(products[..i], products[i], force);
      assert products[..i + 1] == products[..i] + [products[i]];
      var product := products[i];
      if product.unitPrice > 0.0 && !force {
        skipped := skipped + 1;
      } else {
        if product.salePrice > 0.0 {
          product := product.(unitPrice := product.salePrice * ratio);
        } else {
          product := product.(unitPrice := DefaultUnitPrice);
        }
        updated := updated + 1;
      }
      assert product == Repriced(products[i], ratio, force);
      repriced := repriced[i := product];
      i := i + 1;
    }
    assert products[..i] == products;
  }

  /** Command.handle: every product in the table is repriced and saved. */
  method Handle(catalog: Catalog, ratio: real, force: bool) returns (updated: nat, skipped: nat)
    requires catalog.Valid()
    modifies catalog`products
    ensures catalog.Valid()
    ensures |catalog.products| == |old(catalog.products)|
    ensures forall k :: 0 <= k < |catalog.products| ==>
      catalog.products[k] == Repriced(old(catalog.products[k]), ratio, force)
    ensures skipped == CountSkipped(old(catalog.products), force)
    ensures updated + skipped == |catalog.products|
  {
    var repriced;
    repriced, updated, skipped := RepriceAll(catalog.products, ratio, force);
    catalog.products := repriced;
  }
}

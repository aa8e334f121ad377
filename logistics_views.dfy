/** logistics/views.py: creating a shipment from a shipping notice, shipping
    it (the sale_out debit of the order's products) and confirming its
    delivery, which completes the order once all its shipments arrived. */
module LogisticsViews {
  import opened Common
  import opened InventoryModels
  import opened SalesModels
  import opened SalesViews
  import opened LogisticsModels

  // ---------------------------------------------------------------------
  // shipment_create

  /** shipment_create, POST branch: a missing notice, or a driver or vehicle
      id that names no row, is refused with nothing created; otherwise one
      shipment in `loading` is added for the notice and the notice's order. */
  method ShipmentCreate(sales: SalesBook, logistics: LogisticsBook, noticeId: nat,
                        driver: Option<nat>, vehicle: Option<nat>, freightCost: real)
    returns (r: Result<nat>)
    requires logistics.Valid() && logistics.LinkedTo(sales)
    modifies logistics`shipments
    ensures logistics.Valid() && logistics.LinkedTo(sales)
    ensures noticeId >= |sales.notices| ==> r == Err(NotFound)
    ensures driver.Some? && driver.value >= |logistics.drivers| ==> r == Err(NotFound)
    ensures vehicle.Some? && vehicle.value >= |logistics.vehicles| ==> r == Err(NotFound)
    ensures r.Ok? <==>
      && noticeId < |sales.notices|
      && (driver.Some? ==> driver.value < |logistics.drivers|)
      && (vehicle.Some? ==> vehicle.value < |logistics.vehicles|)
    ensures r.Err? ==> r == Err(NotFound) && logistics.shipments == old(logistics.shipments)
    ensures r.Ok? ==>
      && r.value == |old(logistics.shipments)|
      && logistics.shipments == old(logistics.shipments) +
           [Shipment(noticeId, sales.notices[noticeId].order, driver, vehicle, freightCost,
                     ShipmentStatus.Loading, None, None, "", "", "")]
  {
    if noticeId >= |sales.notices| {
      return Err(NotFound);
    }
    if driver.Some? && driver.value >= |logistics.drivers| {
      return Err(NotFound);
    }
    if vehicle.Some? && vehicle.value >= |logistics.vehicles| {
      return Err(NotFound);
    }
    var shipment := Shipment(noticeId, sales.notices[noticeId].order, driver, vehicle, freightCost,
                             ShipmentStatus.Loading, None, None, "", "", "");
    logistics.shipments := logistics.shipments + [shipment];
    r := Ok(|logistics.shipments| - 1);
  }

  // ---------------------------------------------------------------------
  // shipment_ship

  /** The debit loop's lines: each order item's quantity from its product row. */
  function SaleLines(items: seq<SalesOrderItem>): seq<StockLine>
  {
    seq(|items|, k requires 0 <= k < |items| => StockLine(ProductKey(items[k].product), items[k].quantity))
  }

  /** Every item's product has an inventory row. */
  predicate ProductRowsExist(stock: map<ItemKey, real>, items: seq<SalesOrderItem>)
  {
    forall k :: 0 <= k < |items| ==> ProductKey(items[k].product) in stock
  }

  /** The summed quantity the order's items ask of `product`. */
  function OrderedQuantity(items: seq<SalesOrderItem>, product: ProductId): real
  {
    if items == [] then 0.0
    else
      var n := |items| - 1;
      OrderedQuantity(items[..n], product) + (if items[n].product == product then items[n].quantity else 0.0)
  }

  lemma {:induction false} SaleLinesQuantity(items: seq<SalesOrderItem>, key: ItemKey)
    ensures QuantityFor(SaleLines(items), key) ==
      (if key.ProductKey? then OrderedQuantity(items, key.product) else 0.0)
  {
    if items != [] {
      var n := |items| - 1;
      assert SaleLines(items)[..n] == SaleLines(items[..n]);
      SaleLinesQuantity(items[..n], key);
    }
  }

  /** Shipping takes from every product row exactly the summed quantity of
      the order's items for that product, whatever the row held before:
      nothing checks that the stock suffices. Other rows are untouched. */
  lemma {:induction false} ShipmentDebitsOrderedQuantities(stock: map<ItemKey, real>, items: seq<SalesOrderItem>)
    requires ProductRowsExist(stock, items)
    ensures RowsExist(stock, SaleLines(items))
    ensures forall key :: key in stock ==>
      Deducted(stock, SaleLines(items))[key] ==
        stock[key] - (if key.ProductKey? then OrderedQuantity(items, key.product) else 0.0)
  {
    var lines := SaleLines(items);
    forall l | l in lines ensures l.inventory in stock {
      var k :| 0 <= k < |lines| && lines[k] == l;
    }
    DeductedNet(stock, lines);
    forall key | key in stock {
      SaleLinesQuantity(items, key);
    }
  }

  /** shipment_ship, POST branch: a missing shipment or one not `loading`
      is refused; an item whose product has no inventory row raises inside
      the transaction, so nothing changes either. Otherwise every item is
      debited from its product row with one sale_out transaction each, and
      the shipment (at `now`), its notice and its order become shipped. */
  method ShipmentShip(sales: SalesBook, logistics: LogisticsBook, ledger: Ledger, id: nat, now: int)
    returns (r: Result<()>)
    requires sales.Valid() && logistics.Valid() && logistics.LinkedTo(sales)
    modifies logistics`shipments, sales`orders, sales`notices, ledger`stock, ledger`log
    ensures sales.Valid() && logistics.Valid() && logistics.LinkedTo(sales)
    ensures id >= |old(logistics.shipments)| ==> r == Err(NotFound)
    ensures id < |old(logistics.shipments)| && old(logistics.shipments[id].status) != ShipmentStatus.Loading ==>
      r == Err(WrongStatus)
    ensures r.Ok? <==>
      && id < |old(logistics.shipments)| && old(logistics.shipments[id].status) == ShipmentStatus.Loading
      && old(logistics.shipments[id].order) < |old(sales.orders)|
      && ProductRowsExist(old(ledger.stock), old(sales.orders[logistics.shipments[id].order].items))
    ensures r.Err? ==>
      && logistics.shipments == old(logistics.shipments)
      && sales.orders == old(sales.orders) && sales.notices == old(sales.notices)
      && ledger.stock == old(ledger.stock) && ledger.log == old(ledger.log)
    ensures id < |old(logistics.shipments)| && old(logistics.shipments[id].status) == ShipmentStatus.Loading ==>
      && var s := old(logistics.shipments[id]);
      && s.order < |old(sales.orders)|
      && var items := old(sales.orders[s.order].items);
      && (r == Err(MissingInventory) <==> !ProductRowsExist(old(ledger.stock), items))
      && (r.Ok? ==>
            && logistics.shipments == old(logistics.shipments)[id := s.(status := ShipmentStatus.Shipped, shippedAt := Some(now))]
            && sales.notices == old(sales.notices)[s.notice := old(sales.notices[s.notice]).(status := NoticeStatus.Shipped)]
            && sales.orders == old(sales.orders)[s.order := old(sales.orders[s.order]).(status := OrderStatus.Shipped)]
            && RowsExist(old(ledger.stock), SaleLines(items))
            && ledger.stock == Deducted(old(ledger.stock), SaleLines(items))
            && ledger.log == old(ledger.log) + Logged(SaleOut, SaleLines(items), ShipmentRef(id)))
  {
    if id >= |logistics.shipments| {
      return Err(NotFound);
    }
    var s := logistics.shipments[id];
    if s.status != ShipmentStatus.Loading {
      return Err(WrongStatus);
    }
    assert sales.notices[s.notice] in sales.notices;
    var items := sales.orders[s.order].items;
    if !ProductRowsExist(ledger.stock, items) {
      return Err(MissingInventory);
    }
    ShipmentDebitsOrderedQuantities(ledger.stock, items);
    ledger.Issue(SaleLines(items), SaleOut, ShipmentRef(id));
    logistics.shipments := logistics.shipments[id := s.(status := ShipmentStatus.Shipped, shippedAt := Some(now))];
    sales.SetNoticeStatus(s.notice, NoticeStatus.Shipped);
    sales.SetStatus(s.order, OrderStatus.Shipped);
    r := Ok(());
  }

  /** An order whose every item was reserved at approval loses its stock
      twice by the time it ships: approval already took each item's
      quantity from its product row, and shipping takes it again. */
  lemma {:induction false} ReservedThenShippedTakesTwice(stock: map<ItemKey, real>, items: seq<SalesOrderItem>)
    requires Positive(items) && AllReserved(Verdicts(stock, items))
    ensures ProductRowsExist(StockAfter(stock, items), items)
    ensures forall key :: key in stock && key.ProductKey? ==>
      Deducted(StockAfter(stock, items), SaleLines(items))[key] == stock[key] - 2.0 * OrderedQuantity(items, key.product)
  {
    var vs := Verdicts(stock, items);
    StockAfterDeductsReserved(stock, items);
    ReservedLinesOfAllReserved(items, vs);
    var lines := SaleLines(items);
    var after := StockAfter(stock, items);
    assert RowsExist(stock, lines);
    DeductedNet(stock, lines);
    assert ProductRowsExist(after, items) by {
      forall k | 0 <= k < |items| ensures ProductKey(items[k].product) in after {
        assert lines[k] in lines;
      }
    }
    ShipmentDebitsOrderedQuantities(after, items);
    forall key | key in stock && key.ProductKey? {
      SaleLinesQuantity(items, key);
    }
  }

  /** With every item reserved, the lines approval debits are the lines
      shipping debits. */
  lemma {:induction false} ReservedLinesOfAllReserved(items: seq<SalesOrderItem>, verdicts: seq<Verdict>)
    requires |items| == |verdicts| && AllReserved(verdicts)
    ensures ReservedLines(items, verdicts) == SaleLines(items)
  {
    if items != [] {
      var n := |items| - 1;
      assert verdicts[n] in verdicts;
      assert forall v :: v in verdicts[..n] ==> v in verdicts;
      ReservedLinesOfAllReserved(items[..n], verdicts[..n]);
      assert SaleLines(items) == SaleLines(items[..n]) + [SaleLines(items)[n]];
    }
  }

  // ---------------------------------------------------------------------
  // shipment_delivery_confirm

  /** `all(s.status == 'delivered' for s in Shipment.objects.filter(order=order))`. */
  predicate AllDelivered(shipments: seq<Shipment>, order: nat)
  {
    forall k :: 0 <= k < |shipments| && shipments[k].order == order ==> shipments[k].status == ShipmentStatus.Delivered
  }

  /** shipment_delivery_confirm, POST branch: a missing shipment, one not
      `shipped`, or a receiver name blank after strip() is refused with
      nothing changed. Otherwise the shipment is delivered at `now` with the
      stripped receiver fields, and its order becomes completed exactly when
      every shipment of the order has been delivered. */
  method ShipmentDeliveryConfirm(sales: SalesBook, logistics: LogisticsBook, id: nat,
                                 receiverName: string, receiverPhone: string, deliveryRemark: string, now: int)
    returns (r: Result<()>)
    requires sales.Valid() && logistics.Valid() && logistics.LinkedTo(sales)
    modifies logistics`shipments, sales`orders
    ensures sales.Valid() && logistics.Valid() && logistics.LinkedTo(sales)
    ensures id >= |old(logistics.shipments)| ==> r == Err(NotFound)
    ensures id < |old(logistics.shipments)| && old(logistics.shipments[id].status) != ShipmentStatus.Shipped ==>
      r == Err(WrongStatus)
    ensures (id < |old(logistics.shipments)| && old(logistics.shipments[id].status) == ShipmentStatus.Shipped
             && IsBlank(receiverName)) ==> r == Err(BlankInput)
    ensures r.Ok? <==>
      id < |old(logistics.shipments)| && old(logistics.shipments[id].status) == ShipmentStatus.Shipped && !IsBlank(receiverName)
    ensures r.Err? ==> logistics.shipments == old(logistics.shipments) && sales.orders == old(sales.orders)
    ensures r.Ok? ==>
      && id < |old(logistics.shipments)|
      && var s := old(logistics.shipments[id]);
      && s.status == ShipmentStatus.Shipped && !IsBlank(receiverName)
      && logistics.shipments == old(logistics.shipments)[id := s.(
           status := ShipmentStatus.Delivered, deliveredAt := Some(now), receiverName := Strip(receiverName),
           receiverPhone := Strip(receiverPhone), deliveryRemark := Strip(deliveryRemark))]
      && s.order < |sales.orders|
      && sales.orders == (if AllDelivered(logistics.shipments, s.order)
                          then old(sales.orders)[s.order := old(sales.orders[s.order]).(status := OrderStatus.Completed)]
                          else old(sales.orders))
  {
    if id >= |logistics.shipments| {
      return Err(NotFound);
    }
    var s := logistics.shipments[id];
    if s.status != ShipmentStatus.Shipped {
      return Err(WrongStatus);
    }
    var name := Strip(receiverName);
    StripEmptyIffBlank(receiverName);
    if name == [] {
      return Err(BlankInput);
    }
    assert sales.notices[s.notice] in sales.notices;
    logistics.shipments := logistics.shipments[id := s.(
      status := ShipmentStatus.Delivered, deliveredAt := Some(now), receiverName := name,
      receiverPhone := Strip(receiverPhone), deliveryRemark := Strip(deliveryRemark))];
    if AllDelivered(logistics.shipments, s.order) {
      sales.SetStatus(s.order, OrderStatus.Completed);
    }
    r := Ok(());
  }
}

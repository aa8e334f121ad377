/** sales/views.py: order creation, and order approval with its stock
    check that either reserves product stock or raises production tasks. */
module SalesViews {
  import opened Common
  import opened InventoryModels
  import opened SalesModels
  import opened ProductionModels

  // ---------------------------------------------------------------------
  // order_create

  /** One form of the posted item formset: an untouched extra form, or a
      filled one with its DELETE box. */
  datatype ItemForm =
    | EmptyForm
    | FilledForm(product: ProductId, quantity: real, unitPrice: real, delete: bool)

  /** The forms the save loop keeps: filled and not marked for deletion. */
  predicate Kept(f: ItemForm)
  {
    f.FilledForm? && !f.delete
  }

  /** formset.is_valid(): every kept form names an existing product and
      passes the quantity validator; empty and deleted forms are not checked. */
  predicate FormsetValid(forms: seq<ItemForm>, productCount: nat)
  {
    forall f :: f in forms && Kept(f) ==> f.product < productCount && f.quantity >= MinItemQuantity
  }

  /** A filled form's quantity × unit price. */
  function Subtotal(f: ItemForm): real
    requires f.FilledForm?
  {
    f.quantity * f.unitPrice
  }

  /** The item saved for a kept form, with its subtotal. */
  function ItemOf(f: ItemForm): SalesOrderItem
    requires f.FilledForm?
  {
    SalesOrderItem(f.product, f.quantity, f.unitPrice, Subtotal(f))
  }

  /** The items the save loop creates, in form order. */
  function SavedItems(forms: seq<ItemForm>): (r: seq<SalesOrderItem>)
    ensures |r| <= |forms|
  {
    if forms == [] then []
    else
      var last := forms[|forms| - 1];
      SavedItems(forms[..|forms| - 1]) + (if Kept(last) then [ItemOf(last)] else [])
  }

  /** The saved items are exactly the items of the kept forms. */
  lemma {:induction false} SavedItemsAreKeptForms(forms: seq<ItemForm>)
    ensures forall f :: f in forms && Kept(f) ==> ItemOf(f) in SavedItems(forms)
    ensures forall it :: it in SavedItems(forms) ==> exists f :: f in forms && Kept(f) && it == ItemOf(f)
  {
    if forms != [] {
      var init := forms[..|forms| - 1];
      var last := forms[|forms| - 1];
      assert forms == init + [last];
      SavedItemsAreKeptForms(init);
      forall it | it in SavedItems(forms) ensures exists f :: f in forms && Kept(f) && it == ItemOf(f) {
        if it in SavedItems(init) {
          var f :| f in init && Kept(f) && it == ItemOf(f);
          assert f in forms;
        } else {
          assert Kept(last) && it == ItemOf(last);
        }
      }
    }
  }

  /** The loop's running `total += item.subtotal`. */
  function SubtotalSum(items: seq<SalesOrderItem>): real
  {
    if items == [] then 0.0 else SubtotalSum(items[..|items| - 1]) + items[|items| - 1].subtotal
  }

  /** The order total as the source states it: quantity × unit price summed
      over the kept forms, deleted and empty forms contributing nothing. */
  function KeptTotal(forms: seq<ItemForm>): real
  {
    if forms == [] then 0.0
    else
      var last := forms[|forms| - 1];
      KeptTotal(forms[..|forms| - 1]) + (if Kept(last) then Subtotal(last) else 0.0)
  }

  /** The total the loop accumulates is the sum of the kept forms' subtotals. */
  lemma {:induction false} SavedTotalIsKeptTotal(forms: seq<ItemForm>)
    ensures SubtotalSum(SavedItems(forms)) == KeptTotal(forms)
  {
    if forms != [] {
      var init := forms[..|forms| - 1];
      var last := forms[|forms| - 1];
      SavedTotalIsKeptTotal(init);
      var prior := SavedItems(init);
      if Kept(last) {
        var s := prior + [ItemOf(last)];
        assert SavedItems(forms) == s;
        assert s[..|s| - 1] == prior;
      } else {
        assert SavedItems(forms) == prior + [];
        assert SavedItems(forms) == prior;
      }
    }
  }

  /** SalesOrderForm.is_valid(): the required customer names an existing
      customer row. */
  predicate OrderFormValid(customer: nat, customerCount: nat)
  {
    customer < customerCount
  }

  /** order_create, POST branch: an invalid order form or formset saves
      nothing; otherwise one pending order is appended whose items are the
      kept forms and whose total is the sum of their subtotals. */
  method OrderCreate(sales: SalesBook, customerCount: nat, productCount: nat, customer: nat, salesperson: nat,
                     reserve: bool, forms: seq<ItemForm>) returns (r: Result<nat>)
    requires sales.Valid()
    modifies sales
    ensures sales.Valid()
    ensures r.Ok? <==> OrderFormValid(customer, customerCount) && FormsetValid(forms, productCount)
    ensures r.Err? ==> r == Err(InvalidForm) && unchanged(sales)
    ensures r.Ok? ==>
      && r == Ok(|old(sales.orders)|)
      && sales.orders == old(sales.orders) +
           [NewOrder(customer, salesperson).(reserveInventory := reserve,
                                             items := SavedItems(forms),
                                             totalAmount := KeptTotal(forms))]
      && sales.notices == old(sales.notices) && sales.allocations == old(sales.allocations)
  {
    if !(OrderFormValid(customer, customerCount) && FormsetValid(forms, productCount)) {
      return Err(InvalidForm);
    }
    var order := NewOrder(customer, salesperson).(reserveInventory := reserve);
    var items: seq<SalesOrderItem> := [];
    var total := 0.0;
    var i := 0;
    while i < |forms|
      invariant 0 <= i <= |forms|
      invariant items == SavedItems(forms[..i])
      invariant total == SubtotalSum(items)
    {
      assert forms[..i + 1] == forms[..i] + [forms[i]];
      assert forms[..i + 1][..i] == forms[..i];
      if Kept(forms[i]) {
        var item := ItemOf(forms[i]);
        assert (items + [item])[..|items|] == items;
        items := items + [item];
        total := total + item.subtotal;
      }
      i := i + 1;
    }
    assert forms[..|forms|] == forms;
    SavedTotalIsKeptTotal(forms);
    SavedItemsAreKeptForms(forms);
    forall it | it in items ensures it.quantity >= MinItemQuantity {
      var f :| f in forms && Kept(f) && it == ItemOf(f);
    }
    sales.orders := sales.orders + [order.(items := items, totalAmount := total)];
    r := Ok(|sales.orders| - 1);
  }

  // ---------------------------------------------------------------------
  // order_approve and check_inventory_and_create_tasks

  /** What the stock check decides for one item: its quantity is taken from
      stock, or `shortage` more must be produced. */
  datatype Verdict = Reserved | Short(shortage: real)

  predicate AllReserved(verdicts: seq<Verdict>)
  {
    forall v :: v in verdicts ==> v.Reserved?
  }

  /** Every item has a positive quantity: what the item validator
      (at least 0.01) guarantees and the check loop relies on. */
  predicate Positive(items: seq<SalesOrderItem>)
  {
    forall i :: 0 <= i < |items| ==> items[i].quantity > 0.0
  }

  /** The check of one item against the product stock on hand, 0 when the
      product has no inventory row. */
  function Judge(stock: map<ItemKey, real>, item: SalesOrderItem): (v: Verdict)
    requires item.quantity > 0.0
    ensures v.Reserved? ==> ProductKey(item.product) in stock
    ensures v.Short? ==> v.shortage > 0.0
  {
    var available := Available(stock, ProductKey(item.product));
    if available >= item.quantity then Reserved else Short(item.quantity - available)
  }

  /** The stock after one item: a reserved item's quantity leaves its row. */
  function AfterItem(stock: map<ItemKey, real>, item: SalesOrderItem): (r: map<ItemKey, real>)
    requires item.quantity > 0.0
    ensures r.Keys == stock.Keys
  {
    var key := ProductKey(item.product);
    if Judge(stock, item).Reserved? then stock[key := stock[key] - item.quantity] else stock
  }

  /** The product stock after the check loop has handled `items`. */
  function StockAfter(stock: map<ItemKey, real>, items: seq<SalesOrderItem>): (r: map<ItemKey, real>)
    requires Positive(items)
    ensures r.Keys == stock.Keys
  {
    if items == [] then stock
    else
      var n := |items| - 1;
      assert items[n] in items;
      AfterItem(StockAfter(stock, items[..n]), items[n])
  }

  /** The loop's verdict on each item, each judged against the stock the
      earlier items left. */
  function Verdicts(stock: map<ItemKey, real>, items: seq<SalesOrderItem>): (r: seq<Verdict>)
    requires Positive(items)
    ensures |r| == |items|
    ensures forall v :: v in r && v.Short? ==> v.shortage > 0.0
  {
    if items == [] then []
    else
      var n := |items| - 1;
      assert items[n] in items;
      Verdicts(stock, items[..n]) + [Judge(StockAfter(stock, items[..n]), items[n])]
  }

  /** One more item for the check loop. */
  lemma VerdictsSnoc(stock: map<ItemKey, real>, init: seq<SalesOrderItem>, item: SalesOrderItem)
    requires Positive(init)
    requires item.quantity > 0.0
    ensures Positive(init + [item])
    ensures StockAfter(stock, init + [item]) == AfterItem(StockAfter(stock, init), item)
    ensures Verdicts(stock, init + [item]) == Verdicts(stock, init) + [Judge(StockAfter(stock, init), item)]
  {
    assert (init + [item])[..|init|] == init;
  }

  /** The tasks the loop creates: one per short item, for its shortage. */
  function ShortTasks(order: nat, items: seq<SalesOrderItem>, verdicts: seq<Verdict>): (r: seq<ProductionTask>)
    requires |items| == |verdicts|
    ensures |r| <= |items|
  {
    if items == [] then []
    else
      var n := |items| - 1;
      ShortTasks(order, items[..n], verdicts[..n])
        + (if verdicts[n].Short? then [NewTask(order, items[n].product, verdicts[n].shortage)] else [])
  }

  /** The tasks approval creates are pending, for this order, with nothing
      completed and a positive required quantity; every short item has
      its task for exactly its shortage, and an order whose items were all
      reserved gets none. */
  lemma {:induction false} ShortTasksArePendingShortages(order: nat, items: seq<SalesOrderItem>, verdicts: seq<Verdict>)
    requires |items| == |verdicts|
    requires forall v :: v in verdicts && v.Short? ==> v.shortage > 0.0
    ensures forall t :: t in ShortTasks(order, items, verdicts) ==>
      t.order == order && t.status == TaskStatus.Pending && t.completedQuantity == 0.0 && t.requiredQuantity > 0.0
    ensures forall i :: 0 <= i < |items| && verdicts[i].Short? ==>
      NewTask(order, items[i].product, verdicts[i].shortage) in ShortTasks(order, items, verdicts)
    ensures AllReserved(verdicts) ==> ShortTasks(order, items, verdicts) == []
  {
    if items != [] {
      var n := |items| - 1;
      assert verdicts[n] in verdicts;
      assert forall v :: v in verdicts[..n] ==> v in verdicts;
      ShortTasksArePendingShortages(order, items[..n], verdicts[..n]);
    }
  }

  /** The stock lines the loop debits: one per reserved item, in order. */
  function ReservedLines(items: seq<SalesOrderItem>, verdicts: seq<Verdict>): seq<StockLine>
    requires |items| == |verdicts|
  {
    if items == [] then []
    else
      var n := |items| - 1;
      ReservedLines(items[..n], verdicts[..n]) +
        (if verdicts[n].Reserved? then [StockLine(ProductKey(items[n].product), items[n].quantity)] else [])
  }

  /** The debited lines are exactly the reserved items' products and
      quantities. */
  lemma {:induction false} ReservedLinesAreReservedItems(items: seq<SalesOrderItem>, verdicts: seq<Verdict>)
    requires |items| == |verdicts|
    ensures forall i :: 0 <= i < |items| && verdicts[i].Reserved? ==>
      StockLine(ProductKey(items[i].product), items[i].quantity) in ReservedLines(items, verdicts)
    ensures forall l :: l in ReservedLines(items, verdicts) ==>
      exists i :: 0 <= i < |items| && verdicts[i].Reserved? && l == StockLine(ProductKey(items[i].product), items[i].quantity)
  {
    if items != [] {
      var n := |items| - 1;
      ReservedLinesAreReservedItems(items[..n], verdicts[..n]);
      var prior := ReservedLines(items[..n], verdicts[..n]);
      var r := ReservedLines(items, verdicts);
      assert forall l :: l in prior ==> l in r;
      forall l | l in r
        ensures exists i :: 0 <= i < |items| && verdicts[i].Reserved? && l == StockLine(ProductKey(items[i].product), items[i].quantity)
      {
        if l !in prior {
          assert verdicts[n].Reserved? && l == StockLine(ProductKey(items[n].product), items[n].quantity);
        } else {
          var i :| 0 <= i < n && verdicts[..n][i].Reserved? && l == StockLine(ProductKey(items[..n][i].product), items[..n][i].quantity);
          assert verdicts[i] == verdicts[..n][i] && items[i] == items[..n][i];
        }
      }
    }
  }

  /** One more item keeps the check loop a deduction of the reserved items. */
  lemma DeductsReservedStep(stock: map<ItemKey, real>, init: seq<SalesOrderItem>, item: SalesOrderItem)
    requires Positive(init) && item.quantity > 0.0
    requires RowsExist(stock, ReservedLines(init, Verdicts(stock, init)))
    requires StockAfter(stock, init) == Deducted(stock, ReservedLines(init, Verdicts(stock, init)))
    ensures Positive(init + [item])
    ensures RowsExist(stock, ReservedLines(init + [item], Verdicts(stock, init + [item])))
    ensures StockAfter(stock, init + [item]) == Deducted(stock, ReservedLines(init + [item], Verdicts(stock, init + [item])))
  {
    VerdictsSnoc(stock, init, item);
    var items := init + [item];
    var n := |init|;
    var vs := Verdicts(stock, items);
    assert items[..n] == init && items[n] == item;
    assert vs[..n] == Verdicts(stock, init);
    var prior := ReservedLines(init, Verdicts(stock, init));
    var lines := ReservedLines(items, vs);
    var before := StockAfter(stock, init);
    if vs[n].Reserved? {
      var line := StockLine(ProductKey(item.product), item.quantity);
      assert lines == prior + [line];
      assert line.inventory in before;
      DeductedSnoc(stock, prior, line);
    } else {
      assert lines == prior + [];
      assert lines == prior;
      assert StockAfter(stock, items) == before;
    }
  }

  /** The check loop is a deduction of exactly the reserved items, from
      rows that exist; with DeductedNet every product row loses the summed
      quantity of its reserved items and nothing else. */
  lemma {:induction false} StockAfterDeductsReserved(stock: map<ItemKey, real>, items: seq<SalesOrderItem>)
    requires Positive(items)
    ensures RowsExist(stock, ReservedLines(items, Verdicts(stock, items)))
    ensures StockAfter(stock, items) == Deducted(stock, ReservedLines(items, Verdicts(stock, items)))
  {
    if items != [] {
      var n := |items| - 1;
      assert items == items[..n] + [items[n]];
      assert items[n] in items;
      StockAfterDeductsReserved(stock, items[..n]);
      DeductsReservedStep(stock, items[..n], items[n]);
    }
  }

  /** A row the check debits is never left negative: every row ends either
      untouched or at a quantity of at least 0. */
  lemma {:induction false} StockAfterNeverOverdraws(stock: map<ItemKey, real>, items: seq<SalesOrderItem>)
    requires Positive(items)
    ensures forall k :: k in stock ==> StockAfter(stock, items)[k] == stock[k] || StockAfter(stock, items)[k] >= 0.0
  {
    if items != [] {
      var init := items[..|items| - 1];
      StockAfterNeverOverdraws(stock, init);
    }
  }

  lemma ShortTasksSnoc(order: nat, init: seq<SalesOrderItem>, verdicts: seq<Verdict>, item: SalesOrderItem, v: Verdict)
    requires |init| == |verdicts|
    ensures ShortTasks(order, init + [item], verdicts + [v]) ==
      ShortTasks(order, init, verdicts) + (if v.Short? then [NewTask(order, item.product, v.shortage)] else [])
  {
    assert (init + [item])[..|init|] == init;
    assert (verdicts + [v])[..|verdicts|] == verdicts;
  }

  /** The body of the check loop for one item: reserve its quantity from
      the product row when the stock on hand (0 without a row) covers it,
      else create a pending production task for the shortage. */
  method ReserveOrRaise(production: ProductionBook, ledger: Ledger, order: nat, item: SalesOrderItem)
    returns (v: Verdict)
    requires item.quantity > 0.0
    modifies production`tasks, ledger`stock
    ensures v == Judge(old(ledger.stock), item)
    ensures ledger.stock == AfterItem(old(ledger.stock), item)
    ensures production.tasks == old(production.tasks) +
      (if v.Short? then [NewTask(order, item.product, v.shortage)] else [])
  {
    var key := ProductKey(item.product);
    var available := Available(ledger.stock, key);
    if available >= item.quantity {
      ledger.Deduct(StockLine(key, item.quantity));
      v := Reserved;
    } else {
      v := Short(item.quantity - available);
      production.tasks := production.tasks + [NewTask(order, item.product, v.shortage)];
    }
  }

  /** One turn of the check loop, from the state after the items `done`
      to the state after one more. */
  method ReserveStep(production: ProductionBook, ledger: Ledger, order: nat,
                     ghost start: map<ItemKey, real>, ghost startTasks: seq<ProductionTask>,
                     ghost done: seq<SalesOrderItem>, item: SalesOrderItem, allSufficient: bool)
    returns (allSufficient': bool)
    requires Positive(done) && item.quantity > 0.0
    requires ledger.stock == StockAfter(start, done)
    requires production.tasks == startTasks + ShortTasks(order, done, Verdicts(start, done))
    requires allSufficient <==> AllReserved(Verdicts(start, done))
    modifies production`tasks, ledger`stock
    ensures Positive(done + [item])
    ensures ledger.stock == StockAfter(start, done + [item])
    ensures production.tasks == startTasks + ShortTasks(order, done + [item], Verdicts(start, done + [item]))
    ensures allSufficient' <==> AllReserved(Verdicts(start, done + [item]))
  {
    ghost var verdicts := Verdicts(start, done);
    VerdictsSnoc(start, done, item);
    var v := ReserveOrRaise(production, ledger, order, item);
    ShortTasksSnoc(order, done, verdicts, item, v);
    ghost var added := if v.Short? then [NewTask(order, item.product, v.shortage)] else [];
    AppendAssoc(startTasks, ShortTasks(order, done, verdicts), added);
    allSufficient' := allSufficient;
    if v.Short? {
      allSufficient' := false;
    }
  }

  /** The loop of check_inventory_and_create_tasks over an order's items;
      the result is the `all_sufficient` flag. */
  method ReserveOrRaiseAll(production: ProductionBook, ledger: Ledger, order: nat, items: seq<SalesOrderItem>)
    returns (allSufficient: bool)
    requires Positive(items)
    modifies production`tasks, ledger`stock
    ensures ledger.stock == StockAfter(old(ledger.stock), items)
    ensures production.tasks == old(production.tasks) + ShortTasks(order, items, Verdicts(old(ledger.stock), items))
    ensures allSufficient <==> AllReserved(Verdicts(old(ledger.stock), items))
  {
    ghost var start, startTasks := ledger.stock, production.tasks;
    allSufficient := true;
    var i := 0;
    while i < |items|
      invariant 0 <= i <= |items|
      invariant Positive(items[..i])
      invariant ledger.stock == StockAfter(start, items[..i])
      invariant production.tasks == startTasks + ShortTasks(order, items[..i], Verdicts(start, items[..i]))
      invariant allSufficient <==> AllReserved(Verdicts(start, items[..i]))
    {
      TakeSnoc(items, i);
      allSufficient := ReserveStep(production, ledger, order, start, startTasks, items[..i], items[i], allSufficient);
      i := i + 1;
    }
    assert items[..|items|] == items;
  }

  /** check_inventory_and_create_tasks on an approved order: after the
      reservation loop, if all items were reserved the order gets one
      pending shipping notice and becomes ready to ship, else it is in
      production. */
  method CheckInventoryAndCreateTasks(sales: SalesBook, production: ProductionBook, ledger: Ledger, id: nat)
    requires sales.Valid() && production.Valid() && production.LinkedTo(sales)
    requires id < |sales.orders| && sales.orders[id].status == OrderStatus.Approved
    modifies sales`orders, sales`notices, production`tasks, ledger`stock
    ensures sales.Valid() && production.Valid() && production.LinkedTo(sales)
    ensures Positive(old(sales.orders[id].items))
    ensures
      var items := old(sales.orders[id].items);
      var verdicts := Verdicts(old(ledger.stock), items);
      var status := if AllReserved(verdicts) then OrderStatus.ReadyToShip else OrderStatus.InProduction;
      && ledger.stock == StockAfter(old(ledger.stock), items)
      && production.tasks == old(production.tasks) + ShortTasks(id, items, verdicts)
      && sales.orders == old(sales.orders)[id := old(sales.orders[id]).(status := status)]
      && sales.notices == old(sales.notices) +
           (if AllReserved(verdicts) then [ShippingNotice(id, NoticeStatus.Pending)] else [])
  {
    var items := sales.orders[id].items;
    assert forall i :: 0 <= i < |items| ==> items[i] in items;
    var allSufficient := ReserveOrRaiseAll(production, ledger, id, items);
    ShortTasksArePendingShortages(id, items, Verdicts(old(ledger.stock), items));
    assert production.Valid() && production.LinkedTo(sales);
    RecordOutcome(sales, production, id, allSufficient);
  }

  /** The last step of check_inventory_and_create_tasks: the order becomes
      ready to ship, with a pending shipping notice, when every line was
      reserved, and goes into production otherwise. The status is written
      before the notice is created (the source does the reverse inside one
      transaction), so that the book stays valid. */
  method RecordOutcome(sales: SalesBook, production: ProductionBook, id: nat, allSufficient: bool)
    requires sales.Valid() && production.Valid() && production.LinkedTo(sales)
    requires id < |sales.orders| && sales.orders[id].status == OrderStatus.Approved
    modifies sales`orders, sales`notices
    ensures sales.Valid() && production.LinkedTo(sales)
    ensures
      var status := if allSufficient then OrderStatus.ReadyToShip else OrderStatus.InProduction;
      && sales.orders == old(sales.orders)[id := old(sales.orders[id]).(status := status)]
      && sales.notices == old(sales.notices) +
           (if allSufficient then [ShippingNotice(id, NoticeStatus.Pending)] else [])
  {
    if allSufficient {
      sales.SetStatus(id, OrderStatus.ReadyToShip);
      sales.CreateNotice(id);
    } else {
      sales.SetStatus(id, OrderStatus.InProduction);
    }
  }

  /** order_approve, POST branch: a missing order or one that is not pending
      is refused with nothing changed; otherwise the order is approved and
      the stock check runs, which never leaves it at approved. */
  method OrderApprove(sales: SalesBook, production: ProductionBook, ledger: Ledger, id: nat)
    returns (r: Result<OrderStatus>)
    requires sales.Valid() && production.Valid() && production.LinkedTo(sales)
    modifies sales`orders, sales`notices, production`tasks, ledger`stock
    ensures sales.Valid() && production.Valid() && production.LinkedTo(sales)
    ensures id >= |old(sales.orders)| ==> r == Err(NotFound)
    ensures id < |old(sales.orders)| && old(sales.orders[id].status) != OrderStatus.Pending ==> r == Err(WrongStatus)
    ensures r.Ok? <==> id < |old(sales.orders)| && old(sales.orders[id].status) == OrderStatus.Pending
    ensures r.Err? ==> sales.orders == old(sales.orders) && sales.notices == old(sales.notices) && production.tasks == old(production.tasks) && ledger.stock == old(ledger.stock)
    ensures r.Ok? ==>
      && r.value != OrderStatus.Approved
      && var items := old(sales.orders[id].items);
      && var verdicts := Verdicts(old(ledger.stock), items);
      && r.value == (if AllReserved(verdicts) then OrderStatus.ReadyToShip else OrderStatus.InProduction)
      && ledger.stock == StockAfter(old(ledger.stock), items)
      && production.tasks == old(production.tasks) + ShortTasks(id, items, verdicts)
      && sales.orders == old(sales.orders)[id := old(sales.orders[id]).(status := r.value)]
      && sales.notices == old(sales.notices) +
           (if AllReserved(verdicts) then [ShippingNotice(id, NoticeStatus.Pending)] else [])
  {
    if id >= |sales.orders| {
      return Err(NotFound);
    }
    if sales.orders[id].status != OrderStatus.Pending {
      return Err(WrongStatus);
    }
    sales.SetStatus(id, OrderStatus.Approved);
    CheckInventoryAndCreateTasks(sales, production, ledger, id);
    r := Ok(sales.orders[id].status);
  }
}

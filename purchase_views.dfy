/** purchase/views.py: creating a purchase task from the posted item lists,
    approving it, receiving goods into material stock, and terminating it. */
module PurchaseViews {
  import opened Common
  import opened InventoryModels
  import opened PurchaseModels

  /** A posted form value: the empty string, or the value it parses to. */
  datatype Posted<+T> = Blank | Value(value: T)

  // ---------------------------------------------------------------------
  // task_create

  /** One row of `zip(material_ids, quantities, unit_prices)`. */
  datatype PostedRow = PostedRow(material: Posted<MaterialId>, quantity: Posted<real>, unitPrice: Posted<real>)

  function Min3(a: nat, b: nat, c: nat): (m: nat)
    ensures m <= a && m <= b && m <= c && (m == a || m == b || m == c)
  {
    if a <= b && a <= c then a else if b <= c then b else c
  }

  /** zip() stops at the shortest of the three lists. */
  function ZipRows(ids: seq<Posted<MaterialId>>, quantities: seq<Posted<real>>, prices: seq<Posted<real>>)
    : seq<PostedRow>
  {
    seq(Min3(|ids|, |quantities|, |prices|), k requires 0 <= k < Min3(|ids|, |quantities|, |prices|) =>
      PostedRow(ids[k], quantities[k], prices[k]))
  }

  /** The loop skips a row with any of its three fields empty. */
  predicate Complete(row: PostedRow)
  {
    row.material.Value? && row.quantity.Value? && row.unitPrice.Value?
  }

  /** The item created for a complete row: subtotal = quantity × unit
      price, nothing received yet. */
  function ItemOfRow(row: PostedRow): PurchaseTaskItem
    requires Complete(row)
  {
    PurchaseTaskItem(row.material.value, row.quantity.value, row.unitPrice.value, LineAmount(row), 0.0)
  }

  /** `subtotal = quantity * unit_price` of one complete row. */
  function LineAmount(row: PostedRow): real
    requires Complete(row)
  {
    row.quantity.value * row.unitPrice.value
  }

  /** The items the loop creates, in row order. */
  function RowItems(rows: seq<PostedRow>): (r: seq<PurchaseTaskItem>)
    ensures |r| <= |rows|
  {
    if rows == [] then []
    else
      var n := |rows| - 1;
      RowItems(rows[..n]) + (if Complete(rows[n]) then [ItemOfRow(rows[n])] else [])
  }

  /** The created items are exactly the items of the complete rows. */
  lemma {:induction false} RowItemsAreCompleteRows(rows: seq<PostedRow>)
    ensures forall row :: row in rows && Complete(row) ==> ItemOfRow(row) in RowItems(rows)
    ensures forall it :: it in RowItems(rows) ==> exists row :: row in rows && Complete(row) && it == ItemOfRow(row)
  {
    if rows != [] {
      var n := |rows| - 1;
      var init := rows[..n];
      assert rows == init + [rows[n]];
      RowItemsAreCompleteRows(init);
      forall it | it in RowItems(rows) ensures exists row :: row in rows && Complete(row) && it == ItemOfRow(row) {
        if it in RowItems(init) {
          var row :| row in init && Complete(row) && it == ItemOfRow(row);
          assert row in rows;
        } else {
          assert Complete(rows[n]) && it == ItemOfRow(rows[n]);
        }
      }
    }
  }

  /** The loop's running `total_amount += subtotal`. */
  function ItemsTotal(items: seq<PurchaseTaskItem>): real
  {
    if items == [] then 0.0 else ItemsTotal(items[..|items| - 1]) + items[|items| - 1].subtotal
  }

  /** The total as the view states it: quantity × unit price summed over
      the complete rows; skipped rows contribute nothing. */
  function RowsAmount(rows: seq<PostedRow>): real
  {
    if rows == [] then 0.0
    else (if Complete(rows[0]) then LineAmount(rows[0]) else 0.0) + RowsAmount(rows[1..])
  }

  lemma {:induction false} RowsAmountSnoc(rows: seq<PostedRow>, row: PostedRow)
    ensures RowsAmount(rows + [row]) ==
      RowsAmount(rows) + (if Complete(row) then LineAmount(row) else 0.0)
  {
    if rows == [] {
      assert [row][1..] == [];
    } else {
      assert (rows + [row])[1..] == rows[1..] + [row];
      RowsAmountSnoc(rows[1..], row);
    }
  }

  /** The saved total_amount is the sum over the complete rows. */
  lemma {:induction false} ItemsTotalIsRowsAmount(rows: seq<PostedRow>)
    ensures ItemsTotal(RowItems(rows)) == RowsAmount(rows)
  {
    if rows != [] {
      var n := |rows| - 1;
      var init := rows[..n];
      var row := rows[n];
      assert rows == init + [row];
      ItemsTotalIsRowsAmount(init);
      RowsAmountSnoc(init, row);
      var prior := RowItems(init);
      if Complete(row) {
        var s := prior + [ItemOfRow(row)];
        assert RowItems(rows) == s;
        assert s[..|s| - 1] == prior;
      } else {
        assert RowItems(rows) == prior;
      }
    }
  }

  /** Every complete row names an existing material (Material.objects.get
      succeeds). */
  predicate MaterialsExist(rows: seq<PostedRow>, materialCount: nat)
  {
    forall k :: 0 <= k < |rows| && Complete(rows[k]) ==> rows[k].material.value < materialCount
  }

  /** The item loop of task_create: the items and their total, or NotFound
      at the first complete row whose material does not exist. */
  method BuildItems(rows: seq<PostedRow>, materialCount: nat)
    returns (r: Result<(seq<PurchaseTaskItem>, real)>)
    ensures r.Err? <==> !MaterialsExist(rows, materialCount)
    ensures r.Err? ==> r.refusal == NotFound
    ensures r.Ok? ==> r.value.0 == RowItems(rows) && r.value.1 == ItemsTotal(RowItems(rows))
  {
    var items: seq<PurchaseTaskItem> := [];
    var total := 0.0;
    var i := 0;
    while i < |rows|
      invariant 0 <= i <= |rows|
      invariant MaterialsExist(rows[..i], materialCount)
      invariant items == RowItems(rows[..i]) && total == ItemsTotal(items)
    {
      var row := rows[i];
      assert rows[..i + 1] == rows[..i] + [row];
      assert rows[..i + 1][..i] == rows[..i];
      if Complete(row) {
        if row.material.value >= materialCount {
          return Err(NotFound);
        }
        var item := ItemOfRow(row);
        assert (items + [item])[..|items|] == items;
        items := items + [item];
        total := total + item.subtotal;
      }
      i := i + 1;
    }
    assert rows[..|rows|] == rows;
    r := Ok((items, total));
  }

  /** task_create, POST branch: a supplier blank after strip(), no material
      row, or an empty material id is refused, and so is a complete row
      naming no material (its DoesNotExist rolls the task back); otherwise
      one pending task is added holding the complete rows' items and their
      total, with the stripped text fields. */
  method TaskCreate(purchase: PurchaseBook, materialCount: nat, supplier: string, contactPerson: string,
                    contactPhone: string, remark: string, materialIds: seq<Posted<MaterialId>>,
                    quantities: seq<Posted<real>>, unitPrices: seq<Posted<real>>, createdBy: nat)
    returns (r: Result<nat>)
    modifies purchase`tasks
    ensures IsBlank(supplier) ==> r == Err(BlankInput)
    ensures !IsBlank(supplier) && (materialIds == [] || exists k :: 0 <= k < |materialIds| && materialIds[k].Blank?) ==>
      r == Err(InvalidForm)
    ensures r == Err(NotFound) <==>
      && !IsBlank(supplier) && materialIds != [] && (forall k :: 0 <= k < |materialIds| ==> materialIds[k].Value?)
      && !MaterialsExist(ZipRows(materialIds, quantities, unitPrices), materialCount)
    ensures r.Ok? <==>
      && !IsBlank(supplier) && materialIds != [] && (forall k :: 0 <= k < |materialIds| ==> materialIds[k].Value?)
      && MaterialsExist(ZipRows(materialIds, quantities, unitPrices), materialCount)
    ensures r.Err? ==> purchase.tasks == old(purchase.tasks)
    ensures r.Ok? ==>
      && r.value == |old(purchase.tasks)|
      && var items := RowItems(ZipRows(materialIds, quantities, unitPrices));
      && purchase.tasks == old(purchase.tasks) +
           [PurchaseTask(Strip(supplier), Strip(contactPerson), Strip(contactPhone), Strip(remark),
                         ItemsTotal(items), PurchaseStatus.Pending, createdBy, "", items)]
  {
    var name := Strip(supplier);
    StripEmptyIffBlank(supplier);
    if name == [] {
      return Err(BlankInput);
    }
    if materialIds == [] || exists k :: 0 <= k < |materialIds| && materialIds[k].Blank? {
      return Err(InvalidForm);
    }
    var built := BuildItems(ZipRows(materialIds, quantities, unitPrices), materialCount);
    if built.Err? {
      return Err(built.refusal);
    }
    var (items, total) := built.value;
    purchase.tasks := purchase.tasks +
      [PurchaseTask(name, Strip(contactPerson), Strip(contactPhone), Strip(remark),
                    total, PurchaseStatus.Pending, createdBy, "", items)];
    r := Ok(|purchase.tasks| - 1);
  }

  // ---------------------------------------------------------------------
  // task_approve

  /** task_approve, POST branch: only a pending task is approved. */
  method TaskApprove(purchase: PurchaseBook, id: nat) returns (r: Result<()>)
    modifies purchase`tasks
    ensures id >= |old(purchase.tasks)| ==> r == Err(NotFound)
    ensures id < |old(purchase.tasks)| && old(purchase.tasks[id].status) != PurchaseStatus.Pending ==> r == Err(WrongStatus)
    ensures r.Ok? <==> id < |old(purchase.tasks)| && old(purchase.tasks[id].status) == PurchaseStatus.Pending
    ensures r.Err? ==> purchase.tasks == old(purchase.tasks)
    ensures r.Ok? ==>
      purchase.tasks == old(purchase.tasks)[id := old(purchase.tasks[id]).(status := PurchaseStatus.Approved)]
  {
    if id >= |purchase.tasks| {
      return Err(NotFound);
    }
    if purchase.tasks[id].status != PurchaseStatus.Pending {
      return Err(WrongStatus);
    }
    purchase.tasks := purchase.tasks[id := purchase.tasks[id].(status := PurchaseStatus.Approved)];
    r := Ok(());
  }

  // ---------------------------------------------------------------------
  // task_complete

  /** The amount received for the item at `k`: the posted
      received_quantity, '0' when the field is absent; only a value above
      0 is a receipt. */
  function Receipt(received: map<nat, Posted<real>>, k: nat): (q: Option<real>)
    ensures q.Some? <==> (k in received && received[k].Value? && received[k].value > 0.0)
    ensures q.Some? ==> q.value == received[k].value
  {
    var posted := if k in received then received[k] else Value(0.0);
    if posted.Value? && posted.value > 0.0 then Some(posted.value) else None
  }

  /** The item after the loop: a receipt replaces received_quantity. */
  function ReceivedItem(item: PurchaseTaskItem, q: Option<real>): PurchaseTaskItem
  {
    if q.Some? then item.(receivedQuantity := q.value) else item
  }

  /** The stock lines the loop credits: one per item with a receipt. */
  function ReceiptLines(items: seq<PurchaseTaskItem>, received: map<nat, Posted<real>>): seq<StockLine>
  {
    if items == [] then []
    else
      var n := |items| - 1;
      var q := Receipt(received, n);
      ReceiptLines(items[..n], received) + (if q.Some? then [StockLine(MaterialKey(items[n].material), q.value)] else [])
  }

  /** The summed receipts for `material` over the items. */
  function ReceivedFor(items: seq<PurchaseTaskItem>, received: map<nat, Posted<real>>, material: MaterialId): real
  {
    if items == [] then 0.0
    else
      var n := |items| - 1;
      var q := Receipt(received, n);
      ReceivedFor(items[..n], received, material) + (if q.Some? && items[n].material == material then q.value else 0.0)
  }

  lemma {:induction false} ReceiptLinesQuantity(items: seq<PurchaseTaskItem>, received: map<nat, Posted<real>>, key: ItemKey)
    ensures QuantityFor(ReceiptLines(items, received), key) ==
      (if key.MaterialKey? then ReceivedFor(items, received, key.material) else 0.0)
  {
    if items != [] {
      var n := |items| - 1;
      var prior := ReceiptLines(items[..n], received);
      ReceiptLinesQuantity(items[..n], received, key);
      var q := Receipt(received, n);
      if q.Some? {
        var lines := prior + [StockLine(MaterialKey(items[n].material), q.value)];
        assert ReceiptLines(items, received) == lines;
        assert lines[..|lines| - 1] == prior;
      } else {
        assert ReceiptLines(items, received) == prior;
      }
    }
  }

  /** Receiving credits every material row with the summed receipts for its
      material, creating at 0 the rows that were missing; other rows are
      untouched. */
  lemma {:induction false} ReceiptsCreditMaterials(stock: map<ItemKey, real>, items: seq<PurchaseTaskItem>,
                                                   received: map<nat, Posted<real>>)
    ensures forall key :: key in stock ==> key in Added(stock, ReceiptLines(items, received))
    ensures forall key :: key in Added(stock, ReceiptLines(items, received)) ==>
      Added(stock, ReceiptLines(items, received))[key] ==
        Available(stock, key) + (if key.MaterialKey? then ReceivedFor(items, received, key.material) else 0.0)
  {
    AddedNet(stock, ReceiptLines(items, received));
    forall key | key in Added(stock, ReceiptLines(items, received)) {
      ReceiptLinesQuantity(items, received, key);
    }
  }

  lemma ReceiptLinesStep(items: seq<PurchaseTaskItem>, received: map<nat, Posted<real>>, i: nat)
    requires i < |items|
    ensures Receipt(received, i).None? ==> ReceiptLines(items[..i + 1], received) == ReceiptLines(items[..i], received)
    ensures Receipt(received, i).Some? ==>
      ReceiptLines(items[..i + 1], received) ==
        ReceiptLines(items[..i], received) + [StockLine(MaterialKey(items[i].material), Receipt(received, i).value)]
  {
    assert items[..i + 1][..i] == items[..i];
  }

  predicate AllReceived(items: seq<PurchaseTaskItem>)
  {
    forall k :: 0 <= k < |items| ==> items[k].receivedQuantity >= items[k].quantity
  }

  /** The receipt loop of task_complete over a task's items. */
  method ReceiveItems(ledger: Ledger, items: seq<PurchaseTaskItem>, received: map<nat, Posted<real>>, ref: Reference)
    returns (after: seq<PurchaseTaskItem>)
    modifies ledger`stock, ledger`log
    ensures |after| == |items|
    ensures forall k :: 0 <= k < |items| ==> after[k] == ReceivedItem(items[k], Receipt(received, k))
    ensures ledger.stock == Added(old(ledger.stock), ReceiptLines(items, received))
    ensures ledger.log == old(ledger.log) + Logged(PurchaseIn, ReceiptLines(items, received), ref)
  {
    ghost var start, startLog := ledger.stock, ledger.log;
    after := [];
    var i := 0;
    while i < |items|
      invariant 0 <= i <= |items| && |after| == i
      invariant forall k :: 0 <= k < i ==> after[k] == ReceivedItem(items[k], Receipt(received, k))
      invariant ledger.stock == Added(start, ReceiptLines(items[..i], received))
      invariant ledger.log == startLog + Logged(PurchaseIn, ReceiptLines(items[..i], received), ref)
    {
      var q := Receipt(received, i);
      ReceiptLinesStep(items, received, i);
      if q.Some? {
        ledger.ReceiveStep(start, startLog, ReceiptLines(items[..i], received),
                           StockLine(MaterialKey(items[i].material), q.value), PurchaseIn, ref);
      }
      after := after + [ReceivedItem(items[i], q)];
      i := i + 1;
    }
    assert items[..|items|] == items;
  }

  /** task_complete, POST branch: only an approved or purchasing task is
      completed. Each item with a receipt has its received_quantity replaced
      by it and its material row credited (created at 0 when missing) with
      one purchase_in transaction; the task becomes completed when every
      item has received at least its quantity, else purchasing. */
  method TaskComplete(purchase: PurchaseBook, ledger: Ledger, id: nat, received: map<nat, Posted<real>>)
    returns (r: Result<PurchaseStatus>)
    modifies purchase`tasks, ledger`stock, ledger`log
    ensures id >= |old(purchase.tasks)| ==> r == Err(NotFound)
    ensures (id < |old(purchase.tasks)| && old(purchase.tasks[id].status) != PurchaseStatus.Approved
             && old(purchase.tasks[id].status) != PurchaseStatus.Purchasing) ==> r == Err(WrongStatus)
    ensures r.Ok? <==>
      && id < |old(purchase.tasks)|
      && (old(purchase.tasks[id].status) == PurchaseStatus.Approved || old(purchase.tasks[id].status) == PurchaseStatus.Purchasing)
    ensures r.Err? ==>
      purchase.tasks == old(purchase.tasks) && ledger.stock == old(ledger.stock) && ledger.log == old(ledger.log)
    ensures r.Ok? ==>
      && id < |old(purchase.tasks)|
      && var task := old(purchase.tasks[id]);
      && (task.status == PurchaseStatus.Approved || task.status == PurchaseStatus.Purchasing)
      && |purchase.tasks| == |old(purchase.tasks)|
      && (forall j :: 0 <= j < |purchase.tasks| && j != id ==> purchase.tasks[j] == old(purchase.tasks[j]))
      && var after := purchase.tasks[id];
      && after == task.(items := after.items, status := r.value)
      && |after.items| == |task.items|
      && (forall k :: 0 <= k < |task.items| ==> after.items[k] == ReceivedItem(task.items[k], Receipt(received, k)))
      && r.value == (if AllReceived(after.items) then PurchaseStatus.Completed else PurchaseStatus.Purchasing)
      && ledger.stock == Added(old(ledger.stock), ReceiptLines(task.items, received))
      && ledger.log == old(ledger.log) + Logged(PurchaseIn, ReceiptLines(task.items, received), PurchaseTaskRef(id))
  {
    if id >= |purchase.tasks| {
      return Err(NotFound);
    }
    var task := purchase.tasks[id];
    if task.status != PurchaseStatus.Approved && task.status != PurchaseStatus.Purchasing {
      return Err(WrongStatus);
    }
    var items := ReceiveItems(ledger, task.items, received, PurchaseTaskRef(id));
    var status := if AllReceived(items) then PurchaseStatus.Completed else PurchaseStatus.Purchasing;
    purchase.tasks := purchase.tasks[id := task.(items := items, status := status)];
    r := Ok(status);
  }

  // ---------------------------------------------------------------------
  // task_terminate

  /** task_terminate, POST branch: only a pending, approved or purchasing
      task is terminated, and only with a reason that is not blank after
      strip(); the stripped reason is kept. */
  method TaskTerminate(purchase: PurchaseBook, id: nat, reason: string) returns (r: Result<()>)
    modifies purchase`tasks
    ensures id >= |old(purchase.tasks)| ==> r == Err(NotFound)
    ensures (id < |old(purchase.tasks)| && old(purchase.tasks[id].status) !in
             {PurchaseStatus.Pending, PurchaseStatus.Approved, PurchaseStatus.Purchasing}) ==> r == Err(WrongStatus)
    ensures (id < |old(purchase.tasks)| && old(purchase.tasks[id].status) in
      {PurchaseStatus.Pending, PurchaseStatus.Approved, PurchaseStatus.Purchasing} && IsBlank(reason)) ==>
      r == Err(BlankInput)
    ensures r.Ok? <==>
      && id < |old(purchase.tasks)| && !IsBlank(reason)
      && old(purchase.tasks[id].status) in {PurchaseStatus.Pending, PurchaseStatus.Approved, PurchaseStatus.Purchasing}
    ensures r.Err? ==> purchase.tasks == old(purchase.tasks)
    ensures r.Ok? ==>
      purchase.tasks == old(purchase.tasks)[id :=
           old(purchase.tasks[id]).(status := PurchaseStatus.Terminated, terminateReason := Strip(reason))]
  {
    if id >= |purchase.tasks| {
      return Err(NotFound);
    }
    var status := purchase.tasks[id].status;
    if status !in {PurchaseStatus.Pending, PurchaseStatus.Approved, PurchaseStatus.Purchasing} {
      return Err(WrongStatus);
    }
    var why := Strip(reason);
    StripEmptyIffBlank(reason);
    if why == [] {
      return Err(BlankInput);
    }
    purchase.tasks := purchase.tasks[id := purchase.tasks[id].(status := PurchaseStatus.Terminated, terminateReason := why)];
    r := Ok(());
  }
}

/** production/views.py: task receipt with its BOM expansion into a material
    requisition, requisition approval, QC records, finished-product inbound
    and the ready-to-ship check it triggers. */
module ProductionViews {
  import opened Common
  import opened InventoryModels
  import opened SalesModels
  import opened ProductionModels

  // ---------------------------------------------------------------------
  // task_receive and create_material_requisition

  /** `items` has one item per BOM row, in BOM order: the row's material and
      unit, BOM quantity × `required`, nothing issued yet. */
  ghost predicate ExpandsBom(items: seq<RequisitionItem>, bom: seq<BomLine>, required: real)
  {
    && |items| == |bom|
    && forall k :: 0 <= k < |bom| ==>
         items[k] == RequisitionItem(bom[k].material, bom[k].quantity * required, 0.0, bom[k].unit)
  }

  /** The item loop of create_material_requisition. */
  method ExpandBom(bom: seq<BomLine>, required: real) returns (items: seq<RequisitionItem>)
    ensures ExpandsBom(items, bom, required)
  {
    items := [];
    var i := 0;
    while i < |bom|
      invariant 0 <= i <= |bom|
      invariant ExpandsBom(items, bom[..i], required)
    {
      var line := bom[i];
      items := items + [RequisitionItem(line.material, line.quantity * required, 0.0, line.unit)];
      i := i + 1;
    }
    assert bom[..|bom|] == bom;
  }

  /** The outcome of create_material_requisition, from the requisitions
      before and after and its result: nothing for a product without BOM
      rows, else one new pending requisition of the task expanding the BOM. */
  ghost predicate RequisitionCreated(
    before: seq<MaterialRequisition>, after: seq<MaterialRequisition>, r: Option<nat>,
    taskId: nat, bom: seq<BomLine>, required: real)
  {
    if bom == [] then r == None && after == before
    else
      && r == Some(|before|)
      && |after| == |before| + 1 && after[..|before|] == before
      && after[|before|].task == taskId
      && after[|before|].status == RequisitionStatus.Pending
      && ExpandsBom(after[|before|].items, bom, required)
  }

  /** create_material_requisition(task). */
  method CreateMaterialRequisition(production: ProductionBook, catalog: Catalog, taskId: nat)
    returns (r: Option<nat>)
    requires production.Valid() && catalog.Valid() && taskId < |production.tasks|
    modifies production`requisitions
    ensures production.Valid()
    ensures RequisitionCreated(old(production.requisitions), production.requisitions, r, taskId,
      BomOf(catalog.boms, production.tasks[taskId].product), production.tasks[taskId].requiredQuantity)
  {
    var task := production.tasks[taskId];
    var bom := BomOf(catalog.boms, task.product);
    if bom == [] {
      return None;
    }
    var items := ExpandBom(bom, task.requiredQuantity);
    BomOfDistinctMaterials(catalog.boms, task.product);
    assert DistinctMaterials(items) by {
      forall i, j | 0 <= i < j < |items| ensures items[i].material != items[j].material {
        assert items[i].material == bom[i].material && items[j].material == bom[j].material;
      }
    }
    production.requisitions := production.requisitions + [MaterialRequisition(taskId, RequisitionStatus.Pending, items)];
    r := Some(|production.requisitions| - 1);
  }

  /** task_receive, POST branch: only a pending task is received; it becomes
      received at `now`, and then its requisition is created from the BOM. */
  method TaskReceive(production: ProductionBook, catalog: Catalog, id: nat, now: int)
    returns (r: Result<Option<nat>>)
    requires production.Valid() && catalog.Valid()
    modifies production`tasks, production`requisitions
    ensures production.Valid()
    ensures id >= |old(production.tasks)| ==> r == Err(NotFound)
    ensures id < |old(production.tasks)| && old(production.tasks[id].status) != TaskStatus.Pending ==>
      r == Err(WrongStatus)
    ensures r.Ok? <==> id < |old(production.tasks)| && old(production.tasks[id].status) == TaskStatus.Pending
    ensures r.Err? ==>
      production.tasks == old(production.tasks) && production.requisitions == old(production.requisitions)
    ensures r.Ok? ==>
      && production.tasks ==
           old(production.tasks)[id := old(production.tasks[id]).(status := TaskStatus.Received, receivedAt := Some(now))]
      && RequisitionCreated(old(production.requisitions), production.requisitions, r.value, id,
           BomOf(catalog.boms, old(production.tasks[id].product)), old(production.tasks[id].requiredQuantity))
  {
    if id >= |production.tasks| {
      return Err(NotFound);
    }
    if production.tasks[id].status != TaskStatus.Pending {
      return Err(WrongStatus);
    }
    production.tasks := production.tasks[id := production.tasks[id].(status := TaskStatus.Received, receivedAt := Some(now))];
    var req := CreateMaterialRequisition(production, catalog, id);
    r := Ok(req);
  }

  // ---------------------------------------------------------------------
  // requisition_approve

  /** One entry of the view's `insufficient_items` list. */
  datatype Shortfall = Shortfall(material: MaterialId, required: real, available: real)

  /** The material row of an item exists and holds its required quantity. */
  predicate Covers(stock: map<ItemKey, real>, item: RequisitionItem)
  {
    MaterialKey(item.material) in stock && stock[MaterialKey(item.material)] >= item.requiredQuantity
  }

  predicate Covered(stock: map<ItemKey, real>, items: seq<RequisitionItem>)
  {
    forall k :: 0 <= k < |items| ==> Covers(stock, items[k])
  }

  /** The `insufficient_items` the check loop collects: an entry for each
      item whose material row is missing (available 0) or short. */
  function Shortfalls(stock: map<ItemKey, real>, items: seq<RequisitionItem>): (r: seq<Shortfall>)
    ensures |r| <= |items|
    ensures r == [] <==> Covered(stock, items)
    ensures forall s :: s in r ==> s.available == Available(stock, MaterialKey(s.material))
  {
    if items == [] then []
    else
      var n := |items| - 1;
      var item := items[n];
      assert Covered(stock, items) <==> Covered(stock, items[..n]) && Covers(stock, item);
      Shortfalls(stock, items[..n])
        + (if Covers(stock, item) then []
           else [Shortfall(item.material, item.requiredQuantity, Available(stock, MaterialKey(item.material)))])
  }

  /** The check loop of requisition_approve. */
  method FindShortfalls(stock: map<ItemKey, real>, items: seq<RequisitionItem>) returns (insufficient: seq<Shortfall>)
    ensures insufficient == Shortfalls(stock, items)
  {
    insufficient := [];
    var i := 0;
    while i < |items|
      invariant 0 <= i <= |items|
      invariant insufficient == Shortfalls(stock, items[..i])
    {
      var item := items[i];
      assert items[..i + 1][..i] == items[..i];
      var key := MaterialKey(item.material);
      if key in stock {
        if stock[key] < item.requiredQuantity {
          insufficient := insufficient + [Shortfall(item.material, item.requiredQuantity, stock[key])];
        }
      } else {
        insufficient := insufficient + [Shortfall(item.material, item.requiredQuantity, 0.0)];
      }
      i := i + 1;
    }
    assert items[..|items|] == items;
  }

  /** The debit loop's lines: each item's required quantity from its material row. */
  function IssueLines(items: seq<RequisitionItem>): seq<StockLine>
  {
    seq(|items|, k requires 0 <= k < |items| => StockLine(MaterialKey(items[k].material), items[k].requiredQuantity))
  }

  function MaterialKeys(items: seq<RequisitionItem>): set<ItemKey>
  {
    set k | 0 <= k < |items| :: MaterialKey(items[k].material)
  }

  /** On a covered requisition naming each material once, the debit takes
      exactly the required quantity from each material row, leaves it at
      0 or more, and touches no other row. */
  lemma {:induction false} RequisitionDebitIsExact(stock: map<ItemKey, real>, items: seq<RequisitionItem>)
    requires Covered(stock, items) && DistinctMaterials(items)
    ensures RowsExist(stock, IssueLines(items))
    ensures forall k :: 0 <= k < |items| ==>
      var key := MaterialKey(items[k].material);
      Deducted(stock, IssueLines(items))[key] == stock[key] - items[k].requiredQuantity >= 0.0
    ensures forall key :: key in stock && key !in MaterialKeys(items) ==>
      Deducted(stock, IssueLines(items))[key] == stock[key]
  {
    var lines := IssueLines(items);
    assert RowsExist(stock, lines) by {
      forall l | l in lines ensures l.inventory in stock {
        var k :| 0 <= k < |lines| && lines[k] == l;
        assert Covers(stock, items[k]);
      }
    }
    DeductedNet(stock, lines);
    assert DistinctRows(lines) by {
      forall i, j | 0 <= i < j < |lines| ensures lines[i].inventory != lines[j].inventory {
        assert items[i].material != items[j].material;
      }
    }
    forall k | 0 <= k < |items|
      ensures Deducted(stock, lines)[MaterialKey(items[k].material)]
        == stock[MaterialKey(items[k].material)] - items[k].requiredQuantity
    {
      QuantityForDistinct(lines, k);
      assert Covers(stock, items[k]);
    }
    forall key | key in stock && key !in MaterialKeys(items)
      ensures Deducted(stock, lines)[key] == stock[key]
    {
      forall l | l in lines ensures l.inventory != key {
        var k :| 0 <= k < |lines| && lines[k] == l;
        assert MaterialKey(items[k].material) in MaterialKeys(items);
      }
      QuantityForUnnamed(lines, key);
    }
  }

  /** requisition_approve, POST branch: a missing requisition, one that is
      not pending, or one with a shortfall is refused with nothing changed;
      otherwise the requisition is approved, every item's material row is
      debited with one production_out transaction per item, and the task
      moves to material_preparing. */
  method RequisitionApprove(production: ProductionBook, ledger: Ledger, id: nat)
    returns (r: Result<()>)
    requires production.Valid()
    modifies production`requisitions, production`tasks, ledger`stock, ledger`log
    ensures production.Valid()
    ensures id >= |old(production.requisitions)| ==> r == Err(NotFound)
    ensures id < |old(production.requisitions)| && old(production.requisitions[id].status) != RequisitionStatus.Pending ==>
      r == Err(WrongStatus)
    ensures (id < |old(production.requisitions)| && old(production.requisitions[id].status) == RequisitionStatus.Pending
             && !Covered(old(ledger.stock), old(production.requisitions[id].items))) ==> r == Err(Insufficient)
    ensures r.Ok? <==>
      && id < |old(production.requisitions)| && old(production.requisitions[id].status) == RequisitionStatus.Pending
      && Covered(old(ledger.stock), old(production.requisitions[id].items))
    ensures r.Err? ==>
      && production.requisitions == old(production.requisitions) && production.tasks == old(production.tasks)
      && ledger.stock == old(ledger.stock) && ledger.log == old(ledger.log)
    ensures r.Ok? ==>
      && id < |old(production.requisitions)|
      && var req := old(production.requisitions[id]);
      && req.status == RequisitionStatus.Pending && Covered(old(ledger.stock), req.items)
      && DistinctMaterials(req.items)
      && production.requisitions == old(production.requisitions)[id := req.(status := RequisitionStatus.Approved)]
      && req.task < |old(production.tasks)|
      && production.tasks == old(production.tasks)[req.task := old(production.tasks[req.task]).(status := TaskStatus.MaterialPreparing)]
      && RowsExist(old(ledger.stock), IssueLines(req.items))
      && ledger.stock == Deducted(old(ledger.stock), IssueLines(req.items))
      && ledger.log == old(ledger.log) + Logged(ProductionOut, IssueLines(req.items), RequisitionRef(id))
  {
    if id >= |production.requisitions| {
      return Err(NotFound);
    }
    var req := production.requisitions[id];
    if req.status != RequisitionStatus.Pending {
      return Err(WrongStatus);
    }
    assert req in production.requisitions;
    var insufficient := FindShortfalls(ledger.stock, req.items);
    if insufficient != [] {
      return Err(Insufficient);
    }
    RequisitionDebitIsExact(ledger.stock, req.items);
    production.requisitions := production.requisitions[id := req.(status := RequisitionStatus.Approved)];
    ledger.Issue(IssueLines(req.items), ProductionOut, RequisitionRef(id));
    production.tasks := production.tasks[req.task := production.tasks[req.task].(status := TaskStatus.MaterialPreparing)];
    r := Ok(());
  }

  // ---------------------------------------------------------------------
  // qc_create

  /** qc_create, POST branch: the record is added for any existing task; a
      qualified result moves the task to qc_checking, any other result
      leaves its status alone. */
  method QcCreate(production: ProductionBook, taskId: nat, batchNo: string,
                  inspected: real, qualified: real, unqualified: real, result: QcResult)
    returns (r: Result<nat>)
    requires production.Valid()
    modifies production`qcRecords, production`tasks
    ensures production.Valid()
    ensures r.Ok? <==> taskId < |old(production.tasks)|
    ensures r.Err? ==> r == Err(NotFound)
    ensures r.Err? ==> production.qcRecords == old(production.qcRecords) && production.tasks == old(production.tasks)
    ensures r.Ok? ==>
      && taskId < |old(production.tasks)| && r.value == |old(production.qcRecords)|
      && production.qcRecords ==
           old(production.qcRecords) + [QcRecord(taskId, batchNo, inspected, qualified, unqualified, result)]
      && production.tasks ==
           (if result == Qualified
            then old(production.tasks)[taskId := old(production.tasks[taskId]).(status := TaskStatus.QcChecking)]
            else old(production.tasks))
  {
    if taskId >= |production.tasks| {
      return Err(NotFound);
    }
    production.qcRecords := production.qcRecords + [QcRecord(taskId, batchNo, inspected, qualified, unqualified, result)];
    if result == Qualified {
      production.tasks := production.tasks[taskId := production.tasks[taskId].(status := TaskStatus.QcChecking)];
    }
    r := Ok(|production.qcRecords| - 1);
  }

  // ---------------------------------------------------------------------
  // check_order_ready_to_ship and inbound_create

  /** The product row of an order item exists and holds the item's quantity. */
  predicate Stocked(stock: map<ItemKey, real>, item: SalesOrderItem)
  {
    ProductKey(item.product) in stock && stock[ProductKey(item.product)] >= item.quantity
  }

  predicate AllStocked(stock: map<ItemKey, real>, items: seq<SalesOrderItem>)
  {
    forall k :: 0 <= k < |items| ==> Stocked(stock, items[k])
  }

  /** The `all_ready` loop of check_order_ready_to_ship, which stops at the
      first item whose product row is missing or short. */
  method AllReady(stock: map<ItemKey, real>, items: seq<SalesOrderItem>) returns (allReady: bool)
    ensures allReady <==> AllStocked(stock, items)
  {
    allReady := true;
    var i := 0;
    while i < |items|
      invariant 0 <= i <= |items|
      invariant allReady
      invariant forall k :: 0 <= k < i ==> Stocked(stock, items[k])
    {
      var key := ProductKey(items[i].product);
      if key !in stock || stock[key] < items[i].quantity {
        allReady := false;
        break;
      }
      i := i + 1;
    }
  }

  /** check_order_ready_to_ship(order): an order in production whose every
      item is in stock gets a pending notice unless it already has one
      (get_or_create) and becomes ready to ship; otherwise nothing changes.
      No stock is taken. */
  method CheckOrderReadyToShip(sales: SalesBook, stock: map<ItemKey, real>, id: nat)
    requires sales.Valid() && id < |sales.orders|
    modifies sales`orders, sales`notices
    ensures sales.Valid()
    ensures
      var ready := AllStocked(stock, old(sales.orders[id].items)) && old(sales.orders[id].status) == OrderStatus.InProduction;
      && sales.orders == (if ready then old(sales.orders)[id := old(sales.orders[id]).(status := OrderStatus.ReadyToShip)]
                          else old(sales.orders))
      && sales.notices == (if ready && !old(sales.HasNotice(id))
                           then old(sales.notices) + [ShippingNotice(id, NoticeStatus.Pending)]
                           else old(sales.notices))
  {
    var allReady := AllReady(stock, sales.orders[id].items);
    if allReady && sales.orders[id].status == OrderStatus.InProduction {
      if !sales.HasNotice(id) {
        sales.CreateNotice(id);
      }
      sales.SetStatus(id, OrderStatus.ReadyToShip);
    }
  }

  /** The writes of inbound_create before its ready-to-ship check: the
      inbound row, the product row credited (created at 0 when missing),
      one production_in transaction, and the task's completed quantity,
      which completes the task at `now` once it reaches the requirement. */
  method RecordInbound(production: ProductionBook, ledger: Ledger, taskId: nat, quantity: real,
                       qcRecord: Option<nat>, now: int)
    returns (inbound: nat)
    requires production.Valid() && taskId < |production.tasks|
    requires qcRecord.Some? ==> qcRecord.value < |production.qcRecords|
    modifies production`inbounds, production`tasks, ledger`stock, ledger`log
    ensures production.Valid()
    ensures inbound == |old(production.inbounds)|
    ensures production.inbounds == old(production.inbounds) + [FinishedProductInbound(taskId, qcRecord, quantity)]
    ensures
      var key := ProductKey(old(production.tasks[taskId].product));
      && ledger.stock == old(ledger.stock)[key := Available(old(ledger.stock), key) + quantity]
      && ledger.log == old(ledger.log) + [StockTransaction(ProductionIn, key, quantity, InboundRef(inbound))]
    ensures
      var task := old(production.tasks[taskId]);
      var completed := task.completedQuantity + quantity;
      production.tasks == old(production.tasks)[taskId :=
        if completed >= task.requiredQuantity
        then task.(completedQuantity := completed, status := TaskStatus.Completed, completedAt := Some(now))
        else task.(completedQuantity := completed)]
  {
    production.inbounds := production.inbounds + [FinishedProductInbound(taskId, qcRecord, quantity)];
    inbound := |production.inbounds| - 1;
    var task := production.tasks[taskId];
    var line := StockLine(ProductKey(task.product), quantity);
    ledger.Add(line);
    ledger.Record(StockTransaction(ProductionIn, line.inventory, quantity, InboundRef(inbound)));
    task := task.(completedQuantity := task.completedQuantity + quantity);
    if task.completedQuantity >= task.requiredQuantity {
      task := task.(status := TaskStatus.Completed, completedAt := Some(now));
    }
    production.tasks := production.tasks[taskId := task];
  }

  /** The Python numbers inbound_create combines: a model's Decimal field,
      the `float` parsed from the form, and the int 0 of get_or_create's
      defaults. */
  datatype PyNumber = PyInt(i: int) | PyDecimal(d: real) | PyFloat(f: real)

  /** Python's `a + b` on these numbers: None where it raises TypeError,
      which is exactly a Decimal combined with a float. */
  function PyAdd(a: PyNumber, b: PyNumber): (r: Option<PyNumber>)
    ensures r.None? <==> (a.PyDecimal? && b.PyFloat?) || (a.PyFloat? && b.PyDecimal?)
  {
    match (a, b)
    case (PyInt(x), PyInt(y)) => Some(PyInt(x + y))
    case (PyInt(x), PyDecimal(y)) => Some(PyDecimal(x as real + y))
    case (PyDecimal(x), PyInt(y)) => Some(PyDecimal(x + y as real))
    case (PyDecimal(x), PyDecimal(y)) => Some(PyDecimal(x + y))
    case (PyInt(x), PyFloat(y)) => Some(PyFloat(x as real + y))
    case (PyFloat(x), PyInt(y)) => Some(PyFloat(x + y as real))
    case (PyFloat(x), PyFloat(y)) => Some(PyFloat(x + y))
    case _ => None
  }

  /** inbound_create as written: the posted quantity is a float, and the
      task's completed_quantity, read from the database, is a Decimal, so
      `task.completed_quantity += quantity` raises TypeError on every POST
      that reaches it (as does `inventory.quantity += quantity` on an
      existing product row). The transaction rolls back: a missing task or
      QC record is refused as before, and every other request is refused
      too, with nothing changed. */
  method InboundCreateAsWritten(production: ProductionBook, ledger: Ledger, taskId: nat,
                                quantity: real, qcRecord: Option<nat>)
    returns (r: Result<nat>)
    ensures r.Err?
    ensures r == Err(NotFound) <==>
      taskId >= |production.tasks| || (qcRecord.Some? && qcRecord.value >= |production.qcRecords|)
    ensures r != Err(NotFound) ==> r == Err(TypeMismatch)
  {
    if taskId >= |production.tasks| {
      return Err(NotFound);
    }
    if qcRecord.Some? && qcRecord.value >= |production.qcRecords| {
      return Err(NotFound);
    }
    var task := production.tasks[taskId];
    var key := ProductKey(task.product);
    var row := if key in ledger.stock then PyDecimal(ledger.stock[key]) else PyInt(0);
    var credited := PyAdd(row, PyFloat(quantity));
    if credited.None? {
      // an existing product row holds a Decimal
      return Err(TypeMismatch);
    }
    var completed := PyAdd(PyDecimal(task.completedQuantity), PyFloat(quantity));
    assert completed.None?;
    r := Err(TypeMismatch);
  }

  /** inbound_create, POST branch, with exact decimal arithmetic (the
      evidently intended behaviour; InboundCreateAsWritten is the code as
      written): a missing task or QC record is refused
      with nothing changed; otherwise the inbound is recorded and the task's
      order is checked for shipment against the credited stock. */
  method InboundCreate(sales: SalesBook, production: ProductionBook, ledger: Ledger, taskId: nat,
                       quantity: real, qcRecord: Option<nat>, now: int)
    returns (r: Result<nat>)
    requires sales.Valid() && production.Valid() && production.LinkedTo(sales)
    modifies sales`orders, sales`notices, production`inbounds, production`tasks, ledger`stock, ledger`log
    ensures sales.Valid() && production.Valid() && production.LinkedTo(sales)
    ensures taskId >= |old(production.tasks)| ==> r == Err(NotFound)
    ensures qcRecord.Some? && qcRecord.value >= |old(production.qcRecords)| ==> r == Err(NotFound)
    ensures r.Ok? <==>
      taskId < |old(production.tasks)| && (qcRecord.Some? ==> qcRecord.value < |old(production.qcRecords)|)
    ensures r.Err? ==>
      && sales.orders == old(sales.orders) && sales.notices == old(sales.notices)
      && production.inbounds == old(production.inbounds) && production.tasks == old(production.tasks)
      && ledger.stock == old(ledger.stock) && ledger.log == old(ledger.log)
    ensures r.Ok? ==>
      && taskId < |old(production.tasks)| && r.value == |old(production.inbounds)|
      && production.inbounds == old(production.inbounds) + [FinishedProductInbound(taskId, qcRecord, quantity)]
      && var task := old(production.tasks[taskId]);
      && var key := ProductKey(task.product);
      && ledger.stock == old(ledger.stock)[key := Available(old(ledger.stock), key) + quantity]
      && ledger.log == old(ledger.log) + [StockTransaction(ProductionIn, key, quantity, InboundRef(r.value))]
      && var completed := task.completedQuantity + quantity;
      && production.tasks == old(production.tasks)[taskId :=
           if completed >= task.requiredQuantity
           then task.(completedQuantity := completed, status := TaskStatus.Completed, completedAt := Some(now))
           else task.(completedQuantity := completed)]
      && var ready := AllStocked(ledger.stock, old(sales.orders[task.order].items))
                      && old(sales.orders[task.order].status) == OrderStatus.InProduction;
      && sales.orders == (if ready then old(sales.orders)[task.order := old(sales.orders[task.order]).(status := OrderStatus.ReadyToShip)]
                          else old(sales.orders))
      && sales.notices == (if ready && !old(sales.HasNotice(task.order))
                           then old(sales.notices) + [ShippingNotice(task.order, NoticeStatus.Pending)]
                           else old(sales.notices))
  {
    if taskId >= |production.tasks| {
      return Err(NotFound);
    }
    if qcRecord.Some? && qcRecord.value >= |production.qcRecords| {
      return Err(NotFound);
    }
    var order := production.tasks[taskId].order;
    assert production.tasks[taskId] in production.tasks;
    var inbound := RecordInbound(production, ledger, taskId, quantity, qcRecord, now);
    CheckOrderReadyToShip(sales, ledger.stock, order);
    r := Ok(inbound);
  }
}

/** The production app's tables: production tasks, material requisitions
    with their items, QC records and finished-product inbounds. */
module ProductionModels {
  import opened Common
  import opened InventoryModels
  import opened SalesModels

  /** ProductionTask.STATUS_CHOICES. A new task is Pending. */
  datatype TaskStatus =
    | Pending | MaterialInsufficient | Received | MaterialPreparing | InProduction
    | QcChecking | Completed | Cancelled | Terminated

  /** A ProductionTask row; timestamps are passed-in clock readings. */
  datatype ProductionTask = ProductionTask(
    order: nat, product: ProductId, requiredQuantity: real, completedQuantity: real,
    status: TaskStatus, receivedAt: Option<int>, startedAt: Option<int>, completedAt: Option<int>)

  /** A task as created: `completed_quantity` at its default 0, status Pending. */
  function NewTask(order: nat, product: ProductId, required: real): (t: ProductionTask)
    ensures t.status == TaskStatus.Pending && t.completedQuantity == 0.0
    ensures t.order == order && t.product == product && t.requiredQuantity == required
  {
    ProductionTask(order, product, required, 0.0, TaskStatus.Pending, None, None, None)
  }

  /** MaterialRequisition.STATUS_CHOICES. A new requisition is Pending. */
  datatype RequisitionStatus = Pending | Approved | Issued | Cancelled | Terminated

  /** A requisition item; `issuedQuantity` starts at its default 0. */
  datatype RequisitionItem = RequisitionItem(
    material: MaterialId, requiredQuantity: real, issuedQuantity: real, unit: string)

  datatype MaterialRequisition = MaterialRequisition(
    task: nat, status: RequisitionStatus, items: seq<RequisitionItem>)

  predicate DistinctMaterials(items: seq<RequisitionItem>)
  {
    forall i, j :: 0 <= i < j < |items| ==> items[i].material != items[j].material
  }

  /** QCRecord.RESULT_CHOICES. */
  datatype QcResult = Qualified | Unqualified | Rework

  datatype QcRecord = QcRecord(
    task: nat, batchNo: string, inspectedQuantity: real, qualifiedQuantity: real,
    unqualifiedQuantity: real, result: QcResult)

  datatype FinishedProductInbound = FinishedProductInbound(task: nat, qcRecord: Option<nat>, quantity: real)

  class ProductionBook {
    var tasks: seq<ProductionTask>
    var requisitions: seq<MaterialRequisition>
    var qcRecords: seq<QcRecord>
    var inbounds: seq<FinishedProductInbound>

    /** Foreign keys resolve, and each requisition names a material at most
        once (its items come from one product's BOM rows). */
    ghost predicate Valid()
      reads this
    {
      && (forall r :: r in requisitions ==> r.task < |tasks| && DistinctMaterials(r.items))
      && (forall q :: q in qcRecords ==> q.task < |tasks|)
      && (forall b :: b in inbounds ==>
            (b.task < |tasks| && (b.qcRecord.Some? ==> b.qcRecord.value < |qcRecords|)))
    }

    /** Every task's order exists (the foreign key to SalesOrder). */
    ghost predicate LinkedTo(sales: SalesBook)
      reads this, sales
    {
      forall t :: t in tasks ==> t.order < |sales.orders|
    }

    constructor ()
      ensures Valid() && tasks == [] && requisitions == [] && qcRecords == [] && inbounds == []
    {
      tasks, requisitions, qcRecords, inbounds := [], [], [], [];
    }
  }
}

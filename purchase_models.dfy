/** The purchase app's tables: purchase tasks and their items. */
module PurchaseModels {
  import opened InventoryModels

  /** PurchaseTask.STATUS_CHOICES. A new task is Pending. */
  datatype PurchaseStatus = Pending | Approved | Purchasing | Completed | Cancelled | Terminated

  /** A purchase item; `receivedQuantity` starts at its default 0. */
  datatype PurchaseTaskItem = PurchaseTaskItem(
    material: MaterialId, quantity: real, unitPrice: real, subtotal: real, receivedQuantity: real)

  /** A PurchaseTask row with its items; the approval and termination
      audit fields other than the reason are not kept. */
  datatype PurchaseTask = PurchaseTask(
    supplier: string, contactPerson: string, contactPhone: string, remark: string,
    totalAmount: real, status: PurchaseStatus, createdBy: nat, terminateReason: string,
    items: seq<PurchaseTaskItem>)

  class PurchaseBook {
    var tasks: seq<PurchaseTask>

    constructor ()
      ensures tasks == []
    {
      tasks := [];
    }
  }
}

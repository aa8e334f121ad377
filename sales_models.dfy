/** The sales app's tables: orders with their items, batch allocations of
    order items, and shipping notices. */
module SalesModels {
  import opened Common
  import opened InventoryModels

  /** SalesOrder.STATUS_CHOICES. A new order is Pending. */
  datatype OrderStatus =
    | Pending | Approved | CeoPending | CeoApproved | Rejected
    | InProduction | ReadyToShip | Shipped | Completed | Cancelled | Terminated

  /** MinValueValidator(0.01) on SalesOrderItem.quantity and SalesOrderItemBatch.quantity. */
  const MinItemQuantity: real := 0.01

  datatype SalesOrderItem = SalesOrderItem(product: ProductId, quantity: real, unitPrice: real, subtotal: real)

  /** A SalesOrder row with its items (order.items.all()). The audit fields
      (who approved, rejected or terminated it, and when) are not kept. */
  datatype SalesOrder = SalesOrder(
    customer: nat, salesperson: nat, status: OrderStatus, totalAmount: real,
    reserveInventory: bool, items: seq<SalesOrderItem>)

  /** A SalesOrder as first saved: the column defaults (status pending,
      total 0, no reservation) and no items yet. */
  function NewOrder(customer: nat, salesperson: nat): (o: SalesOrder)
    ensures o.status == OrderStatus.Pending && o.totalAmount == 0.0 && !o.reserveInventory
    ensures o.customer == customer && o.salesperson == salesperson && o.items == []
  {
    SalesOrder(customer, salesperson, OrderStatus.Pending, 0.0, false, [])
  }

  /** Allocation of an order item (`item` of order `order`) to a batch. */
  datatype SalesOrderItemBatch = SalesOrderItemBatch(order: nat, item: nat, batch: nat, quantity: real)

  /** The validator on the allocated quantity and unique_together on (order_item, batch). */
  ghost predicate AllocationsValid(allocations: seq<SalesOrderItemBatch>)
  {
    && (forall a :: a in allocations ==> a.quantity >= MinItemQuantity)
    && (forall i, j :: 0 <= i < j < |allocations| ==>
          (allocations[i].order, allocations[i].item, allocations[i].batch)
          != (allocations[j].order, allocations[j].item, allocations[j].batch))
  }

  /** ShippingNotice.status: 'pending' (the default) or 'shipped'. */
  datatype NoticeStatus = Pending | Shipped

  datatype ShippingNotice = ShippingNotice(order: nat, status: NoticeStatus)

  class SalesBook {
    var orders: seq<SalesOrder>
    var notices: seq<ShippingNotice>
    var allocations: seq<SalesOrderItemBatch>

    /** Items carry their validated quantity; notices point at orders that
        have left approval, and no order has two notices. */
    ghost predicate Valid()
      reads this
    {
      && (forall o, it :: o in orders && it in o.items ==> it.quantity >= MinItemQuantity)
      && (forall n :: n in notices ==>
            (n.order < |orders|
             && orders[n.order].status != OrderStatus.Pending
             && orders[n.order].status != OrderStatus.Approved))
      && (forall i, j :: 0 <= i < j < |notices| ==> notices[i].order != notices[j].order)
      && AllocationsValid(allocations)
    }

    predicate HasNotice(order: nat)
      reads this
    {
      exists n :: n in notices && n.order == order
    }

    /** `order.status = status; order.save()`. An order may go back to
        pending or approved only while it has no notice. */
    method SetStatus(id: nat, status: OrderStatus)
      requires Valid() && id < |orders|
      requires status == OrderStatus.Pending || status == OrderStatus.Approved ==> !HasNotice(id)
      modifies this`orders
      ensures Valid()
      ensures orders == old(orders)[id := old(orders[id]).(status := status)]
    {
      orders := orders[id := orders[id].(status := status)];
    }

    /** ShippingNotice.objects.create(order=order, status='pending') for an
        order that has left approval and has no notice yet. */
    method CreateNotice(order: nat)
      requires Valid() && order < |orders| && !HasNotice(order)
      requires orders[order].status != OrderStatus.Pending && orders[order].status != OrderStatus.Approved
      modifies this`notices
      ensures Valid()
      ensures notices == old(notices) + [ShippingNotice(order, NoticeStatus.Pending)]
    {
      notices := notices + [ShippingNotice(order, NoticeStatus.Pending)];
    }

    /** `notice.status = status; notice.save()`. */
    method SetNoticeStatus(n: nat, status: NoticeStatus)
      requires Valid() && n < |notices|
      modifies this`notices
      ensures Valid()
      ensures notices == old(notices)[n := old(notices[n]).(status := status)]
    {
      notices := notices[n := notices[n].(status := status)];
    }

    constructor ()
      ensures Valid() && orders == [] && notices == [] && allocations == []
    {
      orders, notices, allocations := [], [], [];
    }
  }
}

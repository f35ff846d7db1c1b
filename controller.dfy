/**
 * The order endpoints that change state: creating an order (derived fields
 * computed, then saved under a new identity) and updating its status (status
 * set, one timestamp stamped). The store is a map from order id to order; the
 * clock and "today" are parameters.
 */
module Controller {
  import opened Wrappers
  import opened Enums
  import opened Entity

  /** What an endpoint answers: the order (200), 404, or 500 after an exception. */
  datatype Response = Ok(order: Order) | NotFound | ServerError

  /** The timestamp column that belongs to a status; PENDING_APPROVAL has none. */
  function StampOf(row: OrderRow, s: OrderStatus): Option<int> {
    match s
    case PENDING_APPROVAL => None
    case APPROVED => row.approvedAt
    case REJECTED => row.rejectedAt
    case SHIPPED => row.shippedAt
    case DELIVERED => row.deliveredAt
    case CANCELLED => row.cancelledAt
  }

  /** A row with its status and all five status timestamps blanked: the part a status update must keep. */
  function WithoutStatus(row: OrderRow): OrderRow {
    row.(orderStatus := PENDING_APPROVAL, approvedAt := None, rejectedAt := None,
         shippedAt := None, deliveredAt := None, cancelledAt := None)
  }

  /**
   * The row after a status update: the requested status whatever the current
   * one is, the timestamp of that status set to `now` (overwritten if it was
   * set), every other timestamp and every other column as before.
   */
  function WithStatus(row: OrderRow, status: OrderStatus, now: int): (r: OrderRow)
    ensures r.orderStatus == status
    ensures forall s :: s != PENDING_APPROVAL ==>
      StampOf(r, s) == if s == status then Some(now) else StampOf(row, s)
    ensures WithoutStatus(r) == WithoutStatus(row)
    ensures status == PENDING_APPROVAL ==> r == row.(orderStatus := PENDING_APPROVAL)
  {
    var r := row.(orderStatus := status);
    match status
    case PENDING_APPROVAL => r
    case APPROVED => r.(approvedAt := Some(now))
    case REJECTED => r.(rejectedAt := Some(now))
    case SHIPPED => r.(shippedAt := Some(now))
    case DELIVERED => r.(deliveredAt := Some(now))
    case CANCELLED => r.(cancelledAt := Some(now))
  }

  /** Requesting the same status again moves its timestamp to the later time: stamps are not write-once. */
  lemma RestampOverwrites(row: OrderRow, status: OrderStatus, first: int, second: int)
    requires status != PENDING_APPROVAL
    ensures StampOf(WithStatus(WithStatus(row, status, first), status, second), status) == Some(second)
  {
  }

  /** A fresh order can be shipped straight away; it then has a ship time and still no approval time. */
  lemma ShipWithoutApproval(row: OrderRow, now: int)
    requires row.orderStatus == PENDING_APPROVAL && row.approvedAt == None
    ensures WithStatus(row, SHIPPED, now).orderStatus == SHIPPED
    ensures WithStatus(row, SHIPPED, now).shippedAt == Some(now)
    ensures WithStatus(row, SHIPPED, now).approvedAt == None
  {
  }

  class OrderController {
    var orders: map<int, Order>
    var nextId: int

    /**
     * Every stored id was handed out before, so a new identity never overwrites
     * an order; and each stored order is its own row, never filed under two ids.
     */
    ghost predicate Valid()
      reads this
    {
      (forall id :: id in orders ==> id < nextId) &&
      (forall i, j :: i in orders && j in orders && i != j ==> orders[i] != orders[j])
    }

    constructor ()
      ensures Valid() && orders == map[] && nextId == 1
    {
      orders := map[];
      nextId := 1;
    }

    /**
     * POST /api/orders: compute the totals, then the due date, then save under
     * a new id. A null subtotal makes the totals throw: nothing is computed
     * further and nothing is saved. The request body is a new object, so it
     * is not one of the stored orders.
     */
    method CreateOrder(order: Order, today: int) returns (r: Response)
      requires Valid()
      requires order !in orders.Values
      modifies this, order`totalAmount, order`gstAmount, order`grandTotal, order`dueDate
      ensures Valid()
      ensures r.ServerError? <==> !AllSubtotalsSet(order.orderItems)
      ensures r.ServerError? ==> orders == old(orders) && nextId == old(nextId) && order.Row() == old(order.Row())
      ensures r.Ok? ==> r.order == order && order.TotalsConsistent()
      ensures r.Ok? ==> old(nextId) !in old(orders) && orders == old(orders)[old(nextId) := order]
      ensures r.Ok? ==> nextId == old(nextId) + 1
      ensures r.Ok? && order.paymentMethod == UDAR && order.udarDuration.Some? ==>
                order.dueDate == Some(today + order.udarDuration.value)
      ensures r.Ok? && !(order.paymentMethod == UDAR && order.udarDuration.Some?) ==>
                order.dueDate == old(order.dueDate)
      ensures !r.NotFound?
    {
      var thrown := order.CalculateTotals();
      if thrown {
        return ServerError;
      }
      order.CalculateDueDate(today);
      orders := orders[nextId := order];
      nextId := nextId + 1;
      r := Ok(order);
    }

    /**
     * PUT /api/orders/{id}/status: set the requested status on the stored order
     * and stamp its timestamp with `now`; an unknown id is 404 and changes nothing.
     */
    method UpdateOrderStatus(id: int, status: OrderStatus, now: int) returns (r: Response)
      requires Valid()
      modifies this`orders, if id in orders then {orders[id]} else {}
      ensures Valid()
      ensures orders == old(orders)
      ensures id !in orders ==> r == NotFound
      ensures id in orders ==> r == Ok(orders[id])
      ensures id in orders ==> orders[id].Row() == WithStatus(old(orders[id].Row()), status, now)
      ensures id in orders ==> orders[id].orderItems == old(orders[id].orderItems)
      ensures forall j :: j in orders && j != id ==> orders[j].Row() == old(orders[j].Row())
    {
      if id !in orders {
        return NotFound;
      }
      var order := orders[id];
      ApplyStatus(order, status, now);
      orders := orders[id := order];
      r := Ok(order);
    }
  }

  /** The body of the status update on one order: set the status, then stamp the time of that status. */
  method ApplyStatus(order: Order, status: OrderStatus, now: int)
    modifies order`orderStatus, order`approvedAt, order`rejectedAt, order`shippedAt,
             order`deliveredAt, order`cancelledAt
    ensures order.Row() == WithStatus(old(order.Row()), status, now)
  {
    order.orderStatus := status;
    match status {
      case PENDING_APPROVAL =>
      case APPROVED => order.approvedAt := Some(now);
      case REJECTED => order.rejectedAt := Some(now);
      case SHIPPED => order.shippedAt := Some(now);
      case DELIVERED => order.deliveredAt := Some(now);
      case CANCELLED => order.cancelledAt := Some(now);
    }
  }

  /**
   * An order of two lines whose subtotals are 90.00 (2 at 45.00) and 18.00
   * (1 at 18.00): saved under the first id with total 108.00, GST 19.44 and
   * grand total 127.44.
   */
  method CreateOrderScenario(order: Order, today: int)
    requires |order.orderItems| == 2
    requires order.orderItems[0].subtotal == Some(LineSubtotal(45.00, 2))
    requires order.orderItems[1].subtotal == Some(LineSubtotal(18.00, 1))
    modifies order
  {
    TwoLineSum(order.orderItems);
    var store := new OrderController();
    var r := store.CreateOrder(order, today);
    TwoLineAmounts(order);
    assert r == Ok(order) && store.orders == map[1 := order];
  }

}

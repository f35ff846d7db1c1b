/**
 * The three persistent entities that carry behaviour: an order, its line items
 * and the product a line refers to. Their fields are updated in place, so each
 * is a class; money is exact (`real`), dates are day numbers and instants are
 * clock ticks (`int`), and a Java field that may be null is an `Option`.
 */
module Entity {
  import opened Wrappers
  import opened Int32
  import opened Enums

  /** The fixed GST rate, 18%. */
  const GST_RATE: real := 0.18

  // ---------------------------------------------------------------- Product

  class Product {
    var sellerId: int
    var stockQuantity: Option<int32>
    var moq: Option<int32>
    var isActive: bool

    /** A new product: stock 0, minimum order quantity 1, active. */
    constructor (sellerId: int)
      ensures this.sellerId == sellerId
      ensures stockQuantity == Some(0) && moq == Some(1) && isActive
    {
      this.sellerId := sellerId;
      stockQuantity := Some(0);
      moq := Some(1);
      isActive := true;
    }

    /** Whether `quantity` units are available: stock is set and covers it. */
    function CanOrder(quantity: int32): (r: bool)
      reads this
      ensures r <==> stockQuantity.Some? && quantity <= stockQuantity.value
    {
      stockQuantity.Some? && stockQuantity.value >= quantity
    }

    /** Whether any stock is left; the same question as "can one unit be ordered". */
    function IsInStock(): (r: bool)
      reads this
      ensures r <==> CanOrder(1)
      ensures r ==> stockQuantity.Some? && stockQuantity.value >= 1
    {
      stockQuantity.Some? && stockQuantity.value > 0
    }

    /**
     * Take `quantity` units out of stock when there are enough; otherwise do
     * nothing and report nothing. A null stock throws (unboxing), reported as
     * `thrown`. The subtraction is Java `int` arithmetic.
     */
    method ReduceStock(quantity: int32) returns (thrown: bool)
      modifies this`stockQuantity
      ensures thrown <==> old(stockQuantity).None?
      ensures stockQuantity ==
        if thrown then old(stockQuantity)
        else Some(StockAfterReduce(old(stockQuantity).value, quantity))
    {
      if stockQuantity.None? {
        return true;
      }
      thrown := false;
      if stockQuantity.value >= quantity {
        stockQuantity := Some(Wrap(stockQuantity.value - quantity));
      }
    }
  }

  /** The stock left by `reduceStock`: lowered by `quantity` when it suffices, else unchanged. */
  function StockAfterReduce(stock: int32, quantity: int32): (r: int32)
    ensures stock < quantity ==> r == stock
    ensures stock >= quantity && 0 <= quantity ==> r == stock - quantity
    ensures 0 <= stock && 0 <= quantity ==> 0 <= r <= stock
  {
    if stock >= quantity then Wrap(stock - quantity) else stock
  }

  /**
   * `canOrder` answers exactly the guard of `reduceStock`: an orderable
   * quantity is taken out in full, any other leaves the stock as it is.
   */
  lemma CanOrderGuardsReduce(p: Product, quantity: int32)
    requires p.stockQuantity.Some? && 0 <= quantity
    ensures p.CanOrder(quantity) ==>
      StockAfterReduce(p.stockQuantity.value, quantity) == p.stockQuantity.value - quantity
    ensures !p.CanOrder(quantity) ==>
      StockAfterReduce(p.stockQuantity.value, quantity) == p.stockQuantity.value
  {
  }

  /** Whatever quantity can be ordered, any smaller one can be too. */
  lemma CanOrderSmaller(p: Product, quantity: int32, smaller: int32)
    requires smaller <= quantity
    ensures p.CanOrder(quantity) ==> p.CanOrder(smaller)
  {
  }

  /** A negative quantity passes the guard and the `int` subtraction wraps around. */
  lemma NegativeReduceWraps()
    ensures StockAfterReduce(MAX, -1) == MIN
  {
  }

  // -------------------------------------------------------------- OrderItem

  /** A line's subtotal: unit price times quantity, exactly. */
  function LineSubtotal(price: real, quantity: int): (r: real)
    ensures 0.0 <= price && 0 <= quantity ==> 0.0 <= r
    ensures quantity == 0 ==> r == 0.0
    ensures quantity == 1 ==> r == price
  {
    price * quantity as real
  }

  /** The subtotal field after `calculateSubtotal`: recomputed when quantity and price are both set, else kept. */
  function SubtotalAfter(quantity: Option<int32>, price: Option<real>, subtotal: Option<real>): (r: Option<real>)
    ensures quantity.Some? && price.Some? ==> r == Some(LineSubtotal(price.value, quantity.value))
    ensures quantity.None? || price.None? ==> r == subtotal
  {
    if quantity.Some? && price.Some? then Some(LineSubtotal(price.value, quantity.value)) else subtotal
  }

  /** Recomputing a subtotal twice gives what recomputing it once gives. */
  lemma SubtotalAfterIdempotent(quantity: Option<int32>, price: Option<real>, subtotal: Option<real>)
    ensures SubtotalAfter(quantity, price, SubtotalAfter(quantity, price, subtotal))
         == SubtotalAfter(quantity, price, subtotal)
  {
  }

  class OrderItem {
    var order: Order?
    var product: Product?
    var quantity: Option<int32>
    var price: Option<real>
    var subtotal: Option<real>

    /** A detached line item whose subtotal has not been computed yet. */
    constructor (product: Product?, quantity: Option<int32>, price: Option<real>)
      ensures order == null && this.product == product
      ensures this.quantity == quantity && this.price == price && subtotal == None
    {
      order := null;
      this.product := product;
      this.quantity := quantity;
      this.price := price;
      subtotal := None;
    }

    /** Set the subtotal to price times quantity when both are present; touch nothing else. */
    method CalculateSubtotal()
      modifies this`subtotal
      ensures subtotal == SubtotalAfter(quantity, price, old(subtotal))
    {
      if quantity.Some? && price.Some? {
        subtotal := Some(LineSubtotal(price.value, quantity.value));
      }
    }
  }

  /** Whether every item has a subtotal, so that summing them does not throw. */
  predicate AllSubtotalsSet(items: seq<OrderItem>)
    reads items
  {
    forall i :: 0 <= i < |items| ==> items[i].subtotal.Some?
  }

  /**
   * The stream `reduce(ZERO, add)` over the items' subtotals, from the first to
   * the last: `None` when a subtotal is null (`BigDecimal.add(null)` throws).
   */
  function SubtotalSum(items: seq<OrderItem>): (r: Option<real>)
    reads items
    ensures r.Some? <==> AllSubtotalsSet(items)
    ensures items == [] ==> r == Some(0.0)
    decreases |items|
  {
    if items == [] then Some(0.0)
    else
      var init := SubtotalSum(items[..|items| - 1]);
      var last := items[|items| - 1].subtotal;
      if init.Some? && last.Some? then Some(init.value + last.value) else None
  }

  /** Summing a concatenation is adding the sums of the parts (and fails exactly when a part does). */
  lemma {:induction false} SubtotalSumAppend(a: seq<OrderItem>, b: seq<OrderItem>)
    ensures SubtotalSum(a + b) ==
      if SubtotalSum(a).Some? && SubtotalSum(b).Some?
      then Some(SubtotalSum(a).value + SubtotalSum(b).value)
      else None
    decreases |b|
  {
    if b == [] {
      assert a + b == a;
    } else {
      var b' := b[..|b| - 1];
      assert (a + b)[..|a + b| - 1] == a + b';
      assert (a + b)[|a + b| - 1] == b[|b| - 1];
      SubtotalSumAppend(a, b');
    }
  }

  /** Non-negative subtotals sum to a non-negative total. */
  lemma {:induction false} SubtotalSumNonNegative(items: seq<OrderItem>)
    requires forall i :: 0 <= i < |items| ==> items[i].subtotal.Some? && items[i].subtotal.value >= 0.0
    ensures SubtotalSum(items).Some? && SubtotalSum(items).value >= 0.0
    decreases |items|
  {
    if items != [] {
      SubtotalSumNonNegative(items[..|items| - 1]);
    }
  }

  // ------------------------------------------------------------------ Order

  /**
   * The columns of one row of the orders table: an order's own fields
   * without its item list.
   */
  datatype OrderRow = OrderRow(
    buyerId: int,
    sellerId: int,
    totalAmount: Option<real>,
    gstAmount: Option<real>,
    grandTotal: Option<real>,
    paymentMethod: PaymentMethod,
    paymentStatus: PaymentStatus,
    udarDuration: Option<int32>,
    dueDate: Option<int>,
    orderStatus: OrderStatus,
    createdAt: Option<int>,
    approvedAt: Option<int>,
    rejectedAt: Option<int>,
    shippedAt: Option<int>,
    deliveredAt: Option<int>,
    cancelledAt: Option<int>)

  /** The list after `List.remove(x)`: the first occurrence of `x` taken out, if there is one. */
  function RemoveFirst<T(==)>(s: seq<T>, x: T): (r: seq<T>)
    ensures x !in s ==> r == s
    ensures x in s ==> |r| == |s| - 1
  {
    if s == [] then []
    else if s[0] == x then s[1..]
    else [s[0]] + RemoveFirst(s[1..], x)
  }

  /** `RemoveFirst` takes away one copy of `x`, if there is one, and nothing else. */
  lemma {:induction false} RemoveFirstMultiset<T>(s: seq<T>, x: T)
    ensures multiset(RemoveFirst(s, x)) == multiset(s) - multiset{x}
  {
    if s != [] {
      assert s == [s[0]] + s[1..];
      if s[0] != x {
        RemoveFirstMultiset(s[1..], x);
      }
    }
  }

  /** `RemoveFirst` deletes exactly the position of the first occurrence. */
  lemma {:induction false} RemoveFirstAt<T>(s: seq<T>, x: T, k: nat)
    requires k < |s| && s[k] == x && x !in s[..k]
    ensures RemoveFirst(s, x) == s[..k] + s[k + 1..]
  {
    if k == 0 {
      assert s[..0] + s[1..] == s[1..];
    } else {
      var t := s[1..];
      assert s[0] == s[..k][0];
      assert t[..k - 1] == s[1..k];
      RemoveFirstAt(t, x, k - 1);
      assert RemoveFirst(s, x) == [s[0]] + RemoveFirst(t, x);
      assert [s[0]] + (t[..k - 1] + t[k..]) == s[..k] + s[k + 1..];
    }
  }

  /** Removing what was just appended, when it was not there before, restores the list. */
  lemma {:induction false} RemoveFirstAfterAppend<T>(s: seq<T>, x: T)
    requires x !in s
    ensures RemoveFirst(s + [x], x) == s
  {
    assert (s + [x])[..|s|] == s;
    RemoveFirstAt(s + [x], x, |s|);
    assert (s + [x])[|s| + 1..] == [];
  }

  class Order {
    var buyerId: int
    var sellerId: int
    var orderItems: seq<OrderItem>
    var totalAmount: Option<real>
    var gstAmount: Option<real>
    var grandTotal: Option<real>
    var paymentMethod: PaymentMethod
    var paymentStatus: PaymentStatus
    var udarDuration: Option<int32>
    var dueDate: Option<int>
    var orderStatus: OrderStatus
    var createdAt: Option<int>
    var approvedAt: Option<int>
    var rejectedAt: Option<int>
    var shippedAt: Option<int>
    var deliveredAt: Option<int>
    var cancelledAt: Option<int>

    /**
     * A new order with the field defaults: no items, payment PENDING, status
     * PENDING_APPROVAL, and no amounts, due date or timestamps yet.
     */
    constructor (buyerId: int, sellerId: int, paymentMethod: PaymentMethod, udarDuration: Option<int32>)
      ensures this.buyerId == buyerId && this.sellerId == sellerId && orderItems == []
      ensures totalAmount == None && gstAmount == None && grandTotal == None
      ensures this.paymentMethod == paymentMethod && paymentStatus == PENDING
      ensures this.udarDuration == udarDuration && dueDate == None
      ensures orderStatus == PENDING_APPROVAL && createdAt == None
      ensures approvedAt == None && rejectedAt == None && shippedAt == None
      ensures deliveredAt == None && cancelledAt == None
    {
      this.buyerId := buyerId;
      this.sellerId := sellerId;
      orderItems := [];
      totalAmount, gstAmount, grandTotal := None, None, None;
      this.paymentMethod := paymentMethod;
      paymentStatus := PENDING;
      this.udarDuration := udarDuration;
      dueDate := None;
      orderStatus := PENDING_APPROVAL;
      createdAt := None;
      approvedAt, rejectedAt, shippedAt, deliveredAt, cancelledAt := None, None, None, None, None;
    }

    function Row(): OrderRow
      reads this
    {
      OrderRow(buyerId, sellerId, totalAmount, gstAmount, grandTotal, paymentMethod, paymentStatus,
               udarDuration, dueDate, orderStatus, createdAt,
               approvedAt, rejectedAt, shippedAt, deliveredAt, cancelledAt)
    }

    /**
     * The stored amounts agree with the current items: the total is the sum of
     * the subtotals, GST is 18% of it and the grand total is their sum.
     */
    predicate TotalsConsistent()
      reads this, orderItems
    {
      SubtotalSum(orderItems).Some? &&
      totalAmount == SubtotalSum(orderItems) &&
      gstAmount == Some(totalAmount.value * GST_RATE) &&
      grandTotal == Some(totalAmount.value + gstAmount.value)
    }

    /** Append `item` and point its back-reference at this order. */
    method AddOrderItem(item: OrderItem)
      modifies this`orderItems, item`order
      ensures orderItems == old(orderItems) + [item]
      ensures item.order == this
    {
      orderItems := orderItems + [item];
      item.order := this;
    }

    /** Remove the first occurrence of `item`, if any, and clear its back-reference in every case. */
    method RemoveOrderItem(item: OrderItem)
      modifies this`orderItems, item`order
      ensures orderItems == RemoveFirst(old(orderItems), item)
      ensures item.order == null
    {
      orderItems := RemoveFirst(orderItems, item);
      item.order := null;
    }

    /**
     * Overwrite the three amounts from the current items. A null subtotal makes
     * the sum throw before any field is assigned (`thrown`).
     */
    method CalculateTotals() returns (thrown: bool)
      modifies this`totalAmount, this`gstAmount, this`grandTotal
      ensures thrown <==> !AllSubtotalsSet(orderItems)
      ensures thrown ==> totalAmount == old(totalAmount) && gstAmount == old(gstAmount) && grandTotal == old(grandTotal)
      ensures !thrown ==> TotalsConsistent()
      ensures !thrown ==> grandTotal.value == totalAmount.value * 1.18
    {
      var sum := SubtotalSum(orderItems);
      if sum.None? {
        return true;
      }
      thrown := false;
      totalAmount := sum;
      gstAmount := Some(totalAmount.value * GST_RATE);
      grandTotal := Some(totalAmount.value + gstAmount.value);
    }

    /**
     * For a credit (UDAR) order with a duration, the due date is `today` plus
     * that many days; otherwise the due date is left as it was (not cleared).
     */
    method CalculateDueDate(today: int)
      modifies this`dueDate
      ensures paymentMethod == UDAR && udarDuration.Some? ==> dueDate == Some(today + udarDuration.value)
      ensures !(paymentMethod == UDAR && udarDuration.Some?) ==> dueDate == old(dueDate)
    {
      if paymentMethod == UDAR && udarDuration.Some? {
        dueDate := Some(today + udarDuration.value);
      }
    }
  }

  /** With non-negative subtotals, consistent totals have GST and grand total no smaller than the total. */
  lemma GrandTotalAtLeastTotal(o: Order)
    requires o.TotalsConsistent()
    requires forall i :: 0 <= i < |o.orderItems| ==> o.orderItems[i].subtotal.Some? && o.orderItems[i].subtotal.value >= 0.0
    ensures 0.0 <= o.gstAmount.value && o.totalAmount.value <= o.grandTotal.value
    ensures o.grandTotal.value == o.totalAmount.value * 1.18
  {
    SubtotalSumNonNegative(o.orderItems);
  }

  /** Appending an item and recomputing adds that item's subtotal to the total. */
  lemma TotalAfterAppend(items: seq<OrderItem>, item: OrderItem)
    requires AllSubtotalsSet(items) && item.subtotal.Some?
    ensures SubtotalSum(items + [item]) == Some(SubtotalSum(items).value + item.subtotal.value)
  {
    SubtotalSumAppend(items, [item]);
    assert [item][..0] == [];
  }

  // ------------------------------------------------------ worked examples

  /**
   * Computing the totals a second time over the same items answers the same
   * way and leaves the amounts the first computation gave.
   */
  method RecalculateTotals(order: Order) returns (first: bool, second: bool)
    modifies order`totalAmount, order`gstAmount, order`grandTotal
    ensures first == second
    ensures first ==> order.totalAmount == old(order.totalAmount) && order.gstAmount == old(order.gstAmount)
                      && order.grandTotal == old(order.grandTotal)
    ensures !second ==> order.TotalsConsistent()
  {
    first := order.CalculateTotals();
    ghost var amounts := (order.totalAmount, order.gstAmount, order.grandTotal);
    second := order.CalculateTotals();
    assert (order.totalAmount, order.gstAmount, order.grandTotal) == amounts;
  }

  /**
   * Fifteen days' credit falls due fifteen days after `today`; a cash order
   * gets no due date.
   */
  method DueDateScenario(today: int) {
    var credit := new Order(7, 9, UDAR, Some(15));
    credit.CalculateDueDate(today);
    assert credit.dueDate == Some(today + 15);
    var cash := new Order(7, 9, CASH, Some(15));
    cash.CalculateDueDate(today);
    assert cash.dueDate == None;
  }

  lemma TwoLineSum(items: seq<OrderItem>)
    requires |items| == 2 && items[0].subtotal == Some(90.00) && items[1].subtotal == Some(18.00)
    ensures SubtotalSum(items) == Some(108.00)
  {
    assert items[..1][..0] == [];
  }

  lemma TwoLineAmounts(order: Order)
    requires SubtotalSum(order.orderItems) == Some(108.00)
    requires order.TotalsConsistent()
    ensures order.totalAmount == Some(108.00) && order.gstAmount == Some(19.44) && order.grandTotal == Some(127.44)
  {
  }
}

/**
 * The order queries, as filters over rows of the orders table in stored
 * order. Each query is a `Criterion`; `Select` keeps exactly the rows that
 * match it, as often as they are stored. A null column satisfies no
 * comparison, as in SQL.
 */
module Repository {
  import opened Enums
  import opened Entity

  datatype Criterion =
    | Buyer(buyerId: int)
    | Seller(sellerId: int)
    | BuyerAndStatus(buyerId: int, status: OrderStatus)
    | SellerAndStatus(sellerId: int, status: OrderStatus)
    | PaymentStatusIs(paymentStatus: PaymentStatus)
    | Overdue(today: int)
    | DueSoon(today: int, futureDate: int)
    | CreatedSince(startDate: int)

  predicate Matches(o: OrderRow, c: Criterion) {
    match c
    case Buyer(b) => o.buyerId == b
    case Seller(s) => o.sellerId == s
    case BuyerAndStatus(b, st) => o.buyerId == b && o.orderStatus == st
    case SellerAndStatus(s, st) => o.sellerId == s && o.orderStatus == st
    case PaymentStatusIs(ps) => o.paymentStatus == ps
    case Overdue(today) => o.dueDate.Some? && o.dueDate.value < today && o.paymentStatus == PENDING
    case DueSoon(today, future) =>
      o.dueDate.Some? && today <= o.dueDate.value <= future && o.paymentStatus == PENDING
    case CreatedSince(start) => o.createdAt.Some? && o.createdAt.value >= start
  }

  /** The rows matching `c`, in their stored order, each as often as it is stored. */
  function Select(orders: seq<OrderRow>, c: Criterion): (r: seq<OrderRow>)
    ensures forall o :: o in r <==> o in orders && Matches(o, c)
  {
    if orders == [] then []
    else
      assert orders == [orders[0]] + orders[1..];
      (if Matches(orders[0], c) then [orders[0]] else []) + Select(orders[1..], c)
  }

  /** `Select` keeps each matching row exactly as often as it is stored, and no other row. */
  lemma {:induction false} SelectCounts(orders: seq<OrderRow>, c: Criterion)
    ensures forall o :: multiset(Select(orders, c))[o] == if Matches(o, c) then multiset(orders)[o] else 0
  {
    if orders != [] {
      assert orders == [orders[0]] + orders[1..];
      SelectCounts(orders[1..], c);
    }
  }

  function FindByBuyerId(orders: seq<OrderRow>, buyerId: int): (r: seq<OrderRow>)
    ensures forall o :: o in r <==> o in orders && o.buyerId == buyerId
  {
    Select(orders, Buyer(buyerId))
  }

  function FindBySellerId(orders: seq<OrderRow>, sellerId: int): (r: seq<OrderRow>)
    ensures forall o :: o in r <==> o in orders && o.sellerId == sellerId
  {
    Select(orders, Seller(sellerId))
  }

  function FindByBuyerIdAndOrderStatus(orders: seq<OrderRow>, buyerId: int, status: OrderStatus): (r: seq<OrderRow>)
    ensures forall o :: o in r <==> o in orders && o.buyerId == buyerId && o.orderStatus == status
  {
    Select(orders, BuyerAndStatus(buyerId, status))
  }

  function FindBySellerIdAndOrderStatus(orders: seq<OrderRow>, sellerId: int, status: OrderStatus): (r: seq<OrderRow>)
    ensures forall o :: o in r <==> o in orders && o.sellerId == sellerId && o.orderStatus == status
  {
    Select(orders, SellerAndStatus(sellerId, status))
  }

  function FindByPaymentStatus(orders: seq<OrderRow>, status: PaymentStatus): (r: seq<OrderRow>)
    ensures forall o :: o in r <==> o in orders && o.paymentStatus == status
  {
    Select(orders, PaymentStatusIs(status))
  }

  /** Unpaid orders whose due date is strictly before `today`. */
  function FindOverdueOrders(orders: seq<OrderRow>, today: int): (r: seq<OrderRow>)
    ensures forall o :: o in r <==>
      o in orders && o.dueDate.Some? && o.dueDate.value < today && o.paymentStatus == PENDING
  {
    Select(orders, Overdue(today))
  }

  /** Unpaid orders due between `today` and `futureDate`, both ends included. */
  function FindOrdersDueSoon(orders: seq<OrderRow>, today: int, futureDate: int): (r: seq<OrderRow>)
    ensures forall o :: o in r <==>
      o in orders && o.dueDate.Some? && today <= o.dueDate.value <= futureDate && o.paymentStatus == PENDING
  {
    Select(orders, DueSoon(today, futureDate))
  }

  /** The number of orders of a seller in a status, counted row by row. */
  function CountBySellerIdAndOrderStatus(orders: seq<OrderRow>, sellerId: int, status: OrderStatus): (n: nat)
    ensures n == |FindBySellerIdAndOrderStatus(orders, sellerId, status)|
  {
    if orders == [] then 0
    else
      (if orders[0].sellerId == sellerId && orders[0].orderStatus == status then 1 else 0)
      + CountBySellerIdAndOrderStatus(orders[1..], sellerId, status)
  }

  /** On the same day no order is both overdue and due soon. */
  lemma OverdueAndDueSoonDisjoint(orders: seq<OrderRow>, today: int, futureDate: int)
    ensures forall o :: !(o in FindOverdueOrders(orders, today) && o in FindOrdersDueSoon(orders, today, futureDate))
  {
  }

  /**
   * Neither due-date query returns an order without a due date (a cash or online
   * order whose request carried none) or one whose payment is PAID, OVERDUE or CANCELLED.
   */
  lemma DueQueriesNeedPendingDueDate(orders: seq<OrderRow>, today: int, futureDate: int, o: OrderRow)
    requires o.dueDate.None? || o.paymentStatus != PENDING
    ensures o !in FindOverdueOrders(orders, today)
    ensures o !in FindOrdersDueSoon(orders, today, futureDate)
  {
  }

  // ------------------------------------------------ ORDER BY createdAt DESC

  predicate HaveCreatedAt(s: seq<OrderRow>) {
    forall i :: 0 <= i < |s| ==> s[i].createdAt.Some?
  }

  /** Each order was created no later than the one before it. */
  predicate NewestFirst(s: seq<OrderRow>) {
    HaveCreatedAt(s) &&
    forall i :: 0 < i < |s| ==> s[i].createdAt.value <= s[i - 1].createdAt.value
  }

  /** In a newest-first sequence every order is at least as new as every later one. */
  lemma {:induction false} NewestFirstOrdersAllPairs(s: seq<OrderRow>, i: nat, j: nat)
    requires NewestFirst(s) && i <= j < |s|
    ensures s[j].createdAt.value <= s[i].createdAt.value
    decreases j - i
  {
    if i < j {
      NewestFirstOrdersAllPairs(s, i, j - 1);
    }
  }

  /** Insert `o` before the first order not newer than it (so ties keep their order). */
  function InsertNewestFirst(o: OrderRow, s: seq<OrderRow>): (r: seq<OrderRow>)
    requires o.createdAt.Some? && HaveCreatedAt(s)
    ensures |r| == |s| + 1 && HaveCreatedAt(r)
    ensures r[0] == if s == [] || s[0].createdAt.value <= o.createdAt.value then o else s[0]
  {
    if s == [] then [o]
    else if s[0].createdAt.value <= o.createdAt.value then [o] + s
    else [s[0]] + InsertNewestFirst(o, s[1..])
  }

  /** Inserting adds exactly `o`: the result is a permutation of `s` plus `o`. */
  lemma {:induction false} InsertNewestFirstPermutes(o: OrderRow, s: seq<OrderRow>)
    requires o.createdAt.Some? && HaveCreatedAt(s)
    ensures multiset(InsertNewestFirst(o, s)) == multiset(s) + multiset{o}
  {
    if s != [] && o.createdAt.value < s[0].createdAt.value {
      assert s == [s[0]] + s[1..];
      InsertNewestFirstPermutes(o, s[1..]);
    }
  }

  /** Inserting into a newest-first sequence keeps it newest first. */
  lemma {:induction false} InsertNewestFirstSorted(o: OrderRow, s: seq<OrderRow>)
    requires o.createdAt.Some? && NewestFirst(s)
    ensures NewestFirst(InsertNewestFirst(o, s))
  {
    var r := InsertNewestFirst(o, s);
    if s == [] || s[0].createdAt.value <= o.createdAt.value {
      assert r == [o] + s;
      forall i | 0 < i < |r| ensures r[i].createdAt.value <= r[i - 1].createdAt.value {
        if i > 1 {
          assert r[i] == s[i - 1] && r[i - 1] == s[i - 2];
        }
      }
    } else {
      var t := s[1..];
      forall i | 0 < i < |t| ensures t[i].createdAt.value <= t[i - 1].createdAt.value {
        assert t[i] == s[i + 1] && t[i - 1] == s[i];
      }
      InsertNewestFirstSorted(o, t);
      var rest := InsertNewestFirst(o, t);
      assert r == [s[0]] + rest;
      forall i | 0 < i < |r| ensures r[i].createdAt.value <= r[i - 1].createdAt.value {
        if i > 1 {
          assert r[i] == rest[i - 1] && r[i - 1] == rest[i - 2];
        }
      }
    }
  }

  function SortNewestFirst(s: seq<OrderRow>): (r: seq<OrderRow>)
    requires HaveCreatedAt(s)
    ensures NewestFirst(r)
    ensures multiset(r) == multiset(s)
  {
    if s == [] then []
    else
      assert s == [s[0]] + s[1..];
      var sorted := SortNewestFirst(s[1..]);
      InsertNewestFirstPermutes(s[0], sorted);
      InsertNewestFirstSorted(s[0], sorted);
      InsertNewestFirst(s[0], sorted)
  }

  /** Every row kept by the created-since query has a creation time. */
  lemma {:induction false} SelectedSinceHaveCreatedAt(orders: seq<OrderRow>, startDate: int)
    ensures HaveCreatedAt(Select(orders, CreatedSince(startDate)))
  {
    if orders != [] {
      var c := CreatedSince(startDate);
      SelectedSinceHaveCreatedAt(orders[1..], startDate);
      var r := Select(orders, c);
      var t := Select(orders[1..], c);
      if orders[0].createdAt.Some? && orders[0].createdAt.value >= startDate {
        assert r == [orders[0]] + t;
        forall i | 1 <= i < |r| ensures r[i].createdAt.Some? {
          assert r[i] == t[i - 1];
        }
      } else {
        assert r == t;
      }
    }
  }

  /** Orders created at or after `startDate`, newest first. */
  function FindRecentOrders(orders: seq<OrderRow>, startDate: int): (r: seq<OrderRow>)
    ensures forall o :: o in r <==> o in orders && o.createdAt.Some? && o.createdAt.value >= startDate
    ensures NewestFirst(r)
    ensures multiset(r) == multiset(Select(orders, CreatedSince(startDate)))
  {
    var recent := Select(orders, CreatedSince(startDate));
    SelectedSinceHaveCreatedAt(orders, startDate);
    var r := SortNewestFirst(recent);
    RecentMembers(orders, startDate, r);
    r
  }

  /** A permutation of the rows created since `startDate` holds exactly those rows. */
  lemma RecentMembers(orders: seq<OrderRow>, startDate: int, r: seq<OrderRow>)
    requires multiset(r) == multiset(Select(orders, CreatedSince(startDate)))
    ensures forall o :: o in r <==> o in orders && o.createdAt.Some? && o.createdAt.value >= startDate
  {
    var recent := Select(orders, CreatedSince(startDate));
    forall o ensures o in r <==> o in orders && o.createdAt.Some? && o.createdAt.value >= startDate {
      assert o in r <==> o in multiset(r);
      assert o in recent <==> o in multiset(recent);
      assert Matches(o, CreatedSince(startDate)) <==> o.createdAt.Some? && o.createdAt.value >= startDate;
    }
  }
}

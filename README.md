# Wholesale order pricing and lifecycle, in Dafny

This project models the order core of the wholesaleconnect backend. That core
covers:

- order items and their subtotals;
- an order's totals with 18% GST;
- the due date of a credit (Udar) order;
- the product stock checks;
- the two order endpoints that change state: create, and update status;
- the order queries of the repository.

The Java entities update their fields in place, so `Product`, `OrderItem`,
`Order` and the controller's store (`OrderController`) are Dafny classes. Their
methods state the whole new state in `ensures`. The queries are plain filters,
so they are pure functions over `OrderRow`, a value copy of an order's columns.

Modelling conventions:

- `BigDecimal` is `real`. No operation the core performs rounds.
- A field that may be null is an `Option`.
- Java `int`/`Integer` arithmetic wraps modulo 2^32 (module `Int32`).
- Dates are day numbers and instants are clock ticks (`int`). The current
  date and time are parameters (`today`, `now`).
- A Java exception becomes an explicit outcome:
  - `CalculateTotals` and `ReduceStock` return `thrown`;
  - an endpoint answers `ServerError`.

Modules:

- `Wrappers`: `Option`.
- `Int32`: the Java `int` range and wrap-around.
- `Enums`: `OrderStatus`, `PaymentStatus`, `PaymentMethod`.
- `Entity`: `Product`, `OrderItem`, `Order` and their specification functions.
- `Repository`: the queries.
- `Controller`: the create and status-update endpoints over a store
  `map<int, Order>`.

The model keeps three behaviours of the code:

- A due date is only ever set, never cleared. An order that is not a credit
  order, or has no duration, keeps whatever due date the request carried.
- Status timestamps are not write-once. Requesting a status again overwrites
  its timestamp (`RestampOverwrites`), and any status may be requested from any
  other (`ShipWithoutApproval`).
- `calculateTotals` reads subtotals straight from the items. On creation it
  runs before the persistence callback that would compute each item's
  subtotal. So a request whose items do not already carry a subtotal makes the
  sum throw, and the endpoint answers 500 (`CreateOrder`).

## Model

| member | source | states |
|---|---|---|
| Entity.Product.constructor | backend/src/main/java/com/wholesaleconnect/backend/entity/Product.java:59-70 | a new product has stock 0, MOQ 1 and is active |
| Entity.Product.CanOrder | backend/src/main/java/com/wholesaleconnect/backend/entity/Product.java:97-99 | true exactly when the stock is known and at least the requested quantity (its relation to `reduceStock` is `CanOrderGuardsReduce`) |
| Entity.CanOrderGuardsReduce | backend/src/main/java/com/wholesaleconnect/backend/entity/Product.java:97-110 | for a known stock and a non-negative quantity, an orderable quantity is taken out of stock in full and any other leaves the stock unchanged |
| Entity.CanOrderSmaller | backend/src/main/java/com/wholesaleconnect/backend/entity/Product.java:97-99 | if a quantity can be ordered, every smaller quantity can be too |
| Entity.Product.IsInStock | backend/src/main/java/com/wholesaleconnect/backend/entity/Product.java:87-89 | true exactly when one unit can be ordered, i.e. the stock is known and positive |
| Entity.Product.ReduceStock | backend/src/main/java/com/wholesaleconnect/backend/entity/Product.java:106-110 | throws exactly when the stock is null; otherwise the new stock is `StockAfterReduce` of the old one, and nothing else changes |
| Entity.StockAfterReduce | backend/src/main/java/com/wholesaleconnect/backend/entity/Product.java:106-110 | insufficient stock is left as it is; a sufficient non-negative request subtracts exactly; non-negative inputs never leave negative stock or raise it |
| Entity.NegativeReduceWraps | backend/src/main/java/com/wholesaleconnect/backend/entity/Product.java:107-108 | a negative quantity passes the guard and lets the 32-bit stock wrap (MAX reduced by -1 is MIN) |
| Entity.LineSubtotal | backend/src/main/java/com/wholesaleconnect/backend/entity/OrderItem.java:75 | price times quantity is non-negative for non-negative inputs, 0 for quantity 0 and the price for quantity 1 |
| Entity.SubtotalAfter | backend/src/main/java/com/wholesaleconnect/backend/entity/OrderItem.java:73-77 | with quantity and price both present the subtotal is their line product; otherwise the old subtotal is kept |
| Entity.SubtotalAfterIdempotent | backend/src/main/java/com/wholesaleconnect/backend/entity/OrderItem.java:71-77 | recomputing the subtotal on a second save changes nothing |
| Entity.OrderItem.constructor | backend/src/main/java/com/wholesaleconnect/backend/entity/OrderItem.java:40-60 | a new item has no order and no subtotal yet |
| Entity.OrderItem.CalculateSubtotal | backend/src/main/java/com/wholesaleconnect/backend/entity/OrderItem.java:73-77 | the new subtotal is `SubtotalAfter` of quantity, price and the old subtotal; nothing else changes |
| Entity.SubtotalSum | backend/src/main/java/com/wholesaleconnect/backend/entity/Order.java:155-157 | the sum is defined exactly when every item has a subtotal, and is 0 for no items |
| Entity.SubtotalSumAppend | backend/src/main/java/com/wholesaleconnect/backend/entity/Order.java:155-157 | summing a concatenation adds the sums of the parts, and fails exactly when a part fails |
| Entity.TotalAfterAppend | backend/src/main/java/com/wholesaleconnect/backend/entity/Order.java:138-141 | adding an item with a subtotal raises the sum by exactly that subtotal |
| Entity.SubtotalSumNonNegative | backend/src/main/java/com/wholesaleconnect/backend/entity/Order.java:155-157 | non-negative subtotals give a defined, non-negative sum |
| Entity.RemoveFirst | backend/src/main/java/com/wholesaleconnect/backend/entity/Order.java:147 | removing an absent item changes nothing; removing a present one shortens the list by one |
| Entity.RemoveFirstMultiset | backend/src/main/java/com/wholesaleconnect/backend/entity/Order.java:147 | removal takes away exactly one occurrence of the item, as a multiset |
| Entity.RemoveFirstAt | backend/src/main/java/com/wholesaleconnect/backend/entity/Order.java:147 | the occurrence removed is the first one; the items before and after it keep their order |
| Entity.RemoveFirstAfterAppend | backend/src/main/java/com/wholesaleconnect/backend/entity/Order.java:138-149 | removing a newly added item that was not in the order before restores the old item list |
| Entity.Order.constructor | backend/src/main/java/com/wholesaleconnect/backend/entity/Order.java:71-131 | a new order has no items, payment PENDING, status PENDING_APPROVAL, and no amounts, due date or timestamps |
| Entity.Order.AddOrderItem | backend/src/main/java/com/wholesaleconnect/backend/entity/Order.java:138-141 | the item is appended at the end and its back-reference points to this order |
| Entity.Order.RemoveOrderItem | backend/src/main/java/com/wholesaleconnect/backend/entity/Order.java:146-149 | the first occurrence of the item (by identity) is removed and its back-reference is cleared |
| Entity.Order.CalculateTotals | backend/src/main/java/com/wholesaleconnect/backend/entity/Order.java:154-163 | throws exactly when an item lacks a subtotal and then leaves the amounts unchanged; otherwise total = sum of subtotals, GST = 18% of it, grand total = 1.18 × total |
| Entity.GrandTotalAtLeastTotal | backend/src/main/java/com/wholesaleconnect/backend/entity/Order.java:154-163 | with consistent totals over non-negative subtotals, GST is non-negative and the grand total is at least the total |
| Entity.Order.CalculateDueDate | backend/src/main/java/com/wholesaleconnect/backend/entity/Order.java:168-172 | a credit order with a duration falls due that many days after today; any other order keeps its due date |
| Repository.Select | backend/src/main/java/com/wholesaleconnect/backend/repository/OrderRepository.java:17-41 | a row is in the result exactly when it is stored and matches the query |
| Repository.SelectCounts | backend/src/main/java/com/wholesaleconnect/backend/repository/OrderRepository.java:17-41 | each matching row is returned as often as it is stored; other rows are not returned |
| Repository.FindByBuyerId | backend/src/main/java/com/wholesaleconnect/backend/repository/OrderRepository.java:18 | exactly the stored orders of the buyer |
| Repository.FindBySellerId | backend/src/main/java/com/wholesaleconnect/backend/repository/OrderRepository.java:21 | exactly the stored orders of the seller |
| Repository.FindByBuyerIdAndOrderStatus | backend/src/main/java/com/wholesaleconnect/backend/repository/OrderRepository.java:24 | exactly the buyer's stored orders in the status |
| Repository.FindBySellerIdAndOrderStatus | backend/src/main/java/com/wholesaleconnect/backend/repository/OrderRepository.java:27 | exactly the seller's stored orders in the status |
| Repository.FindByPaymentStatus | backend/src/main/java/com/wholesaleconnect/backend/repository/OrderRepository.java:30 | exactly the stored orders with that payment status |
| Repository.FindOverdueOrders | backend/src/main/java/com/wholesaleconnect/backend/repository/OrderRepository.java:32-34 | exactly the unpaid (PENDING) orders with a due date strictly before today |
| Repository.FindOrdersDueSoon | backend/src/main/java/com/wholesaleconnect/backend/repository/OrderRepository.java:36-41 | exactly the unpaid orders due from today to the future date, both ends included |
| Repository.CountBySellerIdAndOrderStatus | backend/src/main/java/com/wholesaleconnect/backend/repository/OrderRepository.java:43-44 | the count equals the number of orders the seller-and-status query returns |
| Repository.OverdueAndDueSoonDisjoint | backend/src/main/java/com/wholesaleconnect/backend/repository/OrderRepository.java:32-41 | for the same today, no order is both overdue and due soon |
| Repository.DueQueriesNeedPendingDueDate | backend/src/main/java/com/wholesaleconnect/backend/repository/OrderRepository.java:32-41 | an order without a due date, or whose payment is not PENDING, is in neither due-date query |
| Repository.NewestFirstOrdersAllPairs | backend/src/main/java/com/wholesaleconnect/backend/repository/OrderRepository.java:47 | in a newest-first sequence every order is at least as new as any later one |
| Repository.InsertNewestFirst | backend/src/main/java/com/wholesaleconnect/backend/repository/OrderRepository.java:47 | insertion adds one row and puts the new row first exactly when it is at least as new as the current head |
| Repository.InsertNewestFirstPermutes | backend/src/main/java/com/wholesaleconnect/backend/repository/OrderRepository.java:47 | insertion adds exactly the one new row, as a multiset |
| Repository.InsertNewestFirstSorted | backend/src/main/java/com/wholesaleconnect/backend/repository/OrderRepository.java:47 | insertion into a newest-first sequence keeps it newest first |
| Repository.SortNewestFirst | backend/src/main/java/com/wholesaleconnect/backend/repository/OrderRepository.java:47 | the result is newest first and a permutation of the input |
| Repository.SelectedSinceHaveCreatedAt | backend/src/main/java/com/wholesaleconnect/backend/repository/OrderRepository.java:47 | every row the created-since filter keeps has a creation time (a null one fails the comparison) |
| Repository.RecentMembers | backend/src/main/java/com/wholesaleconnect/backend/repository/OrderRepository.java:47 | any permutation of the created-since rows contains exactly the orders created at or after the start |
| Repository.FindRecentOrders | backend/src/main/java/com/wholesaleconnect/backend/repository/OrderRepository.java:46-48 | exactly the orders created at or after the start, each as often as stored, ordered newest first |
| Controller.WithStatus | backend/src/main/java/com/wholesaleconnect/backend/controller/OrderController.java:104-123 | the status becomes the requested one, that status's timestamp becomes now, every other timestamp and column is unchanged; PENDING_APPROVAL stamps nothing |
| Controller.RestampOverwrites | backend/src/main/java/com/wholesaleconnect/backend/controller/OrderController.java:107-123 | requesting a status twice leaves the second time as its timestamp |
| Controller.ShipWithoutApproval | backend/src/main/java/com/wholesaleconnect/backend/controller/OrderController.java:104-123 | a fresh order can be shipped directly: it gets a ship time and still has no approval time |
| Controller.ApplyStatus | backend/src/main/java/com/wholesaleconnect/backend/controller/OrderController.java:104-123 | the order's row after the update is `WithStatus` of its row before; its items are untouched |
| Controller.OrderController.CreateOrder | backend/src/main/java/com/wholesaleconnect/backend/controller/OrderController.java:80-90 | 500 exactly when an item lacks a subtotal, and then nothing is saved or changed; otherwise the totals are consistent, the due date is computed, the order is stored under a fresh id and the id counter moves on by one; the store invariant (every id below the counter, no order filed under two ids) is kept; the request body is a new object, not a stored order |
| Controller.OrderController.UpdateOrderStatus | backend/src/main/java/com/wholesaleconnect/backend/controller/OrderController.java:97-129 | an unknown id is 404 and changes nothing; the store and its invariant are kept; a known one answers the same stored order, its row becomes `WithStatus` of the old row, and its items are unchanged; every other stored order is unchanged |
| Entity.RecalculateTotals | backend/src/main/java/com/wholesaleconnect/backend/entity/Order.java:154-163 | a second totals computation over the same items throws exactly when the first did; when both throw the amounts are those before the first call, otherwise they are the consistent totals of the items, as after the first call |
| Entity.TwoLineSum | backend/src/main/java/com/wholesaleconnect/backend/entity/Order.java:155-157 | subtotals 90.00 and 18.00 sum to 108.00 |
| Entity.TwoLineAmounts | backend/src/main/java/com/wholesaleconnect/backend/entity/Order.java:154-163 | consistent totals over a 108.00 sum are 108.00, GST 19.44 and grand total 127.44 |

`Controller.CreateOrderScenario` and `Entity.DueDateScenario` are worked
examples, checked by assertions. The first creates that two-line order in an
empty store: it is saved under id 1. The second computes a 15-day credit due
date and shows a cash order getting none.

## Left out

- Persistence callbacks are not modelled as automatic. `@PrePersist`/`@PreUpdate`, which run `calculateSubtotal`, are modelled as the explicit method `OrderItem.CalculateSubtotal`. The framework calls them during saving, and saving is not modelled beyond a store update.
- `@CreationTimestamp` is not modelled: saving does not set `createdAt`. The queries take it as a column.
- Database-generated ids are modelled as a counter starting at 1. The request body of a create is a new object, never one already stored. A create request that carries an existing id, which JPA would merge, is not modelled.
- Item equality is reference identity. Lombok's `@Data` field-wise `equals` on `OrderItem` is not modelled; `RemoveOrderItem` removes the first occurrence of the same object.
- `LocalDate.plusDays` is plain addition on day numbers. Calendar arithmetic and date overflow are not modelled.
- A null payment method and a null requested status are not modelled. Both are non-nullable in the model; in Java the second throws in the `switch`.
- The database's scale-2 rounding of amounts on storage is not modelled. The model keeps exact values.
- Query rows come back in stored order. `FindRecentOrders` breaks creation-time ties by stored order; the database leaves both unspecified.
- Product seller, MOQ and active flag are only stored: no operation of the core reads them.
- Transactions and concurrent requests are not modelled.
- The read-only endpoints that only call one query are not modelled; the queries themselves are.
- HTTP mapping is reduced to `Response`: `Ok` (200), `NotFound` (404), `ServerError` (500 after an exception).
- The system clock is not modelled. The current date is the parameter `today` of the due-date computation. The current time is the parameter `now` of the status update, read once where Java reads the clock when it stamps.

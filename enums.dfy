/** The enumerations stored as strings in the order table. */
module Enums {

  /** Lifecycle of an order; PENDING_APPROVAL is the initial value. */
  datatype OrderStatus = PENDING_APPROVAL | APPROVED | REJECTED | SHIPPED | DELIVERED | CANCELLED

  /** Payment state of an order; PENDING is the initial value. */
  datatype PaymentStatus = PENDING | PAID | OVERDUE | CANCELLED

  /** How the buyer pays; UDAR is credit with a due date. */
  datatype PaymentMethod = CASH | ONLINE | UDAR
}

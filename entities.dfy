/**
  The persistent records of the CRM store (customers and their orders), the
  insertion hook of an order, and the response shapes the services hand back.
  Amounts (a decimal in the program) are never computed on and are kept as
  integers; timestamps are the integer readings of a clock passed in by the caller.
 */
module Entities {

  datatype OrderStatus = New | Processing | Completed | Canceled

  /** The enum constant's name, as it appears in an order's response shape. */
  function StatusName(s: OrderStatus): string
  {
    match s
    case New => "NEW"
    case Processing => "PROCESSING"
    case Completed => "COMPLETED"
    case Canceled => "CANCELED"
  }

  datatype Customer = Customer(id: int, name: string, email: string, phone: string)

  /** An order row; `customerId` is the id of the owning customer the row refers to. */
  datatype Order = Order(
    id: int,
    description: string,
    amount: int,
    status: OrderStatus,
    createdAt: int,
    customerId: int)

  /**
    The hook the store runs on an order right before its first insertion: it stamps
    the creation time and forces the status to NEW, whatever the caller had put there.
   */
  function PrePersist(o: Order, now: int): (r: Order)
    ensures r.status == New && r.createdAt == now
    ensures r.(status := o.status, createdAt := o.createdAt) == o
  {
    o.(createdAt := now, status := New)
  }

  /** Orders that differ only in the fields the hook overwrites are inserted identically. */
  lemma PrePersistIgnoresCallerValues(o1: Order, o2: Order, now: int)
    requires o1.id == o2.id && o1.description == o2.description
    requires o1.amount == o2.amount && o1.customerId == o2.customerId
    ensures PrePersist(o1, now) == PrePersist(o2, now)
  {
  }

  datatype CustomerView = CustomerView(id: int, name: string, email: string, phone: string)

  datatype OrderView = OrderView(
    id: int,
    description: string,
    amount: int,
    status: string,
    createdAt: int,
    customerId: int)

  /** Field-by-field copy standing in for the reflection-driven customer mapper. */
  function CustomerToView(c: Customer): CustomerView
  {
    CustomerView(c.id, c.name, c.email, c.phone)
  }

  /** Field-by-field copy standing in for the reflection-driven order mapper. */
  function OrderToView(o: Order): OrderView
  {
    OrderView(o.id, o.description, o.amount, StatusName(o.status), o.createdAt, o.customerId)
  }
}

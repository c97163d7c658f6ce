/**
  The customer service and the order service over one store. The store holds the
  two tables, keyed by id, and the next value of each table's identity column;
  it stands in for the two repositories. Every operation returns a `Result`, so
  that a failing call can be stated to leave the store as it was.
 */
module Services {
  import opened Wrappers
  import opened Entities
  import opened Requests

  datatype Error =
    | CustomerNotFound(id: int)
    | OrderNotFound(id: int)
    | Unauthorized
    | Validation(messages: set<string>)

  datatype Result<T> = Ok(value: T) | Err(error: Error)

  /** The "field:message" entries of a failed validation. */
  function Messages(errs: set<Violation>): set<string>
  {
    set v | v in errs :: Render(v)
  }

  /** Rendering keeps one entry per violation: no two violations collapse into one message. */
  lemma {:induction false} MessagesCount(errs: set<Violation>)
    ensures |Messages(errs)| == |errs|
  {
    if errs != {} {
      var v :| v in errs;
      var rest := errs - {v};
      MessagesCount(rest);
      assert Messages(errs) == Messages(rest) + {Render(v)};
      if Render(v) in Messages(rest) {
        var w :| w in rest && Render(w) == Render(v);
        RenderInjective(w, v);
      }
    }
  }

  // ---------------------------------------------------------------------------
  // Listing a table. The store walks the identity range [0, n) upwards, so a
  // listing holds one view per matching row, in ascending id order.
  // ---------------------------------------------------------------------------

  /** Every row is stored under its own id. */
  ghost predicate CustomersKeyed(customers: map<int, Customer>)
  {
    forall id :: id in customers ==> customers[id].id == id
  }

  ghost predicate OrdersKeyed(orders: map<int, Order>)
  {
    forall id :: id in orders ==> orders[id].id == id
  }

  ghost function CustomerIdsBelow(customers: map<int, Customer>, n: int): set<int>
  {
    set id | id in customers && 0 <= id < n
  }

  ghost function OrderIdsOwnedBelow(orders: map<int, Order>, owner: int, n: int): set<int>
  {
    set id | id in orders && 0 <= id < n && orders[id].customerId == owner
  }

  function CustomerViewsBelow(customers: map<int, Customer>, n: nat): (r: seq<CustomerView>)
    requires CustomersKeyed(customers)
    ensures forall i :: 0 <= i < |r| ==>
      r[i].id in customers && 0 <= r[i].id < n && r[i] == CustomerToView(customers[r[i].id])
    ensures forall i, j :: 0 <= i < j < |r| ==> r[i].id < r[j].id
  {
    if n == 0 then []
    else
      var prev := CustomerViewsBelow(customers, n - 1);
      if n - 1 in customers then prev + [CustomerToView(customers[n - 1])] else prev
  }

  /** No stored customer below the bound is left out of the listing. */
  lemma {:induction false} CustomerViewsBelowComplete(customers: map<int, Customer>, n: nat)
    requires CustomersKeyed(customers)
    ensures forall id :: id in customers && 0 <= id < n ==> CustomerToView(customers[id]) in CustomerViewsBelow(customers, n)
  {
    if n > 0 {
      CustomerViewsBelowComplete(customers, n - 1);
      var prev := CustomerViewsBelow(customers, n - 1);
      assert forall v :: v in prev ==> v in CustomerViewsBelow(customers, n);
    }
  }

  /** The listing holds exactly one view per stored customer below the bound. */
  lemma {:induction false} CustomerViewsBelowCount(customers: map<int, Customer>, n: nat)
    requires CustomersKeyed(customers)
    ensures |CustomerViewsBelow(customers, n)| == |CustomerIdsBelow(customers, n)|
  {
    if n == 0 {
      assert CustomerIdsBelow(customers, n) == {};
    } else {
      CustomerViewsBelowCount(customers, n - 1);
      if n - 1 in customers {
        assert CustomerIdsBelow(customers, n) == CustomerIdsBelow(customers, n - 1) + {n - 1};
      } else {
        assert CustomerIdsBelow(customers, n) == CustomerIdsBelow(customers, n - 1);
      }
    }
  }

  function OrderViewsOwnedBelow(orders: map<int, Order>, owner: int, n: nat): (r: seq<OrderView>)
    requires OrdersKeyed(orders)
    ensures forall i :: 0 <= i < |r| ==>
      && r[i].id in orders && 0 <= r[i].id < n
      && r[i].customerId == owner && r[i] == OrderToView(orders[r[i].id])
    ensures forall i, j :: 0 <= i < j < |r| ==> r[i].id < r[j].id
  {
    if n == 0 then []
    else
      var prev := OrderViewsOwnedBelow(orders, owner, n - 1);
      if n - 1 in orders && orders[n - 1].customerId == owner then prev + [OrderToView(orders[n - 1])] else prev
  }

  /** No stored order of the owner below the bound is left out of the listing. */
  lemma {:induction false} OrderViewsOwnedBelowComplete(orders: map<int, Order>, owner: int, n: nat)
    requires OrdersKeyed(orders)
    ensures forall id :: id in orders && 0 <= id < n && orders[id].customerId == owner ==>
      OrderToView(orders[id]) in OrderViewsOwnedBelow(orders, owner, n)
  {
    if n > 0 {
      OrderViewsOwnedBelowComplete(orders, owner, n - 1);
      var prev := OrderViewsOwnedBelow(orders, owner, n - 1);
      assert forall v :: v in prev ==> v in OrderViewsOwnedBelow(orders, owner, n);
    }
  }

  /** The listing holds exactly one view per stored order of the owner below the bound. */
  lemma {:induction false} OrderViewsOwnedBelowCount(orders: map<int, Order>, owner: int, n: nat)
    requires OrdersKeyed(orders)
    ensures |OrderViewsOwnedBelow(orders, owner, n)| == |OrderIdsOwnedBelow(orders, owner, n)|
  {
    if n == 0 {
      assert OrderIdsOwnedBelow(orders, owner, n) == {};
    } else {
      OrderViewsOwnedBelowCount(orders, owner, n - 1);
      if n - 1 in orders && orders[n - 1].customerId == owner {
        assert OrderIdsOwnedBelow(orders, owner, n) == OrderIdsOwnedBelow(orders, owner, n - 1) + {n - 1};
      } else {
        assert OrderIdsOwnedBelow(orders, owner, n) == OrderIdsOwnedBelow(orders, owner, n - 1);
      }
    }
  }

  class Store {
    var customers: map<int, Customer>
    var orders: map<int, Order>
    /** The id the customer table's identity column hands out next. */
    var nextCustomerId: int
    /** The id the order table's identity column hands out next. */
    var nextOrderId: int

    /**
      Rows are stored under their own ids, every id was handed out by the identity
      column, and every order refers to a customer id that was handed out (the
      customer may have been deleted since).
     */
    ghost predicate Valid()
      reads this
    {
      && 1 <= nextCustomerId && 1 <= nextOrderId
      && (forall id :: id in customers ==> customers[id].id == id && 1 <= id < nextCustomerId)
      && (forall id :: id in orders ==>
            orders[id].id == id && 1 <= id < nextOrderId && 1 <= orders[id].customerId < nextCustomerId)
    }

    constructor ()
      ensures Valid()
      ensures customers == map[] && orders == map[]
      ensures nextCustomerId == 1 && nextOrderId == 1
    {
      customers, orders := map[], map[];
      nextCustomerId, nextOrderId := 1, 1;
    }

    // ----- customer service --------------------------------------------------

    function GetCustomerById(id: int): (r: Result<CustomerView>)
      reads this
      requires Valid()
      ensures r.Ok? <==> id in customers
      ensures r.Ok? ==> r.value == CustomerToView(customers[id]) && r.value.id == id
      ensures r.Err? ==> r.error == CustomerNotFound(id)
    {
      if id in customers then Ok(CustomerToView(customers[id])) else Err(CustomerNotFound(id))
    }

    function GetAllCustomers(): (r: seq<CustomerView>)
      reads this
      requires Valid()
      ensures |r| == |customers|
      ensures forall i :: 0 <= i < |r| ==> r[i].id in customers && r[i] == CustomerToView(customers[r[i].id])
      ensures forall id :: id in customers ==> CustomerToView(customers[id]) in r
      ensures forall i, j :: 0 <= i < j < |r| ==> r[i].id != r[j].id
    {
      assert CustomerIdsBelow(customers, nextCustomerId) == customers.Keys;
      CustomerViewsBelowComplete(customers, nextCustomerId);
      CustomerViewsBelowCount(customers, nextCustomerId);
      CustomerViewsBelow(customers, nextCustomerId)
    }

    method CreateCustomer(req: CustomerRequest, isEmail: string -> bool) returns (r: Result<CustomerView>)
      requires Valid()
      modifies this
      ensures Valid()
      ensures orders == old(orders) && nextOrderId == old(nextOrderId)
      ensures ValidateCustomer(req, isEmail) != {} ==>
        && r == Err(Validation(Messages(ValidateCustomer(req, isEmail))))
        && customers == old(customers) && nextCustomerId == old(nextCustomerId)
      ensures ValidateCustomer(req, isEmail) == {} ==>
        && req.name.Some? && req.email.Some? && req.phone.Some?
        && var id := old(nextCustomerId);
        && id !in old(customers)
        && customers == old(customers)[id := Customer(id, req.name.value, req.email.value, req.phone.value)]
        && |customers| == |old(customers)| + 1
        && r == Ok(CustomerView(id, req.name.value, req.email.value, req.phone.value))
    {
      var errs := ValidateCustomer(req, isEmail);
      if errs != {} {
        return Err(Validation(Messages(errs)));
      }
      assert CustomerViolates(req, isEmail, NameBlank) == false;
      assert CustomerViolates(req, isEmail, EmailBlank) == false;
      assert CustomerViolates(req, isEmail, PhoneBlank) == false;
      var customer := Customer(nextCustomerId, req.name.value, req.email.value, req.phone.value);
      customers := customers[customer.id := customer];
      nextCustomerId := nextCustomerId + 1;
      r := Ok(CustomerToView(customer));
    }

    method UpdateCustomer(req: CustomerRequest, id: int, isEmail: string -> bool) returns (r: Result<CustomerView>)
      requires Valid()
      modifies this
      ensures Valid()
      ensures orders == old(orders) && nextOrderId == old(nextOrderId) && nextCustomerId == old(nextCustomerId)
      ensures ValidateCustomer(req, isEmail) != {} ==>
        r == Err(Validation(Messages(ValidateCustomer(req, isEmail)))) && customers == old(customers)
      ensures ValidateCustomer(req, isEmail) == {} && id !in old(customers) ==>
        r == Err(CustomerNotFound(id)) && customers == old(customers)
      ensures ValidateCustomer(req, isEmail) == {} && id in old(customers) ==>
        && req.name.Some? && req.email.Some? && req.phone.Some?
        && customers == old(customers)[id := Customer(id, req.name.value, req.email.value, req.phone.value)]
        && r == Ok(CustomerView(id, req.name.value, req.email.value, req.phone.value))
        && r == GetCustomerById(id)
    {
      var errs := ValidateCustomer(req, isEmail);
      if errs != {} {
        return Err(Validation(Messages(errs)));
      }
      if id !in customers {
        return Err(CustomerNotFound(id));
      }
      assert CustomerViolates(req, isEmail, NameBlank) == false;
      assert CustomerViolates(req, isEmail, EmailBlank) == false;
      assert CustomerViolates(req, isEmail, PhoneBlank) == false;
      var customer := customers[id];
      customer := customer.(name := req.name.value);
      customer := customer.(email := req.email.value);
      customer := customer.(phone := req.phone.value);
      customers := customers[id := customer];
      r := Ok(CustomerToView(customer));
    }

    method DeleteCustomer(id: int) returns (r: Result<()>)
      requires Valid()
      modifies this
      ensures Valid()
      ensures orders == old(orders) && nextOrderId == old(nextOrderId) && nextCustomerId == old(nextCustomerId)
      ensures id !in old(customers) ==> r == Err(CustomerNotFound(id)) && customers == old(customers)
      ensures id in old(customers) ==>
        && r == Ok(())
        && customers == old(customers) - {id}
        && |customers| == |old(customers)| - 1
        && GetCustomerById(id) == Err(CustomerNotFound(id))
    {
      if id !in customers {
        return Err(CustomerNotFound(id));
      }
      customers := customers - {id};
      r := Ok(());
    }

    // ----- order service -----------------------------------------------------

    function GetOrdersByCustomerId(customerId: int): (r: seq<OrderView>)
      reads this
      requires Valid()
      ensures forall i :: 0 <= i < |r| ==>
        && r[i].id in orders && r[i].customerId == customerId
        && r[i] == OrderToView(orders[r[i].id])
      ensures forall id :: id in orders && orders[id].customerId == customerId ==> OrderToView(orders[id]) in r
      ensures forall i, j :: 0 <= i < j < |r| ==> r[i].id != r[j].id
      ensures |r| == |set id | id in orders && orders[id].customerId == customerId|
      ensures (forall id :: id in orders ==> orders[id].customerId != customerId) ==> r == []
    {
      assert OrderIdsOwnedBelow(orders, customerId, nextOrderId)
          == set id | id in orders && orders[id].customerId == customerId;
      OrderViewsOwnedBelowComplete(orders, customerId, nextOrderId);
      OrderViewsOwnedBelowCount(orders, customerId, nextOrderId);
      OrderViewsOwnedBelow(orders, customerId, nextOrderId)
    }

    method CreateOrder(req: OrderRequest, now: int) returns (r: Result<OrderView>)
      requires Valid()
      modifies this
      ensures Valid()
      ensures customers == old(customers) && nextCustomerId == old(nextCustomerId)
      ensures ValidateOrder(req) != {} ==>
        r == Err(Validation(Messages(ValidateOrder(req)))) && orders == old(orders) && nextOrderId == old(nextOrderId)
      ensures ValidateOrder(req) == {} && req.customerId.value !in customers ==>
        && r == Err(CustomerNotFound(req.customerId.value))
        && orders == old(orders) && nextOrderId == old(nextOrderId)
      ensures ValidateOrder(req) == {} && req.customerId.value in customers ==>
        && var id := old(nextOrderId);
        && var created := Order(id, req.description.value, req.amount.value, New, now, req.customerId.value);
        && id !in old(orders)
        && orders == old(orders)[id := created]
        && |orders| == |old(orders)| + 1
        && r == Ok(OrderToView(created))
    {
      var errs := ValidateOrder(req);
      if errs != {} {
        return Err(Validation(Messages(errs)));
      }
      if req.customerId.value !in customers {
        return Err(CustomerNotFound(req.customerId.value));
      }
      var customer := customers[req.customerId.value];
      var order := OrderFromRequest(req);
      order := order.(id := nextOrderId);
      order := order.(customerId := customer.id);
      var saved := PrePersist(order, now);
      orders := orders[saved.id := saved];
      nextOrderId := nextOrderId + 1;
      r := Ok(OrderToView(saved));
    }

    method UpdateOrderStatus(orderId: int, status: OrderStatus, customerId: int) returns (r: Result<OrderView>)
      requires Valid()
      modifies this
      ensures Valid()
      ensures customers == old(customers) && nextCustomerId == old(nextCustomerId) && nextOrderId == old(nextOrderId)
      ensures orderId !in old(orders) ==> r == Err(OrderNotFound(orderId)) && orders == old(orders)
      ensures orderId in old(orders) && old(orders)[orderId].customerId != customerId ==>
        r == Err(Unauthorized) && orders == old(orders)
      ensures orderId in old(orders) && old(orders)[orderId].customerId == customerId ==>
        && orders == old(orders)[orderId := old(orders)[orderId].(status := status)]
        && r == Ok(OrderToView(orders[orderId]))
        && r.value.id == orderId && r.value.customerId == customerId
        && r.value.status == StatusName(status)
        && r.value.createdAt == old(orders)[orderId].createdAt
    {
      if orderId !in orders {
        return Err(OrderNotFound(orderId));
      }
      var order := orders[orderId];
      if order.customerId != customerId {
        return Err(Unauthorized);
      }
      order := order.(status := status);
      orders := orders[orderId := order];
      r := Ok(OrderToView(order));
    }
  }

  /**
    The order entity the request maps to before the service completes it: the
    description and amount are copied; the id, status and creation time are
    placeholders that the service and the insertion hook overwrite.
   */
  function OrderFromRequest(req: OrderRequest): Order
    requires req.description.Some? && req.amount.Some? && req.customerId.Some?
  {
    Order(0, req.description.value, req.amount.value, New, 0, req.customerId.value)
  }
}

/**
  A client of the store: a customer "Bob", one order of theirs, a status change
  by the owner and one by another customer, and the customer's deletion, with
  what the contracts let a caller conclude at each step.
 */
module Walkthrough {
  import opened Wrappers
  import opened Entities
  import opened Requests
  import opened Services

  const Bob := CustomerRequest(Some("Bob"), Some("bob@x.com"), Some("+1234567"))

  /** Bob's customer request breaks no constraint. */
  lemma BobIsValid(isEmail: string -> bool)
    requires isEmail("bob@x.com")
    ensures ValidateCustomer(Bob, isEmail) == {}
  {
    assert Trim("Bob") == "Bob" && Trim("bob@x.com") == "bob@x.com" && Trim("+1234567") == "+1234567";
    assert Utf16Length("Bob") == 3;
    assert PhoneDigits("+1234567"[1..]);
    assert CustomerRequestValid(Bob, isEmail);
  }

  method OwnerMayChangeStatusOthersMayNot(isEmail: string -> bool, now: int)
    requires isEmail("bob@x.com")
  {
    var store := new Store();
    BobIsValid(isEmail);
    var c := store.CreateCustomer(Bob, isEmail);
    assert c == Ok(CustomerView(1, "Bob", "bob@x.com", "+1234567"));

    var o := store.CreateOrder(OrderRequest(Some("widget"), Some(999), Some(1)), now);
    assert o.Ok? && o.value.id == 1 && o.value.status == "NEW" && o.value.createdAt == now;

    var u := store.UpdateOrderStatus(1, Processing, 1);
    assert u.Ok? && u.value.status == "PROCESSING";

    var v := store.UpdateOrderStatus(1, Completed, 2);
    assert v == Err(Unauthorized);
    assert store.orders[1].status == Processing;

    var d := store.DeleteCustomer(1);
    assert d == Ok(()) && store.GetCustomerById(1) == Err(CustomerNotFound(1));
    assert store.GetOrdersByCustomerId(1) != [];
  }
}

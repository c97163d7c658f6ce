# simplecrm: customer and order store, in Dafny

This project models the business core of simplecrm, a small CRM backend. Customers
(name, email, phone) are created, read, updated in full, deleted and listed. Orders
belong to a customer: they are created for an existing customer, listed by owner,
and their status is changed by their owner only.

The two JPA repositories become one class, `Services.Store`. It holds two tables,
`customers: map<int, Customer>` and `orders: map<int, Order>`, and the next value of
each table's identity column. The customer-service and order-service operations are
methods and functions of that class. Each returns a `Result` whose error is one of
`CustomerNotFound(id)`, `OrderNotFound(id)`, `Unauthorized` and
`Validation(messages)`. The object invariant `Valid()` states three things:
- every row is stored under its own id;
- every id was handed out by the identity column;
- every order refers to a customer id that was handed out.

Files:
- `wrappers.dfy`: `Option`, for a field that is absent (a Java null).
- `entities.dfy`: the `Customer` and `Order` records, `OrderStatus`, the order
  insertion hook (`PrePersist`) and the response shapes with their field-copy
  mappers.
- `requests.dfy`: the two request bodies and their bean-validation constraints,
  written as explicit checks. `@NotBlank` follows `String.trim()`. `@Size` counts
  UTF-16 code units. `@Pattern` is written as the regular expression's two
  alternatives. `ValidateCustomer` and `ValidateOrder` return every broken
  constraint; each renders as a `"field:message"` entry.
- `services.dfy`: the error and result types, the listing functions, the `Store`
  class, and a client (`Walkthrough`). The client creates a customer, creates an
  order for them, changes its status as the owner, is refused as another customer,
  and deletes the customer.

In the phone pattern `\+?[0-9\- ]{7,15}`, the `{7,15}` bounds only the characters
after the optional `+`, so an accepted phone has 7 to 16 characters;
`Requests.PhonePatternShape` proves it.

## Model

| member | source | states |
|---|---|---|
| Entities.PrePersist | src/main/java/com/example/simplecrm/model/Order.java:34-38 | the inserted order has status NEW and `createdAt` equal to the clock reading; every other field (id, description, amount, owner) is unchanged |
| Entities.PrePersistIgnoresCallerValues | src/main/java/com/example/simplecrm/model/Order.java:34-37 | two orders that differ only in status and creation time are inserted identically: the caller's status and timestamp are always overridden |
| Requests.TrimStartShape | src/main/java/com/example/simplecrm/dto/CustomerRequestDTO.java:14 | trimming the front drops a prefix of characters at or below U+0020 and stops at the first visible one |
| Requests.TrimEndShape | src/main/java/com/example/simplecrm/dto/CustomerRequestDTO.java:14 | trimming the back drops a suffix of characters at or below U+0020 and stops at the last visible one |
| Requests.NotBlankIffVisibleChar | src/main/java/com/example/simplecrm/dto/CustomerRequestDTO.java:14 | a present string passes `@NotBlank` if and only if it contains a character above U+0020 |
| Requests.Utf16Length | src/main/java/com/example/simplecrm/dto/CustomerRequestDTO.java:15 | the length `@Size` measures lies between the number of characters and twice that number, and equals the number of characters exactly when no character lies above U+FFFF (those count twice) |
| Requests.PhonePatternShape | src/main/java/com/example/simplecrm/dto/CustomerRequestDTO.java:23 | an accepted phone has 7 to 16 characters and a `+` only in first place; exactly characterises the accepted strings, with or without the leading `+` |
| Requests.ValidateCustomer | src/main/java/com/example/simplecrm/dto/CustomerRequestDTO.java:14-24 | a constraint is reported if and only if the request breaks it (every field, every constraint, not just the first); the report is empty if and only if all constraints hold |
| Requests.RenderInjective | src/main/java/com/example/simplecrm/exception/GlobalExceptionHandler.java:16-20 | two different violations never render as the same `"field:message"` entry |
| Services.MessagesCount | src/main/java/com/example/simplecrm/exception/GlobalExceptionHandler.java:16-20 | a failed validation carries exactly one `"field:message"` entry per violated constraint |
| Requests.ValidateOrder | src/main/java/com/example/simplecrm/dto/order/OrderRequestDTO.java:9-16 | a field is reported if and only if it is null; the report is empty if and only if description, amount and customerId are all present |
| Requests.OrderRequestAcceptsAnyPresentValues | src/main/java/com/example/simplecrm/dto/order/OrderRequestDTO.java:9-16 | no constraint beyond presence: an empty description and a zero or negative amount pass |
| Services.CustomerViewsBelow | src/main/java/com/example/simplecrm/service/CustomerService.java:52-55 | every listed view is the view of a stored customer with an id below the bound, and ids strictly increase (no customer is listed twice) |
| Services.CustomerViewsBelowComplete | src/main/java/com/example/simplecrm/service/CustomerService.java:52-55 | every stored customer below the bound appears in the listing |
| Services.CustomerViewsBelowCount | src/main/java/com/example/simplecrm/service/CustomerService.java:52-55 | the listing has as many entries as there are stored customers below the bound |
| Services.OrderViewsOwnedBelow | src/main/java/com/example/simplecrm/service/OrderService.java:43-48 | every listed view is the view of a stored order of the given owner, and ids strictly increase |
| Services.OrderViewsOwnedBelowComplete | src/main/java/com/example/simplecrm/service/OrderService.java:43-48 | every stored order of the owner below the bound appears in the listing |
| Services.OrderViewsOwnedBelowCount | src/main/java/com/example/simplecrm/service/OrderService.java:43-48 | the listing has as many entries as the owner has stored orders below the bound |
| Services.Store.GetCustomerById | src/main/java/com/example/simplecrm/service/CustomerService.java:23-27 | succeeds if and only if the id is stored, with the view of that customer (carrying the same id); otherwise fails with CustomerNotFound carrying the id |
| Services.Store.GetAllCustomers | src/main/java/com/example/simplecrm/service/CustomerService.java:52-56 | exactly one view per stored customer: each entry is a stored customer's view, every customer appears, no id twice, and the length equals the table size |
| Services.Store.CreateCustomer | src/main/java/com/example/simplecrm/service/CustomerService.java:29-33 | an invalid request fails with every violation and changes nothing; a valid one stores exactly one new customer under a fresh id, with the request's name, email and phone, and returns its view |
| Services.Store.UpdateCustomer | src/main/java/com/example/simplecrm/service/CustomerService.java:41-50 | invalid request or absent id fails and nothing is saved; otherwise name, email and phone are all overwritten (no merge), the id is kept, no other customer changes, and the result is what a later lookup returns |
| Services.Store.DeleteCustomer | src/main/java/com/example/simplecrm/service/CustomerService.java:35-39 | an absent id fails with CustomerNotFound and removes nothing; a present id removes exactly that customer, leaves the orders untouched, and a later lookup fails with CustomerNotFound |
| Services.Store.GetOrdersByCustomerId | src/main/java/com/example/simplecrm/service/OrderService.java:43-48 | never fails: one view per stored order whose owner is the argument, none twice, count equal to that owner's order count, empty when the owner has none |
| Services.Store.CreateOrder | src/main/java/com/example/simplecrm/service/OrderService.java:32-41 | a missing field fails with Validation; an unknown customer fails with CustomerNotFound carrying the id and stores nothing; otherwise exactly one new order is inserted under a fresh id (never overwriting), owned by that customer, with status NEW and the current time |
| Services.Store.UpdateOrderStatus | src/main/java/com/example/simplecrm/service/OrderService.java:50-60 | an absent order fails with OrderNotFound and a non-owner with Unauthorized, both leaving the store unchanged; the owner gets the requested status from any current status, with id, owner and creation time kept and no other order changed |
| Walkthrough.BobIsValid | src/main/java/com/example/simplecrm/dto/CustomerRequestDTO.java:14-24 | the request name "Bob", email "bob@x.com", phone "+1234567" breaks no constraint, given an email check that accepts that address |

## Left out

- HTTP routing, the response envelope and the status codes of the controllers, and the error-to-status translation of the exception handler: framework plumbing. The model stops at the service-level `Result`.
- The reflection-driven mappers are replaced by field-by-field copies (`CustomerToView`, `OrderToView`, `OrderFromRequest`). These are assumed; they are not checked against the mapping library.
- JPA behaviour: lazy loading, transactions, SQL, and last-writer-wins between concurrent requests. Each operation is one atomic step on the two maps.
- Deleting a customer who owns orders: the model removes the customer and keeps the orders, as the service code does. A foreign-key constraint in the database schema could reject that delete, and a cascade mapped on the customer would remove the orders with it; neither the schema nor such a mapping is part of this model.
- `@Email` syntax: the validation library's email check is not part of this model. It is the parameter `isEmail`, and a null email passes it.
- The clock and decimal amounts: the current time is the parameter `now`, and amounts are integers, because they are never computed on.
- Identity values are unbounded integers; the 64-bit range of `Long` ids is not modelled.
- Null request parameters of the order-status endpoint (order id, customer id, status) are not modelled. The web framework rejects a missing required parameter before the service runs.
- The model assumes a customer has an identity `id`, a `name`, an `email` and a `phone` (`Entities.Customer`), and that `OrderStatus` has the four values NEW, PROCESSING, COMPLETED and CANCELED (`Entities.OrderStatus`). Any other mapping on the customer entity is not modelled; in particular a cascade from a customer to its orders would make `Services.Store.DeleteCustomer` remove that customer's orders too (see the deletion line above). The order repository is the order table of `Services.Store`, and the ownership failure is the error `Unauthorized`.
- `OpenApiConfig.java` (API documentation) and the response-shape classes are not modelled; the shapes are plain datatypes here.
- Services.Store.GetAllCustomers: the listing is in ascending id order. The repository promises no order, so the model fixes one of the orders the source allows.
- Services.Store.GetOrdersByCustomerId: the listing is in ascending id order, which is one of the orders the source allows.
- Requests.ValidateCustomer: the report is a set of violations, not a list. The validation library collects violations in an unordered set, so the order of the `"field:message"` entries is unspecified. The `@Size` and `@NotNull` messages are the library's default English texts.
- Services.Store.CreateCustomer: bean validation (`@Valid` on the controller parameter) runs before the service is entered, so the method validates the request first and an invalid request fails with `Validation`; the service on its own performs no validation.
- Services.Store.UpdateCustomer: validates first, as the controller does, so an invalid request for an absent id fails with `Validation`, not `CustomerNotFound`; a direct call of the service with such a request, bypassing the controller, would report `CustomerNotFound`.
- Services.Store.CreateOrder: validates first, as the controller does, so a request with a missing field fails with `Validation` before the customer lookup.
- Entities.PrePersist: modelled as a function on the order value that the store applies before insertion, not as an in-place assignment to an entity object. No entity objects are shared in the model, so aliasing does not arise.

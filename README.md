# Order service core, modelled in Dafny

This project models the domain rules of a small order-management service. Clients
submit orders made of line items. The service computes a total, with a flat 20%
reduction for the discount code `DISCOUNT20`. It stores each order and lets clients
update the address, status and discount code, complete an order or delete it.

The repository is partway through a refactor, so the rules sit in two places:

- The domain layer. The value objects `PositiveNumber` and `Address`
  (`value_objects.dfy`, module `ValueObjects`) and the `Order` aggregate with its
  status enumeration, its one-value discount-code type and its factory
  (`order.dfy`, module `OrderDomain`). Both are pure, so they are datatypes and
  functions that return `Result` (`wrappers.dfy`).
- The handlers `createOrder`, `updateOrder`, `completeOrder` and `deleteOrder`
  (`order_controller.dfy`, module `OrderController`). They are modelled apart from
  HTTP and the document store.
  - The store is an in-memory `map` from order id to the stored document (`OrderRecord`).
  - Each handler is one atomic step. A pure step function (`CreateStep`, `UpdateStep`,
    `CompleteStep`, `DeleteStep`) says what the handler does.
  - Class `OrderStore` holds the map and runs the handlers imperatively. Each of its
    methods is proved to produce exactly the new store and outcome of its step function.
  - The summing loop of `createOrder` and `updateOrder` is the method `SumLineAmounts`.
    It is proved against the recursive sum `ItemsSum`.

Prices, quantities and totals are exact `real`s. A price or quantity that is missing
or falsy is `None` and counts as 0. The handlers' answers are the datatype `Outcome`:

- `Success(text)`: a confirmation.
- `Refusal(text)`: a refusal sent with status 200.
- `BadRequest(text)`: a 400 response.
- `NothingDone`: the handler returned without answering, as the handlers do for an unknown id.

Behaviours of the code worth knowing:

- `PositiveNumber.create` rejects zero as well as negative values (`src/domain/valueObjects.ts:7`).
- `deleteOrder` answers "Order deleted" for any id, stored or not
  (`src/controllers/orderController.ts:116-117`).
- `updateOrder` writes any supplied status with no transition check. So a completed
  order can be set back to `CREATED` and then completed again (`UpdateCanReopenCompletedOrder`).
- For an unknown id, `updateOrder` and `completeOrder` return without sending any answer
  (`src/controllers/orderController.ts:49-51, 94-96`).
- The `Order` class defines only `create` and its guard. The repository adapter calls
  `order.toDto()` (`src/infrastructure/orderMongoRepository.ts:14`), but `Order` does not
  define it; status transitions and totals live only in the handlers.

Both factories are Dafny functions, so the same input always yields equal value objects.

## Model

| member | source | states |
|---|---|---|
| `ValueObjects.CreatePositiveNumber` | src/domain/valueObjects.ts:3-11 | succeeds exactly when the value is > 0, so zero is refused; on success wraps the value unchanged; on failure the message is "Value must be positive" |
| `ValueObjects.TrimStart` | src/domain/valueObjects.ts:18 | the result is a suffix of the input, everything dropped is a character JavaScript's trim removes, and the result does not start with one |
| `ValueObjects.TrimEnd` | src/domain/valueObjects.ts:18 | the result is a prefix of the input, everything dropped is trimmable, and the result does not end with a trimmable character |
| `ValueObjects.CreateAddress` | src/domain/valueObjects.ts:14-22 | fails with "Empty address is not allowed" exactly when every character is one trim removes (the empty text included); on success keeps the text untrimmed |
| `OrderDomain.StatusTextInjective` | src/domain/order.ts:6-9 | the status has two values whose string forms are "CREATED" and "COMPLETED", and the string form tells them apart |
| `OrderDomain.EnsureThatItemsAreProvided` | src/domain/order.ts:34-38 | passes exactly on a non-empty array and yields its elements; an absent value, a non-array or an empty array fails with "The order must have at least one item" |
| `OrderDomain.Create` | src/domain/order.ts:22-32 | succeeds exactly when items is a non-empty array; the new order has the supplied fresh id, status Created, and the items, address and optional `DISCOUNT20` code unchanged |
| `OrderController.ItemsSumAppend` | src/controllers/orderController.ts:14-17 | the item sum of two consecutive runs of items is the sum of their item sums, which lets a left-to-right loop compute it |
| `OrderController.SumLineAmounts` | src/controllers/orderController.ts:14-17 | the loop (also the one at lines 67-70) returns the sum over the items of (price or 0) × (quantity or 0) |
| `OrderController.CreateStep` | src/controllers/orderController.ts:6-32 | without a non-empty item array: 400 "The order must have at least one item" and the store is unchanged; otherwise exactly one record is added under the fresh id, with the items, code, address, status "CREATED" and total = item sum, times 0.8 for "DISCOUNT20"; every other record is unchanged; the reply is "Order created with total: " and the total |
| `OrderController.UpdateStep` | src/controllers/orderController.ts:42-79 | an unknown id does nothing; status "COMPLETED" on an order without items is refused with "Cannot complete an order without items" and nothing is saved; every other request on a known id succeeds, and only that record changes: address and code replaced when truthy, any truthy status written, total = 0.8 × item sum for "DISCOUNT20" and unchanged otherwise, items never change; the reply names the new status |
| `OrderController.CompleteStep` | src/controllers/orderController.ts:89-104 | an unknown id does nothing; succeeds exactly on a "CREATED" order, setting only its status to "COMPLETED" and replying "Order with id <id> completed"; any other status is refused with "Cannot complete an order with status: <status>" and the store is unchanged |
| `OrderController.DeleteStep` | src/controllers/orderController.ts:114-117 | removes the id if present, keeps every other record, and replies "Order deleted" whether or not the order existed |
| `OrderController.CompleteTwiceRefused` | src/controllers/orderController.ts:98-104 | a second complete of the same order is always refused and changes nothing |
| `OrderController.CreateThenComplete` | src/models/orderModel.ts:25 | an order just created gets the default status "CREATED", so completing it succeeds and sets it to "COMPLETED" |
| `OrderController.DeleteIdempotent` | src/controllers/orderController.ts:116-117 | deleting twice leaves the same store and reply as deleting once |
| `OrderController.DeletedOrderIsGone` | src/controllers/orderController.ts:48-51 | after a delete, updating or completing that id does nothing |
| `OrderController.UpdateCanReopenCompletedOrder` | src/controllers/orderController.ts:57-62 | updateOrder has no transition check: it moves a "COMPLETED" order back to "CREATED", after which completing it succeeds again |
| `OrderController.HandlersKeepItems` | src/controllers/orderController.ts:10-12 | if every stored order has at least one item, every handler keeps it so |
| `OrderController.WithoutItemsRefusalUnreachable` | src/controllers/orderController.ts:58-59 | on such a store, updateOrder never answers "Cannot complete an order without items" |
| `OrderController.OrderStore.CreateOrder` | src/controllers/orderController.ts:6-32 | runs createOrder in place: the new store and the outcome are exactly those of `CreateStep` |
| `OrderController.OrderStore.UpdateOrder` | src/controllers/orderController.ts:42-79 | edits a copy of the fetched record field by field and saves it only at the end; the new store and the outcome are exactly those of `UpdateStep` |
| `OrderController.OrderStore.CompleteOrder` | src/controllers/orderController.ts:89-104 | the new store and the outcome are exactly those of `CompleteStep` |
| `OrderController.OrderStore.DeleteOrder` | src/controllers/orderController.ts:114-117 | the new store and the outcome are exactly those of `DeleteStep` |

## Left out

- Express routing, server start-up and the status endpoint: transport plumbing with no domain rules.
- `getAllOrders`: it only returns the stored documents, in whatever order the database lists them.
- Mongoose persistence (the schema, the repository adapter, its factory and the async repository interface): replaced by the in-memory map. The only parts kept are the schema defaults for status ("CREATED") and total.
- Identifier generation (`Id.create`, the store's ObjectId default): the fresh id is a parameter. `CreateStep` and `CreateOrder` require it to be absent from the store, as a generated id is.
- The `CastError` → 404 branches of `updateOrder`, `completeOrder` and `deleteOrder`: the schema declares `_id` as a String (`src/models/orderModel.ts:17`) and a route parameter is always a string, so no id fails to cast and these branches cannot be reached. The 500 fallbacks and the console logging are left out too: they concern database failures and output, not domain rules.
- Number-to-text conversion of the total in "Order created with total: …": JavaScript's formatting is the parameter `showNumber`.
- IEEE-754 arithmetic: totals are exact reals, so rounding of `total * 0.8` and NaN are not modelled. For example, `PositiveNumber.create(NaN)` succeeds in the source because `NaN <= 0` is false.
- JSON type coercion: request fields are modelled as typed and optional. A non-string status, or a price given as a string, is outside the model.
- Concurrent requests: every handler is one atomic step, so interleavings (last write wins) are not modelled.
- `OrderItem`, `Id`, `multiply`, `isValid` and `toDto`: the tests and the repository adapter refer to them, but the domain files modelled here do not define them. No source file defines or calls a total calculation on `Order`; the total is computed only in the handlers. `Order` is generic over its item type, and its id is a string.

/** The business rules of the order handlers (src/controllers/orderController.ts),
    taken away from the HTTP layer and the document store. The store is a map
    from order id to the stored document (src/models/orderModel.ts:3-14); each
    handler is one atomic step that yields the new store and an outcome. The
    pure step functions say what a handler does; class OrderStore runs the
    handlers imperatively and is proved to follow them. */
module OrderController {
  import opened Wrappers
  import OrderDomain

  /** One line item as stored: a price or quantity that is missing (or any
      other falsy value) is None. */
  datatype ItemRecord = ItemRecord(productId: string, quantity: Option<real>, price: Option<real>)

  /** A stored order document; `total` is the schema-defaulted cached total. */
  datatype OrderRecord = OrderRecord(
    items: seq<ItemRecord>,
    status: string,
    discountCode: Option<string>,
    shippingAddress: Option<string>,
    total: real)

  type Store = map<string, OrderRecord>

  /** The body of POST /orders. */
  datatype CreateRequest = CreateRequest(
    items: OrderDomain.ItemsArgument<ItemRecord>,
    discountCode: Option<string>,
    shippingAddress: Option<string>)

  /** The body of PUT /orders/:id. */
  datatype UpdateRequest = UpdateRequest(
    status: Option<string>,
    shippingAddress: Option<string>,
    discountCode: Option<string>)

  /** What a handler answers: a confirmation, a refusal sent with status 200,
      a 400 response, or no response at all (the handler returns early). */
  datatype Outcome = Success(text: string) | Refusal(text: string) | BadRequest(text: string) | NothingDone

  /** The store after a handler, with the handler's outcome. */
  datatype Step = Step(store: Store, outcome: Outcome)

  const CreatedStatus := OrderDomain.OrderStatus.Created.Text()
  const CompletedStatus := OrderDomain.OrderStatus.Completed.Text()
  const WithoutItemsMessage := "Cannot complete an order without items"

  /** `x || 0` for a numeric field. */
  function OrZero(x: Option<real>): real {
    if x.Some? then x.value else 0.0
  }

  /** `(item.price || 0) * (item.quantity || 0)`. */
  function LineAmount(item: ItemRecord): real {
    OrZero(item.price) * OrZero(item.quantity)
  }

  /** The sum of the line amounts of `items`. */
  function ItemsSum(items: seq<ItemRecord>): real {
    if items == [] then 0.0 else LineAmount(items[0]) + ItemsSum(items[1..])
  }

  /** A string field that JavaScript treats as true: present and non-empty. */
  predicate Truthy(field: Option<string>) {
    field.Some? && field.value != ""
  }

  predicate IsDiscount20(code: Option<string>) {
    code == Some(OrderDomain.DiscountCode.Discount20.Text())
  }

  /** The line sums of two consecutive runs of items add up. */
  lemma {:induction false} ItemsSumAppend(a: seq<ItemRecord>, b: seq<ItemRecord>)
    ensures ItemsSum(a + b) == ItemsSum(a) + ItemsSum(b)
  {
    if a == [] {
      assert a + b == b;
    } else {
      assert (a + b)[1..] == a[1..] + b;
      ItemsSumAppend(a[1..], b);
    }
  }

  /** The accumulation loop of createOrder and of updateOrder: adds the line
      amounts from the first item to the last. */
  method SumLineAmounts(items: seq<ItemRecord>) returns (total: real)
    ensures total == ItemsSum(items)
  {
    total := 0.0;
    for i := 0 to |items|
      invariant total == ItemsSum(items[..i])
    {
      ItemsSumAppend(items[..i], [items[i]]);
      assert items[..i + 1] == items[..i] + [items[i]];
      total := total + LineAmount(items[i]);
    }
    assert items[..|items|] == items;
  }

  /** createOrder, with `freshId` standing for the identifier the store
      generates and `showNumber` for JavaScript's number-to-text conversion. */
  function CreateStep(store: Store, req: CreateRequest, freshId: string, showNumber: real -> string): (r: Step)
    requires freshId !in store
    ensures !OrderDomain.ItemsAreProvided(req.items) ==>
      r == Step(store, BadRequest(OrderDomain.NoItemsMessage))
    ensures OrderDomain.ItemsAreProvided(req.items) ==>
      && r.store.Keys == store.Keys + {freshId}
      && |r.store| == |store| + 1
      && (forall id :: id in store ==> r.store[id] == store[id])
      && r.store[freshId].items == req.items.elems
      && r.store[freshId].status == "CREATED"
      && r.store[freshId].discountCode == req.discountCode
      && r.store[freshId].shippingAddress == req.shippingAddress
      && r.store[freshId].total == (if req.discountCode == Some("DISCOUNT20")
                                    then 0.8 * ItemsSum(req.items.elems)
                                    else ItemsSum(req.items.elems))
      && r.outcome == Success("Order created with total: " + showNumber(r.store[freshId].total))
  {
    if !OrderDomain.ItemsAreProvided(req.items) then
      Step(store, BadRequest(OrderDomain.NoItemsMessage))
    else
      var sum := ItemsSum(req.items.elems);
      var total := if IsDiscount20(req.discountCode) then sum * 0.8 else sum;
      var record := OrderRecord(req.items.elems, CreatedStatus, req.discountCode, req.shippingAddress, total);
      Step(store[freshId := record], Success("Order created with total: " + showNumber(total)))
  }

  /** The document updateOrder saves: the fetched document with the fields
      the request supplies written over it. */
  function UpdatedRecord(rec: OrderRecord, req: UpdateRequest): OrderRecord {
    var withAddress := if Truthy(req.shippingAddress) then rec.(shippingAddress := req.shippingAddress) else rec;
    var withStatus := if Truthy(req.status) then withAddress.(status := req.status.value) else withAddress;
    if !Truthy(req.discountCode) then withStatus
    else if IsDiscount20(req.discountCode) then
      withStatus.(discountCode := req.discountCode, total := ItemsSum(rec.items) * 0.8)
    else withStatus.(discountCode := req.discountCode)
  }

  /** updateOrder. */
  function UpdateStep(store: Store, id: string, req: UpdateRequest): (r: Step)
    ensures r.store.Keys == store.Keys
    ensures forall other :: other in store && other != id ==> r.store[other] == store[other]
    ensures id !in store ==> r == Step(store, NothingDone)
    ensures r.outcome.NothingDone? <==> id !in store
    ensures r.outcome.Refusal? <==>
      id in store && req.status == Some("COMPLETED") && store[id].items == []
    ensures r.outcome.Refusal? ==> r == Step(store, Refusal(WithoutItemsMessage))
    ensures r.outcome.Success? <==>
      id in store && !(req.status == Some("COMPLETED") && store[id].items == [])
    ensures r.outcome.Success? ==>
      var before, after := store[id], r.store[id];
      && after.items == before.items
      && after.shippingAddress == (if Truthy(req.shippingAddress) then req.shippingAddress else before.shippingAddress)
      && after.status == (if Truthy(req.status) then req.status.value else before.status)
      && after.discountCode == (if Truthy(req.discountCode) then req.discountCode else before.discountCode)
      && after.total == (if req.discountCode == Some("DISCOUNT20") then 0.8 * ItemsSum(before.items) else before.total)
      && r.outcome == Success("Order updated. New status: " + after.status)
  {
    if id !in store then Step(store, NothingDone)
    else
      var rec := store[id];
      if Truthy(req.status) && req.status.value == CompletedStatus && |rec.items| == 0 then
        Step(store, Refusal(WithoutItemsMessage))
      else
        var updated := UpdatedRecord(rec, req);
        Step(store[id := updated], Success("Order updated. New status: " + updated.status))
  }

  /** completeOrder. */
  function CompleteStep(store: Store, id: string): (r: Step)
    ensures r.store.Keys == store.Keys
    ensures forall other :: other in store && other != id ==> r.store[other] == store[other]
    ensures id !in store ==> r == Step(store, NothingDone)
    ensures r.outcome.NothingDone? <==> id !in store
    ensures r.outcome.Success? <==> id in store && store[id].status == "CREATED"
    ensures r.outcome.Success? ==>
      && r.store[id] == store[id].(status := "COMPLETED")
      && r.outcome.text == "Order with id " + id + " completed"
    ensures id in store && store[id].status != "CREATED" ==>
      r == Step(store, Refusal("Cannot complete an order with status: " + store[id].status))
  {
    if id !in store then Step(store, NothingDone)
    else if store[id].status != CreatedStatus then
      Step(store, Refusal("Cannot complete an order with status: " + store[id].status))
    else
      Step(store[id := store[id].(status := CompletedStatus)], Success("Order with id " + id + " completed"))
  }

  /** deleteOrder. */
  function DeleteStep(store: Store, id: string): (r: Step)
    ensures r.store.Keys == store.Keys - {id}
    ensures forall other :: other in r.store ==> r.store[other] == store[other]
    ensures r.outcome == Success("Order deleted")
  {
    Step(store - {id}, Success("Order deleted"))
  }

  /** Completing the same order twice: the second attempt is always refused
      and changes nothing, whatever the first one did. */
  lemma CompleteTwiceRefused(store: Store, id: string)
    requires id in store
    ensures var after := CompleteStep(store, id).store;
      CompleteStep(after, id) == Step(after, Refusal("Cannot complete an order with status: " + after[id].status))
  {
  }

  /** An order that createOrder has just stored can be completed. */
  lemma CreateThenComplete(store: Store, req: CreateRequest, freshId: string, showNumber: real -> string)
    requires freshId !in store
    requires OrderDomain.ItemsAreProvided(req.items)
    ensures var created := CreateStep(store, req, freshId, showNumber).store;
      && CompleteStep(created, freshId).outcome == Success("Order with id " + freshId + " completed")
      && CompleteStep(created, freshId).store[freshId].status == "COMPLETED"
  {
  }

  /** Deleting twice is the same as deleting once. */
  lemma DeleteIdempotent(store: Store, id: string)
    ensures DeleteStep(DeleteStep(store, id).store, id) == DeleteStep(store, id)
  {
  }

  /** After a delete, completing or updating that id does nothing. */
  lemma DeletedOrderIsGone(store: Store, id: string, req: UpdateRequest)
    ensures var gone := DeleteStep(store, id).store;
      && CompleteStep(gone, id) == Step(gone, NothingDone)
      && UpdateStep(gone, id, req) == Step(gone, NothingDone)
  {
  }

  /** updateOrder has no transition check: it can move a completed order
      back to CREATED, after which completeOrder succeeds again. */
  lemma UpdateCanReopenCompletedOrder(store: Store, id: string)
    requires id in store && store[id].status == "COMPLETED"
    ensures var reopened := UpdateStep(store, id, UpdateRequest(Some("CREATED"), None, None)).store;
      && reopened[id].status == "CREATED"
      && CompleteStep(reopened, id).outcome.Success?
  {
  }

  /** Every stored order has at least one item. */
  ghost predicate AllHaveItems(store: Store) {
    forall id :: id in store ==> store[id].items != []
  }

  /** Every handler keeps every stored order non-empty, so a store that only
      the handlers have written never holds an order without items. */
  lemma HandlersKeepItems(store: Store, id: string, req: UpdateRequest, create: CreateRequest, freshId: string, showNumber: real -> string)
    requires AllHaveItems(store)
    requires freshId !in store
    ensures AllHaveItems(CreateStep(store, create, freshId, showNumber).store)
    ensures AllHaveItems(UpdateStep(store, id, req).store)
    ensures AllHaveItems(CompleteStep(store, id).store)
    ensures AllHaveItems(DeleteStep(store, id).store)
  {
  }

  /** Hence updateOrder's refusal for an order without items cannot happen on
      such a store. */
  lemma WithoutItemsRefusalUnreachable(store: Store, id: string, req: UpdateRequest)
    requires AllHaveItems(store)
    ensures UpdateStep(store, id, req).outcome != Refusal(WithoutItemsMessage)
  {
  }

  /** The in-memory document store and the four handlers that change it. */
  class OrderStore {
    var orders: Store

    constructor ()
      ensures orders == map[]
    {
      orders := map[];
    }

    method CreateOrder(req: CreateRequest, freshId: string, showNumber: real -> string) returns (outcome: Outcome)
      requires freshId !in orders
      modifies this
      ensures Step(orders, outcome) == CreateStep(old(orders), req, freshId, showNumber)
    {
      if !OrderDomain.ItemsAreProvided(req.items) {
        return BadRequest(OrderDomain.NoItemsMessage);
      }
      var total := SumLineAmounts(req.items.elems);
      if IsDiscount20(req.discountCode) {
        total := total * 0.8;
      }
      orders := orders[freshId := OrderRecord(req.items.elems, CreatedStatus, req.discountCode, req.shippingAddress, total)];
      outcome := Success("Order created with total: " + showNumber(total));
    }

    method UpdateOrder(id: string, req: UpdateRequest) returns (outcome: Outcome)
      modifies this
      ensures Step(orders, outcome) == UpdateStep(old(orders), id, req)
    {
      if id !in orders {
        return NothingDone;
      }
      var order := orders[id];
      if Truthy(req.shippingAddress) {
        order := order.(shippingAddress := req.shippingAddress);
      }
      if Truthy(req.status) {
        if req.status.value == CompletedStatus && |order.items| == 0 {
          return Refusal(WithoutItemsMessage);
        }
        order := order.(status := req.status.value);
      }
      if Truthy(req.discountCode) {
        order := order.(discountCode := req.discountCode);
        if IsDiscount20(req.discountCode) {
          var newTotal := SumLineAmounts(order.items);
          newTotal := newTotal * 0.8;
          order := order.(total := newTotal);
        }
      }
      orders := orders[id := order];
      outcome := Success("Order updated. New status: " + order.status);
    }

    method CompleteOrder(id: string) returns (outcome: Outcome)
      modifies this
      ensures Step(orders, outcome) == CompleteStep(old(orders), id)
    {
      if id !in orders {
        return NothingDone;
      }
      var order := orders[id];
      if order.status != CreatedStatus {
        return Refusal("Cannot complete an order with status: " + order.status);
      }
      orders := orders[id := order.(status := CompletedStatus)];
      outcome := Success("Order with id " + id + " completed");
    }

    method DeleteOrder(id: string) returns (outcome: Outcome)
      modifies this
      ensures Step(orders, outcome) == DeleteStep(old(orders), id)
    {
      orders := orders - {id};
      outcome := Success("Order deleted");
    }
  }

  /** A usage example of OrderStore, not a model of any handler: it replays
      the end-to-end order tests (an order of one item with quantity 1 and
      price 100, then one with an empty item array) and goes on to complete
      the order, fail to complete it again and delete it. */
  method OrderLifecycleScenario(showNumber: real -> string)
  {
    var store := new OrderStore();
    var item := ItemRecord("1", Some(1.0), Some(100.0));
    var created := store.CreateOrder(CreateRequest(OrderDomain.Array([item]), None, Some("Calle Test 0")), "a", showNumber);
    assert ItemsSum([item]) == 100.0;
    assert created == Success("Order created with total: " + showNumber(100.0));
    var empty := store.CreateOrder(CreateRequest(OrderDomain.Array([]), None, Some("Calle Test 0")), "b", showNumber);
    assert empty == BadRequest("The order must have at least one item");
    assert store.orders.Keys == {"a"};
    var completed := store.CompleteOrder("a");
    assert completed == Success("Order with id a completed");
    var again := store.CompleteOrder("a");
    assert again == Refusal("Cannot complete an order with status: COMPLETED");
    var deleted := store.DeleteOrder("a");
    var missing := store.CompleteOrder("a");
    assert missing == NothingDone && store.orders == map[];
  }
}

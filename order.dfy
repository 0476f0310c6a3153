/** The Order aggregate (src/domain/order.ts): its status enumeration, its
    one-value discount code, and the factory that refuses an order without
    items. OrderItem and Id are not part of this model: the aggregate is
    generic over its item type, and the identifier that Id.create would
    generate is passed in. */
module OrderDomain {
  import opened Wrappers
  import ValueObjects

  const NoItemsMessage := "The order must have at least one item"

  /** The two states of an order. */
  datatype OrderStatus = Created | Completed {
    /** The string value of the enum member. */
    function Text(): string {
      match this
      case Created => "CREATED"
      case Completed => "COMPLETED"
    }
  }

  /** The string forms of the statuses tell the statuses apart. */
  lemma StatusTextInjective(a: OrderStatus, b: OrderStatus)
    ensures a.Text() == b.Text() <==> a == b
    ensures a.Text() in {"CREATED", "COMPLETED"}
  {
  }

  /** The discount-code type admits exactly one value. */
  datatype DiscountCode = Discount20 {
    function Text(): string {
      "DISCOUNT20"
    }
  }

  /** What a caller hands over as `items`: absent (or any other falsy
      value), a value that is not an array, or an array. */
  datatype ItemsArgument<T> = Missing | NotAnArray | Array(elems: seq<T>)

  /** The negation of ensureThatItemsAreProvided's refusal test. */
  predicate ItemsAreProvided<T>(items: ItemsArgument<T>) {
    items.Array? && |items.elems| > 0
  }

  datatype Order<Item> = Order(
    id: string,
    items: seq<Item>,
    shippingAddress: ValueObjects.Address,
    status: OrderStatus,
    discountCode: Option<DiscountCode>)

  /** ensureThatItemsAreProvided: passes on a non-empty array and throws
      otherwise. */
  function EnsureThatItemsAreProvided<T>(items: ItemsArgument<T>): (r: Result<seq<T>>)
    ensures r.Ok? <==> items.Array? && items.elems != []
    ensures r.Ok? ==> r.value == items.elems
    ensures r.Err? ==> r.error == NoItemsMessage
  {
    if items.Missing? || items.NotAnArray? || |items.elems| == 0 then Err(NoItemsMessage)
    else Ok(items.elems)
  }

  /** Order.create, with `freshId` standing for the value of Id.create(). */
  function Create<Item>(
    items: ItemsArgument<Item>,
    shippingAddress: ValueObjects.Address,
    discountCode: Option<DiscountCode>,
    freshId: string): (r: Result<Order<Item>>)
    ensures r.Ok? <==> items.Array? && items.elems != []
    ensures r.Err? ==> r.error == NoItemsMessage
    ensures r.Ok? ==> r.value.id == freshId && r.value.status == Created
    ensures r.Ok? ==> r.value.items == items.elems && |r.value.items| > 0
    ensures r.Ok? ==> r.value.shippingAddress == shippingAddress && r.value.discountCode == discountCode
  {
    match EnsureThatItemsAreProvided(items)
    case Err(message) => Err(message)
    case Ok(elems) => Ok(Order(freshId, elems, shippingAddress, Created, discountCode))
  }
}

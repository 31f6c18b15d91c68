/**
 * orders/models.py: an order with its copied shipping address, its amounts and two
 * independent statuses, and the line items that snapshot the product at purchase.
 */
module Orders {
  import opened Wrappers
  import opened Ids
  import opened Accounts
  import opened Serials

  datatype OrderStatus = Pending | Processing | Shipped | Delivered | Cancelled

  datatype PaymentStatus = PaymentPending | Paid | Failed | Refunded

  datatype OrderItem = OrderItem(
    id: ItemId,
    /** `None` once the product is deleted (`on_delete=SET_NULL`). */
    product: Option<ProductId>,
    shop: Option<ShopId>,
    name: string,
    price: real,
    quantity: int,
    subtotal: real,
    sellerAmount: real,
    platformFee: real)

  datatype Order = Order(
    id: OrderId,
    number: string,
    user: UserId,
    /** The address fields are copied, so later edits of the address do not reach the order. */
    shipping: Address,
    subtotal: real,
    shippingCost: real,
    tax: real,
    discount: real,
    total: real,
    paymentMethod: string,
    paymentStatus: PaymentStatus,
    status: OrderStatus,
    items: seq<OrderItem>)

  /** `quantity = PositiveIntegerField(default=1)` */
  const DefaultQuantity: int := 1

  /** `OrderItem.save`: the subtotal is recomputed from price and quantity, whatever was passed. */
  function SaveItem(item: OrderItem): (r: OrderItem)
    ensures r.subtotal == item.price * item.quantity as real
    ensures r.(subtotal := item.subtotal) == item
  {
    item.(subtotal := item.price * item.quantity as real)
  }

  /** Saving an item twice is saving it once. */
  lemma SaveItemIdempotent(item: OrderItem)
    ensures SaveItem(SaveItem(item)) == SaveItem(item)
  {
  }

  /** `Order.save`: the order number is generated only while it is empty. */
  function SaveOrder(o: Order, generated: string): (r: Order)
    ensures o.number != "" ==> r == o
    ensures o.number == "" ==> r.number == generated
    ensures r.(number := o.number) == o
    ensures generated != "" ==> r.number != ""
  {
    o.(number := AssignOnce(o.number, generated))
  }

  /** A second save, whatever number the generator offers then, keeps the first one. */
  lemma SaveOrderTwice(o: Order, first: string, second: string)
    requires first != ""
    ensures SaveOrder(SaveOrder(o, first), second) == SaveOrder(o, first)
  {
  }

  /** `is_paid` */
  predicate IsPaid(o: Order) { o.paymentStatus == Paid }

  /**
   * `Order.objects.create(...)` for a new order: the number comes from a uuid, both
   * statuses start 'pending' and there are no items yet.
   */
  function NewOrder(id: OrderId, hex: string, user: UserId, shipping: Address,
                    subtotal: real, shippingCost: real, tax: real, discount: real, total: real,
                    paymentMethod: string): (o: Order)
    requires Text.IsUuidHex(hex)
    ensures o.status == Pending && o.paymentStatus == PaymentPending && !IsPaid(o)
    ensures IsSerial(o.number, "ORD-", 12) && o.number == OrderNumber(hex) && o.items == []
    ensures o.id == id && o.user == user && o.shipping == shipping && o.paymentMethod == paymentMethod
    ensures o.subtotal == subtotal && o.shippingCost == shippingCost && o.tax == tax
    ensures o.discount == discount && o.total == total
  {
    var blank := Order(id, "", user, shipping, subtotal, shippingCost, tax, discount, total,
                       paymentMethod, PaymentPending, Pending, []);
    SaveOrder(blank, OrderNumber(hex))
  }

  /** The orders table, keyed by order number, with the autoincrement counters for ids. */
  class OrderBook {
    var orders: map<string, Order>
    var nextOrderId: OrderId
    var nextItemId: ItemId

    ghost predicate Valid()
      reads this
    {
      forall n :: n in orders ==> orders[n].number == n && orders[n].id < nextOrderId
    }

    constructor ()
      ensures Valid() && orders == map[] && nextOrderId == 0 && nextItemId == 0
    {
      orders := map[];
      nextOrderId := 0;
      nextItemId := 0;
    }
  }
}

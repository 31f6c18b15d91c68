/**
 * The per-visitor session the views read and write: the cart, the applied coupon
 * `{code, discount}` (promotions/views.py), the fixed cart discount of
 * store/views.py and the order awaiting gateway payment (orders/views.py).
 */
module Sessions {
  import opened Wrappers
  import opened Ids
  import opened Carts

  datatype AppliedCoupon = AppliedCoupon(code: string, discount: real)

  class Session {
    var cart: Cart
    var appliedCoupon: Option<AppliedCoupon>
    /** `session['cart_discount']`, read with default 0. */
    var cartDiscount: real
    var pendingOrderId: Option<OrderId>

    ghost predicate Valid()
      reads this
    {
      Keyed(cart)
    }

    constructor ()
      ensures Valid()
      ensures cart == [] && appliedCoupon == None && cartDiscount == 0.0 && pendingOrderId == None
    {
      cart := [];
      appliedCoupon := None;
      cartDiscount := 0.0;
      pendingOrderId := None;
    }
  }
}

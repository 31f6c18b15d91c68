/**
 * promotions/models.py: flash-sale events with a percentage discount and a time
 * window, and coupons with a validity window, usage caps, a minimum purchase and
 * an optional cap on the discount. The clock is the parameter `now`; the per-user
 * usage count that `can_use` queries is computed from the usage rows.
 */
module Promotions {
  import opened Wrappers
  import opened Ids

  datatype Event = Event(discountPercentage: real, startDate: Time, endDate: Time, isActive: bool)

  predicate IsOngoing(e: Event, now: Time) { e.isActive && e.startDate <= now <= e.endDate }
  predicate IsUpcoming(e: Event, now: Time) { e.isActive && e.startDate > now }
  predicate IsExpired(e: Event, now: Time) { e.endDate < now }

  /**
   * For an active event whose window is well formed, exactly one of ongoing, upcoming
   * and expired holds at any time; an inactive event is never ongoing or upcoming.
   */
  lemma EventPhases(e: Event, now: Time)
    ensures !e.isActive ==> !IsOngoing(e, now) && !IsUpcoming(e, now)
    ensures e.isActive && e.startDate <= e.endDate ==>
      (IsOngoing(e, now) || IsUpcoming(e, now) || IsExpired(e, now))
      && !(IsOngoing(e, now) && IsUpcoming(e, now))
      && !(IsOngoing(e, now) && IsExpired(e, now))
      && !(IsUpcoming(e, now) && IsExpired(e, now))
  {
  }

  /** `get_discounted_price`: the price less `discount_percentage` percent of it. */
  function DiscountedPrice(e: Event, price: real): (r: real)
    ensures price - r == price * e.discountPercentage / 100.0
    ensures 0.0 <= e.discountPercentage <= 100.0 && price >= 0.0 ==> 0.0 <= r <= price
    ensures e.discountPercentage == 0.0 ==> r == price
    ensures e.discountPercentage == 100.0 ==> r == 0.0
  {
    var p := e.discountPercentage;
    var amount := price * (p / 100.0);
    assert 0.0 <= p <= 100.0 && price >= 0.0 ==> amount <= price by {
      if 0.0 <= p <= 100.0 && price >= 0.0 {
        assert price * (p / 100.0) <= price * 1.0;
      }
    }
    price - amount
  }

  datatype DiscountType = Percentage | Fixed

  datatype Coupon = Coupon(
    code: string,
    discountType: DiscountType,
    discountValue: real,
    minPurchase: real,
    maxDiscount: Option<real>,
    /** `None` or 0 means unlimited (`if self.usage_limit and ...`). */
    usageLimit: Option<nat>,
    usageLimitPerUser: nat,
    timesUsed: nat,
    validFrom: Time,
    validUntil: Time,
    isActive: bool)

  predicate HasGlobalLimit(c: Coupon) { c.usageLimit.Some? && c.usageLimit.value != 0 }

  /** `if self.max_discount_amount:` -- set and non-zero. */
  predicate HasCap(c: Coupon) { c.maxDiscount.Some? && c.maxDiscount.value != 0.0 }

  /** `is_valid`: three guards in turn, any of which makes the coupon unusable. */
  function IsValid(c: Coupon, now: Time): (ok: bool)
    ensures ok <==> c.isActive && c.validFrom <= now <= c.validUntil
                    && (!HasGlobalLimit(c) || c.timesUsed < c.usageLimit.value)
  {
    if !c.isActive then false
    else if c.validFrom > now || c.validUntil < now then false
    else if HasGlobalLimit(c) && c.timesUsed >= c.usageLimit.value then false
    else true
  }

  /** The `(ok, message)` pair of `can_use`; each failure names the check that failed. */
  datatype CouponCheck = Usable | NotValid | BelowMinimum(minimum: real) | AlreadyUsed

  /** `can_use(user, cart_total)`, with the user's CouponUsage count passed in. */
  function CanUse(c: Coupon, now: Time, userUsage: nat, cartTotal: real): (r: CouponCheck)
    ensures r == Usable <==> IsValid(c, now) && cartTotal >= c.minPurchase && userUsage < c.usageLimitPerUser
    ensures r == NotValid <==> !IsValid(c, now)
    ensures r.BelowMinimum? <==> IsValid(c, now) && cartTotal < c.minPurchase
    ensures r.BelowMinimum? ==> r.minimum == c.minPurchase
    ensures r == AlreadyUsed <==> IsValid(c, now) && cartTotal >= c.minPurchase && userUsage >= c.usageLimitPerUser
  {
    if !IsValid(c, now) then NotValid
    else if cartTotal < c.minPurchase then BelowMinimum(c.minPurchase)
    else if userUsage >= c.usageLimitPerUser then AlreadyUsed
    else Usable
  }

  /** The discount before the caps: a percentage of the cart total, or the fixed value. */
  function RawDiscount(c: Coupon, cartTotal: real): real {
    if c.discountType == Percentage then cartTotal * (c.discountValue / 100.0) else c.discountValue
  }

  /**
   * `calculate_discount`: the raw discount, cut down to the cap when one is set and
   * then to the cart total; so it is the least of the three.
   */
  function CalculateDiscount(c: Coupon, cartTotal: real): (d: real)
    ensures d <= cartTotal && d <= RawDiscount(c, cartTotal)
    ensures HasCap(c) ==> d <= c.maxDiscount.value
    ensures d == RawDiscount(c, cartTotal) || d == cartTotal || (HasCap(c) && d == c.maxDiscount.value)
  {
    var raw := RawDiscount(c, cartTotal);
    var capped := if HasCap(c) then Min(raw, c.maxDiscount.value) else raw;
    Min(capped, cartTotal)
  }

  function Min(a: real, b: real): real { if a <= b then a else b }

  /** With non-negative inputs the discount is never negative, and never more than the cart total. */
  lemma DiscountInRange(c: Coupon, cartTotal: real)
    requires cartTotal >= 0.0 && c.discountValue >= 0.0
    requires c.maxDiscount.Some? ==> c.maxDiscount.value >= 0.0
    ensures 0.0 <= CalculateDiscount(c, cartTotal) <= cartTotal
  {
    var raw := RawDiscount(c, cartTotal);
    assert raw >= 0.0 by {
      if c.discountType == Percentage {
        assert cartTotal * (c.discountValue / 100.0) >= 0.0;
      }
    }
  }

  /**
   * A percentage coupon without a cap takes exactly that percentage of any total, as
   * long as the percentage is at most 100: 10% off 25.00 is 2.50.
   */
  lemma UncappedPercentage(c: Coupon, cartTotal: real)
    requires c.discountType == Percentage && !HasCap(c)
    requires 0.0 <= c.discountValue <= 100.0 && cartTotal >= 0.0
    ensures CalculateDiscount(c, cartTotal) == cartTotal * c.discountValue / 100.0
  {
    assert cartTotal * (c.discountValue / 100.0) <= cartTotal * 1.0;
  }

  /** One row per redemption; `can_use` counts a user's rows for the coupon. */
  datatype CouponUsage = CouponUsage(code: string, user: UserId, orderNumber: string, discount: real)

  function UsageCount(usages: seq<CouponUsage>, code: string, user: UserId): nat {
    if usages == [] then 0
    else (if usages[0].code == code && usages[0].user == user then 1 else 0) + UsageCount(usages[1..], code, user)
  }

  /** Recording a redemption adds one to that user's count for that coupon and to no other count. */
  lemma {:induction false} UsageCountAppend(usages: seq<CouponUsage>, u: CouponUsage, code: string, user: UserId)
    ensures UsageCount(usages + [u], code, user)
         == UsageCount(usages, code, user) + (if u.code == code && u.user == user then 1 else 0)
  {
    if usages != [] {
      assert (usages + [u])[1..] == usages[1..] + [u];
      UsageCountAppend(usages[1..], u, code, user);
    }
  }

  /** A coupon used up globally is refused, whatever the user's own count. */
  lemma GlobalLimitRefuses(c: Coupon, now: Time, userUsage: nat, cartTotal: real)
    requires HasGlobalLimit(c) && c.timesUsed >= c.usageLimit.value
    ensures CanUse(c, now, userUsage, cartTotal) == NotValid
  {
  }

  /**
   * A user who has redeemed the coupon `usage_limit_per_user` times is refused a
   * further redemption, even while the global limit is not reached.
   */
  lemma {:induction false} PerUserLimitRefuses(c: Coupon, now: Time, usages: seq<CouponUsage>, user: UserId,
                                               orderNumber: string, discount: real, cartTotal: real)
    requires UsageCount(usages, c.code, user) + 1 >= c.usageLimitPerUser
    ensures CanUse(c, now, UsageCount(usages + [CouponUsage(c.code, user, orderNumber, discount)], c.code, user), cartTotal) != Usable
  {
    UsageCountAppend(usages, CouponUsage(c.code, user, orderNumber, discount), c.code, user);
  }

  /** The coupon table, keyed by code, and the redemption log. */
  class CouponBook {
    var coupons: map<string, Coupon>
    var usages: seq<CouponUsage>

    ghost predicate Valid()
      reads this
    {
      forall code :: code in coupons ==> coupons[code].code == code
    }

    constructor (coupons: map<string, Coupon>)
      requires forall code :: code in coupons ==> coupons[code].code == code
      ensures Valid() && this.coupons == coupons && usages == []
    {
      this.coupons := coupons;
      this.usages := [];
    }

    /** The redemption step of create_order: one usage row, and `times_used += 1`. */
    method Redeem(code: string, user: UserId, orderNumber: string, discount: real)
      requires Valid() && code in coupons
      modifies this
      ensures Valid()
      ensures usages == old(usages) + [CouponUsage(code, user, orderNumber, discount)]
      ensures coupons == old(coupons)[code := old(coupons)[code].(timesUsed := old(coupons)[code].timesUsed + 1)]
    {
      usages := usages + [CouponUsage(code, user, orderNumber, discount)];
      var c := coupons[code];
      coupons := coupons[code := c.(timesUsed := c.timesUsed + 1)];
    }
  }
}

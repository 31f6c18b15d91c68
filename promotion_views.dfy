/**
 * promotions/views.py: applying a coupon code to the session cart, removing it
 * again, and the product list of an event page with each product's discounted
 * price and savings.
 */
module PromotionViews {
  import opened Wrappers
  import opened Ids
  import opened Text
  import opened Carts
  import opened Catalog
  import opened Sessions
  import opened Promotions

  /** The code as looked up: the posted `coupon_code` (default empty), stripped and upper-cased. */
  function CodeOf(raw: Option<string>): string {
    Upper(Strip(raw.GetOr("")))
  }

  /** The code is empty exactly when the posted text is all white space. */
  lemma CodeOfEmpty(raw: Option<string>)
    ensures CodeOf(raw) == [] <==> forall k :: 0 <= k < |raw.GetOr("")| ==> IsSpace(raw.GetOr("")[k])
  {
    StripBlank(raw.GetOr(""));
  }

  /**
   * The cart total `apply_coupon` computes: `price` (default 0) times `qty` (default 1)
   * summed over the lines. A bare-quantity line has no `.get`, so the loop raises and
   * there is no total (`None`).
   */
  function CouponCartTotal(c: Cart): Option<real> {
    if c == [] then Some(0.0)
    else match c[0].1
      case Quantity(_) => None
      case Snapshot(q, p, _, _) =>
        var rest := CouponCartTotal(c[1..]);
        if rest.None? then None else Some(p.GetOr(0.0) * q.GetOr(1) as real + rest.value)
  }

  /** The loop raises exactly when some line is a bare quantity. */
  lemma {:induction false} CouponCartTotalCrashes(c: Cart)
    ensures CouponCartTotal(c).None? <==> exists i :: 0 <= i < |c| && c[i].1.Quantity?
  {
    if c != [] {
      CouponCartTotalCrashes(c[1..]);
      if c[0].1.Snapshot? && exists i :: 0 <= i < |c| && c[i].1.Quantity? {
        var i :| 0 <= i < |c| && c[i].1.Quantity?;
        assert c[1..][i - 1] == c[i];
      }
      if exists i :: 0 <= i < |c[1..]| && c[1..][i].1.Quantity? {
        var i :| 0 <= i < |c[1..]| && c[1..][i].1.Quantity?;
        assert c[i + 1] == c[1..][i];
      }
    }
  }

  /** Every stored price and quantity is non-negative. */
  predicate NonNegativeLines(c: Cart) {
    forall i :: 0 <= i < |c| && c[i].1.Snapshot? ==>
      c[i].1.price.GetOr(0.0) >= 0.0 && c[i].1.qty.GetOr(1) >= 0
  }

  /** With non-negative prices and quantities the total is non-negative. */
  lemma {:induction false} CouponCartTotalNonNegative(c: Cart)
    requires NonNegativeLines(c) && CouponCartTotal(c).Some?
    ensures CouponCartTotal(c).value >= 0.0
  {
    if c != [] {
      assert forall i :: 0 <= i < |c[1..]| ==> c[1..][i] == c[i + 1];
      CouponCartTotalNonNegative(c[1..]);
      var p, q := c[0].1.price.GetOr(0.0), c[0].1.qty.GetOr(1);
      assert p * q as real >= 0.0;
    }
  }

  /** The `for product_id, item_data in cart.items()` loop of `apply_coupon`. */
  method CartTotal(c: Cart) returns (total: Option<real>)
    ensures total == CouponCartTotal(c)
  {
    var acc := 0.0;
    var i := 0;
    while i < |c|
      invariant 0 <= i <= |c|
      invariant var rest := CouponCartTotal(c[i..]);
        CouponCartTotal(c) == if rest.None? then None else Some(acc + rest.value)
    {
      assert c[i..][1..] == c[i + 1..];
      match c[i].1
      case Quantity(_) =>
        return None;
      case Snapshot(q, p, _, _) =>
        acc := acc + p.GetOr(0.0) * q.GetOr(1) as real;
      i := i + 1;
    }
    assert c[|c|..] == [];
    total := Some(acc);
  }

  /** The JSON answers of `apply_coupon`; `ApplyCrashed` is the exception of the cart loop. */
  datatype ApplyOutcome =
    | ApplyNotPost
    | EmptyCode
    | InvalidCode
    | ApplyCrashed
    | Refused(check: CouponCheck)
    | Applied(discount: real, newTotal: real)

  /**
   * What `apply_coupon` answers. `usages` is the redemption log the per-user check of
   * `can_use` counts.
   */
  function ApplyResult(isPost: bool, coupons: map<string, Coupon>, usages: seq<CouponUsage>,
                       raw: Option<string>, cart: Cart, user: UserId, now: Time): ApplyOutcome
  {
    if !isPost then ApplyNotPost
    else
      var code := CodeOf(raw);
      if code == [] then EmptyCode
      else if code !in coupons then InvalidCode
      else
        var total := CouponCartTotal(cart);
        if total.None? then ApplyCrashed
        else
          var check := CanUse(coupons[code], now, UsageCount(usages, code, user), total.value);
          if check != Usable then Refused(check)
          else
            var d := CalculateDiscount(coupons[code], total.value);
            Applied(d, total.value - d)
  }

  /**
   * The failures of `apply_coupon` and the guard that leads to each: the request
   * method, a blank code, a code with no coupon, and the cart loop raising.
   */
  lemma ApplyResultFailures(isPost: bool, coupons: map<string, Coupon>, usages: seq<CouponUsage>,
                            raw: Option<string>, cart: Cart, user: UserId, now: Time)
    ensures var r, code := ApplyResult(isPost, coupons, usages, raw, cart, user, now), CodeOf(raw);
      && (r == ApplyNotPost <==> !isPost)
      && (r == EmptyCode <==> isPost && forall k :: 0 <= k < |raw.GetOr("")| ==> IsSpace(raw.GetOr("")[k]))
      && (r == InvalidCode <==> isPost && code != [] && code !in coupons)
      && (r == ApplyCrashed <==> isPost && code != [] && code in coupons && CouponCartTotal(cart).None?)
  {
    CodeOfEmpty(raw);
  }

  /**
   * A refusal is the failed `can_use` check on the found coupon and the loop's total;
   * a success passed that check and takes off `calculate_discount` of the total.
   */
  lemma ApplyResultChecked(isPost: bool, coupons: map<string, Coupon>, usages: seq<CouponUsage>,
                           raw: Option<string>, cart: Cart, user: UserId, now: Time)
    requires ApplyResult(isPost, coupons, usages, raw, cart, user, now).Refused?
          || ApplyResult(isPost, coupons, usages, raw, cart, user, now).Applied?
    ensures var code := CodeOf(raw);
      isPost && code != [] && code in coupons && CouponCartTotal(cart).Some?
    ensures var r, code := ApplyResult(isPost, coupons, usages, raw, cart, user, now), CodeOf(raw);
      var total := CouponCartTotal(cart).value;
      var check := CanUse(coupons[code], now, UsageCount(usages, code, user), total);
      && (r.Refused? ==> r.check != Usable && r.check == check)
      && (r.Applied? ==>
            && check == Usable
            && r.discount == CalculateDiscount(coupons[code], total)
            && r.newTotal == total - r.discount
            && r.discount <= total)
  {
  }

  /**
   * With non-negative prices, quantities and coupon values, an applied coupon takes
   * off between nothing and the whole total, so the new total is never negative.
   */
  lemma AppliedWithinTotal(isPost: bool, coupons: map<string, Coupon>, usages: seq<CouponUsage>,
                           raw: Option<string>, cart: Cart, user: UserId, now: Time)
    requires NonNegativeLines(cart)
    requires forall k :: k in coupons ==>
      coupons[k].discountValue >= 0.0 && (coupons[k].maxDiscount.Some? ==> coupons[k].maxDiscount.value >= 0.0)
    requires ApplyResult(isPost, coupons, usages, raw, cart, user, now).Applied?
    ensures var r := ApplyResult(isPost, coupons, usages, raw, cart, user, now);
      0.0 <= r.discount && 0.0 <= r.newTotal <= CouponCartTotal(cart).value
  {
    CouponCartTotalNonNegative(cart);
    DiscountInRange(coupons[CodeOf(raw)], CouponCartTotal(cart).value);
  }

  /**
   * `apply_coupon`. Only a successful answer writes `applied_coupon`, with the coupon's
   * own code and the discount; every failure leaves the session as it was.
   */
  method ApplyCoupon(s: Session, book: CouponBook, isPost: bool, raw: Option<string>, user: UserId, now: Time)
    returns (out: ApplyOutcome)
    requires s.Valid() && book.Valid()
    modifies s
    ensures s.Valid()
    ensures out == ApplyResult(isPost, book.coupons, book.usages, raw, old(s.cart), user, now)
    ensures s.cart == old(s.cart) && s.cartDiscount == old(s.cartDiscount) && s.pendingOrderId == old(s.pendingOrderId)
    ensures s.appliedCoupon == if out.Applied? then Some(AppliedCoupon(CodeOf(raw), out.discount))
                               else old(s.appliedCoupon)
  {
    if !isPost {
      return ApplyNotPost;
    }
    var code := CodeOf(raw);
    if code == [] {
      return EmptyCode;
    }
    if code !in book.coupons {
      return InvalidCode;
    }
    var coupon := book.coupons[code];
    var total := CartTotal(s.cart);
    if total.None? {
      return ApplyCrashed;
    }
    var check := CanUse(coupon, now, UsageCount(book.usages, code, user), total.value);
    if check != Usable {
      return Refused(check);
    }
    var discount := CalculateDiscount(coupon, total.value);
    s.appliedCoupon := Some(AppliedCoupon(coupon.code, discount));
    out := Applied(discount, total.value - discount);
  }

  /** `remove_coupon`: succeeds exactly when a coupon was applied; none is applied afterwards. */
  method RemoveCoupon(s: Session) returns (ok: bool)
    requires s.Valid()
    modifies s
    ensures s.Valid()
    ensures ok <==> old(s.appliedCoupon).Some?
    ensures s.appliedCoupon == None
    ensures s.cart == old(s.cart) && s.cartDiscount == old(s.cartDiscount) && s.pendingOrderId == old(s.pendingOrderId)
  {
    ok := s.appliedCoupon.Some?;
    if ok {
      s.appliedCoupon := None;
    }
  }

  predicate NoDuplicates(ids: seq<ProductId>) {
    forall i, j :: 0 <= i < j < |ids| ==> ids[i] != ids[j]
  }

  /** `event.products.filter(is_active=True)`, in query order. */
  function ActiveOf(ids: seq<ProductId>, products: map<ProductId, Product>): seq<ProductId> {
    if ids == [] then []
    else (if IsLive(products, ids[0]) then [ids[0]] else []) + ActiveOf(ids[1..], products)
  }

  /** An active product whose category is one of the event's. */
  predicate InEventCategory(products: map<ProductId, Product>, categories: set<CategoryId>, pid: ProductId) {
    IsLive(products, pid) && products[pid].category.Some? && products[pid].category.value in categories
  }

  /** The category query, `.exclude(id__in=...)` the event's own products. */
  function CategoryOf(ids: seq<ProductId>, products: map<ProductId, Product>, categories: set<CategoryId>,
                      exclude: seq<ProductId>): seq<ProductId> {
    if ids == [] then []
    else (if InEventCategory(products, categories, ids[0]) && ids[0] !in exclude then [ids[0]] else [])
         + CategoryOf(ids[1..], products, categories, exclude)
  }

  /**
   * `all_products`: the event's own active products, then the active products of its
   * categories that are not among them. `catalog` is the product table in query order.
   */
  function EventProducts(own: seq<ProductId>, categories: set<CategoryId>, catalog: seq<ProductId>,
                         products: map<ProductId, Product>): seq<ProductId> {
    var first := ActiveOf(own, products);
    first + CategoryOf(catalog, products, categories, first)
  }

  lemma {:induction false} ActiveOfMembers(ids: seq<ProductId>, products: map<ProductId, Product>)
    ensures forall p :: p in ActiveOf(ids, products) <==> p in ids && IsLive(products, p)
    ensures NoDuplicates(ids) ==> NoDuplicates(ActiveOf(ids, products))
  {
    if ids != [] {
      ActiveOfMembers(ids[1..], products);
      assert forall p :: p in ids <==> p == ids[0] || p in ids[1..];
      if NoDuplicates(ids) {
        assert ids[0] !in ids[1..];
        assert NoDuplicates(ids[1..]) by {
          assert forall i :: 0 <= i < |ids[1..]| ==> ids[1..][i] == ids[i + 1];
        }
      }
    }
  }

  lemma {:induction false} CategoryOfMembers(ids: seq<ProductId>, products: map<ProductId, Product>,
                                             categories: set<CategoryId>, exclude: seq<ProductId>)
    ensures forall p :: p in CategoryOf(ids, products, categories, exclude) <==>
      p in ids && InEventCategory(products, categories, p) && p !in exclude
    ensures NoDuplicates(ids) ==> NoDuplicates(CategoryOf(ids, products, categories, exclude))
  {
    if ids != [] {
      CategoryOfMembers(ids[1..], products, categories, exclude);
      assert forall p :: p in ids <==> p == ids[0] || p in ids[1..];
      if NoDuplicates(ids) {
        assert ids[0] !in ids[1..];
        assert NoDuplicates(ids[1..]) by {
          assert forall i :: 0 <= i < |ids[1..]| ==> ids[1..][i] == ids[i + 1];
        }
      }
    }
  }

  /**
   * The event page lists exactly the active products that are the event's own or in
   * one of its categories, and none twice.
   */
  lemma EventProductsExact(own: seq<ProductId>, categories: set<CategoryId>, catalog: seq<ProductId>,
                           products: map<ProductId, Product>)
    ensures forall p :: p in EventProducts(own, categories, catalog, products) <==>
      IsLive(products, p) && (p in own || (p in catalog && InEventCategory(products, categories, p)))
    ensures NoDuplicates(own) && NoDuplicates(catalog) ==> NoDuplicates(EventProducts(own, categories, catalog, products))
  {
    var first := ActiveOf(own, products);
    var rest := CategoryOf(catalog, products, categories, first);
    ActiveOfMembers(own, products);
    CategoryOfMembers(catalog, products, categories, first);
    if NoDuplicates(own) && NoDuplicates(catalog) {
      assert forall i, j :: 0 <= i < |first| && 0 <= j < |rest| ==> first[i] != rest[j] by {
        forall i, j | 0 <= i < |first| && 0 <= j < |rest|
          ensures first[i] != rest[j]
        {
          assert rest[j] in rest;
        }
      }
      var all := first + rest;
      forall i, j | 0 <= i < j < |all|
        ensures all[i] != all[j]
      {
        if j < |first| {
        } else if i >= |first| {
          assert all[i] == rest[i - |first|] && all[j] == rest[j - |first|];
        } else {
          assert all[j] == rest[j - |first|];
        }
      }
    }
  }

  /** One product of the event page with the attributes the loop sets on it. */
  datatype Deal = Deal(pid: ProductId, originalPrice: real, discountedPrice: real, savings: real)

  /** The savings are the event's percentage of the original price. */
  function DealOf(e: Event, pid: ProductId, products: map<ProductId, Product>): (d: Deal)
    requires pid in products
    ensures d.pid == pid && d.originalPrice == products[pid].price
    ensures d.savings == d.originalPrice - d.discountedPrice
    ensures d.savings == d.originalPrice * e.discountPercentage / 100.0
  {
    var price := products[pid].price;
    var discounted := DiscountedPrice(e, price);
    Deal(pid, price, discounted, price - discounted)
  }

  /** The `for product in all_products` loop. */
  method PriceDeals(e: Event, ids: seq<ProductId>, products: map<ProductId, Product>) returns (deals: seq<Deal>)
    requires forall k :: 0 <= k < |ids| ==> ids[k] in products
    ensures |deals| == |ids|
    ensures forall k :: 0 <= k < |ids| ==> deals[k] == DealOf(e, ids[k], products)
  {
    deals := [];
    var i := 0;
    while i < |ids|
      invariant 0 <= i <= |ids| && |deals| == i
      invariant forall k :: 0 <= k < i ==> deals[k] == DealOf(e, ids[k], products)
    {
      deals := deals + [DealOf(e, ids[i], products)];
      i := i + 1;
    }
  }

  /**
   * `event_detail`. `found` is the event with the requested slug, if any; an absent or
   * inactive event is a 404 (`None`).
   */
  method EventDetail(found: Option<Event>, own: seq<ProductId>, categories: set<CategoryId>,
                     catalog: seq<ProductId>, products: map<ProductId, Product>) returns (page: Option<seq<Deal>>)
    ensures page.None? <==> found.None? || !found.value.isActive
    ensures page.Some? ==>
      var ids := EventProducts(own, categories, catalog, products);
      |page.value| == |ids| && forall k :: 0 <= k < |ids| ==> ids[k] in products && page.value[k] == DealOf(found.value, ids[k], products)
  {
    if found.None? || !found.value.isActive {
      return None;
    }
    var ids := EventProducts(own, categories, catalog, products);
    EventProductsExact(own, categories, catalog, products);
    assert forall k :: 0 <= k < |ids| ==> ids[k] in ids;
    var deals := PriceDeals(found.value, ids, products);
    page := Some(deals);
  }
}

/**
 * orders/views.py: the checkout page's totals, `create_order` (totals, item
 * snapshots with the platform-fee split, stock decrement, one coupon redemption and
 * the branch on payment method) and `cancel_order` (stock restored).
 */
module OrderViews {
  import opened Wrappers
  import opened Ids
  import opened Text
  import opened Serials
  import opened Carts
  import opened Catalog
  import opened Sessions
  import opened Accounts
  import opened Promotions
  import opened Orders

  const ShippingCost: real := 10.0
  const TaxRate: real := 0.08
  const PlatformFeeRate: real := 0.10

  /** One entry of `cart_items`: a live product, the cart quantity and price × quantity. */
  datatype OrderLine = OrderLine(pid: ProductId, product: Product, quantity: int, total: real)

  function LinePids(lines: seq<OrderLine>): set<ProductId> {
    if lines == [] then {} else {lines[0].pid} + LinePids(lines[1..])
  }

  predicate DistinctPids(lines: seq<OrderLine>) {
    lines == [] || (lines[0].pid !in LinePids(lines[1..]) && DistinctPids(lines[1..]))
  }

  /** The cart keys whose product still exists and is active. */
  function LiveKeys(c: Cart, products: map<ProductId, Product>): set<ProductId> {
    set k | k in KeysOf(c) && IsLive(products, k)
  }

  /**
   * The lines of a cart that survive the lookup `Product.objects.get(id=..., is_active=True)`;
   * the others are skipped silently. The quantity is read from either line shape.
   */
  function OrderLines(c: Cart, products: map<ProductId, Product>): (r: seq<OrderLine>)
    ensures |r| <= |c|
    ensures forall i :: 0 <= i < |r| ==> IsLive(products, r[i].pid)
  {
    if c == [] then []
    else
      var rest := OrderLines(c[1..], products);
      if IsLive(products, c[0].0) then [LineOf(c[0], products)] + rest else rest
  }

  /** Exactly the live cart keys become lines. */
  lemma {:induction false} OrderLinesKeys(c: Cart, products: map<ProductId, Product>)
    ensures LinePids(OrderLines(c, products)) == LiveKeys(c, products)
  {
    if c != [] {
      OrderLinesKeys(c[1..], products);
      var rest := OrderLines(c[1..], products);
      assert LiveKeys(c, products) == (if IsLive(products, c[0].0) then {c[0].0} else {}) + LiveKeys(c[1..], products);
      if IsLive(products, c[0].0) {
        var l := OrderLines(c, products)[0];
        assert OrderLines(c, products) == [l] + rest;
        assert ([l] + rest)[1..] == rest;
      }
    }
  }

  /** A cart with distinct keys gives lines for distinct products. */
  lemma {:induction false} OrderLinesDistinct(c: Cart, products: map<ProductId, Product>)
    requires Keyed(c)
    ensures DistinctPids(OrderLines(c, products))
  {
    if c != [] {
      OrderLinesDistinct(c[1..], products);
      OrderLinesKeys(c[1..], products);
      var rest := OrderLines(c[1..], products);
      if IsLive(products, c[0].0) {
        var l := OrderLines(c, products)[0];
        assert OrderLines(c, products) == [l] + rest;
        assert ([l] + rest)[1..] == rest;
      }
    }
  }

  /**
   * Each line is the current product with the quantity stored under it in the cart,
   * whichever the line's shape, and the line total is price × quantity.
   */
  lemma {:induction false} OrderLinesEntry(c: Cart, products: map<ProductId, Product>, i: nat)
    requires Keyed(c) && i < |OrderLines(c, products)|
    ensures var l := OrderLines(c, products)[i];
      && Lookup(c, l.pid).Some? && l.product == products[l.pid]
      && l.quantity == OrderQuantity(Lookup(c, l.pid).value)
      && l.total == l.product.price * l.quantity as real
  {
    OrderLinesKeys(c, products);
    var r := OrderLines(c, products);
    var rest := OrderLines(c[1..], products);
    assert c != [];
    if IsLive(products, c[0].0) && i == 0 {
      LookupAt(c, 0);
    } else {
      var j := if IsLive(products, c[0].0) then i - 1 else i;
      if IsLive(products, c[0].0) {
        assert r == [r[0]] + rest;
      }
      assert r[i] == rest[j];
      OrderLinesEntry(c[1..], products, j);
      OrderLinesKeys(c[1..], products);
      assert r[i].pid in LinePids(rest);
      assert r[i].pid != c[0].0;
    }
  }

  function SumTotals(lines: seq<OrderLine>): real {
    if lines == [] then 0.0 else lines[0].total + SumTotals(lines[1..])
  }

  /** The line a live cart entry becomes. */
  function LineOf(entry: (ProductId, CartLine), products: map<ProductId, Product>): OrderLine
    requires entry.0 in products
  {
    var p := products[entry.0];
    OrderLine(entry.0, p, OrderQuantity(entry.1), p.price * OrderQuantity(entry.1) as real)
  }

  lemma OrderLinesStep(c: Cart, products: map<ProductId, Product>)
    requires c != []
    ensures OrderLines(c, products) ==
      (if IsLive(products, c[0].0) then [LineOf(c[0], products)] else []) + OrderLines(c[1..], products)
  {
  }

  /** The loop `for product_id, item_data in cart.items(): ... subtotal += item_total`. */
  method CollectLines(c: Cart, products: map<ProductId, Product>) returns (lines: seq<OrderLine>, subtotal: real)
    ensures lines == OrderLines(c, products)
    ensures subtotal == SumTotals(lines)
  {
    lines, subtotal := [], 0.0;
    var i := 0;
    while i < |c|
      invariant 0 <= i <= |c|
      invariant lines + OrderLines(c[i..], products) == OrderLines(c, products)
      invariant subtotal + SumTotals(OrderLines(c[i..], products)) == SumTotals(OrderLines(c, products))
    {
      OrderLinesStep(c[i..], products);
      assert c[i..][1..] == c[i + 1..];
      var rest := OrderLines(c[i + 1..], products);
      if IsLive(products, c[i].0) {
        var l := LineOf(c[i], products);
        assert ([l] + rest)[1..] == rest;
        lines := lines + [l];
        subtotal := subtotal + l.total;
      }
      i := i + 1;
    }
    assert c[|c|..] == [];
  }

  datatype Totals = Totals(subtotal: real, shippingCost: real, tax: real, discount: real, total: real)

  /**
   * shipping 10.00, tax 8% of the subtotal (not rounded), the discount stored with the
   * applied coupon or 0, and total = subtotal + shipping + tax - discount.
   */
  function ComputeTotals(subtotal: real, applied: Option<AppliedCoupon>): (t: Totals)
    ensures t.subtotal == subtotal && t.shippingCost == 10.0 && t.tax == subtotal * 8.0 / 100.0
    ensures t.discount == (if applied.Some? then applied.value.discount else 0.0)
    ensures t.total == t.subtotal + t.shippingCost + t.tax - t.discount
  {
    var tax := subtotal * TaxRate;
    var discount := if applied.Some? then applied.value.discount else 0.0;
    Totals(subtotal, ShippingCost, tax, discount, subtotal + ShippingCost + tax - discount)
  }

  /** `checkout`: an empty cart shows nothing; otherwise the totals of the live lines. */
  method Checkout(s: Session, products: map<ProductId, Product>) returns (r: Option<Totals>)
    ensures r.None? <==> s.cart == []
    ensures r.Some? ==> r.value == ComputeTotals(SumTotals(OrderLines(s.cart, products)), s.appliedCoupon)
  {
    if s.cart == [] {
      return None;
    }
    var lines, subtotal := CollectLines(s.cart, products);
    r := Some(ComputeTotals(subtotal, s.appliedCoupon));
  }

  /**
   * The OrderItem written for a line: snapshot of name and price, the subtotal that
   * `OrderItem.save` recomputes, a 10% platform fee and the seller's remainder.
   */
  function MakeItem(l: OrderLine, id: ItemId): (it: OrderItem)
    ensures it.id == id && it.product == Some(l.pid) && it.shop == l.product.shop
    ensures it.name == l.product.name && it.price == l.product.price && it.quantity == l.quantity
    ensures it.subtotal == it.price * it.quantity as real
    ensures it.platformFee == it.subtotal * 10.0 / 100.0
    ensures it.sellerAmount + it.platformFee == it.subtotal
  {
    var total := l.product.price * l.quantity as real;
    var fee := total * PlatformFeeRate;
    SaveItem(OrderItem(id, Some(l.pid), l.product.shop, l.product.name, l.product.price,
                       l.quantity, total, total - fee, fee))
  }

  /** Under a non-negative item subtotal both parts of the split are non-negative. */
  lemma FeeSplitBounds(l: OrderLine, id: ItemId)
    requires l.product.price >= 0.0 && l.quantity >= 0
    ensures 0.0 <= MakeItem(l, id).platformFee <= MakeItem(l, id).subtotal
    ensures 0.0 <= MakeItem(l, id).sellerAmount <= MakeItem(l, id).subtotal
  {
    var s := l.product.price * l.quantity as real;
    assert s >= 0.0;
  }

  /** The items of an order, numbered from the next free item id in cart order. */
  function MakeItems(lines: seq<OrderLine>, firstId: ItemId): (r: seq<OrderItem>)
    ensures |r| == |lines|
    ensures forall i :: 0 <= i < |r| ==> r[i] == MakeItem(lines[i], firstId + i)
  {
    if lines == [] then [] else [MakeItem(lines[0], firstId)] + MakeItems(lines[1..], firstId + 1)
  }

  /** Total quantity the lines order of product k. */
  function LineQty(lines: seq<OrderLine>, k: ProductId): int {
    if lines == [] then 0 else (if lines[0].pid == k then lines[0].quantity else 0) + LineQty(lines[1..], k)
  }

  /** Total quantity the items hold of product k. */
  function ItemQty(items: seq<OrderItem>, k: ProductId): int {
    if items == [] then 0 else (if items[0].product == Some(k) then items[0].quantity else 0) + ItemQty(items[1..], k)
  }

  function WithStock(p: Product, delta: int): Product { p.(stock := p.stock + delta) }

  /** `product.stock -= quantity; product.save()` for each line in turn. */
  function Decrement(products: map<ProductId, Product>, lines: seq<OrderLine>): (r: map<ProductId, Product>)
    ensures r.Keys == products.Keys
  {
    if lines == [] then products
    else
      var l := lines[0];
      var next := if l.pid in products then products[l.pid := WithStock(products[l.pid], -l.quantity)] else products;
      Decrement(next, lines[1..])
  }

  /** `if item.product: item.product.stock += item.quantity` for each item in turn. */
  function Restore(products: map<ProductId, Product>, items: seq<OrderItem>): (r: map<ProductId, Product>)
    ensures r.Keys == products.Keys
  {
    if items == [] then products
    else
      var it := items[0];
      var next := if it.product.Some? && it.product.value in products
        then products[it.product.value := WithStock(products[it.product.value], it.quantity)]
        else products;
      Restore(next, items[1..])
  }

  /**
   * Each product's stock drops by exactly the quantity ordered of it, with no
   * availability check (it can go negative); nothing else about any product changes.
   */
  lemma {:induction false} DecrementAt(products: map<ProductId, Product>, lines: seq<OrderLine>, k: ProductId)
    ensures k in products ==> Decrement(products, lines)[k] == WithStock(products[k], -LineQty(lines, k))
  {
    if lines != [] {
      var l := lines[0];
      var next := if l.pid in products then products[l.pid := WithStock(products[l.pid], -l.quantity)] else products;
      DecrementAt(next, lines[1..], k);
    }
  }

  /** Each existing product gets back the quantity the items hold of it; nothing else changes. */
  lemma {:induction false} RestoreAt(products: map<ProductId, Product>, items: seq<OrderItem>, k: ProductId)
    ensures k in products ==> Restore(products, items)[k] == WithStock(products[k], ItemQty(items, k))
  {
    if items != [] {
      var it := items[0];
      var next := if it.product.Some? && it.product.value in products
        then products[it.product.value := WithStock(products[it.product.value], it.quantity)]
        else products;
      RestoreAt(next, items[1..], k);
    }
  }

  lemma {:induction false} ItemQtyOfLines(lines: seq<OrderLine>, firstId: ItemId, k: ProductId)
    ensures ItemQty(MakeItems(lines, firstId), k) == LineQty(lines, k)
  {
    if lines != [] {
      assert MakeItems(lines, firstId)[1..] == MakeItems(lines[1..], firstId + 1);
      ItemQtyOfLines(lines[1..], firstId + 1, k);
    }
  }

  /** Cancelling an order right after placing it puts every product's stock back as it was. */
  lemma CancelUndoesStock(products: map<ProductId, Product>, lines: seq<OrderLine>, firstId: ItemId)
    ensures Restore(Decrement(products, lines), MakeItems(lines, firstId)) == products
  {
    var d := Decrement(products, lines);
    var r := Restore(d, MakeItems(lines, firstId));
    forall k | k in products
      ensures r[k] == products[k]
    {
      DecrementAt(products, lines, k);
      RestoreAt(d, MakeItems(lines, firstId), k);
      ItemQtyOfLines(lines, firstId, k);
    }
  }

  lemma DecrementStep(products: map<ProductId, Product>, lines: seq<OrderLine>)
    requires lines != []
    ensures Decrement(products, lines) == Decrement(
      if lines[0].pid in products then products[lines[0].pid := WithStock(products[lines[0].pid], -lines[0].quantity)] else products,
      lines[1..])
  {
  }

  /**
   * How many leading lines the item loop stores: `OrderItem.quantity` is a
   * PositiveIntegerField, whose `quantity >= 0` check makes the insert of a line with a
   * negative quantity raise IntegrityError, which ends the loop.
   */
  function StoredPrefix(lines: seq<OrderLine>): (k: nat)
    ensures k <= |lines|
    ensures forall j :: 0 <= j < k ==> lines[j].quantity >= 0
    ensures k < |lines| ==> lines[k].quantity < 0
  {
    if lines == [] || lines[0].quantity < 0 then 0 else 1 + StoredPrefix(lines[1..])
  }

  /** Every line is stored exactly when no line has a negative quantity. */
  lemma StoredAllIffNonNegative(lines: seq<OrderLine>)
    ensures StoredPrefix(lines) == |lines| <==> forall j :: 0 <= j < |lines| ==> lines[j].quantity >= 0
  {
  }

  /**
   * The second loop of create_order: write each OrderItem, then decrement its product's
   * stock, until an insert raises; `stored` says whether every line got through.
   */
  method PlaceItems(inv: Inventory, lines: seq<OrderLine>, firstId: ItemId) returns (items: seq<OrderItem>, stored: bool)
    modifies inv
    ensures stored <==> StoredPrefix(lines) == |lines|
    ensures items == MakeItems(lines[..StoredPrefix(lines)], firstId)
    ensures inv.products == Decrement(old(inv.products), lines[..StoredPrefix(lines)])
  {
    ghost var k := StoredPrefix(lines);
    items := [];
    var i := 0;
    while i < |lines|
      invariant 0 <= i <= k
      invariant |items| == i && forall j :: 0 <= j < i ==> items[j] == MakeItem(lines[j], firstId + j)
      invariant Decrement(inv.products, lines[i..k]) == Decrement(old(inv.products), lines[..k])
    {
      var l := lines[i];
      if l.quantity < 0 {
        return items, false;
      }
      DecrementStep(inv.products, lines[i..k]);
      assert lines[i..k][1..] == lines[i + 1..k];
      items := items + [MakeItem(l, firstId + i)];
      if l.pid in inv.products {
        inv.products := inv.products[l.pid := WithStock(inv.products[l.pid], -l.quantity)];
      }
      i := i + 1;
    }
    assert lines[i..k] == [] && lines[..k] == lines;
    stored := true;
  }

  datatype CreateOutcome =
    | NotPost
    | EmptyCart
    | MissingChoice
    | AddressNotFound
    /** The IntegrityError of an item insert, after the order row was committed. */
    | ItemRejected(number: string)
    | Placed(number: string)

  /** The order record create_order leaves behind: status 'processing' for cash on delivery. */
  function PlacedOrder(id: OrderId, hex: string, user: UserId, shipping: Address, t: Totals,
                       paymentMethod: string, items: seq<OrderItem>): (o: Order)
    requires IsUuidHex(hex)
    ensures o.number == OrderNumber(hex) && o.id == id && o.user == user && o.shipping == shipping
    ensures o.paymentStatus == PaymentPending && o.items == items
    ensures o.status == if paymentMethod == "cod" then Processing else Pending
    ensures o.subtotal == t.subtotal && o.shippingCost == t.shippingCost && o.tax == t.tax
    ensures o.discount == t.discount && o.total == t.total && o.paymentMethod == paymentMethod
  {
    var o := NewOrder(id, hex, user, shipping, t.subtotal, t.shippingCost, t.tax, t.discount, t.total, paymentMethod);
    o.(items := items, status := if paymentMethod == "cod" then Processing else Pending)
  }

  /** The applied coupon is redeemed when its code is non-empty and names an existing coupon. */
  predicate Redeems(applied: Option<AppliedCoupon>, coupons: map<string, Coupon>) {
    applied.Some? && applied.value.code != "" && applied.value.code in coupons
  }

  /**
   * `Order.objects.create(...)` followed by the item loop: the order takes the next id,
   * its items the next item ids, and stock drops by what was ordered.
   */
  method RecordOrder(book: OrderBook, inv: Inventory, lines: seq<OrderLine>, t: Totals, user: UserId,
                     address: Address, paymentMethod: string, hex: string) returns (number: string, stored: bool)
    requires book.Valid() && IsUuidHex(hex) && OrderNumber(hex) !in book.orders
    modifies book, inv
    ensures book.Valid() && number == OrderNumber(hex)
    ensures stored <==> StoredPrefix(lines) == |lines|
    ensures var done := lines[..StoredPrefix(lines)];
      var placed := PlacedOrder(old(book.nextOrderId), hex, user, address, t, paymentMethod, MakeItems(done, old(book.nextItemId)));
      && book.orders == old(book.orders)[number := if stored then placed else placed.(status := Pending)]
      && book.nextOrderId == old(book.nextOrderId) + 1 && book.nextItemId == old(book.nextItemId) + |done|
      && inv.products == Decrement(old(inv.products), done)
  {
    var id, firstItem := book.nextOrderId, book.nextItemId;
    number := OrderNumber(hex);
    var items;
    items, stored := PlaceItems(inv, lines, firstItem);
    book.nextOrderId := id + 1;
    book.nextItemId := firstItem + |items|;
    var placed := PlacedOrder(id, hex, user, address, t, paymentMethod, items);
    book.orders := book.orders[number := if stored then placed else placed.(status := Pending)];
  }

  /**
   * The coupon step of create_order: a CouponUsage row, `times_used + 1` and the
   * session's coupon cleared, all only when the code names an existing coupon.
   */
  method RedeemApplied(s: Session, cb: CouponBook, user: UserId, number: string, discount: real)
    requires cb.Valid()
    modifies s, cb
    ensures cb.Valid()
    ensures s.cart == old(s.cart) && s.pendingOrderId == old(s.pendingOrderId) && s.cartDiscount == old(s.cartDiscount)
    ensures Redeems(old(s.appliedCoupon), old(cb.coupons)) ==>
      var code := old(s.appliedCoupon).value.code;
      && cb.usages == old(cb.usages) + [CouponUsage(code, user, number, discount)]
      && cb.coupons == old(cb.coupons)[code := old(cb.coupons)[code].(timesUsed := old(cb.coupons)[code].timesUsed + 1)]
      && s.appliedCoupon == None
    ensures !Redeems(old(s.appliedCoupon), old(cb.coupons)) ==> unchanged(s) && unchanged(cb)
  {
    if Redeems(s.appliedCoupon, cb.coupons) {
      cb.Redeem(s.appliedCoupon.value.code, user, number, discount);
      s.appliedCoupon := None;
    }
  }

  /**
   * What create_order does once every item is stored: the coupon step, then "cod"
   * empties the cart and "stripe" or "paypal" records the order as awaiting payment.
   */
  method SettleOrder(s: Session, cb: CouponBook, user: UserId, number: string, discount: real,
                     paymentMethod: string, id: OrderId)
    requires cb.Valid()
    modifies s, cb
    ensures cb.Valid()
    ensures if Redeems(old(s.appliedCoupon), old(cb.coupons)) then
        var code := old(s.appliedCoupon).value.code;
        && cb.usages == old(cb.usages) + [CouponUsage(code, user, number, discount)]
        && cb.coupons == old(cb.coupons)[code := old(cb.coupons)[code].(timesUsed := old(cb.coupons)[code].timesUsed + 1)]
        && s.appliedCoupon == None
      else
        cb.usages == old(cb.usages) && cb.coupons == old(cb.coupons) && s.appliedCoupon == old(s.appliedCoupon)
    ensures s.cart == (if paymentMethod == "cod" then [] else old(s.cart))
    ensures s.pendingOrderId == (if paymentMethod == "stripe" || paymentMethod == "paypal" then Some(id) else old(s.pendingOrderId))
    ensures s.cartDiscount == old(s.cartDiscount)
  {
    RedeemApplied(s, cb, user, number, discount);
    if paymentMethod == "cod" {
      s.cart := [];
    } else if paymentMethod == "stripe" || paymentMethod == "paypal" {
      s.pendingOrderId := Some(id);
    }
  }

  /** `create_order` */
  method CreateOrder(s: Session, inv: Inventory, book: OrderBook, cb: CouponBook,
                     addresses: map<AddressId, Address>, user: UserId,
                     isPost: bool, paymentMethod: string, addressId: Option<AddressId>, hex: string)
    returns (o: CreateOutcome)
    requires s.Valid() && book.Valid() && cb.Valid()
    requires IsUuidHex(hex) && OrderNumber(hex) !in book.orders
    modifies s, inv, book, cb
    ensures s.Valid() && book.Valid() && cb.Valid()
    ensures o.Placed? || o.ItemRejected? <==>
      isPost && old(s.cart) != [] && paymentMethod != "" && addressId.Some?
      && addressId.value in addresses && addresses[addressId.value].user == user
    ensures o.ItemRejected? ==> StoredPrefix(OrderLines(old(s.cart), old(inv.products))) < |OrderLines(old(s.cart), old(inv.products))|
    ensures o.Placed? ==> StoredPrefix(OrderLines(old(s.cart), old(inv.products))) == |OrderLines(old(s.cart), old(inv.products))|
    ensures !o.Placed? && !o.ItemRejected? ==> unchanged(s) && unchanged(inv) && unchanged(book) && unchanged(cb)
    ensures o.ItemRejected? ==>
      var lines := OrderLines(old(s.cart), old(inv.products));
      var done := lines[..StoredPrefix(lines)];
      var t := ComputeTotals(SumTotals(lines), old(s.appliedCoupon));
      var id := old(book.nextOrderId);
      && o.number == OrderNumber(hex)
      && book.orders == old(book.orders)[o.number := PlacedOrder(id, hex, user, addresses[addressId.value], t,
                                           paymentMethod, MakeItems(done, old(book.nextItemId))).(status := Pending)]
      && book.nextOrderId == id + 1 && book.nextItemId == old(book.nextItemId) + |done|
      && inv.products == Decrement(old(inv.products), done)
      && unchanged(s) && unchanged(cb)
    ensures o.Placed? ==>
      var lines := OrderLines(old(s.cart), old(inv.products));
      var t := ComputeTotals(SumTotals(lines), old(s.appliedCoupon));
      var id := old(book.nextOrderId);
      && o.number == OrderNumber(hex)
      && book.orders == old(book.orders)[o.number := PlacedOrder(id, hex, user, addresses[addressId.value], t,
                                           paymentMethod, MakeItems(lines, old(book.nextItemId)))]
      && book.nextOrderId == id + 1 && book.nextItemId == old(book.nextItemId) + |lines|
      && inv.products == Decrement(old(inv.products), lines)
      && (if Redeems(old(s.appliedCoupon), old(cb.coupons)) then
            var code := old(s.appliedCoupon).value.code;
            && cb.usages == old(cb.usages) + [CouponUsage(code, user, o.number, t.discount)]
            && cb.coupons == old(cb.coupons)[code := old(cb.coupons)[code].(timesUsed := old(cb.coupons)[code].timesUsed + 1)]
            && s.appliedCoupon == None
          else
            cb.usages == old(cb.usages) && cb.coupons == old(cb.coupons) && s.appliedCoupon == old(s.appliedCoupon))
      && s.cart == (if paymentMethod == "cod" then [] else old(s.cart))
      && s.pendingOrderId == (if paymentMethod == "stripe" || paymentMethod == "paypal" then Some(id) else old(s.pendingOrderId))
      && s.cartDiscount == old(s.cartDiscount)
  {
    if !isPost {
      return NotPost;
    }
    if s.cart == [] {
      return EmptyCart;
    }
    if paymentMethod == "" || addressId.None? {
      return MissingChoice;
    }
    if addressId.value !in addresses || addresses[addressId.value].user != user {
      return AddressNotFound;
    }
    var lines, subtotal := CollectLines(s.cart, inv.products);
    var t := ComputeTotals(subtotal, s.appliedCoupon);
    var id := book.nextOrderId;
    var number, stored := RecordOrder(book, inv, lines, t, user, addresses[addressId.value], paymentMethod, hex);
    if !stored {
      return ItemRejected(number);
    }
    assert lines[..StoredPrefix(lines)] == lines;
    SettleOrder(s, cb, user, number, t.discount, paymentMethod, id);
    o := Placed(number);
  }

  /** The loop of cancel_order: each item whose product still exists gets its quantity back. */
  method RestoreStock(inv: Inventory, items: seq<OrderItem>)
    modifies inv
    ensures inv.products == Restore(old(inv.products), items)
  {
    var i := 0;
    while i < |items|
      invariant 0 <= i <= |items|
      invariant Restore(inv.products, items[i..]) == Restore(old(inv.products), items)
    {
      assert items[i..][1..] == items[i + 1..];
      var it := items[i];
      if it.product.Some? && it.product.value in inv.products {
        inv.products := inv.products[it.product.value := WithStock(inv.products[it.product.value], it.quantity)];
      }
      i := i + 1;
    }
    assert items[|items|..] == [];
  }

  datatype CancelOutcome = CancelNotPost | OrderNotFound | NotCancellable | CancelledOrder

  /** `cancel_order`: only a pending or processing order of the requesting user is cancelled. */
  method CancelOrder(book: OrderBook, inv: Inventory, number: string, user: UserId, isPost: bool)
    returns (o: CancelOutcome)
    requires book.Valid()
    modifies book, inv
    ensures book.Valid()
    ensures o == CancelledOrder <==>
      isPost && number in old(book.orders) && old(book.orders)[number].user == user
      && old(book.orders)[number].status in {Pending, Processing}
    ensures o == NotCancellable <==>
      isPost && number in old(book.orders) && old(book.orders)[number].user == user
      && old(book.orders)[number].status !in {Pending, Processing}
    ensures o != CancelledOrder ==> unchanged(book) && unchanged(inv)
    ensures o == CancelledOrder ==>
      && book.orders == old(book.orders)[number := old(book.orders)[number].(status := Cancelled)]
      && book.nextOrderId == old(book.nextOrderId) && book.nextItemId == old(book.nextItemId)
      && inv.products == Restore(old(inv.products), old(book.orders)[number].items)
  {
    if !isPost {
      return CancelNotPost;
    }
    if number !in book.orders || book.orders[number].user != user {
      return OrderNotFound;
    }
    var order := book.orders[number];
    if order.status !in {Pending, Processing} {
      return NotCancellable;
    }
    book.orders := book.orders[number := order.(status := Cancelled)];
    RestoreStock(inv, order.items);
    o := CancelledOrder;
  }

  /**
   * A worked checkout: 2 × 10.00 and 1 × 5.00 give subtotal 25.00, tax 2.00 and total
   * 37.00; a 10% coupon takes 2.50 off, for 34.50; each stock drops by its quantity.
   */
  lemma CheckoutExample()
    ensures var products := map[1 := Product("Jaggery", 10.0, 5, true, None, None),
                                2 := Product("Palm candy", 5.0, 3, true, None, None)];
      var lines := OrderLines([(1, Quantity(2)), (2, Quantity(1))], products);
      var coupon := Coupon("SAVE", Percentage, 10.0, 0.0, None, None, 1, 0, 0, 100, true);
      && SumTotals(lines) == 25.0
      && ComputeTotals(25.0, None).tax == 2.0
      && ComputeTotals(25.0, None).total == 37.0
      && CalculateDiscount(coupon, 25.0) == 2.5
      && ComputeTotals(25.0, Some(AppliedCoupon("SAVE", 2.5))).total == 34.5
      && Decrement(products, lines)[1].stock == 3 && Decrement(products, lines)[2].stock == 2
  {
    var products := map[1 := Product("Jaggery", 10.0, 5, true, None, None),
                        2 := Product("Palm candy", 5.0, 3, true, None, None)];
    var cart: Cart := [(1, Quantity(2)), (2, Quantity(1))];
    var lines := OrderLines(cart, products);
    assert cart[1..][1..] == [];
    assert lines == [LineOf(cart[0], products), LineOf(cart[1], products)];
    DecrementAt(products, lines, 1);
    DecrementAt(products, lines, 2);
  }
}

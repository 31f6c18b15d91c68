/**
 * store/views.py: the cart whose lines are bare quantities. Adding, updating and
 * removing a line, the cart page (subtotal of the live products less the fixed
 * session discount) and the one hard-coded coupon `SAVE10`.
 */
module StoreViews {
  import opened Wrappers
  import opened Ids
  import opened Text
  import opened Carts
  import opened Catalog
  import opened Sessions
  import opened OrderViews

  /** Writing a key twice keeps only the second value, in the first one's place. */
  lemma {:induction false} PutPut(c: Cart, k: ProductId, x: CartLine, y: CartLine)
    ensures Put(Put(c, k, x), k, y) == Put(c, k, y)
  {
    if c != [] && c[0].0 != k {
      PutPut(c[1..], k, x, y);
      assert Put(c, k, x)[1..] == Put(c[1..], k, x);
    }
  }

  /**
   * `cart_data[k] += qty` for a present key, `cart_data[k] = qty` for a new one. A
   * dictionary line does not support `+= int`, so the view raises (`None`).
   */
  function AddQuantity(c: Cart, pid: ProductId, q: int): (r: Option<Cart>)
    ensures r.None? <==> Lookup(c, pid).Some? && Lookup(c, pid).value.Snapshot?
    ensures r.Some? ==>
      && Lookup(r.value, pid) == Some(Quantity(q + (if Lookup(c, pid).Some? then Lookup(c, pid).value.count else 0)))
      && (forall j :: j != pid ==> Lookup(r.value, j) == Lookup(c, j))
      && (Keyed(c) ==> Keyed(r.value))
  {
    match Lookup(c, pid)
    case None => Some(Put(c, pid, Quantity(q)))
    case Some(Quantity(n)) => Some(Put(c, pid, Quantity(n + q)))
    case Some(Snapshot(_, _, _, _)) => None
  }

  /** Adding `a` and then `b` is adding `a + b` at once. */
  lemma AddTwice(c: Cart, pid: ProductId, a: int, b: int)
    requires AddQuantity(c, pid, a).Some?
    ensures AddQuantity(AddQuantity(c, pid, a).value, pid, b) == AddQuantity(c, pid, a + b)
  {
    var n := if Lookup(c, pid).Some? then Lookup(c, pid).value.count else 0;
    PutPut(c, pid, Quantity(n + a), Quantity(n + a + b));
    assert n + a + b == (if Lookup(c, pid).Some? then Lookup(c, pid).value.count + (a + b) else a + b);
  }

  /** `cart_update`: a positive quantity replaces the line, any other removes it. */
  function SetQuantity(c: Cart, pid: ProductId, q: int): (r: Cart)
    ensures Lookup(r, pid) == if q > 0 then Some(Quantity(q)) else None
    ensures forall j :: j != pid ==> Lookup(r, j) == Lookup(c, j)
    ensures Keyed(c) ==> Keyed(r)
  {
    if q > 0 then Put(c, pid, Quantity(q)) else Pop(c, pid)
  }

  /** Submitting the same update twice is submitting it once. */
  lemma SetQuantityIdempotent(c: Cart, pid: ProductId, q: int)
    ensures SetQuantity(SetQuantity(c, pid, q), pid, q) == SetQuantity(c, pid, q)
  {
    if q > 0 {
      PutPut(c, pid, Quantity(q), Quantity(q));
    } else {
      PopIdempotent(c, pid);
    }
  }

  /** What the view does besides changing the cart. */
  datatype AddOutcome = AddNotFound | AddNotPost | AddCrashed | Added

  /**
   * `cart_add`. The product must be live (404 first, whatever the method); `qty` is
   * the posted quantity, default 1.
   */
  method CartAdd(s: Session, products: map<ProductId, Product>, pid: ProductId, isPost: bool, qty: Option<int>)
    returns (out: AddOutcome)
    requires s.Valid()
    modifies s
    ensures s.Valid()
    ensures out == AddNotFound <==> !IsLive(products, pid)
    ensures out == AddNotPost <==> IsLive(products, pid) && !isPost
    ensures out == AddCrashed <==> IsLive(products, pid) && isPost && AddQuantity(old(s.cart), pid, qty.GetOr(1)).None?
    ensures s.cart == if out == Added then AddQuantity(old(s.cart), pid, qty.GetOr(1)).value else old(s.cart)
    ensures s.appliedCoupon == old(s.appliedCoupon) && s.cartDiscount == old(s.cartDiscount)
    ensures s.pendingOrderId == old(s.pendingOrderId)
  {
    if !IsLive(products, pid) {
      return AddNotFound;
    }
    if !isPost {
      return AddNotPost;
    }
    var r := AddQuantity(s.cart, pid, qty.GetOr(1));
    if r.None? {
      return AddCrashed;
    }
    s.cart := r.value;
    out := Added;
  }

  /** `cart_update`: only a POST changes the cart, whether or not the product exists. */
  method CartUpdate(s: Session, pid: ProductId, isPost: bool, qty: Option<int>)
    requires s.Valid()
    modifies s
    ensures s.Valid()
    ensures s.cart == if isPost then SetQuantity(old(s.cart), pid, qty.GetOr(1)) else old(s.cart)
    ensures s.appliedCoupon == old(s.appliedCoupon) && s.cartDiscount == old(s.cartDiscount)
    ensures s.pendingOrderId == old(s.pendingOrderId)
  {
    if isPost {
      s.cart := SetQuantity(s.cart, pid, qty.GetOr(1));
    }
  }

  /** `cart_remove`, for any method. */
  method CartRemove(s: Session, pid: ProductId)
    requires s.Valid()
    modifies s
    ensures s.Valid()
    ensures s.cart == Pop(old(s.cart), pid)
    ensures s.appliedCoupon == old(s.appliedCoupon) && s.cartDiscount == old(s.cartDiscount)
    ensures s.pendingOrderId == old(s.pendingOrderId)
  {
    s.cart := Pop(s.cart, pid);
  }

  /** One row of the cart page. */
  datatype StoreLine = StoreLine(pid: ProductId, product: Product, qty: int, lineTotal: real)

  /**
   * The rows of the cart page: lines whose product is not live are skipped, and a
   * dictionary line of a live product makes `product.price * qty` raise (`None`).
   */
  function StoreLines(c: Cart, products: map<ProductId, Product>): Option<seq<StoreLine>> {
    if c == [] then Some([])
    else
      var rest := StoreLines(c[1..], products);
      if !IsLive(products, c[0].0) then rest
      else match c[0].1
        case Snapshot(_, _, _, _) => None
        case Quantity(n) =>
          var p := products[c[0].0];
          if rest.None? then None else Some([StoreRow(c[0].0, p, n)] + rest.value)
  }

  function LineSum(lines: seq<StoreLine>): real {
    if lines == [] then 0.0 else lines[0].lineTotal + LineSum(lines[1..])
  }

  /** The page raises exactly when a live product's line is a dictionary. */
  lemma {:induction false} StoreLinesCrash(c: Cart, products: map<ProductId, Product>)
    ensures StoreLines(c, products).None? <==>
      exists i :: 0 <= i < |c| && IsLive(products, c[i].0) && c[i].1.Snapshot?
  {
    if c != [] {
      StoreLinesCrash(c[1..], products);
      if exists i :: 0 <= i < |c[1..]| && IsLive(products, c[1..][i].0) && c[1..][i].1.Snapshot? {
        var i :| 0 <= i < |c[1..]| && IsLive(products, c[1..][i].0) && c[1..][i].1.Snapshot?;
        assert c[i + 1] == c[1..][i];
      }
      if exists i :: 0 <= i < |c| && IsLive(products, c[i].0) && c[i].1.Snapshot? {
        var i :| 0 <= i < |c| && IsLive(products, c[i].0) && c[i].1.Snapshot?;
        if i > 0 {
          assert c[1..][i - 1] == c[i];
        }
      }
    }
  }

  /**
   * Where the cart page does not raise, its subtotal is the subtotal the checkout
   * page of orders/views.py computes from the same cart.
   */
  lemma {:induction false} StoreSubtotalIsCheckoutSubtotal(c: Cart, products: map<ProductId, Product>)
    requires StoreLines(c, products).Some?
    ensures LineSum(StoreLines(c, products).value) == SumTotals(OrderLines(c, products))
  {
    if c != [] {
      StoreSubtotalIsCheckoutSubtotal(c[1..], products);
      OrderLinesStep(c, products);
      if IsLive(products, c[0].0) {
        var rest := StoreLines(c[1..], products).value;
        var line := StoreLines(c, products).value;
        assert line[1..] == rest;
        var ol := [LineOf(c[0], products)] + OrderLines(c[1..], products);
        assert ol[1..] == OrderLines(c[1..], products);
      }
    }
  }

  /** The page: its rows, the subtotal, `session['cart_discount']` and the difference. */
  datatype CartView = CartView(items: seq<StoreLine>, subtotal: real, discount: real, total: real)

  lemma StoreLinesStep(c: Cart, products: map<ProductId, Product>)
    requires c != []
    ensures !IsLive(products, c[0].0) ==> StoreLines(c, products) == StoreLines(c[1..], products)
    ensures IsLive(products, c[0].0) && (c[0].1.Snapshot? || StoreLines(c[1..], products).None?) ==>
      StoreLines(c, products).None?
    ensures IsLive(products, c[0].0) && c[0].1.Quantity? && StoreLines(c[1..], products).Some? ==>
      StoreLines(c, products) == Some([StoreRow(c[0].0, products[c[0].0], c[0].1.count)] + StoreLines(c[1..], products).value)
  {
  }

  function StoreRow(pid: ProductId, p: Product, n: int): StoreLine {
    StoreLine(pid, p, n, p.price * n as real)
  }

  /** The `for product_id, qty in cart_data.items()` loop. */
  method CollectStoreLines(c: Cart, products: map<ProductId, Product>) returns (r: Option<(seq<StoreLine>, real)>)
    ensures r.None? <==> StoreLines(c, products).None?
    ensures r.Some? ==> r.value.0 == StoreLines(c, products).value && r.value.1 == LineSum(r.value.0)
  {
    var items: seq<StoreLine> := [];
    var subtotal := 0.0;
    var i := 0;
    assert c[0..] == c;
    assert StoreLines(c, products).Some? ==> items + StoreLines(c, products).value == StoreLines(c, products).value;
    while i < |c|
      invariant 0 <= i <= |c|
      invariant var rest := StoreLines(c[i..], products);
        StoreLines(c, products) == if rest.None? then None else Some(items + rest.value)
      invariant subtotal == LineSum(items)
    {
      StoreLinesStep(c[i..], products);
      assert c[i..][1..] == c[i + 1..] && c[i..][0] == c[i];
      var (pid, line) := c[i];
      ghost var rest := StoreLines(c[i + 1..], products);
      if IsLive(products, pid) {
        if line.Snapshot? {
          return None;
        }
        var p := products[pid];
        var row := StoreRow(pid, p, line.count);
        LineSumAppend(items, row);
        if rest.Some? {
          assert items + ([row] + rest.value) == (items + [row]) + rest.value;
        }
        items := items + [row];
        subtotal := subtotal + row.lineTotal;
      }
      i := i + 1;
    }
    assert c[|c|..] == [];
    assert items + [] == items;
    r := Some((items, subtotal));
  }

  lemma {:induction false} LineSumAppend(lines: seq<StoreLine>, l: StoreLine)
    ensures LineSum(lines + [l]) == LineSum(lines) + l.lineTotal
  {
    if lines != [] {
      assert (lines + [l])[1..] == lines[1..] + [l];
      LineSumAppend(lines[1..], l);
    }
  }

  /** `cart`: `None` where the page raises; the discount is not capped by the subtotal. */
  method CartPage(s: Session, products: map<ProductId, Product>) returns (page: Option<CartView>)
    ensures page.None? <==> StoreLines(s.cart, products).None?
    ensures page.Some? ==>
      && page.value.items == StoreLines(s.cart, products).value
      && page.value.subtotal == SumTotals(OrderLines(s.cart, products))
      && page.value.discount == s.cartDiscount
      && page.value.total == page.value.subtotal - s.cartDiscount
  {
    var r := CollectStoreLines(s.cart, products);
    if r.None? {
      return None;
    }
    StoreSubtotalIsCheckoutSubtotal(s.cart, products);
    page := Some(CartView(r.value.0, r.value.1, s.cartDiscount, r.value.1 - s.cartDiscount));
  }

  const Save10Code := "SAVE10"
  const Save10Discount: real := 10.0

  /**
   * `apply_coupon` of the quantity cart: a POST whose stripped, upper-cased code is
   * `SAVE10` sets the cart discount to 10; anything else leaves it.
   */
  function DiscountAfter(current: real, isPost: bool, raw: Option<string>): (d: real)
    ensures isPost && Upper(Strip(raw.GetOr(""))) == Save10Code ==> d == Save10Discount
    ensures !(isPost && Upper(Strip(raw.GetOr(""))) == Save10Code) ==> d == current
  {
    if isPost && Upper(Strip(raw.GetOr(""))) == Save10Code then Save10Discount else current
  }

  /** The match ignores surrounding white space and case. */
  lemma Save10Matches()
    ensures DiscountAfter(0.0, true, Some("save10")) == Save10Discount
  {
    assert Strip("save10") == "save10";
    assert Upper("save10") == Save10Code by {
      assert forall k :: 0 <= k < 6 ==> Upper("save10")[k] == Save10Code[k];
    }
  }

  /** `apply_coupon`: only the cart discount may change. */
  method ApplySave10(s: Session, isPost: bool, raw: Option<string>)
    requires s.Valid()
    modifies s
    ensures s.Valid()
    ensures s.cartDiscount == DiscountAfter(old(s.cartDiscount), isPost, raw)
    ensures s.cart == old(s.cart) && s.appliedCoupon == old(s.appliedCoupon)
    ensures s.pendingOrderId == old(s.pendingOrderId)
  {
    s.cartDiscount := DiscountAfter(s.cartDiscount, isPost, raw);
  }
}

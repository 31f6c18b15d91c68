/**
 * store/bootstrap_views.py: the cart whose lines are dictionaries
 * `{qty, price, name}` snapshotted when a product is first added. Adding, updating
 * and removing lines, the cart page (products that no longer exist are skipped) and
 * the checkout placeholder that only empties the cart.
 */
module BootstrapViews {
  import opened Wrappers
  import opened Ids
  import opened Carts
  import opened Catalog
  import opened Sessions

  /** `item["qty"]`: a bare-quantity line is not subscriptable, and a missing key raises. */
  function QtyOf(line: CartLine): Option<int> {
    if line.Snapshot? then line.qty else None
  }

  /** `sum(item["qty"] for item in cart.values())`, or `None` where a line raises. */
  function QtyCount(c: Cart): Option<int> {
    if c == [] then Some(0)
    else
      var q, rest := QtyOf(c[0].1), QtyCount(c[1..]);
      if q.None? || rest.None? then None else Some(q.value + rest.value)
  }

  /** Writing one line replaces its quantity in the count; `cart[k] = v` keeps the key's place. */
  lemma {:induction false} QtyCountPut(c: Cart, k: ProductId, line: CartLine)
    requires QtyCount(c).Some? && QtyOf(line).Some?
    requires Lookup(c, k).Some? ==> QtyOf(Lookup(c, k).value).Some?
    ensures QtyCount(Put(c, k, line)).Some?
    ensures QtyCount(Put(c, k, line)).value ==
      QtyCount(c).value - (if Lookup(c, k).Some? then QtyOf(Lookup(c, k).value).value else 0) + QtyOf(line).value
  {
    if c != [] && c[0].0 != k {
      QtyCountPut(c[1..], k, line);
      assert Put(c, k, line)[1..] == Put(c[1..], k, line);
    } else if c != [] {
      assert Put(c, k, line)[1..] == c[1..];
    }
  }

  /**
   * `add_to_cart`'s dictionary update: a new key gets `{qty, price, name}` from the
   * product; a present key has `qty` increased. A bare-quantity line, or one without
   * `qty`, raises (`None`).
   */
  function SnapshotAdd(c: Cart, pid: ProductId, p: Product, q: int): Option<Cart> {
    var line := AddedLine(Lookup(c, pid), p, q);
    if line.None? then None else Some(Put(c, pid, line.value))
  }

  /** The line `add_to_cart` writes for the key's current line, if any. */
  function AddedLine(found: Option<CartLine>, p: Product, q: int): (r: Option<CartLine>)
    ensures r.Some? <==> found.None? || QtyOf(found.value).Some?
    ensures r.Some? ==> QtyOf(r.value) == Some((if found.Some? then QtyOf(found.value).value else 0) + q)
  {
    match found
    case None => Some(Snapshot(Some(q), Some(p.price), Some(p.name), None))
    case Some(Quantity(_)) => None
    case Some(Snapshot(n, price, name, seller)) =>
      if n.None? then None else Some(Snapshot(Some(n.value + q), price, name, seller))
  }

  /**
   * The line after adding: a first add snapshots the product's price and name; a
   * later add raises the quantity and leaves the snapshot, so a price change in the
   * catalogue does not reach the cart.
   */
  lemma SnapshotAddLine(c: Cart, pid: ProductId, p: Product, q: int)
    ensures SnapshotAdd(c, pid, p, q).None? <==>
      Lookup(c, pid).Some? && QtyOf(Lookup(c, pid).value).None?
    ensures Lookup(c, pid).None? ==>
      Lookup(SnapshotAdd(c, pid, p, q).value, pid) == Some(Snapshot(Some(q), Some(p.price), Some(p.name), None))
    ensures Lookup(c, pid).Some? && QtyOf(Lookup(c, pid).value).Some? ==>
      var old_ := Lookup(c, pid).value;
      Lookup(SnapshotAdd(c, pid, p, q).value, pid) == Some(old_.(qty := Some(old_.qty.value + q)))
    ensures SnapshotAdd(c, pid, p, q).Some? ==>
      forall j :: j != pid ==> Lookup(SnapshotAdd(c, pid, p, q).value, j) == Lookup(c, j)
    ensures SnapshotAdd(c, pid, p, q).Some? && Keyed(c) ==> Keyed(SnapshotAdd(c, pid, p, q).value)
  {
  }

  /** With a countable cart, adding `q` raises the count by exactly `q`. */
  lemma AddRaisesCount(c: Cart, pid: ProductId, p: Product, q: int)
    requires QtyCount(c).Some? && SnapshotAdd(c, pid, p, q).Some?
    ensures QtyCount(SnapshotAdd(c, pid, p, q).value) == Some(QtyCount(c).value + q)
  {
    var line := AddedLine(Lookup(c, pid), p, q);
    QtyCountPut(c, pid, line.value);
  }

  datatype AddOutcome = AddNotAllowed | AddNotFound | AddCrashed | AddedCount(count: int) | AddedRedirect

  /**
   * `add_to_cart` (POST only). The product must exist, active or not. An XMLHttpRequest
   * answers the new count; computing it raises if a line has no quantity, and a
   * request that raises saves nothing.
   */
  method AddToCart(s: Session, products: map<ProductId, Product>, pid: ProductId, isPost: bool,
                   qty: Option<int>, xhr: bool) returns (out: AddOutcome)
    requires s.Valid()
    modifies s
    ensures s.Valid()
    ensures out == AddNotAllowed <==> !isPost
    ensures out == AddNotFound <==> isPost && pid !in products
    ensures var r := if pid in products then SnapshotAdd(old(s.cart), pid, products[pid], qty.GetOr(1)) else None;
      && (out.AddedCount? || out == AddedRedirect ==> r.Some? && s.cart == r.value)
      && (out.AddedCount? ==> xhr && QtyCount(r.value) == Some(out.count))
      && (out == AddedRedirect <==> isPost && r.Some? && !xhr)
      && (out == AddCrashed <==> isPost && pid in products && (r.None? || (xhr && QtyCount(r.value).None?)))
    ensures !(out.AddedCount? || out == AddedRedirect) ==> s.cart == old(s.cart)
    ensures s.appliedCoupon == old(s.appliedCoupon) && s.cartDiscount == old(s.cartDiscount)
    ensures s.pendingOrderId == old(s.pendingOrderId)
  {
    if !isPost {
      return AddNotAllowed;
    }
    if pid !in products {
      return AddNotFound;
    }
    var r := SnapshotAdd(s.cart, pid, products[pid], qty.GetOr(1));
    SnapshotAddLine(s.cart, pid, products[pid], qty.GetOr(1));
    if r.None? {
      return AddCrashed;
    }
    if xhr {
      var count := QtyCount(r.value);
      if count.None? {
        return AddCrashed;
      }
      s.cart := r.value;
      out := AddedCount(count.value);
    } else {
      s.cart := r.value;
      out := AddedRedirect;
    }
  }

  /**
   * `update_cart`'s change to a present key: the quantity is clamped at 0, 0 removes
   * the line, and otherwise `qty` is set on the dictionary, which raises for a bare
   * quantity (`None`). An absent key leaves the cart.
   */
  function UpdatedCart(c: Cart, pid: ProductId, q: int): (r: Option<Cart>)
    ensures Lookup(c, pid).None? ==> r == Some(c)
    ensures r.None? <==> Lookup(c, pid).Some? && q > 0 && Lookup(c, pid).value.Quantity?
    ensures r.Some? && Lookup(c, pid).Some? ==>
      Lookup(r.value, pid) == if q <= 0 then None else Some(Lookup(c, pid).value.(qty := Some(q)))
    ensures r.Some? ==> forall j :: j != pid ==> Lookup(r.value, j) == Lookup(c, j)
    ensures r.Some? ==> Keyed(c) ==> Keyed(r.value)
  {
    var qty := if q < 0 then 0 else q;
    match Lookup(c, pid)
    case None => Some(c)
    case Some(line) =>
      if qty == 0 then Some(Pop(c, pid))
      else if line.Quantity? then None
      else Some(Put(c, pid, line.(qty := Some(qty))))
  }

  /**
   * What `update_cart` answers: 405 from `@require_POST`, a 500 from the `TypeError`
   * of a bare-quantity line, or the redirect to the cart page.
   */
  datatype UpdateOutcome = UpdateNotAllowed | UpdateCrashed | Updated

  /** `update_cart` (POST only); `qty` is the posted value, default 1. */
  method UpdateCart(s: Session, pid: ProductId, isPost: bool, qty: Option<int>) returns (out: UpdateOutcome)
    requires s.Valid()
    modifies s
    ensures s.Valid()
    ensures out.UpdateNotAllowed? <==> !isPost
    ensures out.UpdateCrashed? <==> isPost && UpdatedCart(old(s.cart), pid, qty.GetOr(1)).None?
    ensures out.Updated? <==> isPost && UpdatedCart(old(s.cart), pid, qty.GetOr(1)).Some?
    ensures s.cart == if out.Updated? then UpdatedCart(old(s.cart), pid, qty.GetOr(1)).value else old(s.cart)
    ensures s.appliedCoupon == old(s.appliedCoupon) && s.cartDiscount == old(s.cartDiscount)
    ensures s.pendingOrderId == old(s.pendingOrderId)
  {
    if !isPost {
      return UpdateNotAllowed;
    }
    var r := UpdatedCart(s.cart, pid, qty.GetOr(1));
    if r.None? {
      return UpdateCrashed;
    }
    s.cart := r.value;
    out := Updated;
  }

  /** `remove_from_cart`, for any method. */
  method RemoveFromCart(s: Session, pid: ProductId)
    requires s.Valid()
    modifies s
    ensures s.Valid()
    ensures s.cart == Pop(old(s.cart), pid)
    ensures s.appliedCoupon == old(s.appliedCoupon) && s.cartDiscount == old(s.cartDiscount)
    ensures s.pendingOrderId == old(s.pendingOrderId)
  {
    s.cart := Pop(s.cart, pid);
  }

  /** `Decimal(info["price"])` and `int(info["qty"])`; either subscript may raise. */
  function PriceAndQty(line: CartLine): Option<(real, int)> {
    if line.Snapshot? && line.price.Some? && line.qty.Some? then Some((line.price.value, line.qty.value)) else None
  }

  /** One row of the cart page: the product, the quantity, the snapshot price and their product. */
  datatype BootLine = BootLine(pid: ProductId, product: Product, qty: int, price: real, lineTotal: real)

  function BootRow(pid: ProductId, p: Product, pq: (real, int)): BootLine {
    BootLine(pid, p, pq.1, pq.0, pq.0 * pq.1 as real)
  }

  /**
   * The rows of `cart_view`: a line whose product no longer exists is skipped before
   * its fields are read; a line of an existing product without price and quantity raises.
   */
  function BootLines(c: Cart, products: map<ProductId, Product>): Option<seq<BootLine>> {
    if c == [] then Some([])
    else
      var rest := BootLines(c[1..], products);
      if c[0].0 !in products then rest
      else
        var pq := PriceAndQty(c[0].1);
        if pq.None? || rest.None? then None else Some([BootRow(c[0].0, products[c[0].0], pq.value)] + rest.value)
  }

  function BootSum(lines: seq<BootLine>): real {
    if lines == [] then 0.0 else lines[0].lineTotal + BootSum(lines[1..])
  }

  lemma {:induction false} BootSumAppend(lines: seq<BootLine>, l: BootLine)
    ensures BootSum(lines + [l]) == BootSum(lines) + l.lineTotal
  {
    if lines != [] {
      assert (lines + [l])[1..] == lines[1..] + [l];
      BootSumAppend(lines[1..], l);
    }
  }

  lemma BootLinesStep(c: Cart, products: map<ProductId, Product>)
    requires c != []
    ensures c[0].0 !in products ==> BootLines(c, products) == BootLines(c[1..], products)
    ensures c[0].0 in products && (PriceAndQty(c[0].1).None? || BootLines(c[1..], products).None?) ==>
      BootLines(c, products).None?
    ensures c[0].0 in products && PriceAndQty(c[0].1).Some? && BootLines(c[1..], products).Some? ==>
      BootLines(c, products) ==
        Some([BootRow(c[0].0, products[c[0].0], PriceAndQty(c[0].1).value)] + BootLines(c[1..], products).value)
  {
  }

  /** The `for pid, info in cart.items()` loop of `cart_view`. */
  method CartView(s: Session, products: map<ProductId, Product>) returns (page: Option<(seq<BootLine>, real)>)
    ensures page.None? <==> BootLines(s.cart, products).None?
    ensures page.Some? ==> page.value.0 == BootLines(s.cart, products).value && page.value.1 == BootSum(page.value.0)
  {
    var c := s.cart;
    var items: seq<BootLine> := [];
    var total := 0.0;
    var i := 0;
    assert c[0..] == c;
    assert BootLines(c, products).Some? ==> items + BootLines(c, products).value == BootLines(c, products).value;
    while i < |c|
      invariant 0 <= i <= |c|
      invariant var rest := BootLines(c[i..], products);
        BootLines(c, products) == if rest.None? then None else Some(items + rest.value)
      invariant total == BootSum(items)
    {
      BootLinesStep(c[i..], products);
      assert c[i..][1..] == c[i + 1..] && c[i..][0] == c[i];
      var (pid, info) := c[i];
      ghost var rest := BootLines(c[i + 1..], products);
      if pid in products {
        var pq := PriceAndQty(info);
        if pq.None? {
          return None;
        }
        var row := BootRow(pid, products[pid], pq.value);
        BootSumAppend(items, row);
        if rest.Some? {
          assert items + ([row] + rest.value) == (items + [row]) + rest.value;
        }
        items := items + [row];
        total := total + row.lineTotal;
      }
      i := i + 1;
    }
    assert c[|c|..] == [];
    assert items + [] == items;
    page := Some((items, total));
  }

  /** `sum(Decimal(item["price"]) * int(item["qty"]) for item in cart.values())`, over every line. */
  function CheckoutTotal(c: Cart): Option<real> {
    if c == [] then Some(0.0)
    else
      var pq, rest := PriceAndQty(c[0].1), CheckoutTotal(c[1..]);
      if pq.None? || rest.None? then None else Some(pq.value.0 * pq.value.1 as real + rest.value)
  }

  /**
   * While every product in the cart still exists, the checkout page shows the cart
   * page's total, and one raises exactly when the other does.
   */
  lemma {:induction false} CheckoutTotalIsCartTotal(c: Cart, products: map<ProductId, Product>)
    requires forall i :: 0 <= i < |c| ==> c[i].0 in products
    ensures CheckoutTotal(c).None? <==> BootLines(c, products).None?
    ensures CheckoutTotal(c).Some? ==> CheckoutTotal(c).value == BootSum(BootLines(c, products).value)
  {
    if c != [] {
      assert forall i :: 0 <= i < |c[1..]| ==> c[1..][i] == c[i + 1];
      CheckoutTotalIsCartTotal(c[1..], products);
      BootLinesStep(c, products);
      if BootLines(c, products).Some? {
        var lines := BootLines(c, products).value;
        assert lines[1..] == BootLines(c[1..], products).value;
      }
    }
  }

  datatype CheckoutOutcome = CheckoutEmpty | CheckoutPlaced | CheckoutShown(total: real) | CheckoutCrashed

  /**
   * `checkout_view`: an empty cart redirects home; a POST empties the cart and
   * records no order; otherwise the page shows the total.
   */
  method CheckoutView(s: Session, isPost: bool) returns (out: CheckoutOutcome)
    requires s.Valid()
    modifies s
    ensures s.Valid()
    ensures out == CheckoutEmpty <==> old(s.cart) == []
    ensures out == CheckoutPlaced <==> old(s.cart) != [] && isPost
    ensures s.cart == if out == CheckoutPlaced then [] else old(s.cart)
    ensures out.CheckoutShown? ==> CheckoutTotal(old(s.cart)) == Some(out.total)
    ensures out == CheckoutCrashed <==> old(s.cart) != [] && !isPost && CheckoutTotal(old(s.cart)).None?
    ensures s.appliedCoupon == old(s.appliedCoupon) && s.cartDiscount == old(s.cartDiscount)
    ensures s.pendingOrderId == old(s.pendingOrderId)
  {
    if s.cart == [] {
      return CheckoutEmpty;
    }
    if isPost {
      s.cart := [];
      return CheckoutPlaced;
    }
    var t := CheckoutTotal(s.cart);
    if t.None? {
      return CheckoutCrashed;
    }
    out := CheckoutShown(t.value);
  }
}

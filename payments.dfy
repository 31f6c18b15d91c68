/**
 * payments/views.py: reading the cart for Stripe, pricing a checkout session, the
 * webhook that marks a payment paid and splits each item into seller amount and
 * platform fee, and the seller's payout request.
 */
module PaymentViews {
  import opened Wrappers
  import opened Ids
  import opened Money
  import opened Text
  import opened Carts
  import opened Sessions
  import opened Ledger

  /** One entry of `_get_cart_items_from_session`. */
  datatype CartItem = CartItem(id: ProductId, name: string, price: real, quantity: int, sellerId: Option<UserId>)

  /**
   * The item a cart line becomes, with defaults for missing keys. A bare-quantity line
   * has no `.get`, so the view raises there: `None`.
   */
  function ItemOf(pid: ProductId, line: CartLine): (r: Option<CartItem>)
    ensures r.Some? <==> line.Snapshot?
    ensures r.Some? ==> r.value.id == pid && r.value.sellerId == line.sellerId
    ensures r.Some? && line.name.None? ==> r.value.name == "Product " + NatToString(pid)
    ensures r.Some? && line.price.None? ==> r.value.price == 0.0
    ensures r.Some? && line.qty.None? ==> r.value.quantity == 1
  {
    match line
    case Quantity(_) => None
    case Snapshot(qty, price, name, seller) =>
      Some(CartItem(pid, name.GetOr("Product " + NatToString(pid)), price.GetOr(0.0), qty.GetOr(1), seller))
  }

  predicate AllSnapshots(c: Cart) { forall i :: 0 <= i < |c| ==> c[i].1.Snapshot? }

  /** `_get_cart_items_from_session`, or `None` when it raises. */
  function SessionItems(c: Cart): Option<seq<CartItem>> {
    if c == [] then Some([])
    else
      var head := ItemOf(c[0].0, c[0].1);
      var rest := SessionItems(c[1..]);
      if head.None? || rest.None? then None else Some([head.value] + rest.value)
  }

  /** The view yields one item per cart entry, in cart order, and fails exactly on a bare-quantity line. */
  lemma {:induction false} SessionItemsShape(c: Cart)
    ensures SessionItems(c).Some? <==> AllSnapshots(c)
    ensures SessionItems(c).Some? ==>
      |SessionItems(c).value| == |c|
      && forall i :: 0 <= i < |c| ==> Some(SessionItems(c).value[i]) == ItemOf(c[i].0, c[i].1)
  {
    if c != [] {
      SessionItemsShape(c[1..]);
      assert forall i :: 1 <= i < |c| ==> c[i] == c[1..][i - 1];
      if !c[0].1.Snapshot? {
        assert !AllSnapshots(c);
      }
    }
  }

  /** The loop of `_get_cart_items_from_session`. */
  method GetCartItemsFromSession(c: Cart) returns (r: Option<seq<CartItem>>)
    ensures r == SessionItems(c)
  {
    var items: seq<CartItem> := [];
    var i := 0;
    while i < |c|
      invariant 0 <= i <= |c|
      invariant SessionItems(c).Some? <==> SessionItems(c[i..]).Some?
      invariant SessionItems(c).Some? ==> SessionItems(c).value == items + SessionItems(c[i..]).value
    {
      assert c[i..][1..] == c[i + 1..];
      var item := ItemOf(c[i].0, c[i].1);
      if item.None? {
        assert c[i..][0] == c[i];
        return None;
      }
      var rest := SessionItems(c[i + 1..]);
      if rest.Some? {
        assert items + ([item.value] + rest.value) == (items + [item.value]) + rest.value;
      }
      items := items + [item.value];
      i := i + 1;
    }
    assert c[|c|..] == [];
    assert SessionItems(c[|c|..]) == Some([]);
    assert items + [] == items;
    r := Some(items);
  }

  /** `int((price * 100).quantize(Decimal("1")))`: the price in cents, rounded half to even. */
  function UnitAmount(price: real): (n: int)
    ensures -0.5 <= price * 100.0 - n as real <= 0.5
  {
    RoundHalfEven(price * 100.0)
  }

  /** A whole-cent price is charged exactly. */
  lemma UnitAmountOfCents(price: real)
    requires IsCents(price)
    ensures UnitAmount(price) as real == price * 100.0
  {
    var k := (price * 100.0).Floor;
    RoundIntegral(k);
  }

  datatype LineItem = LineItem(name: string, unitAmount: int, quantity: int)

  function LineItemOf(it: CartItem): LineItem {
    LineItem(it.name, UnitAmount(it.price), it.quantity)
  }

  /** `price * quantity` of one item. */
  function ItemAmount(it: CartItem): real { it.price * it.quantity as real }

  /** `amount_total`: the exact sum of price × quantity, not of the rounded unit amounts. */
  function AmountTotal(items: seq<CartItem>): real {
    if items == [] then 0.0 else ItemAmount(items[0]) + AmountTotal(items[1..])
  }

  /** The pricing loop of `create_checkout_session`. */
  method PriceItems(items: seq<CartItem>) returns (lineItems: seq<LineItem>, total: real)
    ensures |lineItems| == |items| && forall i :: 0 <= i < |items| ==> lineItems[i] == LineItemOf(items[i])
    ensures total == AmountTotal(items)
  {
    lineItems, total := [], 0.0;
    var i := 0;
    while i < |items|
      invariant 0 <= i <= |items|
      invariant |lineItems| == i && forall j :: 0 <= j < i ==> lineItems[j] == LineItemOf(items[j])
      invariant total + AmountTotal(items[i..]) == AmountTotal(items)
    {
      assert items[i..][1..] == items[i + 1..];
      assert AmountTotal(items[i..]) == ItemAmount(items[i]) + AmountTotal(items[i + 1..]);
      lineItems := lineItems + [LineItemOf(items[i])];
      total := total + ItemAmount(items[i]);
      i := i + 1;
    }
    assert items[|items|..] == [];
  }

  datatype CheckoutOutcome =
    | PostRequired
    | CartIsEmpty
    | ItemsCrashed
    | SessionCreated(sessionId: string, lineItems: seq<LineItem>, amount: real, metadata: seq<CartItem>)

  /**
   * `checkout_success`: the session cart is emptied, so a later checkout session finds
   * no items; nothing else in the session changes.
   */
  method CheckoutSuccess(s: Session)
    modifies s
    ensures s.Valid() && s.cart == [] && SessionItems(s.cart) == Some([])
    ensures s.appliedCoupon == old(s.appliedCoupon) && s.cartDiscount == old(s.cartDiscount)
    ensures s.pendingOrderId == old(s.pendingOrderId)
  {
    s.cart := [];
  }

  /**
   * `create_checkout_session`. The Stripe call is outside the model: `sessionId` is the
   * id Stripe returns, distinct from every recorded one since the column is unique.
   */
  method CreateCheckoutSession(db: LedgerDb, s: Session, isPost: bool, sessionId: string) returns (o: CheckoutOutcome)
    requires db.Valid() && sessionId !in db.payments
    modifies db
    ensures db.Valid()
    ensures !isPost ==> o == PostRequired
    ensures isPost && SessionItems(s.cart) == None ==> o == ItemsCrashed
    ensures isPost && SessionItems(s.cart) == Some([]) ==> o == CartIsEmpty
    ensures o.SessionCreated? <==> isPost && SessionItems(s.cart).Some? && SessionItems(s.cart).value != []
    ensures !o.SessionCreated? ==> unchanged(db)
    ensures o.SessionCreated? ==>
      var items := SessionItems(s.cart).value;
      && o.sessionId == sessionId && o.metadata == items && o.amount == AmountTotal(items)
      && |o.lineItems| == |items| && (forall i :: 0 <= i < |items| ==> o.lineItems[i] == LineItemOf(items[i]))
      && db.payments == old(db.payments)[sessionId := Payment(PendingRef, sessionId, o.amount, "usd", Created)]
      && db.wallets == old(db.wallets) && db.earnings == old(db.earnings) && db.payouts == old(db.payouts)
  {
    if !isPost {
      return PostRequired;
    }
    var items := GetCartItemsFromSession(s.cart);
    if items.None? {
      return ItemsCrashed;
    }
    if items.value == [] {
      return CartIsEmpty;
    }
    var lineItems, total := PriceItems(items.value);
    db.payments := db.payments[sessionId := Payment(PendingRef, sessionId, total, "usd", Created)];
    o := SessionCreated(sessionId, lineItems, total, items.value);
  }

  /**
   * The split of one webhook item: the gross is quantized to cents, the fee is the
   * quantized share of the gross, the seller amount the quantized rest.
   */
  datatype Split = Split(gross: real, fee: real, seller: real)

  function SplitOf(price: real, quantity: real, feeRate: real): (r: Split)
    ensures IsCents(r.gross) && IsCents(r.fee) && IsCents(r.seller)
    ensures -0.005 <= price * quantity - r.gross <= 0.005
    ensures -0.005 <= r.gross * feeRate - r.fee <= 0.005
  {
    var gross := Cents(price * quantity);
    var fee := Cents(gross * feeRate);
    Split(gross, fee, Cents(gross - fee))
  }

  /** The quantized split loses nothing: seller amount + fee is exactly the gross. */
  lemma SplitExact(price: real, quantity: real, feeRate: real)
    ensures SplitOf(price, quantity, feeRate).seller + SplitOf(price, quantity, feeRate).fee
         == SplitOf(price, quantity, feeRate).gross
  {
    var r := SplitOf(price, quantity, feeRate);
    CentsClosed(r.gross, r.fee);
    CentsOfCents(r.gross - r.fee);
  }

  /** `if seller_id:` — a missing id, and id 0, are falsy. */
  predicate Credited(it: CartItem) { it.sellerId.Some? && it.sellerId.value != 0 }

  function WebhookEarning(it: CartItem, order: OrderRef, feeRate: real): Earning
    requires Credited(it)
  {
    var sp := SplitOf(it.price, it.quantity as real, feeRate);
    Earning(it.sellerId.value, order, it.id, sp.seller, sp.fee)
  }

  /** The Earning rows the webhook writes, one per credited item, in metadata order. */
  function WebhookEarnings(items: seq<CartItem>, order: OrderRef, feeRate: real): (r: seq<Earning>)
    ensures |r| <= |items|
  {
    if items == [] then []
    else
      var rest := WebhookEarnings(items[1..], order, feeRate);
      if Credited(items[0]) then [WebhookEarning(items[0], order, feeRate)] + rest else rest
  }

  /**
   * Exactly the credited items give rows: each one's row, with its seller, order, item id
   * and split, is written, and every row written is such an item's.
   */
  lemma {:induction false} WebhookEarningsRows(items: seq<CartItem>, order: OrderRef, feeRate: real)
    ensures forall j :: 0 <= j < |items| && Credited(items[j]) ==>
      WebhookEarning(items[j], order, feeRate) in WebhookEarnings(items, order, feeRate)
    ensures forall e :: e in WebhookEarnings(items, order, feeRate) ==>
      exists j :: 0 <= j < |items| && Credited(items[j]) && e == WebhookEarning(items[j], order, feeRate)
  {
    if items != [] {
      WebhookEarningsRows(items[1..], order, feeRate);
      assert forall j :: 1 <= j < |items| ==> items[j] == items[1..][j - 1];
    }
  }

  /** The rows follow the items' order: two runs of items give their two runs of rows, one after the other. */
  lemma {:induction false} WebhookEarningsAppend(a: seq<CartItem>, b: seq<CartItem>, order: OrderRef, feeRate: real)
    ensures WebhookEarnings(a + b, order, feeRate) == WebhookEarnings(a, order, feeRate) + WebhookEarnings(b, order, feeRate)
  {
    if a == [] {
      assert a + b == b;
    } else {
      assert (a + b)[0] == a[0] && (a + b)[1..] == a[1..] + b;
      WebhookEarningsAppend(a[1..], b, order, feeRate);
    }
  }

  /** Every webhook row's amount and fee are whole cents and add up to the item's quantized gross. */
  lemma {:induction false} WebhookEarningsCents(items: seq<CartItem>, order: OrderRef, feeRate: real)
    ensures forall e :: e in WebhookEarnings(items, order, feeRate) ==> IsCents(e.amount) && IsCents(e.platformFee)
  {
    if items != [] {
      WebhookEarningsCents(items[1..], order, feeRate);
    }
  }

  /** The webhook's wallet updates, each re-quantizing both sums. */
  function CentsCreditAll(wallets: map<UserId, Wallet>, es: seq<Earning>): (r: map<UserId, Wallet>)
    ensures wallets.Keys <= r.Keys
    decreases es
  {
    if es == [] then wallets
    else
      var s := es[0].seller;
      CentsCreditAll(wallets[s := CentsCredit(WalletOf(wallets, s), es[0].amount)], es[1..])
  }

  /** On cents-valued wallets and cents amounts the webhook's credits keep every wallet balanced and cents-valued. */
  lemma {:induction false} CentsCreditAllBalanced(wallets: map<UserId, Wallet>, es: seq<Earning>)
    requires AllBalanced(wallets) && AllCents(wallets)
    requires forall e :: e in es ==> IsCents(e.amount)
    ensures AllBalanced(CentsCreditAll(wallets, es)) && AllCents(CentsCreditAll(wallets, es))
    decreases es
  {
    if es != [] {
      var s := es[0].seller;
      var w := WalletOf(wallets, s);
      assert es[0] in es;
      CentsCreditExact(w, es[0].amount);
      var w' := CentsCredit(w, es[0].amount);
      PutBalanced(wallets, s, w');
      PutCents(wallets, s, w');
      assert forall e :: e in es[1..] ==> e in es;
      CentsCreditAllBalanced(wallets[s := w'], es[1..]);
    }
  }

  /** The payment's order reference after the webhook: a minimal order replaces "pending". */
  function WebhookOrder(current: OrderRef, minimalOrder: Option<OrderId>): (r: OrderRef)
    ensures current.OrderPk? ==> r == current
    ensures current == PendingRef && minimalOrder.None? ==> r == PendingRef
    ensures current == PendingRef && minimalOrder.Some? ==> r == OrderPk(minimalOrder.value)
  {
    if minimalOrder.Some? && current == PendingRef then OrderPk(minimalOrder.value) else current
  }

  const CompletedEvent := "checkout.session.completed"

  /**
   * `stripe_webhook`. Signature verification is the boolean `signatureOk`; the event's
   * session id and metadata cart are inputs; `minimalOrder` is the primary key of the
   * minimal order created when the order model is importable and the payment still
   * says "pending"; `feePercent` is the PLATFORM_FEE_PERCENT setting (10 by default).
   */
  method StripeWebhook(db: LedgerDb, signatureOk: bool, eventType: string, sessionId: string,
                       cartItems: seq<CartItem>, minimalOrder: Option<OrderId>, feePercent: real)
    returns (status: int)
    requires db.Valid()
    modifies db
    ensures status == if signatureOk then 200 else 400
    ensures !signatureOk || eventType != CompletedEvent || sessionId !in old(db.payments) ==> unchanged(db)
    ensures signatureOk && eventType == CompletedEvent && sessionId in old(db.payments) ==>
      var p := old(db.payments)[sessionId];
      var order := WebhookOrder(p.order, minimalOrder);
      var es := WebhookEarnings(cartItems, order, feePercent / 100.0);
      && db.payments == old(db.payments)[sessionId := p.(status := PaymentPaid, order := order)]
      && db.earnings == old(db.earnings) + es
      && db.wallets == CentsCreditAll(old(db.wallets), es)
      && db.payouts == old(db.payouts)
    ensures AllCents(old(db.wallets)) ==> db.Valid() && AllCents(db.wallets)
  {
    if !signatureOk {
      return 400;
    }
    if eventType != CompletedEvent || sessionId !in db.payments {
      return 200;
    }
    var p := db.payments[sessionId];
    var order := WebhookOrder(p.order, minimalOrder);
    db.payments := db.payments[sessionId := p.(status := PaymentPaid, order := order)];
    var feeRate := feePercent / 100.0;
    WebhookEarningsCents(cartItems, order, feeRate);
    if AllCents(db.wallets) {
      CentsCreditAllBalanced(db.wallets, WebhookEarnings(cartItems, order, feeRate));
    }
    CreditWebhookItems(db, cartItems, order, feeRate);
    status := 200;
  }

  /** Step `i` of the webhook loop: the i-th item's row and credit, if it names a seller. */
  method CreditWebhookStep(db: LedgerDb, items: seq<CartItem>, i: nat, order: OrderRef, feeRate: real,
                           ghost es: seq<Earning>, ghost ws: map<UserId, Wallet>)
    requires i < |items|
    requires db.earnings + WebhookEarnings(items[i..], order, feeRate) == es
    requires CentsCreditAll(db.wallets, WebhookEarnings(items[i..], order, feeRate)) == ws
    modifies db
    ensures db.earnings + WebhookEarnings(items[i + 1..], order, feeRate) == es
    ensures CentsCreditAll(db.wallets, WebhookEarnings(items[i + 1..], order, feeRate)) == ws
    ensures db.payments == old(db.payments) && db.payouts == old(db.payouts)
  {
    assert items[i..][1..] == items[i + 1..];
    ghost var rest := WebhookEarnings(items[i + 1..], order, feeRate);
    if items[i].sellerId.Some? && items[i].sellerId.value != 0 {
      var e := WebhookEarning(items[i], order, feeRate);
      assert ([e] + rest)[1..] == rest;
      assert db.earnings + ([e] + rest) == (db.earnings + [e]) + rest;
      db.earnings := db.earnings + [e];
      db.wallets := db.wallets[e.seller := CentsCredit(WalletOf(db.wallets, e.seller), e.amount)];
    }
  }

  /** The per-item loop of the webhook: a row and a re-quantized credit for each credited item. */
  method CreditWebhookItems(db: LedgerDb, items: seq<CartItem>, order: OrderRef, feeRate: real)
    modifies db
    ensures db.earnings == old(db.earnings) + WebhookEarnings(items, order, feeRate)
    ensures db.wallets == CentsCreditAll(old(db.wallets), WebhookEarnings(items, order, feeRate))
    ensures db.payments == old(db.payments) && db.payouts == old(db.payouts)
  {
    ghost var es := db.earnings + WebhookEarnings(items, order, feeRate);
    ghost var ws := CentsCreditAll(db.wallets, WebhookEarnings(items, order, feeRate));
    assert items[0..] == items;
    var i := 0;
    while i < |items|
      invariant 0 <= i <= |items|
      invariant db.earnings + WebhookEarnings(items[i..], order, feeRate) == es
      invariant CentsCreditAll(db.wallets, WebhookEarnings(items[i..], order, feeRate)) == ws
      invariant db.payments == old(db.payments) && db.payouts == old(db.payouts)
    {
      CreditWebhookStep(db, items, i, order, feeRate, es, ws);
      i := i + 1;
    }
    assert items[|items|..] == [];
    assert db.earnings + [] == db.earnings;
  }

  /** On cents-valued wallets and cents amounts the re-quantized credits are the exact ones. */
  lemma {:induction false} CentsCreditAllExact(wallets: map<UserId, Wallet>, es: seq<Earning>)
    requires AllCents(wallets)
    requires forall e :: e in es ==> IsCents(e.amount)
    ensures CentsCreditAll(wallets, es) == CreditAll(wallets, es)
    decreases es
  {
    if es != [] {
      var s := es[0].seller;
      var w := WalletOf(wallets, s);
      assert es[0] in es;
      CentsCreditExact(w, es[0].amount);
      PutCents(wallets, s, CentsCredit(w, es[0].amount));
      assert forall e :: e in es[1..] ==> e in es;
      CentsCreditAllExact(wallets[s := CentsCredit(w, es[0].amount)], es[1..]);
    }
  }

  /**
   * No replay guard: delivering the same event twice credits every seller twice, so
   * the seller's total earned rises by twice the seller amounts of the order.
   */
  lemma WebhookReplayCreditsTwice(wallets: map<UserId, Wallet>, items: seq<CartItem>, order: OrderRef,
                                  feeRate: real, s: UserId)
    requires AllCents(wallets) && AllBalanced(wallets)
    ensures var es := WebhookEarnings(items, order, feeRate);
      WalletOf(CentsCreditAll(CentsCreditAll(wallets, es), es), s).totalEarned
        == WalletOf(wallets, s).totalEarned + 2.0 * AmountFor(es, s)
  {
    var es := WebhookEarnings(items, order, feeRate);
    WebhookEarningsCents(items, order, feeRate);
    CentsCreditAllExact(wallets, es);
    CentsCreditAllBalanced(wallets, es);
    var once := CentsCreditAll(wallets, es);
    CentsCreditAllExact(once, es);
    CreditAllAt(wallets, es, s);
    CreditAllAt(once, es, s);
  }

  /** A seller's payout requests, newest first (`order_by("-created_at")`, the table being in creation order). */
  function NewestPayouts(payouts: seq<PayoutRequest>, seller: UserId): (r: seq<PayoutRequest>)
    ensures |r| <= |payouts|
    ensures payouts != [] && payouts[|payouts| - 1].seller == seller ==> r != [] && r[0] == payouts[|payouts| - 1]
  {
    if payouts == [] then []
    else
      var last := payouts[|payouts| - 1];
      var older := NewestPayouts(payouts[..|payouts| - 1], seller);
      if last.seller == seller then [last] + older else older
  }

  /** The list shows the seller's requests and only theirs. */
  lemma {:induction false} NewestPayoutsRows(payouts: seq<PayoutRequest>, seller: UserId)
    ensures forall k :: 0 <= k < |NewestPayouts(payouts, seller)| ==>
      NewestPayouts(payouts, seller)[k].seller == seller && NewestPayouts(payouts, seller)[k] in payouts
    ensures forall p :: p in payouts && p.seller == seller ==> p in NewestPayouts(payouts, seller)
  {
    if payouts != [] {
      var older := payouts[..|payouts| - 1];
      NewestPayoutsRows(older, seller);
      assert payouts == older + [payouts[|payouts| - 1]];
    }
  }

  /** `PayoutRequest.objects.filter(seller=s)` in creation order, oldest first. */
  function SellerRequests(payouts: seq<PayoutRequest>, seller: UserId): (r: seq<PayoutRequest>)
    ensures |r| <= |payouts|
  {
    if payouts == [] then []
    else (if payouts[0].seller == seller then [payouts[0]] else []) + SellerRequests(payouts[1..], seller)
  }

  lemma {:induction false} SellerRequestsAppend(a: seq<PayoutRequest>, b: seq<PayoutRequest>, seller: UserId)
    ensures SellerRequests(a + b, seller) == SellerRequests(a, seller) + SellerRequests(b, seller)
  {
    if a == [] {
      assert a + b == b;
    } else {
      var head := if a[0].seller == seller then [a[0]] else [];
      assert (a + b)[0] == a[0] && (a + b)[1..] == a[1..] + b;
      assert SellerRequests(a + b, seller) == head + SellerRequests(a[1..] + b, seller);
      SellerRequestsAppend(a[1..], b, seller);
      assert SellerRequests(a, seller) == head + SellerRequests(a[1..], seller);
    }
  }

  /**
   * `order_by("-created_at")`: the listing is the seller's requests in exactly the
   * reverse of creation order, each as often as it was created.
   */
  lemma {:induction false} NewestPayoutsReversed(payouts: seq<PayoutRequest>, seller: UserId)
    ensures |NewestPayouts(payouts, seller)| == |SellerRequests(payouts, seller)|
    ensures forall i :: 0 <= i < |NewestPayouts(payouts, seller)| ==>
      NewestPayouts(payouts, seller)[i] == SellerRequests(payouts, seller)[|SellerRequests(payouts, seller)| - 1 - i]
  {
    if payouts != [] {
      var older := payouts[..|payouts| - 1];
      var last := payouts[|payouts| - 1];
      assert payouts == older + [last];
      NewestPayoutsReversed(older, seller);
      SellerRequestsAppend(older, [last], seller);
      assert SellerRequests([last], seller) == if last.seller == seller then [last] else [];
    }
  }

  /** `seller_payouts`: the seller's wallet is fetched or created, then shown with their requests. */
  method SellerPayouts(db: LedgerDb, seller: UserId) returns (wallet: Wallet, shown: seq<PayoutRequest>)
    requires db.Valid()
    modifies db
    ensures db.Valid()
    ensures db.wallets == old(db.wallets)[seller := WalletOf(old(db.wallets), seller)]
    ensures unchanged(db`earnings, db`payments, db`payouts)
    ensures wallet == WalletOf(old(db.wallets), seller) && shown == NewestPayouts(db.payouts, seller)
  {
    GetOrCreateBalanced(db.wallets, seller);
    wallet := WalletOf(db.wallets, seller);
    db.wallets := db.wallets[seller := wallet];
    shown := NewestPayouts(db.payouts, seller);
  }

  /**
   * What `Decimal(str(...))` makes of the posted amount (a missing field is "0"): a string
   * it rejects, a quiet or signalling NaN, an infinity, or a finite value.
   */
  datatype PostedAmount = Malformed | NotANumber | Infinite(negative: bool) | Finite(value: real)

  /**
   * `PayoutCrashed` is the `InvalidOperation` that comparing a NaN with `0` raises
   * outside the `try`.
   */
  datatype PayoutOutcome = PayoutPostRequired | InvalidAmount | PayoutCrashed | InsufficientBalance | PayoutRequested(id: nat)

  /**
   * `request_payout`. The wallet is fetched, or created, before the amount is parsed, so
   * it exists after every POST, even one that fails.
   */
  method RequestPayout(db: LedgerDb, seller: UserId, isPost: bool, amount: PostedAmount) returns (o: PayoutOutcome)
    requires db.Valid()
    modifies db
    ensures db.Valid()
    ensures !isPost ==> o == PayoutPostRequired && unchanged(db)
    ensures isPost ==>
      db.wallets == old(db.wallets)[seller := WalletOf(old(db.wallets), seller)]
      && db.payments == old(db.payments) && db.earnings == old(db.earnings)
    ensures o == InvalidAmount <==> isPost && amount.Malformed?
    ensures o == PayoutCrashed <==> isPost && amount.NotANumber?
    ensures o == InsufficientBalance <==>
      isPost && (amount.Infinite?
        || (amount.Finite? && (amount.value <= 0.0 || amount.value > WalletOf(old(db.wallets), seller).balance)))
    ensures o.PayoutRequested? <==>
      isPost && amount.Finite? && 0.0 < amount.value <= WalletOf(old(db.wallets), seller).balance
    ensures o.PayoutRequested? ==>
      o.id == |old(db.payouts)|
      && db.payouts == old(db.payouts) + [PayoutRequest(seller, amount.value, PayoutPending, "manual", None)]
    ensures !o.PayoutRequested? ==> db.payouts == old(db.payouts)
  {
    if !isPost {
      return PayoutPostRequired;
    }
    GetOrCreateBalanced(db.wallets, seller);
    var wallet := WalletOf(db.wallets, seller);
    db.wallets := db.wallets[seller := wallet];
    match amount {
      case Malformed => return InvalidAmount;
      case NotANumber => return PayoutCrashed;
      case Infinite(_) => return InsufficientBalance;
      case Finite(_) =>
    }
    if amount.value <= 0.0 || amount.value > wallet.balance {
      return InsufficientBalance;
    }
    o := PayoutRequested(|db.payouts|);
    db.payouts := db.payouts + [PayoutRequest(seller, amount.value, PayoutPending, "manual", None)];
  }
}

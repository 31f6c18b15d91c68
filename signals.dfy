/**
 * orders/signals.py: the post-save hook on an order that, once the order is paid,
 * writes one Earning per item of a known shop and credits the shop owner's wallet,
 * guarded by a check that the order has no Earning yet.
 */
module Signals {
  import opened Wrappers
  import opened Ids
  import opened Catalog
  import opened Orders
  import opened Ledger

  /** `if item.shop and item.shop.owner` (the owner link is required, so a known shop suffices). */
  predicate Eligible(it: OrderItem, shops: map<ShopId, Shop>) {
    it.shop.Some? && it.shop.value in shops
  }

  function EarningOf(orderId: OrderId, it: OrderItem, shops: map<ShopId, Shop>): Earning
    requires Eligible(it, shops)
  {
    Earning(shops[it.shop.value].owner, OrderPk(orderId), it.id, it.sellerAmount, it.platformFee)
  }

  function CountEligible(items: seq<OrderItem>, shops: map<ShopId, Shop>): nat {
    if items == [] then 0 else (if Eligible(items[0], shops) then 1 else 0) + CountEligible(items[1..], shops)
  }

  /** The Earning rows the loop writes, in item order. */
  function ItemEarnings(orderId: OrderId, items: seq<OrderItem>, shops: map<ShopId, Shop>): (r: seq<Earning>)
    ensures |r| == CountEligible(items, shops)
  {
    if items == [] then []
    else
      var rest := ItemEarnings(orderId, items[1..], shops);
      if Eligible(items[0], shops) then [EarningOf(orderId, items[0], shops)] + rest else rest
  }

  /**
   * Exactly the eligible items get a row, carrying the item's seller amount and fee and
   * credited to the shop's owner, and every row names the order.
   */
  lemma {:induction false} ItemEarningsRows(orderId: OrderId, items: seq<OrderItem>, shops: map<ShopId, Shop>)
    ensures forall j :: 0 <= j < |items| && Eligible(items[j], shops) ==>
      EarningOf(orderId, items[j], shops) in ItemEarnings(orderId, items, shops)
    ensures forall e :: e in ItemEarnings(orderId, items, shops) ==>
      e.order == OrderPk(orderId)
      && exists j :: 0 <= j < |items| && Eligible(items[j], shops) && e == EarningOf(orderId, items[j], shops)
  {
    if items != [] {
      ItemEarningsRows(orderId, items[1..], shops);
      assert forall j :: 1 <= j < |items| ==> items[j] == items[1..][j - 1];
    }
  }

  predicate HasEarningFor(es: seq<Earning>, ref: OrderRef) {
    exists k :: 0 <= k < |es| && es[k].order == ref
  }

  /** `if instance.payment_status == 'paid' and not created` and no Earning for the order yet. */
  predicate Distributes(earnings: seq<Earning>, order: Order, created: bool) {
    order.paymentStatus == Paid && !created && !HasEarningFor(earnings, OrderPk(order.id))
  }

  datatype Settlement = Settlement(wallets: map<UserId, Wallet>, earnings: seq<Earning>)

  /** The effect of one run of the hook on the wallets and the Earning rows. */
  function HandleSpec(st: Settlement, order: Order, created: bool, shops: map<ShopId, Shop>): (r: Settlement)
    ensures !Distributes(st.earnings, order, created) ==> r == st
    ensures Distributes(st.earnings, order, created) ==>
      r.earnings == st.earnings + ItemEarnings(order.id, order.items, shops)
  {
    if Distributes(st.earnings, order, created) then
      var es := ItemEarnings(order.id, order.items, shops);
      Settlement(CreditAll(st.wallets, es), st.earnings + es)
    else st
  }

  /** Saving a paid order again distributes nothing more: the hook is idempotent per order. */
  lemma HandleIdempotent(st: Settlement, order: Order, created: bool, shops: map<ShopId, Shop>)
    ensures HandleSpec(HandleSpec(st, order, created, shops), order, created, shops)
         == HandleSpec(st, order, created, shops)
  {
    if Distributes(st.earnings, order, created) {
      var es := ItemEarnings(order.id, order.items, shops);
      if es != [] {
        ItemEarningsRows(order.id, order.items, shops);
        assert (st.earnings + es)[|st.earnings|] == es[0];
        assert es[0] in es;
      } else {
        assert st.earnings + es == st.earnings;
      }
    }
  }

  /** A run keeps every wallet's balance equal to total earned minus total withdrawn. */
  lemma HandleKeepsBalanced(st: Settlement, order: Order, created: bool, shops: map<ShopId, Shop>)
    requires AllBalanced(st.wallets)
    ensures AllBalanced(HandleSpec(st, order, created, shops).wallets)
  {
    CreditAllBalanced(st.wallets, ItemEarnings(order.id, order.items, shops));
  }

  /** Step `i` of the loop: the i-th item's row and credit, if its shop is known. */
  method DistributeStep(db: LedgerDb, orderId: OrderId, items: seq<OrderItem>, i: nat, shops: map<ShopId, Shop>,
                        ghost es: seq<Earning>, ghost ws: map<UserId, Wallet>)
    requires i < |items|
    requires db.earnings + ItemEarnings(orderId, items[i..], shops) == es
    requires CreditAll(db.wallets, ItemEarnings(orderId, items[i..], shops)) == ws
    modifies db
    ensures db.earnings + ItemEarnings(orderId, items[i + 1..], shops) == es
    ensures CreditAll(db.wallets, ItemEarnings(orderId, items[i + 1..], shops)) == ws
    ensures db.payments == old(db.payments) && db.payouts == old(db.payouts)
  {
    assert items[i..][1..] == items[i + 1..];
    var it := items[i];
    ghost var rest := ItemEarnings(orderId, items[i + 1..], shops);
    if it.shop.Some? && it.shop.value in shops {
      var e := EarningOf(orderId, it, shops);
      assert ([e] + rest)[1..] == rest;
      assert db.earnings + ([e] + rest) == (db.earnings + [e]) + rest;
      db.earnings := db.earnings + [e];
      db.wallets := db.wallets[e.seller := Credit(WalletOf(db.wallets, e.seller), e.amount)];
    }
  }

  /** The loop over `instance.items.all()`: one row and one wallet credit per eligible item. */
  method Distribute(db: LedgerDb, orderId: OrderId, items: seq<OrderItem>, shops: map<ShopId, Shop>)
    modifies db
    ensures db.earnings == old(db.earnings) + ItemEarnings(orderId, items, shops)
    ensures db.wallets == CreditAll(old(db.wallets), ItemEarnings(orderId, items, shops))
    ensures db.payments == old(db.payments) && db.payouts == old(db.payouts)
  {
    ghost var es := db.earnings + ItemEarnings(orderId, items, shops);
    ghost var ws := CreditAll(db.wallets, ItemEarnings(orderId, items, shops));
    assert items[0..] == items;
    var i := 0;
    while i < |items|
      invariant 0 <= i <= |items|
      invariant db.earnings + ItemEarnings(orderId, items[i..], shops) == es
      invariant CreditAll(db.wallets, ItemEarnings(orderId, items[i..], shops)) == ws
      invariant db.payments == old(db.payments) && db.payouts == old(db.payouts)
    {
      DistributeStep(db, orderId, items, i, shops, es, ws);
      i := i + 1;
    }
    assert items[|items|..] == [];
    assert db.earnings + [] == db.earnings;
  }

  /** `handle_order_payment` */
  method HandleOrderPayment(db: LedgerDb, order: Order, created: bool, shops: map<ShopId, Shop>)
    requires db.Valid()
    modifies db
    ensures db.Valid()
    ensures Settlement(db.wallets, db.earnings)
         == HandleSpec(Settlement(old(db.wallets), old(db.earnings)), order, created, shops)
    ensures db.payments == old(db.payments) && db.payouts == old(db.payouts)
  {
    if order.paymentStatus != Paid || created {
      return;
    }
    if exists k :: 0 <= k < |db.earnings| && db.earnings[k].order == OrderPk(order.id) {
      return;
    }
    CreditAllBalanced(db.wallets, ItemEarnings(order.id, order.items, shops));
    Distribute(db, order.id, order.items, shops);
  }
}

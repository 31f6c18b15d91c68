/**
 * The settlement tables of payments/models.py: one wallet per seller, the Earning
 * rows, the Stripe Payment rows and the payout requests, with the two wallet moves
 * the rest of the core makes, credit (an earning) and withdrawal (a paid payout).
 */
module Ledger {
  import opened Wrappers
  import opened Ids
  import opened Money

  datatype Wallet = Wallet(balance: real, totalEarned: real, totalWithdrawn: real)

  /** The bookkeeping identity every wallet move keeps. */
  predicate Balanced(w: Wallet) { w.balance == w.totalEarned - w.totalWithdrawn }

  predicate CentsWallet(w: Wallet) { IsCents(w.balance) && IsCents(w.totalEarned) && IsCents(w.totalWithdrawn) }

  ghost predicate AllBalanced(wallets: map<UserId, Wallet>) {
    forall s :: s in wallets ==> Balanced(wallets[s])
  }

  ghost predicate AllCents(wallets: map<UserId, Wallet>) {
    forall s :: s in wallets ==> CentsWallet(wallets[s])
  }

  lemma PutBalanced(wallets: map<UserId, Wallet>, s: UserId, w: Wallet)
    requires AllBalanced(wallets) && Balanced(w)
    ensures AllBalanced(wallets[s := w])
  {
  }

  lemma PutCents(wallets: map<UserId, Wallet>, s: UserId, w: Wallet)
    requires AllCents(wallets) && CentsWallet(w)
    ensures AllCents(wallets[s := w])
  {
  }

  const NewWallet := Wallet(0.0, 0.0, 0.0)

  /** `SellerWallet.objects.get_or_create(seller=s)`: the stored wallet or a zero one. */
  function WalletOf(wallets: map<UserId, Wallet>, s: UserId): Wallet {
    if s in wallets then wallets[s] else NewWallet
  }

  /** `get_or_create` keeps every wallet balanced: a created wallet starts at zero on all three amounts. */
  lemma GetOrCreateBalanced(wallets: map<UserId, Wallet>, s: UserId)
    requires AllBalanced(wallets)
    ensures AllBalanced(wallets[s := WalletOf(wallets, s)])
  {
  }

  /** `balance += amount; total_earned += amount`. */
  function Credit(w: Wallet, amount: real): (r: Wallet)
    ensures r.balance - r.totalEarned == w.balance - w.totalEarned && r.totalWithdrawn == w.totalWithdrawn
    ensures r.totalEarned == w.totalEarned + amount
    ensures Balanced(w) ==> Balanced(r)
  {
    Wallet(w.balance + amount, w.totalEarned + amount, w.totalWithdrawn)
  }

  /** `balance -= amount; total_withdrawn += amount`, with no check that the balance covers it. */
  function Withdraw(w: Wallet, amount: real): (r: Wallet)
    ensures r.balance + r.totalWithdrawn == w.balance + w.totalWithdrawn && r.totalEarned == w.totalEarned
    ensures r.totalWithdrawn == w.totalWithdrawn + amount
    ensures Balanced(w) ==> Balanced(r)
  {
    Wallet(w.balance - amount, w.totalEarned, w.totalWithdrawn + amount)
  }

  /**
   * The webhook's credit, which re-quantizes both sums to cents. On a cents wallet and
   * a cents amount nothing is rounded away, so it is the exact credit.
   */
  function CentsCredit(w: Wallet, amount: real): (r: Wallet)
    ensures IsCents(r.balance) && IsCents(r.totalEarned) && r.totalWithdrawn == w.totalWithdrawn
    ensures -0.005 <= (w.balance + amount) - r.balance <= 0.005
    ensures -0.005 <= (w.totalEarned + amount) - r.totalEarned <= 0.005
  {
    Wallet(Cents(w.balance + amount), Cents(w.totalEarned + amount), w.totalWithdrawn)
  }

  lemma CentsCreditExact(w: Wallet, amount: real)
    requires CentsWallet(w) && IsCents(amount)
    ensures CentsCredit(w, amount) == Credit(w, amount) && CentsWallet(CentsCredit(w, amount))
  {
    CentsClosed(w.balance, amount);
    CentsClosed(w.totalEarned, amount);
    CentsOfCents(w.balance + amount);
    CentsOfCents(w.totalEarned + amount);
  }

  /** On a wallet that is not cents-valued the rounding can break the identity. */
  lemma CentsCreditCanUnbalance()
    ensures var w := Wallet(0.005, 0.015, 0.01);
      Balanced(w) && !Balanced(CentsCredit(w, 0.0))
  {
    assert (0.005 * 100.0).Floor == 0 && (0.015 * 100.0).Floor == 1;
    assert Cents(0.005) == 0.0;
    assert Cents(0.015) == 0.02;
  }

  /** `order_id` is a string column: "pending" or the decimal primary key of an order. */
  datatype OrderRef = PendingRef | OrderPk(id: OrderId)

  /**
   * An Earning row. `item` is the order item id when the signal writes the row and the
   * cart's product id when the webhook does.
   */
  datatype Earning = Earning(seller: UserId, order: OrderRef, item: nat, amount: real, platformFee: real)

  datatype PaymentState = Created | PaymentPaid

  datatype Payment = Payment(order: OrderRef, sessionId: string, amount: real, currency: string, status: PaymentState)

  datatype PayoutStatus = PayoutPending | PayoutApproved | PayoutPaid | PayoutRejected

  datatype PayoutRequest = PayoutRequest(seller: UserId, amount: real, status: PayoutStatus,
                                         payMethod: string, processedAt: Option<Time>)

  /** The wallet credits for a run of Earning rows, each seller's wallet created on first use. */
  function CreditAll(wallets: map<UserId, Wallet>, es: seq<Earning>): (r: map<UserId, Wallet>)
    ensures wallets.Keys <= r.Keys
    decreases es
  {
    if es == [] then wallets
    else
      var s := es[0].seller;
      CreditAll(wallets[s := Credit(WalletOf(wallets, s), es[0].amount)], es[1..])
  }

  /** Crediting keeps every wallet's balance equal to total earned minus total withdrawn. */
  lemma {:induction false} CreditAllBalanced(wallets: map<UserId, Wallet>, es: seq<Earning>)
    requires AllBalanced(wallets)
    ensures AllBalanced(CreditAll(wallets, es))
    decreases es
  {
    if es != [] {
      var s := es[0].seller;
      var w := Credit(WalletOf(wallets, s), es[0].amount);
      var next := wallets[s := w];
      PutBalanced(wallets, s, w);
      CreditAllBalanced(next, es[1..]);
    }
  }

  /** What the rows credit one seller. */
  function AmountFor(es: seq<Earning>, s: UserId): real {
    if es == [] then 0.0 else (if es[0].seller == s then es[0].amount else 0.0) + AmountFor(es[1..], s)
  }

  /** Each seller's balance and total earned both rise by exactly what the rows credit them. */
  lemma {:induction false} CreditAllAt(wallets: map<UserId, Wallet>, es: seq<Earning>, s: UserId)
    ensures WalletOf(CreditAll(wallets, es), s) == Credit(WalletOf(wallets, s), AmountFor(es, s))
    decreases es
  {
    if es != [] {
      var t := es[0].seller;
      var next := wallets[t := Credit(WalletOf(wallets, t), es[0].amount)];
      CreditAllAt(next, es[1..], s);
      if t == s {
        CreditTwice(WalletOf(wallets, s), es[0].amount, AmountFor(es[1..], s));
      } else {
        assert WalletOf(next, s) == WalletOf(wallets, s);
      }
    }
  }

  /** Two credits are one credit of their sum. */
  lemma CreditTwice(w: Wallet, a: real, b: real)
    ensures Credit(Credit(w, a), b) == Credit(w, a + b)
  {
  }

  /** Two withdrawals are one withdrawal of their sum. */
  lemma WithdrawTwice(w: Wallet, a: real, b: real)
    ensures Withdraw(Withdraw(w, a), b) == Withdraw(w, a + b)
  {
  }

  /** The payments tables. Payments are keyed by their unique Stripe session id; payout ids are positions. */
  class LedgerDb {
    var wallets: map<UserId, Wallet>
    var earnings: seq<Earning>
    var payments: map<string, Payment>
    var payouts: seq<PayoutRequest>

    ghost predicate Valid()
      reads this
    {
      AllBalanced(wallets) && forall k :: k in payments ==> payments[k].sessionId == k
    }

    constructor ()
      ensures Valid() && wallets == map[] && earnings == [] && payments == map[] && payouts == []
    {
      wallets, earnings, payments, payouts := map[], [], map[], [];
    }
  }
}

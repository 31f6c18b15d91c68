/**
 * payments/admin.py: the payout admin's bulk actions. `mark_paid` pays the selected
 * payouts that are pending or approved and withdraws each from its seller's wallet;
 * `approve` and `reject` overwrite the status of every selected payout.
 */
module PayoutAdmin {
  import opened Wrappers
  import opened Ids
  import opened Ledger

  /** `queryset.filter(status__in=["approved", "pending"])` */
  predicate Payable(p: PayoutRequest) { p.status == PayoutPending || p.status == PayoutApproved }

  /** A selection of payout rows: positions in the table, each at most once. */
  predicate IsSelection(payouts: seq<PayoutRequest>, sel: seq<nat>) {
    (forall k :: 0 <= k < |sel| ==> sel[k] < |payouts|)
    && forall k, l :: 0 <= k < l < |sel| ==> sel[k] != sel[l]
  }

  /** The payout rows after `mark_paid`: each selected payable row is stamped paid at `now`. */
  function PaidPayouts(payouts: seq<PayoutRequest>, sel: seq<nat>, now: Time): (r: seq<PayoutRequest>)
    ensures |r| == |payouts|
  {
    seq(|payouts|, i requires 0 <= i < |payouts| =>
      if i in sel && Payable(payouts[i]) then payouts[i].(status := PayoutPaid, processedAt := Some(now)) else payouts[i])
  }

  /** The wallet withdrawals of `mark_paid`, one per selected payable row, in selection order. */
  function WithdrawAll(wallets: map<UserId, Wallet>, payouts: seq<PayoutRequest>, sel: seq<nat>): (r: map<UserId, Wallet>)
    requires forall k :: 0 <= k < |sel| ==> sel[k] < |payouts|
    ensures wallets.Keys <= r.Keys
    decreases sel
  {
    if sel == [] then wallets
    else
      var p := payouts[sel[0]];
      var next := if Payable(p) then wallets[p.seller := Withdraw(WalletOf(wallets, p.seller), p.amount)] else wallets;
      WithdrawAll(next, payouts, sel[1..])
  }

  /** What `mark_paid` withdraws from one seller. */
  function PaidAmountFor(payouts: seq<PayoutRequest>, sel: seq<nat>, s: UserId): real
    requires forall k :: 0 <= k < |sel| ==> sel[k] < |payouts|
  {
    if sel == [] then 0.0
    else
      var p := payouts[sel[0]];
      (if Payable(p) && p.seller == s then p.amount else 0.0) + PaidAmountFor(payouts, sel[1..], s)
  }

  /**
   * Each seller's balance drops, and total withdrawn rises, by exactly the amounts of
   * their paid payouts; there is no check that the balance covers them.
   */
  lemma {:induction false} WithdrawAllAt(wallets: map<UserId, Wallet>, payouts: seq<PayoutRequest>, sel: seq<nat>, s: UserId)
    requires forall k :: 0 <= k < |sel| ==> sel[k] < |payouts|
    ensures WalletOf(WithdrawAll(wallets, payouts, sel), s) == Withdraw(WalletOf(wallets, s), PaidAmountFor(payouts, sel, s))
    decreases sel
  {
    if sel != [] {
      var p := payouts[sel[0]];
      var rest := PaidAmountFor(payouts, sel[1..], s);
      var next := if Payable(p) then wallets[p.seller := Withdraw(WalletOf(wallets, p.seller), p.amount)] else wallets;
      WithdrawAllAt(next, payouts, sel[1..], s);
      if Payable(p) && p.seller == s {
        WithdrawTwice(WalletOf(wallets, s), p.amount, rest);
      } else {
        assert WalletOf(next, s) == WalletOf(wallets, s);
      }
    }
  }

  /** Withdrawals keep every wallet's balance equal to total earned minus total withdrawn. */
  lemma {:induction false} WithdrawAllBalanced(wallets: map<UserId, Wallet>, payouts: seq<PayoutRequest>, sel: seq<nat>)
    requires forall k :: 0 <= k < |sel| ==> sel[k] < |payouts|
    requires AllBalanced(wallets)
    ensures AllBalanced(WithdrawAll(wallets, payouts, sel))
    decreases sel
  {
    if sel != [] {
      var p := payouts[sel[0]];
      if Payable(p) {
        PutBalanced(wallets, p.seller, Withdraw(WalletOf(wallets, p.seller), p.amount));
      }
      var next := if Payable(p) then wallets[p.seller := Withdraw(WalletOf(wallets, p.seller), p.amount)] else wallets;
      WithdrawAllBalanced(next, payouts, sel[1..]);
    }
  }

  /** Paying one more selected row: the rows paid so far still hold it as it was. */
  lemma PaidPayoutsStep(payouts: seq<PayoutRequest>, sel: seq<nat>, k: nat, now: Time)
    requires IsSelection(payouts, sel) && k < |sel|
    ensures var i, prev := sel[k], PaidPayouts(payouts, sel[..k], now);
      && prev[i] == payouts[i]
      && PaidPayouts(payouts, sel[..k + 1], now) ==
           if Payable(payouts[i]) then prev[i := payouts[i].(status := PayoutPaid, processedAt := Some(now))] else prev
  {
    assert sel[..k + 1] == sel[..k] + [sel[k]];
    assert forall j :: 0 <= j < k ==> sel[j] != sel[k];
    assert sel[k] !in sel[..k];
  }

  /** Step `k` of `mark_paid`: pays the k-th selected row if it is payable. */
  method PayStep(db: LedgerDb, ghost p0: seq<PayoutRequest>, ghost w0: map<UserId, Wallet>,
                 sel: seq<nat>, k: nat, now: Time)
    requires IsSelection(p0, sel) && k < |sel|
    requires db.payouts == PaidPayouts(p0, sel[..k], now)
    requires WithdrawAll(db.wallets, p0, sel[k..]) == w0
    modifies db
    ensures db.payouts == PaidPayouts(p0, sel[..k + 1], now)
    ensures WithdrawAll(db.wallets, p0, sel[k + 1..]) == w0
    ensures db.earnings == old(db.earnings) && db.payments == old(db.payments)
  {
    PaidPayoutsStep(p0, sel, k, now);
    assert sel[k..][1..] == sel[k + 1..];
    var i := sel[k];
    var p := db.payouts[i];
    if p.status == PayoutPending || p.status == PayoutApproved {
      db.payouts := db.payouts[i := p.(status := PayoutPaid, processedAt := Some(now))];
      db.wallets := db.wallets[p.seller := Withdraw(WalletOf(db.wallets, p.seller), p.amount)];
    }
  }

  /** `mark_paid` */
  method MarkPaid(db: LedgerDb, sel: seq<nat>, now: Time)
    requires db.Valid() && IsSelection(db.payouts, sel)
    modifies db
    ensures db.Valid()
    ensures db.payouts == PaidPayouts(old(db.payouts), sel, now)
    ensures db.wallets == WithdrawAll(old(db.wallets), old(db.payouts), sel)
    ensures db.earnings == old(db.earnings) && db.payments == old(db.payments)
  {
    WithdrawAllBalanced(db.wallets, db.payouts, sel);
    ghost var p0, w0 := db.payouts, WithdrawAll(db.wallets, db.payouts, sel);
    assert sel[0..] == sel && sel[..0] == [];
    var k := 0;
    while k < |sel|
      invariant 0 <= k <= |sel|
      invariant db.payouts == PaidPayouts(p0, sel[..k], now)
      invariant WithdrawAll(db.wallets, p0, sel[k..]) == w0
      invariant db.earnings == old(db.earnings) && db.payments == old(db.payments)
    {
      PayStep(db, p0, w0, sel, k, now);
      k := k + 1;
    }
    assert sel[..|sel|] == sel;
    assert sel[|sel|..] == [];
  }

  /** The payout rows after `queryset.update(status=...)`. */
  function WithStatus(payouts: seq<PayoutRequest>, sel: set<nat>, status: PayoutStatus): (r: seq<PayoutRequest>)
    ensures |r| == |payouts|
  {
    seq(|payouts|, i requires 0 <= i < |payouts| => if i in sel then payouts[i].(status := status) else payouts[i])
  }

  /** `approve` and `reject`: a bulk update of the status, whatever it was; wallets are untouched. */
  method SetPayoutStatus(db: LedgerDb, sel: set<nat>, status: PayoutStatus)
    requires db.Valid()
    modifies db
    ensures db.Valid()
    ensures |db.payouts| == |old(db.payouts)|
    ensures forall i :: 0 <= i < |db.payouts| ==>
      db.payouts[i] == if i in sel then old(db.payouts)[i].(status := status) else old(db.payouts)[i]
    ensures db.wallets == old(db.wallets) && db.earnings == old(db.earnings) && db.payments == old(db.payments)
  {
    db.payouts := WithStatus(db.payouts, sel, status);
  }

  /** `approve` */
  method Approve(db: LedgerDb, sel: set<nat>)
    requires db.Valid()
    modifies db
    ensures db.Valid()
    ensures db.payouts == WithStatus(old(db.payouts), sel, PayoutApproved)
    ensures db.wallets == old(db.wallets) && db.earnings == old(db.earnings) && db.payments == old(db.payments)
  {
    SetPayoutStatus(db, sel, PayoutApproved);
  }

  /** `reject` */
  method Reject(db: LedgerDb, sel: set<nat>)
    requires db.Valid()
    modifies db
    ensures db.Valid()
    ensures db.payouts == WithStatus(old(db.payouts), sel, PayoutRejected)
    ensures db.wallets == old(db.wallets) && db.earnings == old(db.earnings) && db.payments == old(db.payments)
  {
    SetPayoutStatus(db, sel, PayoutRejected);
  }

  /**
   * Approving a payout that is already paid makes it payable again, and paying it
   * again withdraws its amount a second time, overdrawing the wallet.
   */
  lemma ReapprovedPayoutPaysTwice()
    ensures var payouts := [PayoutRequest(1, 5.0, PayoutPaid, "manual", Some(0))];
      var wallets := map[1 := Wallet(0.0, 5.0, 5.0)];
      var again := WithStatus(payouts, {0}, PayoutApproved);
      && Payable(again[0])
      && WalletOf(WithdrawAll(wallets, again, [0]), 1) == Wallet(-5.0, 5.0, 10.0)
  {
    var payouts := [PayoutRequest(1, 5.0, PayoutPaid, "manual", Some(0))];
    var again := WithStatus(payouts, {0}, PayoutApproved);
    assert again[0] == payouts[0].(status := PayoutApproved);
    assert [0][1..] == [];
  }
}

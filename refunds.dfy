/**
 * refunds/models.py: refund requests and their state machine, the Refund row an
 * approval creates (one per request) and its completion, and a user's store credit
 * with its transaction log.
 */
module Refunds {
  import opened Wrappers
  import opened Ids
  import opened Text
  import opened Serials

  datatype RequestStatus = ReqPending | ReqApproved | ReqRejected | ReqProcessing | ReqCompleted | ReqCancelled

  datatype RefundRequest = RefundRequest(
    number: string,
    order: string,
    orderItem: Option<ItemId>,
    user: UserId,
    reason: string,
    description: string,
    amount: real,
    status: RequestStatus,
    adminNotes: string,
    processedBy: Option<UserId>,
    processedAt: Option<Time>)

  datatype RefundStatus = RefundPending | RefundProcessing | RefundCompleted | RefundFailed

  datatype Refund = Refund(
    number: string,
    request: string,
    order: string,
    user: UserId,
    amount: real,
    status: RefundStatus,
    transactionId: string,
    completedAt: Option<Time>)

  /** The request after `approve`: approved, with the admin's note, name and time. */
  function Approved(r: RefundRequest, admin: UserId, notes: string, now: Time): (a: RefundRequest)
    ensures a.status == ReqApproved && a.adminNotes == notes && a.processedBy == Some(admin) && a.processedAt == Some(now)
    ensures a.(status := r.status, adminNotes := r.adminNotes, processedBy := r.processedBy, processedAt := r.processedAt) == r
  {
    r.(status := ReqApproved, adminNotes := notes, processedBy := Some(admin), processedAt := Some(now))
  }

  /** The request after `reject`. */
  function Rejected(r: RefundRequest, admin: UserId, notes: string, now: Time): (a: RefundRequest)
    ensures a.status == ReqRejected && a.adminNotes == notes && a.processedBy == Some(admin) && a.processedAt == Some(now)
    ensures a.(status := r.status, adminNotes := r.adminNotes, processedBy := r.processedBy, processedAt := r.processedAt) == r
  {
    r.(status := ReqRejected, adminNotes := notes, processedBy := Some(admin), processedAt := Some(now))
  }

  /** The Refund `approve` creates: the request's order, user and amount, status pending. */
  function NewRefund(r: RefundRequest, hex: string): (f: Refund)
    requires IsUuidHex(hex)
    ensures IsSerial(f.number, "RFD", 8) && f.request == r.number
    ensures f.order == r.order && f.user == r.user && f.amount == r.amount
    ensures f.status == RefundPending && f.transactionId == "" && f.completedAt == None
  {
    Refund(RefundNumber(hex), r.number, r.order, r.user, r.amount, RefundPending, "", None)
  }

  /** The request and refund tables; a refund is keyed by the number of its request (one-to-one). */
  class RefundDesk {
    var requests: map<string, RefundRequest>
    var refunds: map<string, Refund>

    /** Every refund belongs to a stored request that is past 'pending'. */
    ghost predicate Valid()
      reads this
    {
      (forall n :: n in requests ==> requests[n].number == n)
      && forall n :: n in refunds ==> n in requests && refunds[n].request == n && requests[n].status != ReqPending
    }

    constructor ()
      ensures Valid() && requests == map[] && refunds == map[]
    {
      requests, refunds := map[], map[];
    }

    /**
     * `RefundRequest.approve`. The request is saved first; the Refund row then breaks the
     * one-to-one constraint if the request already has one, so `created` is false there.
     */
    method Approve(number: string, admin: UserId, notes: string, now: Time, hex: string) returns (created: bool)
      requires Valid() && number in requests && IsUuidHex(hex)
      modifies this
      ensures Valid()
      ensures requests == old(requests)[number := Approved(old(requests)[number], admin, notes, now)]
      ensures created <==> number !in old(refunds)
      ensures refunds == if created then old(refunds)[number := NewRefund(old(requests)[number], hex)] else old(refunds)
    {
      requests := requests[number := Approved(requests[number], admin, notes, now)];
      created := number !in refunds;
      if created {
        refunds := refunds[number := NewRefund(requests[number], hex)];
      }
    }

    /** `RefundRequest.reject`: no Refund row. */
    method Reject(number: string, admin: UserId, notes: string, now: Time)
      requires Valid() && number in requests
      modifies this
      ensures Valid()
      ensures requests == old(requests)[number := Rejected(old(requests)[number], admin, notes, now)]
      ensures refunds == old(refunds)
    {
      requests := requests[number := Rejected(requests[number], admin, notes, now)];
    }

    /** `Refund.complete`: the refund is completed and so is its request. */
    method Complete(number: string, transactionId: string, now: Time)
      requires Valid() && number in refunds
      modifies this
      ensures Valid()
      ensures refunds == old(refunds)[number := old(refunds)[number].(status := RefundCompleted,
                                        transactionId := transactionId, completedAt := Some(now))]
      ensures requests == old(requests)[number := old(requests)[number].(status := ReqCompleted)]
    {
      refunds := refunds[number := refunds[number].(status := RefundCompleted, transactionId := transactionId,
                                                    completedAt := Some(now))];
      requests := requests[number := requests[number].(status := ReqCompleted)];
    }
  }

  /** An approved request always gets its Refund: by the table invariant it has none yet. */
  lemma PendingHasNoRefund(requests: map<string, RefundRequest>, refunds: map<string, Refund>, number: string)
    requires forall n :: n in refunds ==> n in requests && requests[n].status != ReqPending
    requires number in requests && requests[number].status == ReqPending
    ensures number !in refunds
  {
  }

  datatype TxnKind = Credit | Debit

  datatype Transaction = Txn(kind: TxnKind, amount: real, description: string, balanceAfter: real)

  function Signed(t: Transaction): real { if t.kind == Credit then t.amount else -t.amount }

  /** The balance a transaction log replays to, from the initial 0. */
  function Replay(log: seq<Transaction>): real {
    if log == [] then 0.0 else Replay(log[..|log| - 1]) + Signed(log[|log| - 1])
  }

  /** Every logged `balance_after` is the balance replayed up to and including that entry. */
  ghost predicate LogConsistent(log: seq<Transaction>) {
    forall i :: 0 <= i < |log| ==> log[i].balanceAfter == Replay(log[..i + 1])
  }

  /** `StoreCredit`: a balance with an append-only transaction log. */
  class StoreCredit {
    var balance: real
    var log: seq<Transaction>

    ghost predicate Valid()
      reads this
    {
      balance == Replay(log) && LogConsistent(log)
    }

    constructor ()
      ensures Valid() && balance == 0.0 && log == []
    {
      balance, log := 0.0, [];
    }

    /** `add_credit`: no sign check on the amount. */
    method AddCredit(amount: real, description: string)
      requires Valid()
      modifies this
      ensures Valid()
      ensures balance == old(balance) + amount
      ensures log == old(log) + [Txn(Credit, amount, description, balance)]
    {
      balance := balance + amount;
      var t := Txn(Credit, amount, description, balance);
      AppendKeepsLog(log, t);
      log := log + [t];
    }

    /** `deduct_credit`: succeeds, and writes a debit, exactly when the balance covers the amount. */
    method DeductCredit(amount: real, description: string) returns (ok: bool)
      requires Valid()
      modifies this
      ensures Valid()
      ensures ok <==> old(balance) >= amount
      ensures ok ==> balance == old(balance) - amount && log == old(log) + [Txn(Debit, amount, description, balance)]
      ensures !ok ==> balance == old(balance) && log == old(log)
      ensures ok && old(balance) >= 0.0 ==> balance >= 0.0
    {
      if balance >= amount {
        balance := balance - amount;
        var t := Txn(Debit, amount, description, balance);
        AppendKeepsLog(log, t);
        log := log + [t];
        return true;
      }
      return false;
    }
  }

  /** Appending an entry whose `balance_after` is the new replayed balance keeps the log consistent. */
  lemma AppendKeepsLog(log: seq<Transaction>, t: Transaction)
    requires LogConsistent(log) && t.balanceAfter == Replay(log) + Signed(t)
    ensures LogConsistent(log + [t]) && Replay(log + [t]) == t.balanceAfter
  {
    var l := log + [t];
    assert l[..|l| - 1] == log;
    forall i | 0 <= i < |l|
      ensures l[i].balanceAfter == Replay(l[..i + 1])
    {
      if i < |log| {
        assert l[..i + 1] == log[..i + 1];
      } else {
        assert l[..i + 1] == l;
      }
    }
  }

  /**
   * A log whose every debit was covered by the balance before it, and whose amounts
   * are not negative, never replays to a negative balance.
   */
  lemma {:induction false} DebitsNeverExceedCredits(log: seq<Transaction>)
    requires forall i :: 0 <= i < |log| ==> log[i].kind == Debit ==> Replay(log[..i]) >= log[i].amount
    requires forall i :: 0 <= i < |log| ==> log[i].amount >= 0.0
    ensures Replay(log) >= 0.0
    decreases |log|
  {
    if log != [] {
      var p := log[..|log| - 1];
      assert forall i :: 0 <= i < |p| ==> p[i] == log[i] && p[..i] == log[..i];
      DebitsNeverExceedCredits(p);
      assert log[..|log| - 1] == p;
    }
  }
}

/**
 * refunds/admin.py: the bulk actions that approve or reject the selected refund
 * requests. Only the pending ones are processed; the message reports the size of
 * the whole selection.
 */
module RefundAdmin {
  import opened Wrappers
  import opened Ids
  import opened Text
  import opened Refunds

  /** A selection of stored requests, each named once. */
  predicate IsSelection(requests: map<string, RefundRequest>, sel: seq<string>) {
    (forall k :: 0 <= k < |sel| ==> sel[k] in requests)
    && forall k, l :: 0 <= k < l < |sel| ==> sel[k] != sel[l]
  }

  const ApproveNote := "Approved by admin"
  const RejectNote := "Rejected by admin"

  /** The requests after approving the pending ones among `sel`. */
  function ApprovedAll(requests: map<string, RefundRequest>, sel: seq<string>, admin: UserId, now: Time)
    : (r: map<string, RefundRequest>)
    ensures r.Keys == requests.Keys
  {
    map n | n in requests :: if n in sel && requests[n].status == ReqPending
      then Approved(requests[n], admin, ApproveNote, now) else requests[n]
  }

  /** The refund rows after approving the pending ones among `sel`, the k-th cut from `hexes[k]`. */
  function RefundsAfter(refunds: map<string, Refund>, requests: map<string, RefundRequest>,
                        sel: seq<string>, hexes: seq<string>): map<string, Refund>
    requires |hexes| == |sel| && forall k :: 0 <= k < |hexes| ==> IsUuidHex(hexes[k])
    requires forall k :: 0 <= k < |sel| ==> sel[k] in requests
    decreases |sel|
  {
    if sel == [] then refunds
    else
      var last := |sel| - 1;
      var prev := RefundsAfter(refunds, requests, sel[..last], hexes[..last]);
      if requests[sel[last]].status == ReqPending then prev[sel[last] := NewRefund(requests[sel[last]], hexes[last])]
      else prev
  }

  /**
   * Exactly the pending selected requests get a refund, with that request's amount,
   * and the refunds that existed are kept.
   */
  lemma {:induction false} RefundsAfterAt(refunds: map<string, Refund>, requests: map<string, RefundRequest>,
                                          sel: seq<string>, hexes: seq<string>, k: nat)
    requires |hexes| == |sel| && forall j :: 0 <= j < |hexes| ==> IsUuidHex(hexes[j])
    requires IsSelection(requests, sel)
    requires k < |sel| && requests[sel[k]].status == ReqPending
    ensures var r := RefundsAfter(refunds, requests, sel, hexes);
      sel[k] in r && r[sel[k]] == NewRefund(requests[sel[k]], hexes[k])
    decreases |sel|
  {
    var last := |sel| - 1;
    if k < last {
      assert IsSelection(requests, sel[..last]);
      assert sel[..last][k] == sel[k] && hexes[..last][k] == hexes[k];
      RefundsAfterAt(refunds, requests, sel[..last], hexes[..last], k);
    }
  }

  /** Refunds are only added, and only for selected pending requests. */
  lemma {:induction false} RefundsAfterKeys(refunds: map<string, Refund>, requests: map<string, RefundRequest>,
                                            sel: seq<string>, hexes: seq<string>)
    requires |hexes| == |sel| && forall j :: 0 <= j < |hexes| ==> IsUuidHex(hexes[j])
    requires forall k :: 0 <= k < |sel| ==> sel[k] in requests
    ensures var r := RefundsAfter(refunds, requests, sel, hexes);
      && (forall n :: n in refunds && (n !in sel || requests[n].status != ReqPending) ==> n in r && r[n] == refunds[n])
      && (forall n :: n in r ==> n in refunds || (n in sel && requests[n].status == ReqPending))
    decreases |sel|
  {
    if sel != [] {
      var last := |sel| - 1;
      assert forall n :: n in sel[..last] ==> n in sel;
      RefundsAfterKeys(refunds, requests, sel[..last], hexes[..last]);
      assert forall n :: n in sel && n != sel[last] ==> n in sel[..last];
    }
  }

  lemma ApprovedNone(requests: map<string, RefundRequest>, admin: UserId, now: Time)
    ensures ApprovedAll(requests, [], admin, now) == requests
  {
  }

  lemma ApprovedAllStep(requests: map<string, RefundRequest>, pre: seq<string>, n: string, admin: UserId, now: Time)
    requires n in requests && n !in pre
    ensures ApprovedAll(requests, pre + [n], admin, now) ==
      if requests[n].status == ReqPending
      then ApprovedAll(requests, pre, admin, now)[n := Approved(requests[n], admin, ApproveNote, now)]
      else ApprovedAll(requests, pre, admin, now)
  {
    assert forall m :: m in pre + [n] <==> m in pre || m == n;
  }

  lemma RefundsAfterStep(refunds: map<string, Refund>, requests: map<string, RefundRequest>,
                         sel: seq<string>, hexes: seq<string>, n: string, hex: string)
    requires |hexes| == |sel| && forall k :: 0 <= k < |hexes| ==> IsUuidHex(hexes[k])
    requires forall k :: 0 <= k < |sel| ==> sel[k] in requests
    requires n in requests && IsUuidHex(hex)
    ensures RefundsAfter(refunds, requests, sel + [n], hexes + [hex]) ==
      if requests[n].status == ReqPending
      then RefundsAfter(refunds, requests, sel, hexes)[n := NewRefund(requests[n], hex)]
      else RefundsAfter(refunds, requests, sel, hexes)
  {
    assert (sel + [n])[..|sel|] == sel && (hexes + [hex])[..|hexes|] == hexes;
  }

  /** The approval of one request: a pending request is approved, any other is skipped. */
  method ApproveOne(desk: RefundDesk, n: string, admin: UserId, now: Time, hex: string)
    requires desk.Valid() && n in desk.requests && IsUuidHex(hex)
    modifies desk
    ensures desk.Valid()
    ensures desk.requests == if old(desk.requests)[n].status == ReqPending
      then old(desk.requests)[n := Approved(old(desk.requests)[n], admin, ApproveNote, now)]
      else old(desk.requests)
    ensures desk.refunds == if old(desk.requests)[n].status == ReqPending
      then old(desk.refunds)[n := NewRefund(old(desk.requests)[n], hex)]
      else old(desk.refunds)
  {
    if desk.requests[n].status == ReqPending {
      PendingHasNoRefund(desk.requests, desk.refunds, n);
      var created := desk.Approve(n, admin, ApproveNote, now, hex);
    }
  }

  /** Step `i` of `approve_requests`, from the state after the first `i` selected requests. */
  method ApproveStep(desk: RefundDesk, ghost rq0: map<string, RefundRequest>, ghost rf0: map<string, Refund>,
                     sel: seq<string>, i: nat, admin: UserId, now: Time, hexes: seq<string>)
    requires IsSelection(rq0, sel) && i < |sel|
    requires |hexes| == |sel| && forall k :: 0 <= k < |hexes| ==> IsUuidHex(hexes[k])
    requires desk.Valid()
    requires desk.requests == ApprovedAll(rq0, sel[..i], admin, now)
    requires desk.refunds == RefundsAfter(rf0, rq0, sel[..i], hexes[..i])
    modifies desk
    ensures desk.Valid()
    ensures desk.requests == ApprovedAll(rq0, sel[..i + 1], admin, now)
    ensures desk.refunds == RefundsAfter(rf0, rq0, sel[..i + 1], hexes[..i + 1])
  {
    var n := sel[i];
    assert forall k :: 0 <= k < i ==> sel[k] != n;
    assert n !in sel[..i];
    assert desk.requests[n] == rq0[n];
    assert sel[..i + 1] == sel[..i] + [n] && hexes[..i + 1] == hexes[..i] + [hexes[i]];
    ApprovedAllStep(rq0, sel[..i], n, admin, now);
    RefundsAfterStep(rf0, rq0, sel[..i], hexes[..i], n, hexes[i]);
    ApproveOne(desk, n, admin, now, hexes[i]);
  }

  /**
   * `approve_requests`. `hexes[k]` is the uuid the k-th selected request's refund number
   * would be cut from.
   */
  method ApproveRequests(desk: RefundDesk, sel: seq<string>, admin: UserId, now: Time, hexes: seq<string>)
    returns (count: nat)
    requires desk.Valid() && IsSelection(desk.requests, sel)
    requires |hexes| == |sel| && forall k :: 0 <= k < |hexes| ==> IsUuidHex(hexes[k])
    modifies desk
    ensures desk.Valid() && count == |sel|
    ensures desk.requests == ApprovedAll(old(desk.requests), sel, admin, now)
    ensures desk.refunds == RefundsAfter(old(desk.refunds), old(desk.requests), sel, hexes)
  {
    ghost var rq0, rf0 := desk.requests, desk.refunds;
    ApprovedNone(rq0, admin, now);
    var i := 0;
    while i < |sel|
      invariant 0 <= i <= |sel| && desk.Valid()
      invariant desk.requests == ApprovedAll(rq0, sel[..i], admin, now)
      invariant desk.refunds == RefundsAfter(rf0, rq0, sel[..i], hexes[..i])
    {
      ApproveStep(desk, rq0, rf0, sel, i, admin, now, hexes);
      i := i + 1;
    }
    assert sel[..|sel|] == sel && hexes[..|hexes|] == hexes;
    count := |sel|;
  }

  /** The requests after rejecting the pending ones among `sel`. */
  function RejectedAll(requests: map<string, RefundRequest>, sel: seq<string>, admin: UserId, now: Time)
    : (r: map<string, RefundRequest>)
    ensures r.Keys == requests.Keys
  {
    map n | n in requests :: if n in sel && requests[n].status == ReqPending
      then Rejected(requests[n], admin, RejectNote, now) else requests[n]
  }

  lemma RejectedAllStep(requests: map<string, RefundRequest>, pre: seq<string>, n: string, admin: UserId, now: Time)
    requires n in requests && n !in pre
    ensures RejectedAll(requests, pre + [n], admin, now) ==
      if requests[n].status == ReqPending
      then RejectedAll(requests, pre, admin, now)[n := Rejected(requests[n], admin, RejectNote, now)]
      else RejectedAll(requests, pre, admin, now)
  {
    assert forall m :: m in pre + [n] <==> m in pre || m == n;
  }

  /** Step `i` of `reject_requests`, from the state after the first `i` selected requests. */
  method RejectStep(desk: RefundDesk, ghost rq0: map<string, RefundRequest>, sel: seq<string>, i: nat,
                    admin: UserId, now: Time)
    requires IsSelection(rq0, sel) && i < |sel|
    requires desk.Valid() && desk.requests == RejectedAll(rq0, sel[..i], admin, now)
    modifies desk
    ensures desk.Valid() && desk.refunds == old(desk.refunds)
    ensures desk.requests == RejectedAll(rq0, sel[..i + 1], admin, now)
  {
    var n := sel[i];
    assert forall k :: 0 <= k < i ==> sel[k] != n;
    assert n !in sel[..i];
    assert desk.requests[n] == rq0[n];
    assert sel[..i + 1] == sel[..i] + [n];
    RejectedAllStep(rq0, sel[..i], n, admin, now);
    if desk.requests[n].status == ReqPending {
      desk.Reject(n, admin, RejectNote, now);
    }
  }

  /** `reject_requests` */
  method RejectRequests(desk: RefundDesk, sel: seq<string>, admin: UserId, now: Time) returns (count: nat)
    requires desk.Valid() && IsSelection(desk.requests, sel)
    modifies desk
    ensures desk.Valid() && count == |sel|
    ensures desk.refunds == old(desk.refunds)
    ensures desk.requests == RejectedAll(old(desk.requests), sel, admin, now)
  {
    ghost var rq0 := desk.requests;
    assert RejectedAll(rq0, [], admin, now) == rq0;
    var i := 0;
    while i < |sel|
      invariant 0 <= i <= |sel| && desk.Valid()
      invariant desk.refunds == old(desk.refunds)
      invariant desk.requests == RejectedAll(rq0, sel[..i], admin, now)
    {
      RejectStep(desk, rq0, sel, i, admin, now);
      i := i + 1;
    }
    assert sel[..|sel|] == sel;
    count := |sel|;
  }
}

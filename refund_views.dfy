/**
 * refunds/views.py: a customer's refund request on one of their delivered orders,
 * and its cancellation while still pending.
 */
module RefundViews {
  import opened Wrappers
  import opened Ids
  import opened Text
  import opened Serials
  import opened Orders
  import opened Refunds

  /** `status__in=['pending', 'approved', 'processing']` */
  predicate Open(r: RefundRequest) {
    r.status == ReqPending || r.status == ReqApproved || r.status == ReqProcessing
  }

  predicate HasOpenRequest(requests: map<string, RefundRequest>, order: string) {
    exists n :: n in requests && requests[n].order == order && Open(requests[n])
  }

  /** `order.status not in ['delivered', 'completed']`; 'completed' is not an order status, so only delivered orders qualify. */
  predicate Eligible(o: Order) { o.status == Delivered }

  /** The first item of the order with the id, if any. */
  function FindItem(items: seq<OrderItem>, id: ItemId): (r: Option<OrderItem>)
    ensures r.Some? <==> exists j :: 0 <= j < |items| && items[j].id == id
    ensures r.Some? ==> r.value in items && r.value.id == id
  {
    if items == [] then None
    else if items[0].id == id then Some(items[0])
    else
      var rest := FindItem(items[1..], id);
      assert forall j :: 1 <= j < |items| ==> items[j] == items[1..][j - 1];
      rest
  }

  /** The item subtotal when an item is named, otherwise the order total. */
  function RefundAmount(o: Order, item: Option<OrderItem>): (a: real)
    ensures item.Some? ==> a == item.value.subtotal
    ensures item.None? ==> a == o.total
  {
    if item.Some? then item.value.subtotal else o.total
  }

  datatype CreateOutcome =
    | OrderNotFound
    | NotEligible
    | AlreadyRequested
    | ShowForm
    | MissingDetails
    | ItemNotFound
    | Requested(number: string)

  /**
   * `create_refund_request`. A missing reason or description is the empty string; an
   * item id is given or not; `hex` is the uuid the request number is cut from.
   */
  method CreateRefundRequest(desk: RefundDesk, orders: map<string, Order>, user: UserId, orderNumber: string,
                             isPost: bool, reason: string, description: string, itemId: Option<ItemId>, hex: string)
    returns (o: CreateOutcome)
    requires desk.Valid() && IsUuidHex(hex) && RequestNumber(hex) !in desk.requests
    modifies desk
    ensures desk.Valid()
    ensures o == OrderNotFound <==> orderNumber !in orders || orders[orderNumber].user != user
    ensures o.Requested? <==>
      orderNumber in orders && orders[orderNumber].user == user && Eligible(orders[orderNumber])
      && !HasOpenRequest(old(desk.requests), orderNumber) && isPost && reason != "" && description != ""
      && (itemId.Some? ==> FindItem(orders[orderNumber].items, itemId.value).Some?)
    ensures !o.Requested? ==> unchanged(desk)
    ensures o.Requested? ==>
      var order := orders[orderNumber];
      var item := if itemId.Some? then FindItem(order.items, itemId.value) else None;
      && o.number == RequestNumber(hex)
      && desk.refunds == old(desk.refunds)
      && desk.requests == old(desk.requests)[o.number := RefundRequest(o.number, orderNumber,
           if item.Some? then Some(item.value.id) else None, user, reason, description,
           RefundAmount(order, item), ReqPending, "", None, None)]
  {
    if orderNumber !in orders || orders[orderNumber].user != user {
      return OrderNotFound;
    }
    var order := orders[orderNumber];
    if !Eligible(order) {
      return NotEligible;
    }
    if HasOpenRequest(desk.requests, orderNumber) {
      return AlreadyRequested;
    }
    if !isPost {
      return ShowForm;
    }
    if reason == "" || description == "" {
      return MissingDetails;
    }
    var item: Option<OrderItem> := None;
    if itemId.Some? {
      item := FindItem(order.items, itemId.value);
      if item.None? {
        return ItemNotFound;
      }
    }
    var number := RequestNumber(hex);
    var request := RefundRequest(number, orderNumber, if item.Some? then Some(item.value.id) else None,
                                 user, reason, description, RefundAmount(order, item), ReqPending, "", None, None);
    desk.requests := desk.requests[number := request];
    o := Requested(number);
  }

  /** Once a request is open for an order, no second one is accepted until it is settled. */
  lemma SecondRequestRefused(requests: map<string, RefundRequest>, number: string, r: RefundRequest)
    requires r.status == ReqPending
    ensures HasOpenRequest(requests[number := r], r.order)
  {
    assert number in requests[number := r];
  }

  datatype CancelOutcome = CancelIgnored | RequestNotFound | CancelledRequest | NotCancellable

  /** `cancel_refund_request` */
  method CancelRefundRequest(desk: RefundDesk, user: UserId, number: string, isPost: bool) returns (o: CancelOutcome)
    requires desk.Valid()
    modifies desk
    ensures desk.Valid()
    ensures o == CancelledRequest <==>
      isPost && number in old(desk.requests) && old(desk.requests)[number].user == user
      && old(desk.requests)[number].status == ReqPending
    ensures o == CancelledRequest ==>
      desk.requests == old(desk.requests)[number := old(desk.requests)[number].(status := ReqCancelled)]
      && desk.refunds == old(desk.refunds)
    ensures o != CancelledRequest ==> unchanged(desk)
  {
    if !isPost {
      return CancelIgnored;
    }
    if number !in desk.requests || desk.requests[number].user != user {
      return RequestNotFound;
    }
    if desk.requests[number].status != ReqPending {
      return NotCancellable;
    }
    desk.requests := desk.requests[number := desk.requests[number].(status := ReqCancelled)];
    o := CancelledRequest;
  }
}

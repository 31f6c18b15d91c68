/**
 * chat/views.py: the conversation list with unread counts, viewing a conversation
 * (which marks the other side's messages read), sending a message, starting a
 * conversation with a shop, archiving one, and the total unread count. Every view
 * checks that the user takes part in the conversation.
 */
module ChatViews {
  import opened Wrappers
  import opened Ids
  import opened Text
  import opened Catalog
  import opened Chat

  datatype StartOutcome = StartNotFound | OwnShop | StartCrashed | StartRedirect(cid: nat)

  /**
   * `start_conversation`. The shop must exist and be active, and its owner cannot
   * chat with it. `get_or_create(buyer, seller, shop)` reuses the conversation with
   * that buyer and shop if its seller is still the owner; if the shop changed owner,
   * the insert breaks the (buyer, shop) constraint and the view raises. A product is
   * attached only when the conversation has none and the product is the shop's;
   * saving then refreshes `updated_at`.
   */
  function StartResult(convs: seq<Conversation>, shops: map<ShopId, Shop>, products: map<ProductId, Product>,
                       user: UserId, sid: ShopId, pid: Option<ProductId>, now: Time): (seq<Conversation>, StartOutcome)
  {
    if sid !in shops || !shops[sid].isActive then (convs, StartNotFound)
    else if user == shops[sid].owner then (convs, OwnShop)
    else
      var found := FindConversation(convs, user, sid, |convs|);
      if found.Some? && convs[found.value].seller != shops[sid].owner then (convs, StartCrashed)
      else
        var cs := if found.Some? then convs else convs + [Conversation(user, shops[sid].owner, sid, None, true, now)];
        var cid := if found.Some? then found.value else |convs|;
        if pid.Some? && cs[cid].product.None? && pid.value in products && products[pid.value].shop == Some(sid)
        then (cs[cid := cs[cid].(product := Some(pid.value), updatedAt := now)], StartRedirect(cid))
        else (cs, StartRedirect(cid))
  }

  /**
   * A start redirects to a conversation between the user as buyer and the owner as
   * seller for that shop; it adds a row only if there was none for the pair, changes
   * no other row, and keeps one conversation per (buyer, shop).
   */
  lemma StartShape(convs: seq<Conversation>, shops: map<ShopId, Shop>, products: map<ProductId, Product>,
                   user: UserId, sid: ShopId, pid: Option<ProductId>, now: Time)
    requires OnePerBuyerShop(convs)
    ensures var (cs, out) := StartResult(convs, shops, products, user, sid, pid, now);
      && OnePerBuyerShop(cs)
      && (out.StartRedirect? <==> sid in shops && shops[sid].isActive && user != shops[sid].owner && out != StartCrashed)
      && (!out.StartRedirect? ==> cs == convs)
      && (out.StartRedirect? ==>
            && out.cid < |cs|
            && cs[out.cid].buyer == user && cs[out.cid].seller == shops[sid].owner && cs[out.cid].shop == sid
            && |cs| == |convs| + (if out.cid < |convs| then 0 else 1)
            && (forall k :: 0 <= k < |convs| && k != out.cid ==> cs[k] == convs[k]))
  {
    if sid in shops && shops[sid].isActive && user != shops[sid].owner {
      FindConversationMisses(convs, user, sid, |convs|);
    }
  }

  /** Starting again with the same request finds the same conversation and changes nothing. */
  lemma StartTwice(convs: seq<Conversation>, shops: map<ShopId, Shop>, products: map<ProductId, Product>,
                   user: UserId, sid: ShopId, pid: Option<ProductId>, now: Time, later: Time)
    requires OnePerBuyerShop(convs)
    requires StartResult(convs, shops, products, user, sid, pid, now).1.StartRedirect?
    ensures var (cs, out) := StartResult(convs, shops, products, user, sid, pid, now);
      StartResult(cs, shops, products, user, sid, pid, later) == (cs, out)
  {
    var (cs, out) := StartResult(convs, shops, products, user, sid, pid, now);
    StartShape(convs, shops, products, user, sid, pid, now);
    FindConversationMisses(cs, user, sid, |cs|);
    var again := FindConversation(cs, user, sid, |cs|);
    assert again == Some(out.cid);
  }

  /** The text `send_message` stores: the posted `message` field, stripped. */
  function MessageText(raw: Option<string>): string {
    Strip(raw.GetOr(""))
  }

  /** A message is blank exactly when the posted field is missing or all white space. */
  lemma MessageTextBlank(raw: Option<string>)
    ensures MessageText(raw) == [] <==> forall k :: 0 <= k < |raw.GetOr("")| ==> IsSpace(raw.GetOr("")[k])
  {
    StripBlank(raw.GetOr(""));
  }

  datatype DetailOutcome = DetailNotFound | DetailDenied | DetailShown(other: UserId)
  datatype SendOutcome = SendNotPost | SendNotFound | SendDenied | SendEmpty | Sent(id: nat)
  datatype DeleteOutcome = DeleteNotPost | DeleteNotFound | DeleteDenied | Deleted

  /** The Conversation and Message tables; ids are positions. */
  class ChatDb {
    var convs: seq<Conversation>
    var msgs: seq<Message>

    ghost predicate Valid()
      reads this
    {
      OnePerBuyerShop(convs) && forall i :: 0 <= i < |msgs| ==> msgs[i].conv < |convs|
    }

    constructor ()
      ensures Valid() && convs == [] && msgs == []
    {
      convs, msgs := [], [];
    }

    /** `conversation_list`: the listed conversations, each with its unread count for `user`. */
    method ConversationList(user: UserId) returns (rows: seq<(nat, nat)>)
      ensures var ids := ListedIds(convs, user, |convs|);
        && |rows| == |ids|
        && forall k :: 0 <= k < |ids| ==> rows[k] == (ids[k], UnreadCount(msgs, ids[k], user))
    {
      var ids := ListedIds(convs, user, |convs|);
      rows := [];
      var i := 0;
      while i < |ids|
        invariant 0 <= i <= |ids| && |rows| == i
        invariant forall k :: 0 <= k < i ==> rows[k] == (ids[k], UnreadCount(msgs, ids[k], user))
      {
        rows := rows + [(ids[i], UnreadCount(msgs, ids[i], user))];
        i := i + 1;
      }
    }

    /**
     * `conversation_detail`: an active conversation, shown only to its buyer or
     * seller, after the other side's unread messages are marked read.
     */
    method ConversationDetail(user: UserId, cid: nat, now: Time) returns (out: DetailOutcome)
      requires Valid()
      modifies this
      ensures Valid() && convs == old(convs)
      ensures out == DetailNotFound <==> cid >= |convs| || !convs[cid].isActive
      ensures out == DetailDenied <==> cid < |convs| && convs[cid].isActive && !IsParticipant(convs[cid], user)
      ensures out.DetailShown? ==> out.other == OtherUser(convs[cid], user)
      ensures msgs == if out.DetailShown? then MarkRead(old(msgs), cid, user, now) else old(msgs)
    {
      if cid >= |convs| || !convs[cid].isActive {
        return DetailNotFound;
      }
      if !IsParticipant(convs[cid], user) {
        return DetailDenied;
      }
      msgs := MarkRead(msgs, cid, user, now);
      out := DetailShown(OtherUser(convs[cid], user));
    }

    /**
     * `send_message` (POST only). Any existing conversation, archived or not, for its
     * participants; a blank text without an image is refused. The new message is
     * unread, and the conversation's `updated_at` becomes `now`.
     */
    method SendMessage(user: UserId, cid: nat, isPost: bool, raw: Option<string>, hasImage: bool, now: Time)
      returns (out: SendOutcome)
      requires Valid()
      modifies this
      ensures Valid()
      ensures out == SendNotPost <==> !isPost
      ensures out == SendNotFound <==> isPost && cid >= |old(convs)|
      ensures out == SendDenied <==> isPost && cid < |old(convs)| && !IsParticipant(old(convs)[cid], user)
      ensures out == SendEmpty <==> isPost && cid < |old(convs)| && IsParticipant(old(convs)[cid], user)
                                    && MessageText(raw) == [] && !hasImage
      ensures out.Sent? ==>
        && out.id == |old(msgs)|
        && msgs == old(msgs) + [Message(cid, user, MessageText(raw), hasImage, false, None, now)]
        && convs == old(convs)[cid := old(convs)[cid].(updatedAt := now)]
      ensures !out.Sent? ==> msgs == old(msgs) && convs == old(convs)
    {
      if !isPost {
        return SendNotPost;
      }
      if cid >= |convs| {
        return SendNotFound;
      }
      if !IsParticipant(convs[cid], user) {
        return SendDenied;
      }
      var text := MessageText(raw);
      if text == [] && !hasImage {
        return SendEmpty;
      }
      var m := Message(cid, user, text, hasImage, false, None, now);
      OnePerBuyerShopKeep(convs, cid, convs[cid].(updatedAt := now));
      out := Sent(|msgs|);
      msgs := msgs + [m];
      convs := convs[cid := convs[cid].(updatedAt := now)];
    }

    /** `start_conversation` */
    method StartConversation(shops: map<ShopId, Shop>, products: map<ProductId, Product>, user: UserId,
                             sid: ShopId, pid: Option<ProductId>, now: Time) returns (out: StartOutcome)
      requires Valid()
      modifies this
      ensures Valid() && msgs == old(msgs)
      ensures (convs, out) == StartResult(old(convs), shops, products, user, sid, pid, now)
    {
      StartShape(convs, shops, products, user, sid, pid, now);
      var (cs, o) := StartResult(convs, shops, products, user, sid, pid, now);
      if sid !in shops || !shops[sid].isActive {
        return StartNotFound;
      }
      if user == shops[sid].owner {
        return OwnShop;
      }
      var found := FindConversation(convs, user, sid, |convs|);
      if found.Some? && convs[found.value].seller != shops[sid].owner {
        return StartCrashed;
      }
      var cid := |convs|;
      if found.None? {
        convs := convs + [Conversation(user, shops[sid].owner, sid, None, true, now)];
      } else {
        cid := found.value;
      }
      if pid.Some? && convs[cid].product.None? && pid.value in products && products[pid.value].shop == Some(sid) {
        convs := convs[cid := convs[cid].(product := Some(pid.value), updatedAt := now)];
      }
      out := StartRedirect(cid);
    }

    /** `delete_conversation` (POST only): a participant archives the conversation. */
    method DeleteConversation(user: UserId, cid: nat, isPost: bool, now: Time) returns (out: DeleteOutcome)
      requires Valid()
      modifies this
      ensures Valid() && msgs == old(msgs)
      ensures out == DeleteNotPost <==> !isPost
      ensures out == DeleteNotFound <==> isPost && cid >= |old(convs)|
      ensures out == DeleteDenied <==> isPost && cid < |old(convs)| && !IsParticipant(old(convs)[cid], user)
      ensures convs == if out == Deleted then old(convs)[cid := old(convs)[cid].(isActive := false, updatedAt := now)]
                       else old(convs)
    {
      if !isPost {
        return DeleteNotPost;
      }
      if cid >= |convs| {
        return DeleteNotFound;
      }
      if !IsParticipant(convs[cid], user) {
        return DeleteDenied;
      }
      OnePerBuyerShopKeep(convs, cid, convs[cid].(isActive := false, updatedAt := now));
      convs := convs[cid := convs[cid].(isActive := false, updatedAt := now)];
      out := Deleted;
    }

    /** `get_unread_count` */
    method GetUnreadCount(user: UserId) returns (count: nat)
      ensures count == TotalUnread(convs, msgs, user)
    {
      count := TotalUnread(convs, msgs, user);
    }
  }
}

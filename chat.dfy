/**
 * chat/models.py: conversations between a buyer and a shop's owner, one per
 * (buyer, shop), and their messages with a read flag. `unread_count` and
 * `last_message` are computed over the message rows.
 */
module Chat {
  import opened Wrappers
  import opened Ids

  datatype Conversation = Conversation(
    buyer: UserId,
    seller: UserId,
    shop: ShopId,
    product: Option<ProductId>,
    isActive: bool,
    updatedAt: Time)

  /** A Message row; `conv` is its conversation's position in the conversation table. */
  datatype Message = Message(
    conv: nat,
    sender: UserId,
    text: string,
    hasImage: bool,
    isRead: bool,
    readAt: Option<Time>,
    createdAt: Time)

  /** `request.user in [conversation.buyer, conversation.seller]` */
  predicate IsParticipant(c: Conversation, user: UserId) {
    user == c.buyer || user == c.seller
  }

  /** `unique_together = ['buyer', 'shop']` */
  predicate OnePerBuyerShop(convs: seq<Conversation>) {
    forall i, j :: 0 <= i < j < |convs| ==> convs[i].buyer != convs[j].buyer || convs[i].shop != convs[j].shop
  }

  /** Rewriting a row without changing its buyer or shop keeps the pairs unique. */
  lemma OnePerBuyerShopKeep(convs: seq<Conversation>, i: nat, c: Conversation)
    requires OnePerBuyerShop(convs) && i < |convs|
    requires c.buyer == convs[i].buyer && c.shop == convs[i].shop
    ensures OnePerBuyerShop(convs[i := c])
  {
    var r := convs[i := c];
    forall a, b | 0 <= a < b < |r|
      ensures r[a].buyer != r[b].buyer || r[a].shop != r[b].shop
    {
      assert r[a].buyer == convs[a].buyer && r[a].shop == convs[a].shop;
      assert r[b].buyer == convs[b].buyer && r[b].shop == convs[b].shop;
    }
  }

  /** A message `user` still has to read: unread and sent by someone else. */
  predicate UnreadFor(m: Message, user: UserId) {
    !m.isRead && m.sender != user
  }

  /** `conversation.unread_count(user)` */
  function UnreadCount(msgs: seq<Message>, cid: nat, user: UserId): nat {
    if msgs == [] then 0
    else (if msgs[0].conv == cid && UnreadFor(msgs[0], user) then 1 else 0) + UnreadCount(msgs[1..], cid, user)
  }

  /**
   * `get_unread_count`: unread messages not sent by `user` in every conversation
   * where `user` is buyer or seller, archived ones included.
   */
  function TotalUnread(convs: seq<Conversation>, msgs: seq<Message>, user: UserId): nat {
    if msgs == [] then 0
    else
      var m := msgs[0];
      (if m.conv < |convs| && IsParticipant(convs[m.conv], user) && UnreadFor(m, user) then 1 else 0)
      + TotalUnread(convs, msgs[1..], user)
  }

  /**
   * `last_message`: messages are ordered newest first, so `first()` is a message of
   * the conversation with the latest `created_at`.
   */
  function LastMessage(msgs: seq<Message>, cid: nat): Option<Message> {
    if msgs == [] then None
    else
      var rest := LastMessage(msgs[1..], cid);
      if msgs[0].conv != cid then rest
      else if rest.Some? && rest.value.createdAt > msgs[0].createdAt then rest
      else Some(msgs[0])
  }

  /** There is a last message exactly when the conversation has one, and none is newer. */
  lemma {:induction false} LastMessageNewest(msgs: seq<Message>, cid: nat)
    ensures LastMessage(msgs, cid).None? <==> forall i :: 0 <= i < |msgs| ==> msgs[i].conv != cid
    ensures LastMessage(msgs, cid).Some? ==>
      var last := LastMessage(msgs, cid).value;
      && last in msgs && last.conv == cid
      && forall i :: 0 <= i < |msgs| && msgs[i].conv == cid ==> msgs[i].createdAt <= last.createdAt
  {
    if msgs != [] {
      LastMessageNewest(msgs[1..], cid);
      assert forall i :: 1 <= i < |msgs| ==> msgs[i] == msgs[1..][i - 1];
    }
  }

  /** `other_user`: the seller when the viewer is the buyer, the buyer for anyone else. */
  function OtherUser(c: Conversation, user: UserId): (other: UserId)
    ensures IsParticipant(c, other)
    ensures user == c.buyer ==> other == c.seller
    ensures user != c.buyer ==> other == c.buyer
  {
    if user == c.buyer then c.seller else c.buyer
  }

  /**
   * The bulk update of `conversation_detail`: every unread message of the
   * conversation sent by someone other than the viewer becomes read at `now`.
   */
  function MarkRead(msgs: seq<Message>, cid: nat, user: UserId, now: Time): (r: seq<Message>)
    ensures |r| == |msgs|
    ensures forall i :: 0 <= i < |msgs| ==>
      if msgs[i].conv == cid && UnreadFor(msgs[i], user)
      then r[i] == msgs[i].(isRead := true, readAt := Some(now))
      else r[i] == msgs[i]
  {
    seq(|msgs|, i requires 0 <= i < |msgs| =>
      if msgs[i].conv == cid && UnreadFor(msgs[i], user) then msgs[i].(isRead := true, readAt := Some(now)) else msgs[i])
  }

  lemma MarkReadTail(msgs: seq<Message>, cid: nat, user: UserId, now: Time)
    requires msgs != []
    ensures MarkRead(msgs, cid, user, now)[1..] == MarkRead(msgs[1..], cid, user, now)
  {
  }

  /**
   * After viewing, the viewer has nothing unread in that conversation, and the counts
   * of every other conversation are as they were.
   */
  lemma {:induction false} MarkReadClears(msgs: seq<Message>, cid: nat, user: UserId, now: Time, other: nat)
    ensures UnreadCount(MarkRead(msgs, cid, user, now), cid, user) == 0
    ensures other != cid ==> UnreadCount(MarkRead(msgs, cid, user, now), other, user) == UnreadCount(msgs, other, user)
  {
    if msgs != [] {
      MarkReadTail(msgs, cid, user, now);
      MarkReadClears(msgs[1..], cid, user, now, other);
    }
  }

  /**
   * Viewing a conversation one takes part in lowers the total unread count by exactly
   * that conversation's unread count.
   */
  lemma {:induction false} TotalUnreadAfterView(convs: seq<Conversation>, msgs: seq<Message>, cid: nat,
                                                user: UserId, now: Time)
    requires cid < |convs| && IsParticipant(convs[cid], user)
    ensures TotalUnread(convs, MarkRead(msgs, cid, user, now), user) + UnreadCount(msgs, cid, user)
         == TotalUnread(convs, msgs, user)
  {
    if msgs != [] {
      MarkReadTail(msgs, cid, user, now);
      TotalUnreadAfterView(convs, msgs[1..], cid, user, now);
    }
  }

  /** The conversations `conversation_list` shows: active ones with `user` as buyer or seller. */
  predicate Listed(c: Conversation, user: UserId) {
    c.isActive && IsParticipant(c, user)
  }

  /** The positions of the listed conversations among the first `n`, in table order. */
  function ListedIds(convs: seq<Conversation>, user: UserId, n: nat): seq<nat>
    requires n <= |convs|
  {
    if n == 0 then []
    else ListedIds(convs, user, n - 1) + (if Listed(convs[n - 1], user) then [n - 1] else [])
  }

  /** Exactly the listed conversations appear, each once, in table order. */
  lemma {:induction false} ListedIdsExact(convs: seq<Conversation>, user: UserId, n: nat)
    requires n <= |convs|
    ensures forall k: nat :: k in ListedIds(convs, user, n) <==> k < n && Listed(convs[k], user)
    ensures forall i, j :: 0 <= i < j < |ListedIds(convs, user, n)| ==>
      ListedIds(convs, user, n)[i] < ListedIds(convs, user, n)[j]
  {
    if n > 0 {
      ListedIdsExact(convs, user, n - 1);
      var prev := ListedIds(convs, user, n - 1);
      var tail: seq<nat> := if Listed(convs[n - 1], user) then [n - 1] else [];
      assert ListedIds(convs, user, n) == prev + tail;
      assert forall k :: k in prev + tail <==> k in prev || k in tail;
      assert forall i :: 0 <= i < |prev| ==> prev[i] in prev;
    }
  }

  /** The conversation `get_or_create` would find for (buyer, shop), searching the first `n`. */
  function FindConversation(convs: seq<Conversation>, buyer: UserId, shop: ShopId, n: nat): (r: Option<nat>)
    requires n <= |convs|
    ensures r.Some? ==> r.value < n && convs[r.value].buyer == buyer && convs[r.value].shop == shop
  {
    if n == 0 then None
    else if convs[n - 1].buyer == buyer && convs[n - 1].shop == shop then Some(n - 1)
    else FindConversation(convs, buyer, shop, n - 1)
  }

  /** The search misses only when no conversation has that buyer and shop. */
  lemma {:induction false} FindConversationMisses(convs: seq<Conversation>, buyer: UserId, shop: ShopId, n: nat)
    requires n <= |convs|
    ensures FindConversation(convs, buyer, shop, n).None? <==>
      forall k :: 0 <= k < n ==> convs[k].buyer != buyer || convs[k].shop != shop
  {
    if n > 0 {
      FindConversationMisses(convs, buyer, shop, n - 1);
    }
  }
}

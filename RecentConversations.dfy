/**
 * The older recent-conversations list: an inbound chat message from someone other than us or
 * the active partner looks the sender up and moves them to the top of the shared partner list.
 */
module RecentConversations {
  import opened Types
  import opened Strings
  import opened WebStorage
  import opened ChatPartnersProvider
  import Utils

  /** Messages the list ignores: sent by the stored logged-in user, or by the active partner. */
  predicate Ignored(msg: Message, local: map<string, Stored>, active: Option<User>) {
    Utils.GetLoggedInUserId(local) == Some(Int(msg.senderId)) ||
    (active.Some? && active.value.id == msg.senderId)
  }

  /**
   * The partner list after a push event, given the reply to `GET /api/users/{senderId}` (only
   * consulted when the message is not ignored). The looked-up user goes first and every entry
   * with that user's id is dropped from the rest.
   */
  function Reorder(partners: seq<User>, ev: Option<WsPayload>, local: map<string, Stored>,
                   active: Option<User>, reply: Reply<User>): (r: seq<User>)
    ensures r != partners ==> IsChatReceive(ev) && !Ignored(ev.value.msgData, local, active) && reply.Succeeded()
    ensures forall u :: u in r ==> u in partners || (reply.Reply? && u == reply.data)
  {
    if !IsChatReceive(ev) || Ignored(ev.value.msgData, local, active) then partners
    else if reply.Succeeded() then Promote(partners, reply.data.id, reply.data)
    else partners
  }

  /** A non-chat event, an ignored message, or a lookup that fails leaves the list as it was. */
  lemma ReorderKeepsListUnlessLookedUp(partners: seq<User>, ev: Option<WsPayload>, local: map<string, Stored>,
                                       active: Option<User>, reply: Reply<User>)
    requires !IsChatReceive(ev) || Ignored(ev.value.msgData, local, active) || !reply.Succeeded()
    ensures Reorder(partners, ev, local, active, reply) == partners
  {
  }

  /** A message we sent ourselves never moves anyone, once our id is stored. */
  lemma OwnMessagesIgnored(partners: seq<User>, ev: Option<WsPayload>, local: map<string, Stored>,
                           active: Option<User>, reply: Reply<User>)
    requires IsChatReceive(ev)
    requires Utils.LoggedInUserIdKey in local
    requires local[Utils.LoggedInUserIdKey] == Raw(IntToString(ev.value.msgData.senderId))
    ensures Reorder(partners, ev, local, active, reply) == partners
  {
    Utils.SavedUserIdReadsBack(local, ev.value.msgData.senderId);
    assert local[Utils.LoggedInUserIdKey := Raw(IntToString(ev.value.msgData.senderId))] == local;
  }

  /**
   * Otherwise the looked-up user heads the list and occurs there exactly once, every other id
   * occurs as often as before, and the rest keeps its old order; a duplicate-free list stays so.
   */
  lemma ReorderPutsSenderFirst(partners: seq<User>, ev: Option<WsPayload>, local: map<string, Stored>,
                               active: Option<User>, reply: Reply<User>, x: int)
    requires IsChatReceive(ev) && !Ignored(ev.value.msgData, local, active) && reply.Succeeded()
    ensures var r := Reorder(partners, ev, local, active, reply);
            |r| > 0 && r[0] == reply.data && SubsequenceOf(r[1..], partners) &&
            CountId(r, x) == (if x == reply.data.id then 1 else CountId(partners, x))
    ensures DistinctIds(partners) ==> DistinctIds(Reorder(partners, ev, local, active, reply))
  {
    PromotedOnceAtHead(partners, reply.data, x);
    if DistinctIds(partners) {
      PromoteKeepsDistinct(partners, reply.data);
    }
  }
}

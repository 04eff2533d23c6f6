/**
 * The newer chat-partner context: the list of chat partners (most recently active first),
 * kept up to date by inbound chat messages, and the active partner persisted in localStorage.
 */
module ChatPartnersProvider {
  import opened Types
  import opened WebStorage
  import Fetchers

  const ActiveChatPartnerKey: string := "activeChatPartner"

  /** Number of entries of `ps` with id `id`. */
  function CountId(ps: seq<User>, id: int): nat {
    if ps == [] then 0 else (if ps[0].id == id then 1 else 0) + CountId(ps[1..], id)
  }

  /** No id occurs twice in the list. */
  ghost predicate DistinctIds(ps: seq<User>) {
    forall id :: CountId(ps, id) <= 1
  }

  /** `ps.filter((p) => p.id !== id)`. */
  function WithoutId(ps: seq<User>, id: int): (r: seq<User>)
    ensures forall u :: u in r <==> u in ps && u.id != id
  {
    if ps == [] then [] else (if ps[0].id == id then [] else [ps[0]]) + WithoutId(ps[1..], id)
  }

  /** `a` is `b` with some entries left out and the rest in their original order. */
  predicate SubsequenceOf(a: seq<User>, b: seq<User>)
    decreases |b|
  {
    a == [] || (b != [] && if a[0] == b[0] then SubsequenceOf(a[1..], b[1..]) else SubsequenceOf(a, b[1..]))
  }

  /** `[user, ...ps.filter((p) => p.id !== id)]`: the looked-up user first, then the others in their old order. */
  function Promote(ps: seq<User>, id: int, user: User): seq<User> {
    [user] + WithoutId(ps, id)
  }

  /**
   * The partner an event asks to promote: none for a missing or non-chat event, and none when
   * the list is non-empty and the other party of the message is already its head.
   */
  function PartnerToPromote(ps: seq<User>, ev: Option<WsPayload>, ourId: int): (p: Option<int>)
    ensures !IsChatReceive(ev) ==> p == None
    ensures IsChatReceive(ev) ==>
              p == (if |ps| > 0 && ps[0].id == OtherParty(ev.value.msgData, ourId) then None
                    else Some(OtherParty(ev.value.msgData, ourId)))
  {
    if !IsChatReceive(ev) then None
    else
      var id := OtherParty(ev.value.msgData, ourId);
      if |ps| > 0 && ps[0].id == id then None else Some(id)
  }

  /** `data ? JSON.parse(data) : null` for the stored active partner. */
  function StoredPartner(local: map<string, Stored>): Option<User> {
    match Lookup(local, ActiveChatPartnerKey)
    case Some(UserRecord(u)) => Some(u)
    case _ => None
  }

  class ChatPartners {
    var loading: bool
    var partners: seq<User>
    var activePartner: Option<User>
    const local: Storage
    const session: Storage

    /** Initial state: loading, no partners, and the active partner read back from localStorage. */
    constructor (local: Storage, session: Storage)
      ensures this.local == local && this.session == session
      ensures loading && partners == []
      ensures activePartner == StoredPartner(local.items)
    {
      this.local := local;
      this.session := session;
      loading := true;
      partners := [];
      activePartner := StoredPartner(local.items);
    }

    /** Completion of the initial `/api/chat-partners` request. */
    method LoadPartners(reply: Reply<Option<seq<User>>>) returns (navigateTo: Option<string>)
      modifies this`loading, this`partners
      ensures !loading
      ensures partners == (if reply.Succeeded() then reply.data.GetOr([]) else old(partners))
      ensures navigateTo == (if reply.Reply? && !reply.ok && reply.status == 401 then Some(GetStartedRoute) else None)
    {
      navigateTo := None;
      if reply.Succeeded() {
        partners := reply.data.GetOr([]);
      } else if reply.Reply? && reply.status == 401 {
        navigateTo := Some(GetStartedRoute);
      }
      loading := false;
    }

    /**
     * A push event: a chat message whose other party is not already on top looks that user up
     * (cache first) and, if the lookup resolves, moves them to the front.
     */
    method OnMessage(ev: Option<WsPayload>, ourId: int, reply: Reply<User>)
      modifies this`partners, session
      ensures PartnerToPromote(old(partners), ev, ourId).None? ==>
                partners == old(partners) && session.items == old(session.items)
      ensures PartnerToPromote(old(partners), ev, ourId).Some? ==>
                var id := PartnerToPromote(old(partners), ev, ourId).value;
                var (r, items) := Fetchers.UserFetch(old(session.items), id, true, reply);
                session.items == items &&
                partners == (if r.Resolved? then Promote(old(partners), id, r.value) else old(partners))
    {
      var promote := PartnerToPromote(partners, ev, ourId);
      if promote.None? {
        return;
      }
      var id := promote.value;
      var r := Fetchers.FetchUserInfo(session, id, true, reply);
      if r.Resolved? {
        partners := Promote(partners, id, r.value);
      }
    }

    /** Persists the partner to localStorage, then makes it the active one. */
    method SetActivePartner(partner: User)
      modifies this`activePartner, local
      ensures local.items == old(local.items)[ActiveChatPartnerKey := UserRecord(partner)]
      ensures activePartner == Some(partner)
      ensures StoredPartner(local.items) == activePartner
    {
      local.SetItem(ActiveChatPartnerKey, UserRecord(partner));
      activePartner := Some(partner);
    }
  }

  // ---------------------------------------------------------------- properties

  lemma {:induction false} CountWithoutId(ps: seq<User>, id: int, x: int)
    ensures CountId(WithoutId(ps, id), x) == (if x == id then 0 else CountId(ps, x))
  {
    if ps != [] {
      CountWithoutId(ps[1..], id, x);
      var head := if ps[0].id == id then [] else [ps[0]];
      assert WithoutId(ps, id) == head + WithoutId(ps[1..], id);
      CountAppend(head, WithoutId(ps[1..], id), x);
    }
  }

  lemma {:induction false} CountAppend(a: seq<User>, b: seq<User>, x: int)
    ensures CountId(a + b, x) == CountId(a, x) + CountId(b, x)
  {
    if a != [] {
      assert (a + b)[0] == a[0] && (a + b)[1..] == a[1..] + b;
      CountAppend(a[1..], b, x);
    } else {
      assert a + b == b;
    }
  }

  lemma {:induction false} LengthWithoutId(ps: seq<User>, id: int)
    ensures |WithoutId(ps, id)| == |ps| - CountId(ps, id)
  {
    if ps != [] {
      LengthWithoutId(ps[1..], id);
    }
  }

  /** Filtering keeps the remaining entries in their original order. */
  lemma {:induction false} WithoutIdKeepsOrder(ps: seq<User>, id: int)
    ensures SubsequenceOf(WithoutId(ps, id), ps)
  {
    if ps != [] {
      WithoutIdKeepsOrder(ps[1..], id);
      var rest := WithoutId(ps[1..], id);
      if ps[0].id == id {
        assert WithoutId(ps, id) == rest;
        if rest != [] {
          assert rest[0] in rest && rest[0].id != id;
          assert rest[0] != ps[0];
        }
      } else {
        assert WithoutId(ps, id)[1..] == rest;
      }
    }
  }

  /**
   * After a promotion the promoted id occurs exactly once, at the head, every other id occurs
   * as often as before, and the entries behind the head keep their old order.
   */
  lemma PromotedOnceAtHead(ps: seq<User>, user: User, x: int)
    ensures Promote(ps, user.id, user)[0] == user
    ensures CountId(Promote(ps, user.id, user), x) == (if x == user.id then 1 else CountId(ps, x))
    ensures SubsequenceOf(Promote(ps, user.id, user)[1..], ps)
  {
    var r := Promote(ps, user.id, user);
    assert r[1..] == WithoutId(ps, user.id);
    CountWithoutId(ps, user.id, x);
    WithoutIdKeepsOrder(ps, user.id);
  }

  /** A duplicate-free list stays duplicate-free, and grows by one exactly when the id was absent. */
  lemma PromoteKeepsDistinct(ps: seq<User>, user: User)
    requires DistinctIds(ps)
    ensures DistinctIds(Promote(ps, user.id, user))
    ensures |Promote(ps, user.id, user)| == if CountId(ps, user.id) == 0 then |ps| + 1 else |ps|
  {
    forall x ensures CountId(Promote(ps, user.id, user), x) <= 1 {
      PromotedOnceAtHead(ps, user, x);
    }
    LengthWithoutId(ps, user.id);
    assert CountId(ps, user.id) <= 1;
  }

  /**
   * Once the other party of a message has been promoted, the same event again is a no-op:
   * the partner is already on top.
   */
  lemma PromotionSettles(ps: seq<User>, ev: Option<WsPayload>, ourId: int, user: User)
    requires IsChatReceive(ev) && user.id == OtherParty(ev.value.msgData, ourId)
    ensures PartnerToPromote(Promote(ps, user.id, user), ev, ourId) == None
  {
  }
}

/**
 * The connections view: incoming or outgoing friend requests, shown as the list of the users
 * on the other side, each looked up in order through the cache-first user fetcher.
 */
module Connections {
  import opened Types
  import opened Strings
  import opened WebStorage
  import opened Fetchers

  datatype FriendRequest = FriendRequest(requestorId: int, receiverId: int)

  /** The `type` query parameter of `GET /api/friend-requests`. */
  function RequestType(showIncoming: bool): string {
    if showIncoming then "received" else "sent"
  }

  /** The user on the other side of a request: its requestor when incoming, its receiver when outgoing. */
  function OtherUserId(req: FriendRequest, showIncoming: bool): int {
    if showIncoming then req.requestorId else req.receiverId
  }

  function OtherUserIds(reqs: seq<FriendRequest>, showIncoming: bool): (ids: seq<int>)
    ensures |ids| == |reqs|
    ensures forall k :: 0 <= k < |reqs| ==> ids[k] == OtherUserId(reqs[k], showIncoming)
  {
    seq(|reqs|, k requires 0 <= k < |reqs| => OtherUserId(reqs[k], showIncoming))
  }

  /**
   * Looking the ids up one after the other, each through `fetchUserInfo` with the server's
   * reply for that id: all the users in order, or a rejection at the first lookup that fails.
   */
  function LookupAll(items: map<string, Stored>, ids: seq<int>, server: int -> Reply<User>)
    : (Outcome<seq<User>>, map<string, Stored>)
    decreases |ids|
  {
    if ids == [] then (Resolved([]), items)
    else
      var (r, items1) := UserFetch(items, ids[0], true, server(ids[0]));
      if r.Rejected? then (Rejected, items1)
      else Prepend(r.value, LookupAll(items1, ids[1..], server))
  }

  /** Puts `u` in front of a resolved list; a rejection stays one. */
  function Prepend(u: User, res: (Outcome<seq<User>>, map<string, Stored>)): (Outcome<seq<User>>, map<string, Stored>) {
    (if res.0.Resolved? then Resolved([u] + res.0.value) else Rejected, res.1)
  }

  /** `acc` in front of a resolved list; a rejection stays one. */
  function PrependAll(acc: seq<User>, res: (Outcome<seq<User>>, map<string, Stored>))
    : (Outcome<seq<User>>, map<string, Stored>)
  {
    (if res.0.Resolved? then Resolved(acc + res.0.value) else Rejected, res.1)
  }

  lemma PrependAllNothing(res: (Outcome<seq<User>>, map<string, Stored>))
    ensures PrependAll([], res) == res
  {
    if res.0.Resolved? {
      assert [] + res.0.value == res.0.value;
    }
  }

  lemma PrependAllStep(acc: seq<User>, u: User, res: (Outcome<seq<User>>, map<string, Stored>))
    ensures PrependAll(acc, Prepend(u, res)) == PrependAll(acc + [u], res)
  {
    if res.0.Resolved? {
      assert acc + ([u] + res.0.value) == (acc + [u]) + res.0.value;
    }
  }

  class Connections {
    var loading: bool
    var showIncoming: bool
    var requestors: seq<User>
    const session: Storage

    constructor (session: Storage)
      ensures this.session == session
      ensures loading && showIncoming && requestors == []
    {
      this.session := session;
      loading := true;
      showIncoming := true;
      requestors := [];
    }

    /** The direction button, disabled while loading. */
    method Toggle()
      modifies this`showIncoming
      ensures showIncoming == if old(loading) then old(showIncoming) else !old(showIncoming)
    {
      if !loading {
        showIncoming := !showIncoming;
      }
    }

    /**
     * The load effect for the current direction, given the reply to the request list and the
     * server's reply to each user lookup. The list is replaced only when every lookup resolves;
     * lookups that resolved before a failure have still been cached.
     */
    method Load(reply: Reply<Option<seq<FriendRequest>>>, server: int -> Reply<User>) returns (request: Request)
      modifies this`loading, this`requestors, session
      ensures request == Request("GET", "/api/friend-requests?type=" + RequestType(showIncoming), None)
      ensures !loading
      ensures !reply.Succeeded() ==> requestors == old(requestors) && session.items == old(session.items)
      ensures reply.Succeeded() ==>
                var (r, items) := LookupAll(old(session.items), OtherUserIds(reply.data.GetOr([]), showIncoming), server);
                session.items == items && requestors == (if r.Resolved? then r.value else old(requestors))
    {
      loading := true;
      request := Request("GET", "/api/friend-requests?type=" + RequestType(showIncoming), None);
      if !reply.Succeeded() {
        loading := false;
        return;
      }
      var reqs := reply.data.GetOr([]);
      ghost var ids := OtherUserIds(reqs, showIncoming);
      ghost var start := session.items;
      assert start == old(session.items);
      var found: seq<User> := [];
      var i := 0;
      PrependAllNothing(LookupAll(start, ids, server));
      while i < |reqs|
        invariant 0 <= i <= |reqs|
        invariant requestors == old(requestors)
        invariant LookupAll(start, ids, server) == PrependAll(found, LookupAll(session.items, ids[i..], server))
      {
        var otherUserId := if showIncoming then reqs[i].requestorId else reqs[i].receiverId;
        assert ids[i..][0] == otherUserId && ids[i..][1..] == ids[i + 1..];
        ghost var before := session.items;
        var user := FetchUserInfo(session, otherUserId, true, server(otherUserId));
        assert LookupAll(before, ids[i..], server) ==
               if user.Rejected? then (Rejected, session.items)
               else Prepend(user.value, LookupAll(session.items, ids[i + 1..], server));
        if user.Rejected? {
          assert LookupAll(start, ids, server) == (Rejected, session.items);
          loading := false;
          return;
        }
        PrependAllStep(found, user.value, LookupAll(session.items, ids[i + 1..], server));
        found := found + [user.value];
        i := i + 1;
      }
      assert ids[i..] == [];
      assert found + [] == found;
      requestors := found;
      loading := false;
    }
  }

  // ---------------------------------------------------------------- properties

  /** Every user record cached under `user-{id}` is the user with that id. */
  ghost predicate CacheConsistent(items: map<string, Stored>) {
    forall id :: UserKey(id) in items && items[UserKey(id)].UserRecord? ==> items[UserKey(id)].user.id == id
  }

  /** The server answers a lookup of an id with the user of that id. */
  ghost predicate ServerConsistent(server: int -> Reply<User>) {
    forall id :: server(id).Succeeded() ==> server(id).data.id == id
  }

  /**
   * With a consistent cache and server, a resolved lookup gives one user per id, in order, each
   * with the id asked for, and leaves the cache consistent.
   */
  lemma {:induction false} LookupAllInOrder(items: map<string, Stored>, ids: seq<int>, server: int -> Reply<User>)
    requires CacheConsistent(items) && ServerConsistent(server)
    ensures var (r, items') := LookupAll(items, ids, server);
            CacheConsistent(items') &&
            (r.Resolved? ==> |r.value| == |ids| && forall k :: 0 <= k < |ids| ==> r.value[k].id == ids[k])
    decreases |ids|
  {
    if ids != [] {
      var (r, items1) := UserFetch(items, ids[0], true, server(ids[0]));
      forall id | UserKey(id) in items1 && items1[UserKey(id)].UserRecord?
        ensures items1[UserKey(id)].user.id == id
      {
        KeysAreDistinct(id, ids[0]);
      }
      if r.Resolved? {
        assert r.value.id == ids[0];
        LookupAllInOrder(items1, ids[1..], server);
      }
    }
  }

  /** A successful reply without a `friendRequests` field gives the empty list without any lookup. */
  lemma MissingRequestsAreEmpty(items: map<string, Stored>, showIncoming: bool, server: int -> Reply<User>)
    ensures LookupAll(items, OtherUserIds([], showIncoming), server) == (Resolved([]), items)
  {
    assert OtherUserIds([], showIncoming) == [];
  }

  /** A lookup that fails for an id not cached and not asked for earlier rejects the whole load. */
  lemma {:induction false} FailedLookupRejects(items: map<string, Stored>, ids: seq<int>, server: int -> Reply<User>, k: int)
    requires 0 <= k < |ids| && !server(ids[k]).Succeeded()
    requires UserKey(ids[k]) !in items && ids[k] !in ids[..k]
    ensures LookupAll(items, ids, server).0 == Rejected
    decreases |ids|
  {
    var (r, items1) := UserFetch(items, ids[0], true, server(ids[0]));
    if k > 0 && r.Resolved? {
      assert ids[0] in ids[..k];
      KeysAreDistinct(ids[k], ids[0]);
      assert ids[1..][k - 1] == ids[k] && ids[1..][..k - 1] == ids[1..k];
      assert forall x :: x in ids[1..k] ==> x in ids[..k];
      FailedLookupRejects(items1, ids[1..], server, k - 1);
    }
  }
}

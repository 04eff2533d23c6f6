/**
 * Cache-first readers over sessionStorage: each looks its key up first (unless told not to),
 * otherwise asks the server and, on success, writes what it got under the key before
 * resolving with it. A failed request rejects and writes nothing.
 */
module Fetchers {
  import opened Types
  import opened Strings
  import opened WebStorage

  /** How a fetcher's promise settles; the rejection text is only logged, so it is not kept. */
  datatype Outcome<T> = Resolved(value: T) | Rejected

  const ChatPartnersKey: string := "chatPartners"

  /** Key shared by `fetchUserInfo` and `fetchUser`. */
  function UserKey(id: int): string {
    "user-" + IntToString(id)
  }

  function MessagesKey(partnerId: int): string {
    "messages-" + IntToString(partnerId)
  }

  function AsUser(v: Stored): Option<User> {
    if v.UserRecord? then Some(v.user) else None
  }

  function AsUsers(v: Stored): Option<seq<User>> {
    if v.UserList? then Some(v.users) else None
  }

  function AsMessages(v: Stored): Option<seq<Message>> {
    if v.MessageList? then Some(v.messages) else None
  }

  /** The request's own outcome: it resolves only when the reply says `ok`. */
  function Settle<T>(reply: Reply<T>): Outcome<T> {
    if reply.Succeeded() then Resolved(reply.data) else Rejected
  }

  /** `payload.field || []` on a successful reply. */
  function SettleList<T>(reply: Reply<Option<seq<T>>>): Outcome<seq<T>> {
    if reply.Succeeded() then Resolved(reply.data.GetOr([])) else Rejected
  }

  /**
   * The common shape of the four fetchers: given the outcome the request would have, the
   * outcome of the call and the store afterwards.
   */
  function CacheFirst<T>(items: map<string, Stored>, key: string, useCache: bool,
                         decode: Stored -> Option<T>, encode: T -> Stored,
                         fetched: Outcome<T>): (r: (Outcome<T>, map<string, Stored>))
    ensures r.1.Keys <= items.Keys + {key}
    ensures forall k :: k in items && k != key ==> k in r.1 && r.1[k] == items[k]
    ensures r.0.Rejected? ==> fetched.Rejected? && r.1 == items
  {
    if useCache && key in items && decode(items[key]).Some? then
      (Resolved(decode(items[key]).value), items)
    else if fetched.Resolved? then
      (fetched, items[key := encode(fetched.value)])
    else
      (Rejected, items)
  }

  function UserFetch(items: map<string, Stored>, userId: int, useCache: bool, reply: Reply<User>)
    : (Outcome<User>, map<string, Stored>)
  {
    CacheFirst(items, UserKey(userId), useCache, AsUser, (u: User) => UserRecord(u), Settle(reply))
  }

  function PartnersFetch(items: map<string, Stored>, useCache: bool, reply: Reply<Option<seq<User>>>)
    : (Outcome<seq<User>>, map<string, Stored>)
  {
    CacheFirst(items, ChatPartnersKey, useCache, AsUsers, (us: seq<User>) => UserList(us), SettleList(reply))
  }

  function MessagesFetch(items: map<string, Stored>, partnerId: int, useCache: bool,
                         reply: Reply<Option<seq<Message>>>)
    : (Outcome<seq<Message>>, map<string, Stored>)
  {
    CacheFirst(items, MessagesKey(partnerId), useCache, AsMessages,
               (ms: seq<Message>) => MessageList(ms), SettleList(reply))
  }

  // ---------------------------------------------------------------- the fetchers

  method FetchUserInfo(session: Storage, userId: int, useCache: bool, reply: Reply<User>)
    returns (r: Outcome<User>)
    modifies session
    ensures (r, session.items) == UserFetch(old(session.items), userId, useCache, reply)
  {
    var key := UserKey(userId);
    if useCache {
      var data := Lookup(session.items, key);
      if data.Some? && AsUser(data.value).Some? {
        return Resolved(AsUser(data.value).value);
      }
    }
    if reply.Succeeded() {
      var user := reply.data;
      session.SetItem(key, UserRecord(user));
      return Resolved(user);
    }
    return Rejected;
  }

  method FetchChatPartners(session: Storage, useCache: bool, reply: Reply<Option<seq<User>>>)
    returns (r: Outcome<seq<User>>)
    modifies session
    ensures (r, session.items) == PartnersFetch(old(session.items), useCache, reply)
  {
    if useCache {
      var data := Lookup(session.items, ChatPartnersKey);
      if data.Some? && AsUsers(data.value).Some? {
        return Resolved(AsUsers(data.value).value);
      }
    }
    if reply.Succeeded() {
      var partners := reply.data.GetOr([]);
      session.SetItem(ChatPartnersKey, UserList(partners));
      return Resolved(partners);
    }
    return Rejected;
  }

  /** `ourId` is accepted and unused, as in the source. */
  method FetchChatMessages(session: Storage, ourId: int, partnerId: int, useCache: bool,
                           reply: Reply<Option<seq<Message>>>)
    returns (r: Outcome<seq<Message>>)
    modifies session
    ensures (r, session.items) == MessagesFetch(old(session.items), partnerId, useCache, reply)
  {
    var key := MessagesKey(partnerId);
    if useCache {
      var data := Lookup(session.items, key);
      if data.Some? && AsMessages(data.value).Some? {
        return Resolved(AsMessages(data.value).value);
      }
    }
    if reply.Succeeded() {
      var msgs := reply.data.GetOr([]);
      session.SetItem(key, MessageList(msgs));
      return Resolved(msgs);
    }
    return Rejected;
  }

  /** Same request, key and caching as `FetchUserInfo`. */
  method FetchUser(session: Storage, id: int, useCache: bool, reply: Reply<User>)
    returns (r: Outcome<User>)
    modifies session
    ensures (r, session.items) == UserFetch(old(session.items), id, useCache, reply)
  {
    var key := UserKey(id);
    if useCache {
      var data := Lookup(session.items, key);
      if data.Some? && AsUser(data.value).Some? {
        return Resolved(AsUser(data.value).value);
      }
    }
    if reply.Succeeded() {
      session.SetItem(key, UserRecord(reply.data));
      return Resolved(reply.data);
    }
    return Rejected;
  }

  // ---------------------------------------------------------------- properties

  /** With the cache on and a value of the right shape stored, the server is not consulted. */
  lemma CachedValueWins<T>(items: map<string, Stored>, key: string, decode: Stored -> Option<T>,
                           encode: T -> Stored, fetched: Outcome<T>, v: T)
    requires key in items && decode(items[key]) == Some(v)
    ensures CacheFirst(items, key, true, decode, encode, fetched) == (Resolved(v), items)
  {
  }

  /**
   * Whatever a call resolves with is, afterwards, what a cached call with the same key resolves
   * with, and that second call changes nothing.
   */
  lemma ResolvedIsCached<T>(items: map<string, Stored>, key: string, useCache: bool,
                            decode: Stored -> Option<T>, encode: T -> Stored,
                            fetched: Outcome<T>, later: Outcome<T>)
    requires forall x :: decode(encode(x)) == Some(x)
    ensures var (r, items') := CacheFirst(items, key, useCache, decode, encode, fetched);
            r.Resolved? ==> CacheFirst(items', key, true, decode, encode, later) == (r, items')
  {
    var (r, items') := CacheFirst(items, key, useCache, decode, encode, fetched);
    if r.Resolved? {
      if useCache && key in items && decode(items[key]).Some? {
      } else {
        assert items'[key] == encode(fetched.value);
        assert decode(encode(fetched.value)) == Some(fetched.value);
      }
    }
  }

  /** A call that does not resolve from the cache leaves the store as it was unless the request succeeded. */
  lemma RejectionWritesNothing<T>(items: map<string, Stored>, key: string, useCache: bool,
                                  decode: Stored -> Option<T>, encode: T -> Stored)
    ensures CacheFirst(items, key, useCache, decode, encode, Rejected).1 == items
  {
  }

  /** A later cached `fetchUserInfo`/`fetchUser` for the same id returns what this one resolved. */
  lemma UserFetchCaches(items: map<string, Stored>, userId: int, useCache: bool, reply: Reply<User>, later: Reply<User>)
    ensures var (r, items') := UserFetch(items, userId, useCache, reply);
            r.Resolved? ==> UserFetch(items', userId, true, later) == (r, items')
  {
    ResolvedIsCached(items, UserKey(userId), useCache, AsUser, (u: User) => UserRecord(u), Settle(reply), Settle(later));
  }

  lemma PartnersFetchCaches(items: map<string, Stored>, useCache: bool, reply: Reply<Option<seq<User>>>,
                            later: Reply<Option<seq<User>>>)
    ensures var (r, items') := PartnersFetch(items, useCache, reply);
            r.Resolved? ==> PartnersFetch(items', true, later) == (r, items')
  {
    ResolvedIsCached(items, ChatPartnersKey, useCache, AsUsers, (us: seq<User>) => UserList(us),
                     SettleList(reply), SettleList(later));
  }

  lemma MessagesFetchCaches(items: map<string, Stored>, partnerId: int, useCache: bool,
                            reply: Reply<Option<seq<Message>>>, later: Reply<Option<seq<Message>>>)
    ensures var (r, items') := MessagesFetch(items, partnerId, useCache, reply);
            r.Resolved? ==> MessagesFetch(items', partnerId, true, later) == (r, items')
  {
    ResolvedIsCached(items, MessagesKey(partnerId), useCache, AsMessages, (ms: seq<Message>) => MessageList(ms),
                     SettleList(reply), SettleList(later));
  }

  /** A successful reply without a `messages` field is stored and returned as the empty list. */
  lemma MissingMessagesAreEmpty(items: map<string, Stored>, partnerId: int, status: int, message: string)
    requires MessagesKey(partnerId) !in items
    ensures MessagesFetch(items, partnerId, true, Reply(true, status, None, message))
            == (Resolved([]), items[MessagesKey(partnerId) := MessageList([])])
  {
  }

  /** A successful reply without a `partners` field is stored and returned as the empty list. */
  lemma MissingPartnersAreEmpty(items: map<string, Stored>, status: int, message: string)
    requires ChatPartnersKey !in items
    ensures PartnersFetch(items, true, Reply(true, status, None, message))
            == (Resolved([]), items[ChatPartnersKey := UserList([])])
  {
  }

  /** With `useCache` off the stored value is ignored, and a success still overwrites it. */
  lemma NoCacheStillWrites(items: map<string, Stored>, partnerId: int, msgs: seq<Message>, status: int, message: string)
    ensures MessagesFetch(items, partnerId, false, Reply(true, status, Some(msgs), message))
            == (Resolved(msgs), items[MessagesKey(partnerId) := MessageList(msgs)])
  {
  }

  /** The three key schemes never collide, and each is one key per id. */
  lemma KeysAreDistinct(a: int, b: int)
    ensures UserKey(a) != MessagesKey(b)
    ensures UserKey(a) != ChatPartnersKey && MessagesKey(a) != ChatPartnersKey
    ensures UserKey(a) == UserKey(b) ==> a == b
    ensures MessagesKey(a) == MessagesKey(b) ==> a == b
  {
    assert UserKey(a)[0] == 'u' && MessagesKey(b)[0] == 'm' && ChatPartnersKey[0] == 'c';
    assert MessagesKey(a)[0] == 'm';
    PrefixedIdInjective("user-", a, b);
    PrefixedIdInjective("messages-", a, b);
  }
}

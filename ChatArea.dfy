/**
 * The newer chat thread view: the open thread's messages (newest first), loaded cache-first,
 * and the push handler that either extends the open thread or refreshes a background cache
 * entry under `messages-{other party}`.
 */
module ChatArea {
  import opened Types
  import opened WebStorage
  import opened Fetchers

  /** Whether the open partner is the message's sender or its receiver. */
  predicate Involves(msg: Message, partnerId: int) {
    partnerId == msg.receiverId || partnerId == msg.senderId
  }

  /** The background list: kept as it is when its head already has the message's id, else the message in front. */
  function WithHead(prev: seq<Message>, msg: Message): (r: seq<Message>)
    ensures |r| > 0 && r[0].id == msg.id
    ensures |prev| > 0 && prev[0].id == msg.id ==> r == prev
    ensures !(|prev| > 0 && prev[0].id == msg.id) ==> r == [msg] + prev && |r| == |prev| + 1
  {
    if |prev| > 0 && prev[0].id == msg.id then prev else [msg] + prev
  }

  /**
   * The session store after a non-involving message: the other party's list is looked up
   * cache first and, if that resolves, stored again with the message at its head.
   */
  function BackgroundStore(items: map<string, Stored>, ourId: int, msg: Message,
                           reply: Reply<Option<seq<Message>>>): (r: map<string, Stored>)
    ensures r.Keys <= items.Keys + {MessagesKey(OtherParty(msg, ourId))}
    ensures forall k :: k in items && k != MessagesKey(OtherParty(msg, ourId)) ==> k in r && r[k] == items[k]
  {
    var other := OtherParty(msg, ourId);
    var (r, items') := MessagesFetch(items, other, true, reply);
    if r.Resolved? then items'[MessagesKey(other) := MessageList(WithHead(r.value, msg))] else items'
  }

  /** `showMsgTime` for the message at index `i` of a newest-first list. */
  predicate ShowMsgTime(messages: seq<Message>, i: int)
    requires 0 <= i < |messages|
  {
    i > 0 && messages[i].senderId != messages[i - 1].senderId
  }

  class ChatMessages {
    var messages: seq<Message>
    var fetching: bool
    var partner: User
    const ourId: int
    const session: Storage

    constructor (partner: User, ourId: int, session: Storage)
      ensures this.partner == partner && this.ourId == ourId && this.session == session
      ensures messages == [] && fetching
    {
      this.partner := partner;
      this.ourId := ourId;
      this.session := session;
      messages := [];
      fetching := true;
    }

    /** The load effect: the partner's messages, cache first; a rejection keeps the current list. */
    method Load(reply: Reply<Option<seq<Message>>>)
      modifies this`messages, this`fetching, session
      ensures var (r, items) := MessagesFetch(old(session.items), partner.id, true, reply);
              session.items == items && messages == (if r.Resolved? then r.value else old(messages))
      ensures !fetching
    {
      fetching := true;
      var r := FetchChatMessages(session, ourId, partner.id, true, reply);
      if r.Resolved? {
        messages := r.value;
      }
      fetching := false;
    }

    /**
     * The open chat moves to another partner. The thread view is not re-mounted, so the load
     * effect runs again over the list on screen: the new partner's messages replace it when the
     * read resolves, and a rejected read leaves the previous partner's messages showing.
     */
    method SwitchPartner(p: User, reply: Reply<Option<seq<Message>>>)
      modifies this`partner, this`messages, this`fetching, session
      ensures partner == p
      ensures var (r, items) := MessagesFetch(old(session.items), p.id, true, reply);
              session.items == items && messages == (if r.Resolved? then r.value else old(messages))
      ensures !fetching
    {
      partner := p;
      Load(reply);
    }

    /**
     * A push event. An inbound chat message involving the open partner goes in front of the
     * visible list, which is written to the partner's key; any other chat message refreshes the
     * other party's background entry.
     */
    method OnMessage(ev: Option<WsPayload>, reply: Reply<Option<seq<Message>>>)
      modifies this`messages, session
      ensures !IsChatReceive(ev) ==> messages == old(messages) && session.items == old(session.items)
      ensures IsChatReceive(ev) && Involves(ev.value.msgData, partner.id) ==>
                messages == [ev.value.msgData] + old(messages) &&
                session.items == old(session.items)[MessagesKey(partner.id) := MessageList(messages)]
      ensures IsChatReceive(ev) && !Involves(ev.value.msgData, partner.id) ==>
                messages == old(messages) &&
                session.items == BackgroundStore(old(session.items), ourId, ev.value.msgData, reply)
    {
      if !IsChatReceive(ev) {
        return;
      }
      var msg := ev.value.msgData;
      if Involves(msg, partner.id) {
        var newList := [msg] + messages;
        messages := newList;
        session.SetItem(MessagesKey(partner.id), MessageList(newList));
      } else {
        var other := if msg.senderId == ourId then msg.receiverId else msg.senderId;
        var prev := FetchChatMessages(session, ourId, other, true, reply);
        if prev.Resolved? {
          var newList := if |prev.value| > 0 && prev.value[0].id == msg.id then prev.value else [msg] + prev.value;
          session.SetItem(MessagesKey(other), MessageList(newList));
        }
      }
    }
  }

  // ---------------------------------------------------------------- properties

  /** Putting the same message at the head twice is the same as doing it once. */
  lemma WithHeadIdempotent(prev: seq<Message>, msg: Message)
    ensures WithHead(WithHead(prev, msg), msg) == WithHead(prev, msg)
  {
  }

  /**
   * A background list already headed by the message is stored unchanged, whatever the server
   * would have answered: the store is left exactly as it was.
   */
  lemma BackgroundStoreKeepsHeadedList(items: map<string, Stored>, ourId: int, msg: Message,
                                       reply: Reply<Option<seq<Message>>>, cached: seq<Message>)
    requires MessagesKey(OtherParty(msg, ourId)) in items
    requires items[MessagesKey(OtherParty(msg, ourId))] == MessageList(cached)
    requires |cached| > 0 && cached[0].id == msg.id
    ensures BackgroundStore(items, ourId, msg, reply) == items
  {
    var key := MessagesKey(OtherParty(msg, ourId));
    CachedValueWins(items, key, AsMessages, (ms: seq<Message>) => MessageList(ms), SettleList(reply), cached);
    assert items[key := MessageList(WithHead(cached, msg))] == items;
  }

  /**
   * Handling the same non-involving message twice leaves the session store as handling it once:
   * always when both lookups get the same reply, and whatever the second reply when the first
   * lookup resolved.
   */
  lemma BackgroundStoreIdempotent(items: map<string, Stored>, ourId: int, msg: Message,
                                  reply: Reply<Option<seq<Message>>>, later: Reply<Option<seq<Message>>>)
    ensures MessagesFetch(items, OtherParty(msg, ourId), true, reply).0.Resolved? ==>
              BackgroundStore(BackgroundStore(items, ourId, msg, reply), ourId, msg, later)
              == BackgroundStore(items, ourId, msg, reply)
    ensures BackgroundStore(BackgroundStore(items, ourId, msg, reply), ourId, msg, reply)
            == BackgroundStore(items, ourId, msg, reply)
  {
    var other := OtherParty(msg, ourId);
    var key := MessagesKey(other);
    var (r, items1) := MessagesFetch(items, other, true, reply);
    var once := BackgroundStore(items, ourId, msg, reply);
    if r.Resolved? {
      var stored := WithHead(r.value, msg);
      assert once == items1[key := MessageList(stored)];
      forall next: Reply<Option<seq<Message>>>
        ensures BackgroundStore(once, ourId, msg, next) == once
      {
        assert MessagesFetch(once, other, true, next) == (Resolved(stored), once);
        WithHeadIdempotent(r.value, msg);
        assert once[key := MessageList(WithHead(stored, msg))] == once;
      }
    } else {
      RejectionWritesNothing(items, key, true, AsMessages, (ms: seq<Message>) => MessageList(ms));
      assert items1 == items;
      assert once == items;
    }
  }

  /**
   * For a message between us and someone else, and an open partner other than ourselves, the
   * message involves the open partner exactly when the partner is its other party; so a message
   * goes either to the open thread or to a background key, never to both.
   */
  lemma InvolvesIffOtherParty(msg: Message, ourId: int, partnerId: int)
    requires msg.senderId != msg.receiverId && (msg.senderId == ourId || msg.receiverId == ourId)
    requires partnerId != ourId
    ensures Involves(msg, partnerId) <==> OtherParty(msg, ourId) == partnerId
  {
  }

  /**
   * Prepending a message only affects the timestamp flag of the old head: every older message
   * keeps its flag, and the new head never shows one.
   */
  lemma {:induction false} PrependKeepsOlderFlags(messages: seq<Message>, msg: Message, i: int)
    requires 0 < i < |messages|
    ensures ShowMsgTime([msg] + messages, i + 1) == ShowMsgTime(messages, i)
    ensures !ShowMsgTime([msg] + messages, 0)
  {
    assert ([msg] + messages)[i + 1] == messages[i];
    assert ([msg] + messages)[i] == messages[i - 1];
  }
}

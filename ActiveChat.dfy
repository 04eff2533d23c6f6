/**
 * The older chat window: the active partner's thread (newest first), loaded from the
 * `messages:{id}` session entry or the server, saved back whenever it changes, extended by
 * push events; the grouping of a thread into runs by sender; and the message box.
 */
module ActiveChat {
  import opened Types
  import opened Strings
  import opened WebStorage
  import opened Utils
  import ChatArea

  /** Whether a message belongs in the open thread: sent by the active partner, or sent by us to them. */
  predicate RoutesToOpenThread(msg: Message, me: Option<JsNumber>, active: Option<User>) {
    (active.Some? && msg.senderId == active.value.id) ||
    (me == Some(Int(msg.senderId)) && active.Some? && msg.receiverId == active.value.id)
  }

  /** What `saveMessagesToSession` stores for a reply's `messages` field: a missing one is stringified as `undefined`. */
  function SavedForm(msgs: Option<seq<Message>>): Stored {
    match msgs
    case Some(ms) => MessageList(ms)
    case None => Raw("undefined")
  }

  class ActiveChat {
    var messages: seq<Message>
    var unauthorized: bool
    var activePartner: Option<User>
    const local: Storage
    const session: Storage

    constructor (activePartner: Option<User>, local: Storage, session: Storage)
      ensures this.activePartner == activePartner && this.local == local && this.session == session
      ensures messages == [] && !unauthorized
    {
      this.activePartner := activePartner;
      this.local := local;
      this.session := session;
      messages := [];
      unauthorized := false;
    }

    /**
     * The load effect: nothing without an active partner; the session copy when there is one;
     * otherwise the reply to `GET /api/messages/{id}`.
     */
    method Load(reply: Reply<Option<seq<Message>>>)
      modifies this`messages, this`unauthorized, session
      ensures activePartner.None? ==>
                messages == old(messages) && unauthorized == old(unauthorized) && session.items == old(session.items)
      ensures activePartner.Some? && GetMessagesFromSession(old(session.items), activePartner.value.id).Some? ==>
                messages == GetMessagesFromSession(old(session.items), activePartner.value.id).value &&
                unauthorized == old(unauthorized) && session.items == old(session.items)
      ensures activePartner.Some? && GetMessagesFromSession(old(session.items), activePartner.value.id).None? ==>
                if reply.Succeeded() then
                  messages == reply.data.GetOr([]) && unauthorized == old(unauthorized) &&
                  session.items == old(session.items)[SessionMessagesKey(activePartner.value.id) := SavedForm(reply.data)]
                else
                  messages == old(messages) && session.items == old(session.items) &&
                  unauthorized == (if reply.Reply? then reply.status == 401 else old(unauthorized))
    {
      if activePartner.None? {
        return;
      }
      var id := activePartner.value.id;
      var cached := GetMessagesFromSession(session.items, id);
      if cached.Some? {
        messages := cached.value;
        return;
      }
      if reply.Succeeded() {
        messages := reply.data.GetOr([]);
        session.SetItem(SessionMessagesKey(id), SavedForm(reply.data));
      } else if reply.Reply? {
        unauthorized := reply.status == 401;
      }
    }

    /**
     * The save effect, run after every commit in which the visible list or the active partner
     * changed, the first commit at mount included: the list is stored under the active partner.
     */
    method SaveOnChange()
      modifies session
      ensures activePartner.None? ==> session.items == old(session.items)
      ensures activePartner.Some? ==>
                session.items == old(session.items)[SessionMessagesKey(activePartner.value.id) := MessageList(messages)]
      ensures activePartner.Some? ==> GetMessagesFromSession(session.items, activePartner.value.id) == Some(messages)
    {
      if activePartner.Some? {
        SaveMessagesToSession(session, activePartner.value.id, messages);
      }
    }

    /**
     * The first commit after mount (and every commit in which the partner changed): the load
     * effect reads the partner's session entry, then the save effect stores the list on screen
     * under the partner's key. A session copy, or a successful reply, then replaces the list and
     * is saved again. A failed fetch leaves the list on screen stored as the partner's, so after a
     * failed first fetch the session holds `[]` for the partner, and every later load reads it.
     */
    method Mount(reply: Reply<Option<seq<Message>>>)
      modifies this`messages, this`unauthorized, session
      ensures activePartner.None? ==>
                messages == old(messages) && unauthorized == old(unauthorized) && session.items == old(session.items)
      ensures activePartner.Some? ==>
                var cached := GetMessagesFromSession(old(session.items), activePartner.value.id);
                && (cached.Some? ==> messages == cached.value && unauthorized == old(unauthorized))
                && (cached.None? && reply.Succeeded() ==>
                      messages == reply.data.GetOr([]) && unauthorized == old(unauthorized))
                && (cached.None? && !reply.Succeeded() ==>
                      messages == old(messages) &&
                      unauthorized == (if reply.Reply? then reply.status == 401 else old(unauthorized)))
      ensures activePartner.Some? ==>
                session.items == old(session.items)[SessionMessagesKey(activePartner.value.id) := MessageList(messages)]
      ensures activePartner.Some? ==> GetMessagesFromSession(session.items, activePartner.value.id) == Some(messages)
    {
      if activePartner.None? {
        return;
      }
      var id := activePartner.value.id;
      var cached := GetMessagesFromSession(session.items, id);
      SaveOnChange();
      if cached.Some? {
        messages := cached.value;
        SaveOnChange();
      } else if reply.Succeeded() {
        messages := reply.data.GetOr([]);
        session.SetItem(SessionMessagesKey(id), SavedForm(reply.data));
        SaveOnChange();
      } else if reply.Reply? {
        unauthorized := reply.status == 401;
      }
    }

    /**
     * The active partner changes in context. The window is not re-mounted, so one commit runs
     * both effects over the list still on screen, as at mount: a failed fetch leaves the previous
     * partner's list on screen and stored as the new partner's. Choosing the partner already
     * active, or none, reruns neither effect.
     */
    method SwitchPartner(p: Option<User>, reply: Reply<Option<seq<Message>>>)
      modifies this`activePartner, this`messages, this`unauthorized, session
      ensures activePartner == p
      ensures p == old(activePartner) || p.None? ==>
                messages == old(messages) && unauthorized == old(unauthorized) && session.items == old(session.items)
      ensures p != old(activePartner) && p.Some? ==>
                var key := SessionMessagesKey(p.value.id);
                var cached := GetMessagesFromSession(old(session.items), p.value.id);
                && (cached.Some? ==>
                      messages == cached.value && unauthorized == old(unauthorized) &&
                      session.items == old(session.items)[key := MessageList(cached.value)])
                && (cached.None? && reply.Succeeded() ==>
                      messages == reply.data.GetOr([]) && unauthorized == old(unauthorized) &&
                      session.items == old(session.items)[key := MessageList(messages)])
                && (cached.None? && !reply.Succeeded() ==>
                      messages == old(messages) &&
                      session.items == old(session.items)[key := MessageList(old(messages))] &&
                      unauthorized == (if reply.Reply? then reply.status == 401 else old(unauthorized)))
      ensures p != old(activePartner) && p.Some? && GetMessagesFromSession(old(session.items), p.value.id).None? ==>
                GetMessagesFromSession(session.items, p.value.id) == Some(messages)
    {
      if p == activePartner {
        return;
      }
      activePartner := p;
      if p.None? {
        return;
      }
      Mount(reply);
    }

    /**
     * A push event. A message for the open thread goes in front of the visible list; any other
     * chat message goes in front of the session list keyed by its SENDER, fetched when absent.
     */
    method OnMessage(ev: Option<WsPayload>, reply: Reply<Option<seq<Message>>>)
      modifies this`messages, this`unauthorized, session
      ensures !IsChatReceive(ev) ==>
                messages == old(messages) && unauthorized == old(unauthorized) && session.items == old(session.items)
      ensures IsChatReceive(ev) && RoutesToOpenThread(ev.value.msgData, GetLoggedInUserId(local.items), activePartner) ==>
                messages == [ev.value.msgData] + old(messages) &&
                unauthorized == old(unauthorized) && session.items == old(session.items)
      ensures IsChatReceive(ev) && !RoutesToOpenThread(ev.value.msgData, GetLoggedInUserId(local.items), activePartner) ==>
                messages == old(messages) &&
                session.items == BackgroundSave(old(session.items), ev.value.msgData, reply) &&
                unauthorized == (if GetMessagesFromSession(old(session.items), ev.value.msgData.senderId).None?
                                    && reply.Reply? && !reply.ok
                                 then reply.status == 401 else old(unauthorized))
    {
      if !IsChatReceive(ev) {
        return;
      }
      var msg := ev.value.msgData;
      if RoutesToOpenThread(msg, GetLoggedInUserId(local.items), activePartner) {
        messages := [msg] + messages;
        return;
      }
      var prevMsgs := GetMessagesFromSession(session.items, msg.senderId);
      if prevMsgs.Some? {
        SaveMessagesToSession(session, msg.senderId, [msg] + prevMsgs.value);
        return;
      }
      if reply.Succeeded() {
        // spreading a missing `messages` field throws before anything is saved
        if reply.data.Some? {
          SaveMessagesToSession(session, msg.senderId, [msg] + reply.data.value);
        }
      } else if reply.Reply? {
        unauthorized := reply.status == 401;
      }
    }
  }

  /** The session store after a message that is not for the open thread. */
  function BackgroundSave(items: map<string, Stored>, msg: Message, reply: Reply<Option<seq<Message>>>)
    : (r: map<string, Stored>)
    ensures forall k :: k != SessionMessagesKey(msg.senderId) ==> Lookup(r, k) == Lookup(items, k)
  {
    match GetMessagesFromSession(items, msg.senderId)
    case Some(prev) => items[SessionMessagesKey(msg.senderId) := MessageList([msg] + prev)]
    case None =>
      if reply.Succeeded() && reply.data.Some? then
        items[SessionMessagesKey(msg.senderId) := MessageList([msg] + reply.data.value)]
      else items
  }

  // ---------------------------------------------------------------- grouping by sender

  function Flatten(groups: seq<seq<Message>>): seq<Message> {
    if groups == [] then [] else groups[0] + Flatten(groups[1..])
  }

  /** Every message of `g` was sent by `sender`. */
  predicate AllFrom(g: seq<Message>, sender: int) {
    forall j :: 0 <= j < |g| ==> g[j].senderId == sender
  }

  /** Every group is non-empty and has a single sender, and neighbouring groups have different senders. */
  ghost predicate Runs(groups: seq<seq<Message>>) {
    (forall k :: 0 <= k < |groups| ==> |groups[k]| > 0 && AllFrom(groups[k], groups[k][0].senderId)) &&
    (forall k :: 0 < k < |groups| ==> groups[k - 1][0].senderId != groups[k][0].senderId)
  }

  /** `MessageList`'s grouping: consecutive messages with the same sender form one group. */
  method GroupBySender(messages: seq<Message>) returns (groups: seq<seq<Message>>)
    ensures Flatten(groups) == messages
    ensures Runs(groups)
    ensures messages == [] <==> groups == []
  {
    if |messages| == 0 {
      return [];
    }
    groups := [];
    var group := [messages[0]];
    for i := 1 to |messages|
      invariant Flatten(groups) + group == messages[..i]
      invariant |group| > 0 && AllFrom(group, messages[i - 1].senderId)
      invariant Runs(groups)
      invariant |groups| > 0 ==> groups[|groups| - 1][0].senderId != group[0].senderId
    {
      assert messages[..i + 1] == messages[..i] + [messages[i]];
      if messages[i].senderId != messages[i - 1].senderId {
        FlattenAppend(groups, group);
        RunsSnoc(groups, group);
        groups := groups + [group];
        group := [];
      }
      group := group + [messages[i]];
    }
    if |group| != 0 {
      FlattenAppend(groups, group);
      RunsSnoc(groups, group);
      groups := groups + [group];
    }
    assert messages[..|messages|] == messages;
  }

  /** A closed group that starts a new sender extends a grouping into runs. */
  lemma RunsSnoc(groups: seq<seq<Message>>, g: seq<Message>)
    requires Runs(groups) && |g| > 0 && AllFrom(g, g[0].senderId)
    requires |groups| > 0 ==> groups[|groups| - 1][0].senderId != g[0].senderId
    ensures Runs(groups + [g])
  {
    var r := groups + [g];
    assert forall k :: 0 <= k < |groups| ==> r[k] == groups[k];
    assert r[|groups|] == g;
  }

  lemma {:induction false} FlattenAppend(groups: seq<seq<Message>>, g: seq<Message>)
    ensures Flatten(groups + [g]) == Flatten(groups) + g
  {
    if groups != [] {
      assert (groups + [g])[1..] == groups[1..] + [g];
      FlattenAppend(groups[1..], g);
    } else {
      assert [] + [g] == [g];
    }
  }

  lemma {:induction false} FlattenIndex(groups: seq<seq<Message>>, i: int)
    requires |groups| > 0 && 0 <= i < |groups[0]|
    ensures |Flatten(groups)| > i && Flatten(groups)[i] == groups[0][i]
  {
  }

  /** Length of the leading stretch of `s` sent by `sender`. */
  function LeadRun(s: seq<Message>, sender: int): nat {
    if s == [] || s[0].senderId != sender then 0 else 1 + LeadRun(s[1..], sender)
  }

  lemma {:induction false} LeadRunOfGroup(a: seq<Message>, t: seq<Message>, sender: int)
    requires AllFrom(a, sender)
    requires t == [] || t[0].senderId != sender
    ensures LeadRun(a + t, sender) == |a|
  {
    if a == [] {
      assert a + t == t;
    } else {
      assert (a + t)[0] == a[0] && (a + t)[1..] == a[1..] + t;
      LeadRunOfGroup(a[1..], t, sender);
    }
  }

  /** In a grouping into runs, the first group is the whole leading run of the flattened list. */
  lemma FirstGroupIsLeadRun(groups: seq<seq<Message>>)
    requires Runs(groups) && groups != []
    ensures LeadRun(Flatten(groups), groups[0][0].senderId) == |groups[0]|
  {
    var rest := Flatten(groups[1..]);
    if |groups| > 1 {
      FlattenIndex(groups[1..], 0);
    }
    LeadRunOfGroup(groups[0], rest, groups[0][0].senderId);
  }

  /** The grouping is the only one with these properties: runs of a list are unique. */
  lemma {:induction false} RunsUnique(g1: seq<seq<Message>>, g2: seq<seq<Message>>)
    requires Runs(g1) && Runs(g2) && Flatten(g1) == Flatten(g2)
    ensures g1 == g2
    decreases |g1|
  {
    if g1 == [] || g2 == [] {
      FlattenEmpty(g1);
      FlattenEmpty(g2);
      return;
    }
    var a, b := g1[0], g2[0];
    var s := Flatten(g1);
    assert s == a + Flatten(g1[1..]) && s == b + Flatten(g2[1..]);
    FlattenIndex(g1, 0);
    FlattenIndex(g2, 0);
    FirstGroupIsLeadRun(g1);
    FirstGroupIsLeadRun(g2);
    assert |a| == |b|;
    assert a == s[..|a|] == b;
    assert Flatten(g1[1..]) == s[|a|..] == Flatten(g2[1..]);
    RunsTail(g1);
    RunsTail(g2);
    RunsUnique(g1[1..], g2[1..]);
    assert g1 == [a] + g1[1..] && g2 == [b] + g2[1..];
  }

  lemma FlattenEmpty(groups: seq<seq<Message>>)
    requires Runs(groups)
    ensures Flatten(groups) == [] <==> groups == []
  {
    if groups != [] {
      FlattenIndex(groups, 0);
    }
  }

  lemma RunsTail(groups: seq<seq<Message>>)
    requires Runs(groups) && groups != []
    ensures Runs(groups[1..])
  {
  }

  /**
   * `MessageGroupItems`'s sent flag, taken from the group's first message: in a run it is the
   * same as asking any of its messages.
   */
  predicate GroupSent(group: seq<Message>, local: map<string, Stored>)
    requires |group| > 0
  {
    GetLoggedInUserId(local) == Some(Int(group[0].senderId))
  }

  lemma SentFlagHoldsForWholeGroup(groups: seq<seq<Message>>, local: map<string, Stored>, k: int, j: int)
    requires Runs(groups) && 0 <= k < |groups| && 0 <= j < |groups[k]|
    ensures GroupSent(groups[k], local) <==> GetLoggedInUserId(local) == Some(Int(groups[k][j].senderId))
  {
  }

  // ---------------------------------------------------------------- the message box

  class MessageBox {
    var value: string
    var receiverId: int

    constructor (receiverId: int)
      ensures this.receiverId == receiverId && value == ""
    {
      this.receiverId := receiverId;
      value := "";
    }

    /**
     * `sendMessage`: nothing is sent for blank text or without a socket sender; otherwise the
     * trimmed text goes out as `chatMsgSend` to the receiver and the box is emptied.
     */
    method SendMessage(canSend: bool, timestamp: string) returns (sent: Option<OutgoingMessage>)
      modifies this`value
      ensures Trim(old(value)) == [] || !canSend ==> sent == None && value == old(value)
      ensures Trim(old(value)) != [] && canSend ==>
                sent == Some(OutgoingMessage(ChatMsgSend, receiverId, Trim(old(value)), timestamp)) && value == ""
      ensures sent.Some? ==> sent.value.text != [] && !IsWhitespace(sent.value.text[0])
    {
      var text := Trim(value);
      if |text| == 0 {
        return None;
      }
      if !canSend {
        return None;
      }
      sent := Some(OutgoingMessage(ChatMsgSend, receiverId, text, timestamp));
      value := "";
    }

    /**
     * A new `receiverId` prop: the box is not keyed by the partner, so it keeps its text, and the
     * next send delivers what was typed for the previous partner to the new one.
     */
    method SetReceiver(id: int)
      modifies this`receiverId
      ensures receiverId == id && value == old(value)
    {
      receiverId := id;
    }

    /** Enter without Shift sends; every other key leaves the box alone. */
    method OnKeyDown(key: string, shift: bool, canSend: bool, timestamp: string) returns (sent: Option<OutgoingMessage>)
      modifies this`value
      ensures !(key == "Enter" && !shift) ==> sent == None && value == old(value)
      ensures key == "Enter" && !shift && Trim(old(value)) != [] && canSend ==>
                sent == Some(OutgoingMessage(ChatMsgSend, receiverId, Trim(old(value)), timestamp)) && value == ""
      ensures key == "Enter" && !shift && (Trim(old(value)) == [] || !canSend) ==> sent == None && value == old(value)
    {
      sent := None;
      if key == "Enter" && !shift {
        sent := SendMessage(canSend, timestamp);
      }
    }
  }

  // ---------------------------------------------------------------- across generations

  /**
   * For a message between us and someone else, with an active partner other than us, the older
   * routing rule agrees with the newer `Involves` rule.
   */
  lemma RoutingAgreesWithChatArea(msg: Message, ourId: int, partner: User)
    requires msg.senderId != msg.receiverId && (msg.senderId == ourId || msg.receiverId == ourId)
    requires partner.id != ourId
    ensures RoutesToOpenThread(msg, Some(Int(ourId)), Some(partner)) <==> ChatArea.Involves(msg, partner.id)
  {
  }

  /**
   * The background key differs between the generations exactly for messages we sent: the
   * older one files them under ourselves, the newer one under the receiver.
   */
  lemma BackgroundKeysDiffer(msg: Message, ourId: int)
    requires msg.senderId != msg.receiverId
    ensures msg.senderId != OtherParty(msg, ourId) <==> msg.senderId == ourId
  {
  }
}

/**
 * Storage helpers of the older code generation: the logged-in user id in localStorage and
 * per-partner message lists in sessionStorage under `messages:{id}`.
 */
module Utils {
  import opened Types
  import opened Strings
  import opened WebStorage
  import Fetchers

  const LoggedInUserIdKey: string := "loggedInUserId"

  function SessionMessagesKey(pairId: int): string {
    "messages:" + IntToString(pairId)
  }

  /** `getLoggedInUserId()`: none when the stored value is absent or empty, else `Number(value)`. */
  function GetLoggedInUserId(local: map<string, Stored>): (r: Option<JsNumber>)
    ensures !Truthy(Lookup(local, LoggedInUserIdKey)) ==> r == None
    ensures LoggedInUserIdKey in local && local[LoggedInUserIdKey].Raw? && local[LoggedInUserIdKey].text != "" ==>
              r == Some(NumberOf(local[LoggedInUserIdKey].text))
  {
    match Lookup(local, LoggedInUserIdKey)
    case None => None
    case Some(Raw(t)) => if t == "" then None else Some(NumberOf(t))
    case Some(_) => Some(NotAnInteger("<json>"))
  }

  method SaveLoggedInUserId(local: Storage, id: int)
    modifies local
    ensures local.items == old(local.items)[LoggedInUserIdKey := Raw(IntToString(id))]
  {
    local.SetItem(LoggedInUserIdKey, Raw(IntToString(id)));
  }

  /** `getMessagesFromSession(pairId)`: none when the key is absent or empty. */
  function GetMessagesFromSession(session: map<string, Stored>, pairId: int): (r: Option<seq<Message>>)
    ensures !Truthy(Lookup(session, SessionMessagesKey(pairId))) ==> r == None
    ensures r.Some? <==> SessionMessagesKey(pairId) in session && session[SessionMessagesKey(pairId)].MessageList?
  {
    match Lookup(session, SessionMessagesKey(pairId))
    case Some(MessageList(ms)) => Some(ms)
    case _ => None
  }

  method SaveMessagesToSession(session: Storage, pairId: int, msgs: seq<Message>)
    modifies session
    ensures session.items == old(session.items)[SessionMessagesKey(pairId) := MessageList(msgs)]
  {
    session.SetItem(SessionMessagesKey(pairId), MessageList(msgs));
  }

  /** Saving an id and reading it back gives the same number. */
  lemma SavedUserIdReadsBack(local: map<string, Stored>, id: int)
    ensures GetLoggedInUserId(local[LoggedInUserIdKey := Raw(IntToString(id))]) == Some(Int(id))
  {
    NumberOfIntToString(id);
  }

  /**
   * Saving a list for one pair id makes it what a read for that id returns, and leaves the reads
   * for every other id as they were.
   */
  lemma SavedMessagesReadBack(session: map<string, Stored>, pairId: int, msgs: seq<Message>, other: int)
    ensures GetMessagesFromSession(session[SessionMessagesKey(pairId) := MessageList(msgs)], pairId) == Some(msgs)
    ensures other != pairId ==>
              GetMessagesFromSession(session[SessionMessagesKey(pairId) := MessageList(msgs)], other)
              == GetMessagesFromSession(session, other)
  {
    PrefixedIdInjective("messages:", pairId, other);
  }

  /** The `messages:{id}` keys of this generation never coincide with the `messages-{id}` keys of the fetchers. */
  lemma CachesNeverAlias(a: int, b: int)
    ensures SessionMessagesKey(a) != Fetchers.MessagesKey(b)
  {
    assert SessionMessagesKey(a)[8] == ':';
    assert Fetchers.MessagesKey(b)[8] == '-';
  }
}

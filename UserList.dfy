/**
 * The newer user list and its per-user friendship controls: the friendship status, as the
 * server reports it, decides which actions are offered; each action is one request, and a
 * successful one refetches the status.
 */
module UserList {
  import opened Types
  import opened Strings
  import opened WebStorage
  import ChatPartnersProvider

  const Unknown: string := "unknown"
  const ReqSent: string := "req-sent"
  const ReqReceived: string := "req-received"
  const Friends: string := "friends"

  /** Actions are shown only when the list asks for them and the user is not ourselves. */
  predicate ShowActions(showActions: bool, userId: int, ourId: int) {
    showActions && userId != ourId
  }

  datatype Action = SendRequest | CancelRequest | Accept | Decline | Chat

  /** The status machine: which actions each status permits. */
  function Offered(status: string): set<Action> {
    if status == Unknown then {SendRequest}
    else if status == Friends then {Chat}
    else if status == ReqSent then {CancelRequest}
    else if status == ReqReceived then {Accept, Decline}
    else {}
  }

  /** What the controls render: a spinner, or action buttons, a busy one showing a spinner instead of its icon. */
  datatype Control = Spinner | Button(action: Action, busy: bool)

  function Controls(status: string, processing: bool): seq<Control> {
    if status == "" then [Spinner]
    else if status == Unknown then [Button(SendRequest, processing)]
    else if status == Friends then [Button(Chat, false)]
    else if status == ReqSent then [Button(CancelRequest, processing)]
    else if status == ReqReceived then [Button(Accept, false), Button(Decline, false)]
    else []
  }

  /** Whether an action's button tracks `actionProcessing`. */
  predicate TracksProcessing(action: Action) {
    action == SendRequest || action == CancelRequest
  }

  /** The request behind each action; starting a chat makes none. */
  function Endpoint(action: Action, targetId: int): (r: Option<Request>)
    ensures r.None? <==> action == Chat
  {
    match action
    case SendRequest => Some(Request("POST", "/api/friend-requests", Some(targetId)))
    case CancelRequest => Some(Request("DELETE", "/api/friend-requests/" + IntToString(targetId), None))
    case Decline => Some(Request("DELETE", "/api/friend-requests/" + IntToString(targetId), None))
    case Accept => Some(Request("POST", "/api/friends", Some(targetId)))
    case Chat => None
  }

  /** The status after a refetch: only an ok reply with a non-empty `friendshipStatus` replaces it. */
  function Refetched(status: string, reply: Reply<Option<string>>): (s: string)
    ensures s != status ==> reply.Succeeded() && reply.data == Some(s) && s != ""
  {
    if reply.Succeeded() && reply.data.Some? && reply.data.value != "" then reply.data.value else status
  }

  class UserActions {
    var friendshipStatus: string
    var actionProcessing: bool
    const target: User
    const chats: ChatPartnersProvider.ChatPartners

    constructor (target: User, chats: ChatPartnersProvider.ChatPartners)
      ensures this.target == target && this.chats == chats
      ensures friendshipStatus == "" && !actionProcessing
    {
      this.target := target;
      this.chats := chats;
      friendshipStatus := "";
      actionProcessing := false;
    }

    /** Completion of `GET /api/friendship-status/{id}`. */
    method RefetchStatus(reply: Reply<Option<string>>)
      modifies this`friendshipStatus
      ensures friendshipStatus == Refetched(old(friendshipStatus), reply)
    {
      if reply.Succeeded() && reply.data.Some? && reply.data.value != "" {
        friendshipStatus := reply.data.value;
      }
    }

    /**
     * A click on an action's control. An action the status does not offer has no control and
     * does nothing. Chat sets the active partner without a request; the others issue their
     * request, and send and cancel mark the action as processing.
     */
    method Click(action: Action) returns (request: Option<Request>)
      modifies this`actionProcessing, chats`activePartner, chats.local
      ensures action !in Offered(old(friendshipStatus)) ==>
                request == None && actionProcessing == old(actionProcessing) &&
                chats.activePartner == old(chats.activePartner) && chats.local.items == old(chats.local.items)
      ensures action in Offered(old(friendshipStatus)) ==> request == Endpoint(action, target.id)
      ensures action in Offered(old(friendshipStatus)) && action == Chat ==>
                chats.activePartner == Some(target) &&
                chats.local.items == old(chats.local.items)[ChatPartnersProvider.ActiveChatPartnerKey := UserRecord(target)]
      ensures action != Chat ==> chats.activePartner == old(chats.activePartner) && chats.local.items == old(chats.local.items)
      ensures actionProcessing == if action in Offered(old(friendshipStatus)) && TracksProcessing(action) then true
                                  else old(actionProcessing)
    {
      if action !in Offered(friendshipStatus) {
        return None;
      }
      request := Endpoint(action, target.id);
      if action == Chat {
        chats.SetActivePartner(target);
      } else if TracksProcessing(action) {
        actionProcessing := true;
      }
    }

    /**
     * Completion of an action's request: the status is refetched only when the mutation
     * succeeded, and send and cancel clear the processing flag in every outcome.
     */
    method Complete(action: Action, mutation: Reply<()>, statusReply: Reply<Option<string>>)
      modifies this`friendshipStatus, this`actionProcessing
      ensures friendshipStatus == if mutation.Succeeded() then Refetched(old(friendshipStatus), statusReply)
                                  else old(friendshipStatus)
      ensures actionProcessing == if TracksProcessing(action) then false else old(actionProcessing)
    {
      if mutation.Succeeded() {
        RefetchStatus(statusReply);
      }
      if TracksProcessing(action) {
        actionProcessing := false;
      }
    }
  }

  // ---------------------------------------------------------------- properties

  /**
   * The rendered controls are exactly the offered actions (plus the spinner of the empty
   * status), and a control is busy only while processing, and only for send and cancel.
   */
  lemma ControlsMatchOffered(status: string, processing: bool, a: Action)
    ensures a in Offered(status) <==> (exists c :: c in Controls(status, processing) && c.Button? && c.action == a)
    ensures Spinner in Controls(status, processing) <==> status == ""
    ensures forall c :: c in Controls(status, processing) && c.Button? && c.busy ==> processing && TracksProcessing(c.action)
    ensures processing && TracksProcessing(a) && a in Offered(status) ==> Button(a, true) in Controls(status, processing)
  {
    var cs := Controls(status, processing);
    if a in Offered(status) {
      if status == ReqReceived {
        assert cs[0].action == Accept && cs[1].action == Decline;
        assert a == Accept ==> cs[0] in cs;
        assert a == Decline ==> cs[1] in cs;
      } else {
        assert cs[0] in cs;
      }
    }
  }

  /** A status outside the machine offers no action and renders no control at all. */
  lemma UnknownStatusOffersNothing(status: string, processing: bool)
    requires status !in {"", Unknown, ReqSent, ReqReceived, Friends}
    ensures Offered(status) == {} && Controls(status, processing) == []
  {
  }

  /** Cancel and decline hit the same endpoint; each request is about the target user. */
  lemma EndpointsNameTheTarget(action: Action, targetId: int)
    ensures Endpoint(CancelRequest, targetId) == Endpoint(Decline, targetId)
    ensures action != Chat ==>
              Endpoint(action, targetId).value.targetId == Some(targetId) ||
              Endpoint(action, targetId).value.path == "/api/friend-requests/" + IntToString(targetId)
  {
  }
}

/**
 * The older friendship controls: a `switch` from the friendship status to the offered
 * actions, a chat button for every status, and mutation helpers that refetch the status only
 * after an ok reply. Declining is not implemented and does nothing.
 */
module UserActions {
  import opened Types

  datatype Action = SendRequest | CancelRequest | Reject | Accept | Unfriend

  /** The `switch`: the actions a status offers, or the `???` placeholder for any other value. */
  datatype Actions = Offer(actions: seq<Action>) | Placeholder

  /** The status as last assigned; `None` is an ok reply without a `friendshipStatus` field. */
  function ActionsFor(status: Option<string>): (r: Actions)
    ensures r.Offer? ==> status.Some? && status.value in {"unknown", "req-sent", "req-received", "friends"}
  {
    if status == Some("unknown") then Offer([SendRequest])
    else if status == Some("req-sent") then Offer([CancelRequest])
    else if status == Some("req-received") then Offer([Reject, Accept])
    else if status == Some("friends") then Offer([Unfriend])
    else Placeholder
  }

  /** The request behind each action; rejecting sends none. */
  function Endpoint(action: Action, targetId: int): (r: Option<Request>)
    ensures r.None? <==> action == Reject
    ensures r.Some? ==> r.value.targetId == Some(targetId)
  {
    match action
    case SendRequest => Some(Request("POST", "/api/friend-requests", Some(targetId)))
    case CancelRequest => Some(Request("DELETE", "/api/friend-requests", Some(targetId)))
    case Accept => Some(Request("POST", "/api/friends", Some(targetId)))
    case Unfriend => Some(Request("DELETE", "/api/friends", Some(targetId)))
    case Reject => None
  }

  /** Whether an action offered under `status` is one of its controls. */
  predicate OfferedUnder(action: Action, status: Option<string>) {
    ActionsFor(status).Offer? && action in ActionsFor(status).actions
  }

  class UserActions {
    var friendshipStatus: Option<string>
    const otherUser: User

    constructor (otherUser: User)
      ensures this.otherUser == otherUser && friendshipStatus == Some("")
    {
      this.otherUser := otherUser;
      friendshipStatus := Some("");
    }

    /** Completion of `GET /api/friendship-status/{id}`: an ok reply assigns its field, whatever it holds. */
    method UpdateFriendshipStatus(reply: Reply<Option<string>>)
      modifies this`friendshipStatus
      ensures friendshipStatus == if reply.Succeeded() then reply.data else old(friendshipStatus)
    {
      if reply.Succeeded() {
        friendshipStatus := reply.data;
      }
    }

    /**
     * A click on an offered action's button, through to the end of its request. Unfriending asks
     * for confirmation first; rejecting does nothing; every other action issues its request and
     * refetches the status only when the reply is ok.
     */
    method Perform(action: Action, confirmed: bool, mutation: Reply<()>, statusReply: Reply<Option<string>>)
      returns (request: Option<Request>)
      modifies this`friendshipStatus
      ensures !OfferedUnder(action, old(friendshipStatus)) || action == Reject || (action == Unfriend && !confirmed) ==>
                request == None && friendshipStatus == old(friendshipStatus)
      ensures OfferedUnder(action, old(friendshipStatus)) && action != Reject && (action == Unfriend ==> confirmed) ==>
                request == Endpoint(action, otherUser.id) &&
                friendshipStatus == if mutation.Succeeded() && statusReply.Succeeded() then statusReply.data
                                    else old(friendshipStatus)
    {
      if !OfferedUnder(action, friendshipStatus) || action == Reject {
        return None;
      }
      if action == Unfriend && !confirmed {
        return None;
      }
      request := Endpoint(action, otherUser.id);
      if mutation.Succeeded() {
        UpdateFriendshipStatus(statusReply);
      }
    }
  }

  /** The shared active-partner state the chat button writes. */
  class ActivePartnerSlot {
    var partner: Option<User>

    constructor (partner: Option<User>)
      ensures this.partner == partner
    {
      this.partner := partner;
    }
  }

  /** The chat button, present for every status: it sets the active partner, then navigates to `/chats`. */
  class StartChatButton {
    var shouldNavigate: bool
    const user: User
    const slot: ActivePartnerSlot

    constructor (user: User, slot: ActivePartnerSlot)
      ensures this.user == user && this.slot == slot && !shouldNavigate
    {
      this.user := user;
      this.slot := slot;
      shouldNavigate := false;
    }

    method StartChat()
      modifies this`shouldNavigate, slot
      ensures slot.partner == Some(user) && shouldNavigate
    {
      slot.partner := Some(user);
      shouldNavigate := true;
    }

    function Redirect(): (to: Option<string>)
      reads this
      ensures to.Some? <==> shouldNavigate
      ensures to.Some? ==> to.value == "/chats"
    {
      if shouldNavigate then Some("/chats") else None
    }
  }

  /**
   * Under every status the machine knows, each offered action but reject has a request, and
   * only an incoming request offers two actions.
   */
  lemma OfferedActionsHaveRequests(status: Option<string>)
    requires ActionsFor(status).Offer?
    ensures forall a :: a in ActionsFor(status).actions && a != Reject ==> Endpoint(a, 0).Some?
    ensures |ActionsFor(status).actions| == (if status == Some("req-received") then 2 else 1)
  {
  }

  /** Statuses the server might send that are not in the machine, and the initial empty one, show `???`. */
  lemma OtherStatusesShowPlaceholder(status: Option<string>)
    requires status.None? || status.value !in {"unknown", "req-sent", "req-received", "friends"}
    ensures ActionsFor(status) == Placeholder
  {
  }
}

/** Entities of the chat client (users, messages, push payloads) and the shape of server replies. */
module Types {

  datatype Option<T> = None | Some(value: T) {
    /** `x || fallback` on a field that may be missing */
    function GetOr(fallback: T): T {
      match this
      case Some(v) => v
      case None => fallback
    }
  }

  /** A chat message; `timestamp` is an ISO-8601 string and is never compared by the core. */
  datatype Message = Message(id: int, senderId: int, receiverId: int, text: string, timestamp: string)

  datatype User = User(id: int, fullname: string, username: string, bio: Option<string>)

  /** A parsed push payload `{msgType, msgData}`; only chat messages carry data the core reads. */
  datatype WsPayload = WsPayload(msgType: string, msgData: Message)

  const ChatMsgReceive: string := "chatMsgReceive"
  const ChatMsgSend: string := "chatMsgSend"

  /** The `msgData` of an outbound `chatMsgSend` payload. */
  datatype OutgoingMessage = OutgoingMessage(msgType: string, receiverId: int, text: string, timestamp: string)

  /**
   * What a request resolves with: the `{ok, status, ...fields}` object built from the HTTP
   * response (`data` stands for the endpoint's own fields, `message` for the error text, "" when
   * absent), or a rejected fetch (network failure, unreadable body).
   */
  datatype Reply<T> = Reply(ok: bool, status: int, data: T, message: string) | NetworkError {
    /** The request resolved with `ok` set. */
    predicate Succeeded() {
      Reply? && ok
    }
  }

  /** An outbound HTTP request, by verb and path, with the `{targetId}` body when it carries one. */
  datatype Request = Request(verb: string, path: string, targetId: Option<int>)

  /** The start page, where every view sends a visitor who is not (or no longer) signed in. */
  const GetStartedRoute: string := "/get-started"

  /** The body of `POST /api/register`; the confirmation field is never sent. */
  datatype Registration = Registration(fullname: string, username: string, password: string)

  /** Whether a push payload is present and is an inbound chat message. */
  predicate IsChatReceive(ev: Option<WsPayload>) {
    ev.Some? && ev.value.msgType == ChatMsgReceive
  }

  /**
   * The other party of a message as seen by `ourId`: its receiver when we sent it,
   * otherwise its sender.
   */
  function OtherParty(msg: Message, ourId: int): (id: int)
    ensures id == msg.senderId || id == msg.receiverId
    ensures msg.senderId != msg.receiverId && (msg.senderId == ourId || msg.receiverId == ourId) ==>
              id != ourId && {id, ourId} == {msg.senderId, msg.receiverId}
  {
    if msg.senderId == ourId then msg.receiverId else msg.senderId
  }
}

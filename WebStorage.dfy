/**
 * The browser's two key-value stores (localStorage and sessionStorage). Values are kept as the
 * JSON value they encode rather than as text, so `JSON.stringify` followed by `JSON.parse` is
 * the identity; text written directly (a draft, a token, a number) is `Raw`.
 */
module WebStorage {
  import opened Types

  datatype Stored =
    | Raw(text: string)
    | MessageList(messages: seq<Message>)
    | UserList(users: seq<User>)
    | UserRecord(user: User)

  /** `getItem(key)`: the stored value, or null. */
  function Lookup(items: map<string, Stored>, key: string): (v: Option<Stored>)
    ensures v.Some? <==> key in items
    ensures v.Some? ==> v.value == items[key]
  {
    if key in items then Some(items[key]) else None
  }

  /** JavaScript truthiness of a `getItem` result: null and "" are falsy, any JSON text is not. */
  predicate Truthy(v: Option<Stored>) {
    match v
    case None => false
    case Some(Raw(t)) => t != ""
    case Some(_) => true
  }

  /** A store area; components share one object per area. */
  class Storage {
    var items: map<string, Stored>

    method SetItem(key: string, value: Stored)
      modifies this
      ensures items == old(items)[key := value]
    {
      items := items[key := value];
    }

    method Clear()
      modifies this
      ensures items == map[]
    {
      items := map[];
    }
  }
}

/**
 * The session state every route reads: whether the stored token is still being checked,
 * whether a user is signed in, and that user's id (-1 for none).
 */
module AuthProvider {
  import opened Types
  import opened WebStorage
  import ProtectedRoute

  datatype AuthState = AuthState(checking: bool, loggedIn: bool, userId: int)

  /** The state before the token check has finished. */
  const Initial: AuthState := AuthState(true, false, -1)

  const JwtKey: string := "jwt"

  /** `GET /api/auth`, sent with the stored token as its bearer credential. */
  const AuthCheck: Request := Request("GET", "/api/auth", None)

  class Auth {
    var checking: bool
    var loggedIn: bool
    var userId: int
    const local: Storage

    function State(): AuthState
      reads this
    {
      AuthState(checking, loggedIn, userId)
    }

    constructor (local: Storage)
      ensures this.local == local
      ensures State() == Initial
    {
      this.local := local;
      checking := true;
      loggedIn := false;
      userId := -1;
    }

    /**
     * The mount effect. Without a truthy token the check ends at once and no request is made.
     * Otherwise the check asks the server: an ok reply signs the user in with the id it
     * carries, a non-ok reply empties localStorage, and a network error changes nothing; the
     * check ends in every outcome, so the guard stops showing the loading screen.
     */
    method InitialCheck(reply: Reply<int>) returns (request: Option<Request>)
      modifies this`checking, this`loggedIn, this`userId, local
      ensures !checking
      ensures ProtectedRoute.Guard(checking, loggedIn) != ProtectedRoute.LoadingScreen
      ensures !Truthy(Lookup(old(local.items), JwtKey)) ==>
                request == None && loggedIn == old(loggedIn) && userId == old(userId) &&
                local.items == old(local.items)
      ensures Truthy(Lookup(old(local.items), JwtKey)) ==>
                && request == Some(AuthCheck)
                && loggedIn == (old(loggedIn) || reply.Succeeded())
                && userId == (if reply.Succeeded() then reply.data else old(userId))
                && local.items == (if reply.Reply? && !reply.ok then map[] else old(local.items))
      ensures old(State()) == Initial ==>
                (ProtectedRoute.Guard(checking, loggedIn) == ProtectedRoute.Children <==>
                 Truthy(Lookup(old(local.items), JwtKey)) && reply.Succeeded())
    {
      if !Truthy(Lookup(local.items, JwtKey)) {
        checking := false;
        return None;
      }
      request := Some(AuthCheck);
      if reply.Reply? {
        if reply.ok {
          loggedIn := true;
          userId := reply.data;
        } else {
          local.Clear();
        }
      }
      checking := false;
    }
  }
}

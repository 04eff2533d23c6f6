/** Signing out: both stores are emptied, the session is reset, and the user is sent to the start page. */
module Logout {
  import Types
  import opened WebStorage
  import opened AuthProvider
  import ProtectedRoute

  method Logout(auth: Auth, session: Storage) returns (redirect: string)
    modifies auth`loggedIn, auth`userId, auth.local, session
    ensures auth.local.items == map[] && session.items == map[]
    ensures auth.State() == AuthState(old(auth.checking), false, -1)
    ensures redirect == Types.GetStartedRoute
    ensures ProtectedRoute.Guard(auth.checking, auth.loggedIn) != ProtectedRoute.Children
    // Idempotence: from a state a sign-out already produced, a second one changes nothing.
    ensures old(auth.local.items) == map[] && old(session.items) == map[] && !old(auth.loggedIn) && old(auth.userId) == -1 ==>
              auth.State() == old(auth.State()) && auth.local.items == old(auth.local.items) && session.items == old(session.items)
  {
    auth.local.Clear();
    session.Clear();
    auth.loggedIn := false;
    auth.userId := -1;
    redirect := Types.GetStartedRoute;
  }
}

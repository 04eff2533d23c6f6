/** The root route: a loading screen during the session check, then a redirect by sign-in state. */
module App {
  import opened Types
  import opened ProtectedRoute

  const HomeRoute: string := "/home"

  function Root(checking: bool, loggedIn: bool): (v: View)
    ensures v != Children
    ensures v == LoadingScreen <==> checking
    ensures !checking ==> v == Navigate(if loggedIn then HomeRoute else GetStartedRoute)
  {
    if checking then LoadingScreen
    else Navigate(if loggedIn then HomeRoute else GetStartedRoute)
  }

  /**
   * The root and the guard agree: both wait for the same check, and once it is done the root
   * sends a user to the home page exactly when the guard would let them through, and otherwise
   * both redirect to the same start page.
   */
  lemma RootAgreesWithGuard(checking: bool, loggedIn: bool)
    ensures (Root(checking, loggedIn) == LoadingScreen) == (Guard(checking, loggedIn) == LoadingScreen)
    ensures Root(checking, loggedIn) == Navigate(HomeRoute) <==> Guard(checking, loggedIn) == Children
    ensures Guard(checking, loggedIn).Navigate? ==> Root(checking, loggedIn) == Guard(checking, loggedIn)
  {
  }
}

/** The route guard in front of the signed-in pages, and what a route can render. */
module ProtectedRoute {
  import opened Types

  datatype View = LoadingScreen | Navigate(to: string) | Children

  /**
   * While the session check runs, the loading screen; then the children for a signed-in user
   * and a redirect to the start page for anyone else.
   */
  function Guard(checking: bool, loggedIn: bool): (v: View)
    ensures v == LoadingScreen <==> checking
    ensures v == Navigate(GetStartedRoute) <==> !checking && !loggedIn
    ensures v == Children <==> !checking && loggedIn
  {
    if checking then LoadingScreen
    else if !loggedIn then Navigate(GetStartedRoute)
    else Children
  }

  /** The guard never redirects anywhere but the start page. */
  lemma OnlyRedirectIsGetStarted(checking: bool, loggedIn: bool)
    ensures Guard(checking, loggedIn).Navigate? ==> Guard(checking, loggedIn).to == GetStartedRoute
  {
  }

  /** While checking, the sign-in flag makes no difference. */
  lemma CheckingTakesPrecedence(a: bool, b: bool)
    ensures Guard(true, a) == Guard(true, b)
  {
  }
}

/** The newer login form: the credentials are posted once the login rules pass, and an ok reply signs the user in. */
module Login {
  import opened Types
  import opened WebStorage
  import opened AuthProvider
  import Schema

  datatype Credentials = Credentials(username: string, password: string)

  /** The fields of an ok reply to `POST /api/login`. */
  datatype LoginData = LoginData(userId: int, jwt: string)

  datatype View = Redirect(to: string) | FormView(err: string)

  class LoginView {
    var err: string
    var requesting: bool
    const auth: Auth

    constructor (auth: Auth)
      ensures this.auth == auth
      ensures err == "" && !requesting
    {
      this.auth := auth;
      err := "";
      requesting := false;
    }

    /**
     * A submit: while a request is in flight the submit button is disabled and nothing happens;
     * otherwise credentials failing the login rules call nothing, and others clear the error and
     * are posted.
     */
    method Submit(username: string, password: string) returns (sent: Option<Credentials>)
      modifies this`err, this`requesting
      ensures old(requesting) ==> sent == None && err == old(err) && requesting
      ensures !old(requesting) && !Schema.LoginValid(username, password) ==>
                sent == None && err == old(err) && !requesting
      ensures !old(requesting) && Schema.LoginValid(username, password) ==>
                sent == Some(Credentials(username, password)) && err == "" && requesting
    {
      if requesting {
        return None;
      }
      if Schema.LoginIssues(username, password) != [] {
        return None;
      }
      requesting := true;
      err := "";
      sent := Some(Credentials(username, password));
    }

    /**
     * The reply: ok signs the user in with its id and stores its token; a non-ok reply shows
     * its message and leaves the session alone, as does a network error; the request ends in
     * every outcome.
     */
    method Complete(reply: Reply<LoginData>)
      modifies this`err, this`requesting, auth`loggedIn, auth`userId, auth.local
      ensures !requesting
      ensures reply.Succeeded() ==>
                auth.loggedIn && auth.userId == reply.data.userId &&
                auth.local.items == old(auth.local.items)[JwtKey := Raw(reply.data.jwt)]
      ensures !reply.Succeeded() ==> auth.State() == old(auth.State()) && auth.local.items == old(auth.local.items)
      ensures err == if reply.Reply? && !reply.ok then reply.message else old(err)
      ensures auth.checking == old(auth.checking)
    {
      if reply.Reply? {
        if reply.ok {
          auth.loggedIn := true;
          auth.userId := reply.data.userId;
          auth.local.SetItem(JwtKey, Raw(reply.data.jwt));
        } else {
          err := reply.message;
        }
      }
      requesting := false;
    }

    /** A signed-in user is sent to the root route. */
    function Render(): (v: View)
      reads this, auth
      ensures v.Redirect? <==> auth.loggedIn
    {
      if auth.loggedIn then Redirect("/") else FormView(err)
    }
  }

  // ---------------------------------------------------------------- properties

  /**
   * The token a login stores is what the next start-up checks: a non-empty token makes the
   * check ask the server, an empty one (falsy) skips it.
   */
  lemma StoredTokenIsChecked(local: map<string, Stored>, jwt: string)
    ensures Truthy(Lookup(local[JwtKey := Raw(jwt)], JwtKey)) <==> jwt != ""
  {
  }
}

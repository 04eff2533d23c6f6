/**
 * The older registration page: the typed fields are checked in a fixed order, the first failing
 * check's message is shown and nothing is sent; otherwise the trimmed names and the password as
 * typed are posted.
 */
module RegisterPage {
  import opened Types
  import opened Strings
  import Schema
  import Register

  /** The four inputs as typed. */
  datatype Inputs = Inputs(fullname: string, username: string, password: string, confirmPassword: string)

  datatype Verdict = Refused(message: string) | Accepted(body: Registration)

  const MissingData: string := "Must provide all data"
  const SpaceInUsername: string := "Username cannot contain space"
  const PasswordsDiffer: string := "Passwords do not match!"

  predicate AnyEmpty(fullname: string, username: string, password: string, confirmPassword: string) {
    fullname == [] || username == [] || password == [] || confirmPassword == []
  }

  /** The browser's check of the `required` inputs: some field is empty as typed, so the form is not submitted. */
  predicate Blocked(inputs: Inputs) {
    AnyEmpty(inputs.fullname, inputs.username, inputs.password, inputs.confirmPassword)
  }

  /**
   * The checks of the submit handler, in order, the first failure winning: a missing field, a
   * space inside the username, then differing passwords. Names are trimmed before any check;
   * passwords are used as typed.
   */
  function Validate(inputs: Inputs): (v: Verdict)
    ensures var fullname, username := Trim(inputs.fullname), Trim(inputs.username);
            var empty := AnyEmpty(fullname, username, inputs.password, inputs.confirmPassword);
            && (v == Refused(MissingData) <==> empty)
            && (v == Refused(SpaceInUsername) <==> !empty && ' ' in username)
            && (v == Refused(PasswordsDiffer) <==> !empty && ' ' !in username && inputs.password != inputs.confirmPassword)
            && (v.Accepted? <==> !empty && ' ' !in username && inputs.password == inputs.confirmPassword)
            && (v.Accepted? ==> v.body == Registration(fullname, username, inputs.password))
  {
    var fullname := Trim(inputs.fullname);
    var username := Trim(inputs.username);
    if AnyEmpty(fullname, username, inputs.password, inputs.confirmPassword) then Refused(MissingData)
    else if IndexOf(username, ' ') > 0 then Refused(SpaceInUsername)
    else if inputs.password != inputs.confirmPassword then Refused(PasswordsDiffer)
    else Accepted(Registration(fullname, username, inputs.password))
  }

  datatype View = LoadingView | Redirect(to: string) | FormView(errMsg: string)

  class RegisterPage {
    var loading: bool
    var registered: bool
    var errMsg: string

    constructor ()
      ensures !loading && !registered && errMsg == ""
    {
      loading := false;
      registered := false;
      errMsg := "";
    }

    /**
     * A submit of the form. While loading the page shows only "Loading...", so there is no form
     * to submit; and the browser refuses to submit while any of the four `required` inputs is
     * empty as typed. Otherwise the handler runs: a refused form shows its message, an accepted
     * one starts the request.
     */
    method HandleRegister(inputs: Inputs) returns (body: Option<Registration>)
      modifies this`loading, this`errMsg
      ensures old(loading) || Blocked(inputs) ==> body == None && errMsg == old(errMsg) && loading == old(loading)
      ensures !old(loading) && !Blocked(inputs) && Validate(inputs).Refused? ==>
                body == None && errMsg == Validate(inputs).message && !loading
      ensures !old(loading) && !Blocked(inputs) && Validate(inputs).Accepted? ==>
                body == Some(Validate(inputs).body) && loading && errMsg == old(errMsg)
    {
      if loading || Blocked(inputs) {
        return None;
      }
      var verdict := Validate(inputs);
      if verdict.Refused? {
        errMsg := verdict.message;
        return None;
      }
      loading := true;
      body := Some(verdict.body);
    }

    /** The reply to `POST /api/register`: ok registers, any other reply shows its message; loading always ends. */
    method Complete(reply: Reply<()>)
      modifies this`loading, this`registered, this`errMsg
      ensures !loading
      ensures registered == (old(registered) || reply.Succeeded())
      ensures errMsg == if reply.Reply? && !reply.ok then reply.message else old(errMsg)
    {
      if reply.Reply? {
        if reply.ok {
          registered := true;
        } else {
          errMsg := reply.message;
        }
      }
      loading := false;
    }

    /** Loading takes precedence over the redirect to the login page. */
    function Render(): (v: View)
      reads this
      ensures v == LoadingView <==> loading
      ensures v.Redirect? <==> !loading && registered
    {
      if loading then LoadingView
      else if registered then Redirect("/login")
      else FormView(errMsg)
    }
  }

  // ---------------------------------------------------------------- properties

  /** After trimming, the space test `indexOf(" ") > 0` is the same as containing a space. */
  lemma SpaceTestIsContainment(typed: string)
    ensures IndexOf(Trim(typed), ' ') > 0 <==> ' ' in Trim(typed)
  {
  }

  /**
   * Among forms the browser lets through, the missing-data message is shown exactly when a
   * name is blank after trimming: the passwords are never empty there.
   */
  lemma MissingDataOnlyForBlankNames(inputs: Inputs)
    requires !Blocked(inputs)
    ensures Validate(inputs) == Refused(MissingData) <==> Trim(inputs.fullname) == [] || Trim(inputs.username) == []
  {
  }

  /** A form with no empty field, names that need no trimming, no space in the username and equal passwords is accepted as typed. */
  lemma CleanFormAccepted(fullname: string, username: string, password: string)
    requires fullname != [] && username != [] && password != []
    requires Trim(fullname) == fullname && Trim(username) == username && ' ' !in username
    ensures Validate(Inputs(fullname, username, password, password)) == Accepted(Registration(fullname, username, password))
  {
  }

  /**
   * The two generations agree on a form the newer one accepts whose names need no trimming and
   * whose username has no space: the older page sends the same registration.
   */
  lemma GenerationsAgree(f: Register.RegisterForm)
    requires Register.FormIssues(f) == []
    requires Trim(f.fullname) == f.fullname && Trim(f.username) == f.username && ' ' !in f.username
    ensures Validate(Inputs(f.fullname, f.username, f.password, f.confPassword))
            == Accepted(Registration(f.fullname, f.username, f.password))
  {
    Register.AcceptedFormFilled(f);
    CleanFormAccepted(f.fullname, f.username, f.password);
  }

  /** Filled names that need no trimming, but a space inside the username: refused for the space, whatever the passwords. */
  lemma InnerSpaceRefused(fullname: string, username: string, password: string, confirmPassword: string)
    requires fullname != [] && password != [] && confirmPassword != []
    requires Trim(fullname) == fullname && Trim(username) == username && ' ' in username
    ensures Validate(Inputs(fullname, username, password, confirmPassword)) == Refused(SpaceInUsername)
  {
  }

  /**
   * The username `a b` passes the newer form's rule, and it is its own trim with a space inside:
   * so by `InnerSpaceRefused` this page refuses it alongside any filled, trimmed full name.
   */
  lemma InnerSpaceSplitsGenerations()
    ensures Schema.UsernameValid("a b")
    ensures Trim("a b") == "a b" && ' ' in "a b"
  {
    TrimOfTrimmed("a b");
    assert "a b"[1] == ' ';
  }
}

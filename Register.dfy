/**
 * The newer registration form: the field rules of `Schema` for each field (the confirmation is
 * held to the password rules too), a refinement that the two passwords agree, and the flags
 * the submit handler moves.
 */
module Register {
  import opened Types
  import opened Schema

  datatype RegisterForm = RegisterForm(fullname: string, username: string, password: string, confPassword: string)

  datatype Field = Fullname | Username | Password | ConfPassword

  datatype FieldIssue = FieldIssue(field: Field, message: string)

  const MismatchMessage: string := "Passwords do not match."

  function Tag(field: Field, messages: seq<string>): (r: seq<FieldIssue>)
    ensures |r| == |messages|
    ensures forall k :: 0 <= k < |r| ==> r[k] == FieldIssue(field, messages[k])
  {
    seq(|messages|, k requires 0 <= k < |messages| => FieldIssue(field, messages[k]))
  }

  /**
   * Every issue the form schema reports, in order: the field checks in declaration order, then
   * the refinement, which runs even when a field check failed.
   */
  function FormIssues(f: RegisterForm): seq<FieldIssue> {
    Tag(Fullname, FullnameIssues(f.fullname))
    + Tag(Username, UsernameIssues(f.username))
    + Tag(Password, PasswordIssues(f.password))
    + Tag(ConfPassword, PasswordIssues(f.confPassword))
    + (if f.password == f.confPassword then [] else [FieldIssue(ConfPassword, MismatchMessage)])
  }

  /** The messages reported for one field, in order. */
  function MessagesOf(issues: seq<FieldIssue>, field: Field): (r: seq<string>)
    ensures |r| <= |issues|
  {
    if issues == [] then []
    else (if issues[0].field == field then [issues[0].message] else []) + MessagesOf(issues[1..], field)
  }

  /** The error shown under a field: the first message reported for it. */
  function ShownError(issues: seq<FieldIssue>, field: Field): Option<string> {
    var ms := MessagesOf(issues, field);
    if ms == [] then None else Some(ms[0])
  }

  datatype View = Redirect(to: string) | FormView

  class RegisterView {
    var err: string
    var requesting: bool
    var registered: bool

    constructor ()
      ensures err == "" && !requesting && !registered
    {
      err := "";
      requesting := false;
      registered := false;
    }

    /**
     * A submit: while a request is in flight the submit button is disabled and nothing happens;
     * otherwise a form with any issue calls nothing, and a valid one clears the error, marks the
     * request in flight and sends the registration without its confirmation.
     */
    method Submit(f: RegisterForm) returns (body: Option<Registration>)
      modifies this`err, this`requesting
      ensures old(requesting) ==> body == None && err == old(err) && requesting
      ensures !old(requesting) && FormIssues(f) != [] ==> body == None && err == old(err) && !requesting
      ensures !old(requesting) && FormIssues(f) == [] ==>
                body == Some(Registration(f.fullname, f.username, f.password)) && err == "" && requesting
    {
      if requesting {
        return None;
      }
      if FormIssues(f) != [] {
        return None;
      }
      requesting := true;
      err := "";
      body := Some(Registration(f.fullname, f.username, f.password));
    }

    /** The reply to `POST /api/register`: ok registers, any other reply shows its message; the request always ends. */
    method Complete(reply: Reply<()>)
      modifies this`err, this`requesting, this`registered
      ensures !requesting
      ensures registered == (old(registered) || reply.Succeeded())
      ensures err == if reply.Reply? && !reply.ok then reply.message else old(err)
    {
      if reply.Reply? {
        if reply.ok {
          registered := true;
        } else {
          err := reply.message;
        }
      }
      requesting := false;
    }

    function Render(): (v: View)
      reads this
      ensures v.Redirect? <==> registered
    {
      if registered then Redirect("../login") else FormView
    }
  }

  // ---------------------------------------------------------------- properties

  lemma {:induction false} MessagesOfAppend(a: seq<FieldIssue>, b: seq<FieldIssue>, field: Field)
    ensures MessagesOf(a + b, field) == MessagesOf(a, field) + MessagesOf(b, field)
    decreases |a|
  {
    if a == [] {
      assert a + b == b;
    } else {
      assert (a + b)[1..] == a[1..] + b;
      MessagesOfAppend(a[1..], b, field);
    }
  }

  lemma {:induction false} MessagesOfMember(issues: seq<FieldIssue>, field: Field, m: string)
    ensures m in MessagesOf(issues, field) <==> FieldIssue(field, m) in issues
    decreases |issues|
  {
    if issues != [] {
      MessagesOfMember(issues[1..], field, m);
      assert issues == [issues[0]] + issues[1..];
    }
  }

  lemma {:induction false} MessagesOfTag(field: Field, messages: seq<string>, other: Field)
    ensures MessagesOf(Tag(field, messages), other) == if field == other then messages else []
    decreases |messages|
  {
    if messages != [] {
      assert Tag(field, messages)[1..] == Tag(field, messages[1..]);
      MessagesOfTag(field, messages[1..], other);
      assert messages == [messages[0]] + messages[1..];
    }
  }

  lemma ConfPasswordOnly(a: seq<string>, b: seq<string>, c: seq<string>, d: seq<string>, e: seq<FieldIssue>)
    ensures MessagesOf(Tag(Fullname, a) + Tag(Username, b) + Tag(Password, c) + Tag(ConfPassword, d) + e, ConfPassword)
            == d + MessagesOf(e, ConfPassword)
  {
    var ta, tb, tc, td := Tag(Fullname, a), Tag(Username, b), Tag(Password, c), Tag(ConfPassword, d);
    MessagesOfTag(Fullname, a, ConfPassword);
    MessagesOfTag(Username, b, ConfPassword);
    MessagesOfTag(Password, c, ConfPassword);
    MessagesOfTag(ConfPassword, d, ConfPassword);
    MessagesOfAppend(ta, tb, ConfPassword);
    assert MessagesOf(ta + tb, ConfPassword) == [];
    MessagesOfAppend(ta + tb, tc, ConfPassword);
    assert MessagesOf(ta + tb + tc, ConfPassword) == [];
    MessagesOfAppend(ta + tb + tc, td, ConfPassword);
    assert MessagesOf(ta + tb + tc + td, ConfPassword) == d;
    MessagesOfAppend(ta + tb + tc + td, e, ConfPassword);
  }

  /** The messages reported for the confirmation: its own password checks, then the mismatch. */
  lemma ConfPasswordMessages(f: RegisterForm)
    ensures MessagesOf(FormIssues(f), ConfPassword) ==
            PasswordIssues(f.confPassword) + (if f.password == f.confPassword then [] else [MismatchMessage])
  {
    var e: seq<FieldIssue> := if f.password == f.confPassword then [] else [FieldIssue(ConfPassword, MismatchMessage)];
    ConfPasswordOnly(FullnameIssues(f.fullname), UsernameIssues(f.username), PasswordIssues(f.password),
                     PasswordIssues(f.confPassword), e);
    assert MessagesOf(e, ConfPassword) == if f.password == f.confPassword then [] else [MismatchMessage];
  }

  /** The form submits exactly when every field rule holds and the two passwords agree. */
  lemma FormValidIff(f: RegisterForm)
    ensures FormIssues(f) == [] <==>
            FullnameValid(f.fullname) && UsernameValid(f.username) && PasswordValid(f.password) &&
            f.confPassword == f.password
  {
  }

  /** An accepted form has every field filled in and the confirmation equal to the password. */
  lemma AcceptedFormFilled(f: RegisterForm)
    requires FormIssues(f) == []
    ensures f.fullname != [] && |f.username| >= 2 && |f.password| >= 8 && f.confPassword == f.password
  {
    FormValidIff(f);
  }

  /**
   * The mismatch is reported exactly when the passwords differ, and it is the error shown under
   * the confirmation exactly when the confirmation passes the password rules itself.
   */
  lemma MismatchShownOnConfirmation(f: RegisterForm)
    ensures FieldIssue(ConfPassword, MismatchMessage) in FormIssues(f) <==> f.password != f.confPassword
    ensures ShownError(FormIssues(f), ConfPassword) == Some(MismatchMessage) <==>
            f.password != f.confPassword && PasswordValid(f.confPassword)
  {
    ConfPasswordMessages(f);
    MessagesOfMember(FormIssues(f), ConfPassword, MismatchMessage);
    var ms := PasswordIssues(f.confPassword);
    assert MismatchMessage !in ms;
    var shown := MessagesOf(FormIssues(f), ConfPassword);
    if ms != [] {
      assert shown[0] == ms[0] && ms[0] in ms;
    }
  }
}

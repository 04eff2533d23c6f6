/**
 * The registration and login field rules. Each rule is stated twice: as the regular expression
 * reads (one character at a time, or a search over every start position) and as a plain
 * predicate on the string; the issue lists a field reports are built from the first form and
 * proved empty exactly when the second holds.
 */
module Schema {
  import opened Strings

  // ---------------------------------------------------------------- characters

  /** The characters `.` does not match without the `s` flag: LF, CR, U+2028, U+2029. */
  predicate IsLineTerminator(c: char) {
    c == '\n' || c == '\r' || c as int == 0x2028 || c as int == 0x2029
  }

  predicate NoLineTerminator(s: string) {
    forall i :: 0 <= i < |s| ==> !IsLineTerminator(s[i])
  }

  /** The members of the class `[$&+,:;=?@#|'<>.^*()%!-]` (`^` and `-` are literal where they stand). */
  const SpecialChars: string := "$&+,:;=?@#|'<>.^*()%!-"

  // ---------------------------------------------------------------- the regular expressions

  /** Whether `^.{lo,hi}$` matches all of `s`, consuming one character per step. */
  function MatchDots(s: string, lo: nat, hi: nat): bool
    decreases |s|
  {
    if s == [] then lo == 0
    else hi > 0 && !IsLineTerminator(s[0]) && MatchDots(s[1..], if lo > 0 then lo - 1 else 0, hi - 1)
  }

  /** Whether `.*\d` matches a prefix of `s`: some run of non-terminators followed by a digit. */
  function DotsThenDigit(s: string): bool
    decreases |s|
  {
    s != [] && (IsDigit(s[0]) || (!IsLineTerminator(s[0]) && DotsThenDigit(s[1..])))
  }

  /** Whether the unanchored `(?=.*\d)` succeeds at some start position of `s`. */
  function SearchDigitLookahead(s: string): bool
    decreases |s|
  {
    DotsThenDigit(s) || (s != [] && SearchDigitLookahead(s[1..]))
  }

  /** Whether the unanchored class `[...]` of the special characters matches somewhere in `s`. */
  function SearchSpecial(s: string): bool
    decreases |s|
  {
    s != [] && (s[0] in SpecialChars || SearchSpecial(s[1..]))
  }

  // ---------------------------------------------------------------- the rules as predicates

  predicate UsernameValid(u: string) {
    2 <= |u| <= 15 && NoLineTerminator(u)
  }

  predicate FullnameValid(f: string) {
    |f| >= 1
  }

  predicate PasswordLengthValid(p: string) {
    8 <= |p| <= 20 && NoLineTerminator(p)
  }

  predicate HasDigit(p: string) {
    exists i :: 0 <= i < |p| && IsDigit(p[i])
  }

  predicate HasSpecial(p: string) {
    exists i :: 0 <= i < |p| && p[i] in SpecialChars
  }

  predicate PasswordValid(p: string) {
    PasswordLengthValid(p) && HasDigit(p) && HasSpecial(p)
  }

  /** Login asks only for a non-empty username and a non-empty password. */
  predicate LoginValid(username: string, password: string) {
    |username| >= 1 && |password| >= 1
  }

  // ---------------------------------------------------------------- the two readings agree

  lemma {:induction false} MatchDotsIff(s: string, lo: nat, hi: nat)
    ensures MatchDots(s, lo, hi) <==> lo <= |s| <= hi && NoLineTerminator(s)
    decreases |s|
  {
    if s != [] && hi > 0 {
      MatchDotsIff(s[1..], if lo > 0 then lo - 1 else 0, hi - 1);
      if NoLineTerminator(s[1..]) && !IsLineTerminator(s[0]) {
        assert forall i :: 0 < i < |s| ==> s[i] == s[1..][i - 1];
      }
    }
  }

  lemma {:induction false} DotsThenDigitHasDigit(s: string)
    ensures DotsThenDigit(s) ==> HasDigit(s)
    decreases |s|
  {
    if s != [] && !IsDigit(s[0]) && DotsThenDigit(s[1..]) {
      DotsThenDigitHasDigit(s[1..]);
      var i :| 0 <= i < |s[1..]| && IsDigit(s[1..][i]);
      assert IsDigit(s[i + 1]);
    }
  }

  /** The lookahead `(?=.*\d)`, tried at every position, succeeds exactly when the text has a digit. */
  lemma {:induction false} DigitLookaheadIff(s: string)
    ensures SearchDigitLookahead(s) <==> HasDigit(s)
    decreases |s|
  {
    if s != [] {
      DigitLookaheadIff(s[1..]);
      DotsThenDigitHasDigit(s);
      if HasDigit(s) && !IsDigit(s[0]) {
        var i :| 0 <= i < |s| && IsDigit(s[i]);
        assert IsDigit(s[1..][i - 1]);
      }
      if SearchDigitLookahead(s[1..]) && !DotsThenDigit(s) {
        var i :| 0 <= i < |s[1..]| && IsDigit(s[1..][i]);
        assert IsDigit(s[i + 1]);
      }
    }
  }

  lemma {:induction false} SearchSpecialIff(s: string)
    ensures SearchSpecial(s) <==> HasSpecial(s)
    decreases |s|
  {
    if s != [] {
      SearchSpecialIff(s[1..]);
      if HasSpecial(s) && s[0] !in SpecialChars {
        var i :| 0 <= i < |s| && s[i] in SpecialChars;
        assert s[1..][i - 1] in SpecialChars;
      }
      if SearchSpecial(s[1..]) {
        var i :| 0 <= i < |s[1..]| && s[1..][i] in SpecialChars;
        assert s[i + 1] in SpecialChars;
      }
    }
  }

  // ---------------------------------------------------------------- issues

  const UsernameMessage: string := "Minimum 2 and maximum 15 characters."
  const FullnameMessage: string := "Full name can't be empty"
  const PasswordLengthMessage: string := "Minimum 8 and maximum 20 characters."
  const PasswordDigitMessage: string := "At least one digit."
  const PasswordSpecialMessage: string := "At least one special character."
  const LoginUsernameMessage: string := "Username can't be empty"
  const LoginPasswordMessage: string := "Password can't be empty"

  /** The username check: its message when the pattern does not match, nothing otherwise. */
  function UsernameIssues(u: string): (r: seq<string>)
    ensures r == [] <==> UsernameValid(u)
    ensures r != [] ==> r == [UsernameMessage]
  {
    MatchDotsIff(u, 2, 15);
    if MatchDots(u, 2, 15) then [] else [UsernameMessage]
  }

  function FullnameIssues(f: string): (r: seq<string>)
    ensures r == [] <==> FullnameValid(f)
    ensures r != [] ==> r == [FullnameMessage]
  {
    if |f| < 1 then [FullnameMessage] else []
  }

  /**
   * The password checks, each run whatever the others found: one message per failing rule, in
   * the order the rules are declared.
   */
  function PasswordIssues(p: string): (r: seq<string>)
    ensures r == [] <==> PasswordValid(p)
    ensures PasswordLengthMessage in r <==> !PasswordLengthValid(p)
    ensures PasswordDigitMessage in r <==> !HasDigit(p)
    ensures PasswordSpecialMessage in r <==> !HasSpecial(p)
    ensures r != [] && !PasswordLengthValid(p) ==> r[0] == PasswordLengthMessage
    ensures |r| <= 3
  {
    MatchDotsIff(p, 8, 20);
    DigitLookaheadIff(p);
    SearchSpecialIff(p);
    (if MatchDots(p, 8, 20) then [] else [PasswordLengthMessage])
    + (if SearchDigitLookahead(p) then [] else [PasswordDigitMessage])
    + (if SearchSpecial(p) then [] else [PasswordSpecialMessage])
  }

  /** The login form's checks, username first as the form declares its fields. */
  function LoginIssues(username: string, password: string): (r: seq<string>)
    ensures r == [] <==> LoginValid(username, password)
    ensures LoginPasswordMessage in r <==> password == []
    ensures LoginUsernameMessage in r <==> username == []
  {
    (if |username| < 1 then [LoginUsernameMessage] else [])
    + (if |password| < 1 then [LoginPasswordMessage] else [])
  }

  // ---------------------------------------------------------------- properties

  /** Credentials that pass registration always pass the login form's checks. */
  lemma RegisteredCredentialsPassLogin(username: string, password: string)
    requires UsernameIssues(username) == [] && PasswordIssues(password) == []
    ensures LoginIssues(username, password) == []
  {
  }

  /** A password of the right length made only of lower-case letters fails exactly the digit and special-character rules, in that order. */
  lemma LettersOnlyFailsTwoRules(p: string)
    requires PasswordLengthValid(p)
    requires forall i :: 0 <= i < |p| ==> 'a' <= p[i] <= 'z'
    ensures PasswordIssues(p) == [PasswordDigitMessage, PasswordSpecialMessage]
  {
    assert !HasDigit(p);
    assert !HasSpecial(p) by {
      forall i | 0 <= i < |p| ensures p[i] !in SpecialChars {
        assert 'a' <= p[i] <= 'z';
      }
    }
  }
}

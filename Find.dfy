/**
 * The find-people view: a search box whose trimmed text is classified as a username search
 * (leading `@`) or a normal one, and the view state the search reply leads to.
 */
module Find {
  import opened Types
  import opened Strings

  datatype SearchType = Normal | ByUsername {
    /** The `type` parameter of `GET /api/search`. */
    function Name(): string {
      match this
      case Normal => "normal"
      case ByUsername => "by-username"
    }
  }

  datatype Search = Search(searchType: SearchType, query: string)

  /**
   * The search box's change handler: nothing for text that is blank once trimmed; otherwise a
   * username search for the trimmed text without its leading `@`, or a normal search for all of it.
   */
  function Classify(input: string): (s: Option<Search>)
    ensures s.None? <==> Trim(input) == []
  {
    var query := Trim(input);
    if query == [] then None
    else if query[0] == '@' then Some(Search(ByUsername, query[1..]))
    else Some(Search(Normal, query))
  }

  /** `searchUser`'s own guard: an empty query sends no request. */
  function SearchRequest(input: string): (r: Option<Search>)
    ensures r.Some? ==> r.value.query != []
  {
    match Classify(input)
    case Some(s) => if s.query == [] then None else Some(s)
    case None => None
  }

  datatype FindState = FindState(results: seq<User>, unauthorized: bool, searching: bool)

  const Initial: FindState := FindState([], false, false)

  /** A search goes out: the spinner shows. */
  function StartSearch(st: FindState): FindState {
    st.(searching := true)
  }

  /**
   * The reply to a search: ok replaces the results (`[]` without a `results` field); a non-ok
   * reply sets `unauthorized` to whether the status is 401; the spinner stops in every case.
   */
  function OnReply(st: FindState, reply: Reply<Option<seq<User>>>): (st': FindState)
    ensures !st'.searching
    ensures st'.results == if reply.Succeeded() then reply.data.GetOr([]) else st.results
    ensures st'.unauthorized == if reply.Reply? && !reply.ok then reply.status == 401 else st.unauthorized
  {
    match reply
    case NetworkError => st.(searching := false)
    case Reply(ok, status, data, _) =>
      if ok then st.(results := data.GetOr([]), searching := false)
      else st.(unauthorized := status == 401, searching := false)
  }

  /** The view redirects to `/get-started` once unauthorized. */
  function Redirect(st: FindState): Option<string> {
    if st.unauthorized then Some(GetStartedRoute) else None
  }

  // ---------------------------------------------------------------- properties

  /** Classification loses nothing: putting the `@` back gives the trimmed input. */
  lemma ClassifyRoundTrip(input: string)
    requires Classify(input).Some?
    ensures var s := Classify(input).value;
            (if s.searchType == ByUsername then "@" + s.query else s.query) == Trim(input)
    ensures Classify(input).value.searchType == ByUsername <==> Trim(input)[0] == '@'
  {
    var t := Trim(input);
    if t[0] == '@' {
      assert "@" + t[1..] == t;
    }
  }

  /** A lone `@` (with any surrounding blanks) is classified but sends nothing. */
  lemma LoneAtSendsNothing(input: string)
    requires Trim(input) == "@"
    ensures Classify(input) == Some(Search(ByUsername, ""))
    ensures SearchRequest(input) == None
  {
    assert Trim(input)[0] == '@' && Trim(input)[1..] == "";
  }

  /** A normal search sends the whole trimmed text, which has no blank at either end. */
  lemma NormalSearchIsTrimmed(input: string)
    requires SearchRequest(input).Some? && SearchRequest(input).value.searchType == Normal
    ensures SearchRequest(input).value.query == Trim(input)
    ensures var q := SearchRequest(input).value.query; !IsWhitespace(q[0]) && !IsWhitespace(q[|q| - 1]) && q[0] != '@'
  {
  }

  /** A 401 reply always ends in the redirect; an ok reply never starts one. */
  lemma UnauthorizedRedirects(st: FindState, reply: Reply<Option<seq<User>>>)
    ensures reply.Reply? && !reply.ok && reply.status == 401 ==> Redirect(OnReply(st, reply)) == Some(GetStartedRoute)
    ensures reply.Succeeded() ==> Redirect(OnReply(st, reply)) == Redirect(st)
  {
  }
}

/** The patient search view: a search term, the results of the last
    search, a status and an error text. `handleSearch` is asynchronous; it is
    modelled as `Submit`, which runs up to the `await` of the search call,
    and `Complete`, which resumes it with the call's outcome. */
module PatientSearch {
  import opened Common

  /** A patient record as returned by the search endpoint; the view only
      displays it, so only its identifiers are kept. */
  datatype Patient = Patient(storageId: string, cedula: string)

  datatype Status = Idle | Loading | Success | NotFound | Error

  /** How the search call ends: the records it returned, or the message it threw with. */
  datatype SearchOutcome = Found(patients: seq<Patient>) | Threw(message: string)

  const UnexpectedError: string := "An unexpected error occurred."

  /** White space and line terminators as `String.prototype.trim` removes
      them (ECMAScript WhiteSpace and LineTerminator). */
  predicate IsTrimSpace(c: char)
  {
    c == '\t' || c == '\n' || c == '\U{B}' || c == '\U{C}' || c == '\r' || c == ' '
    || c == '\U{A0}' || c == '\U{1680}' || ('\U{2000}' <= c <= '\U{200A}')
    || c == '\U{2028}' || c == '\U{2029}' || c == '\U{202F}' || c == '\U{205F}'
    || c == '\U{3000}' || c == '\U{FEFF}'
  }

  /** `s` with its leading white space removed. */
  function TrimStart(s: string): (r: string)
    ensures |r| <= |s| && r == s[|s| - |r|..]
    ensures forall i :: 0 <= i < |s| - |r| ==> IsTrimSpace(s[i])
    ensures r != [] ==> !IsTrimSpace(r[0])
  {
    if s != [] && IsTrimSpace(s[0]) then TrimStart(s[1..]) else s
  }

  /** `s` with its trailing white space removed. */
  function TrimEnd(s: string): (r: string)
    ensures |r| <= |s| && r == s[..|r|]
    ensures forall i :: |r| <= i < |s| ==> IsTrimSpace(s[i])
    ensures r != [] ==> !IsTrimSpace(r[|r| - 1])
  {
    if s != [] && IsTrimSpace(s[|s| - 1]) then TrimEnd(s[..|s| - 1]) else s
  }

  /** `r` is the slice `s[a..a + |r|]`, and everything outside it is white
      space. */
  predicate TrimmedAt(s: string, a: int, r: string)
  {
    && 0 <= a <= |s| - |r|
    && r == s[a..a + |r|]
    && (forall i :: 0 <= i < a ==> IsTrimSpace(s[i]))
    && (forall i :: a + |r| <= i < |s| ==> IsTrimSpace(s[i]))
  }

  /** `s.trim()`: a slice of `s` with only white space cut off at either end;
      empty exactly when `s` is all white space, and otherwise beginning and
      ending with a non-space character. */
  function Trim(s: string): (r: string)
    ensures |r| <= |s|
    ensures exists a :: TrimmedAt(s, a, r)
    ensures r == [] <==> forall i :: 0 <= i < |s| ==> IsTrimSpace(s[i])
    ensures r != [] ==> !IsTrimSpace(r[0]) && !IsTrimSpace(r[|r| - 1])
  {
    var t := TrimStart(s);
    var r := TrimEnd(t);
    TrimBlank(s, t, r);
    TrimSlice(s, t, r);
    r
  }

  /** Cutting white space off the start of `s` and then off the end of the
      rest keeps one slice of `s`. */
  lemma TrimSlice(s: string, t: string, r: string)
    requires |t| <= |s| && t == s[|s| - |t|..]
    requires forall i :: 0 <= i < |s| - |t| ==> IsTrimSpace(s[i])
    requires |r| <= |t| && r == t[..|r|]
    requires forall i :: |r| <= i < |t| ==> IsTrimSpace(t[i])
    ensures TrimmedAt(s, |s| - |t|, r)
  {
    var a := |s| - |t|;
    assert r == s[a..a + |r|];
    forall i | a + |r| <= i < |s|
      ensures IsTrimSpace(s[i])
    {
      assert s[i] == t[i - a];
    }
  }

  lemma TrimBlank(s: string, t: string, r: string)
    requires t == TrimStart(s) && r == TrimEnd(t)
    ensures r == [] <==> forall i :: 0 <= i < |s| ==> IsTrimSpace(s[i])
    ensures r != [] ==> !IsTrimSpace(r[0])
  {
    if r != [] {
      assert r[0] == t[0];
    } else {
      assert t == [];
    }
  }

  /** Trimming twice is trimming once. */
  lemma TrimIdempotent(s: string)
    ensures Trim(Trim(s)) == Trim(s)
  {
    var r := Trim(s);
    if r != [] {
      assert TrimStart(r) == r;
      assert TrimEnd(r) == r;
    }
  }

  /** What `renderResults` shows for each status. */
  datatype Display =
    | Prompt
    | Searching
    | NoMatch(term: string)
    | Failure(message: string)
    | Profiles(patients: seq<Patient>)

  class Search {
    var searchTerm: string
    var searchResults: seq<Patient>
    var searchStatus: Status
    var error: Option<string>
    /** The query of the search call being awaited, and every query sent. */
    var inFlight: Option<string>
    var queries: seq<string>

    /** After every completed search the results are non-empty exactly when
        the status is `Success`; an error status always has a message. */
    ghost predicate Valid()
      reads this
    {
      && (searchStatus == Loading <==> inFlight.Some?)
      && (inFlight.Some? ==> inFlight.value != "")
      && (searchStatus != Loading ==> (searchResults != [] <==> searchStatus == Success))
      && (searchStatus == Error ==> error.Some? && error.value != "")
      && (searchStatus in {Loading, Success, NotFound} ==> error.None?)
    }

    constructor ()
      ensures Valid()
      ensures searchTerm == "" && searchResults == [] && searchStatus == Idle && error.None?
      ensures inFlight.None? && queries == []
    {
      searchTerm, searchResults, searchStatus, error := "", [], Idle, None;
      inFlight, queries := None, [];
    }

    /** The input's `onChange`. */
    method SetSearchTerm(t: string)
      requires Valid()
      modifies this`searchTerm
      ensures Valid() && searchTerm == t
    {
      searchTerm := t;
    }

    /** The submit button is disabled while a search is loading. */
    function SubmitDisabled(): (disabled: bool)
      reads this
      requires Valid()
      ensures disabled <==> inFlight.Some?
    {
      searchStatus == Loading
    }

    /** `handleSearch` up to the search call. A blank term makes no call. */
    method Submit()
      requires Valid() && !SubmitDisabled()
      modifies this
      ensures Valid() && searchTerm == old(searchTerm)
      ensures Trim(searchTerm) == "" ==>
                searchStatus == Idle && searchResults == [] && error == old(error) &&
                inFlight.None? && queries == old(queries)
      ensures Trim(searchTerm) != "" ==>
                searchStatus == Loading && error.None? && searchResults == old(searchResults) &&
                inFlight == Some(Trim(searchTerm)) && queries == old(queries) + [Trim(searchTerm)]
    {
      var q := Trim(searchTerm);
      if q == "" {
        searchStatus := Idle;
        searchResults := [];
        return;
      }
      searchStatus := Loading;
      error := None;
      inFlight := Some(q);
      queries := queries + [q];
    }

    /** The search call ended with `outcome`; the rest of `handleSearch`. */
    method Complete(outcome: SearchOutcome)
      requires Valid() && inFlight.Some?
      modifies this
      ensures Valid() && inFlight.None?
      ensures searchTerm == old(searchTerm) && queries == old(queries)
      ensures outcome.Found? && outcome.patients != [] ==>
                searchStatus == Success && searchResults == outcome.patients && error.None?
      ensures outcome.Found? && outcome.patients == [] ==>
                searchStatus == NotFound && searchResults == [] && error.None?
      ensures outcome.Threw? ==>
                searchStatus == Error && searchResults == [] &&
                error == Some(if outcome.message != "" then outcome.message else UnexpectedError)
    {
      match outcome {
        case Found(results) =>
          if |results| > 0 {
            searchResults := results;
            searchStatus := Success;
          } else {
            searchResults := [];
            searchStatus := NotFound;
          }
        case Threw(message) =>
          error := Some(if message != "" then message else UnexpectedError);
          searchStatus := Error;
          searchResults := [];
      }
      inFlight := None;
    }

    /** `renderResults`: the profiles are shown exactly for `Success`, in the
        order the search returned them. */
    function Rendered(): (d: Display)
      reads this
      requires Valid()
      ensures d.Profiles? <==> searchStatus == Success
      ensures d.Profiles? ==> d.patients == searchResults && d.patients != []
      ensures d.Failure? ==> d.message != ""
    {
      match searchStatus
      case Idle => Prompt
      case Loading => Searching
      case NotFound => NoMatch(searchTerm)
      case Error => Failure(error.value)
      case Success => Profiles(searchResults)
    }
  }

  /** One submission of `term` on a fresh search view, the call ending with
      `outcome`. Returns the final status and results and the queries sent. */
  method SearchOnce(term: string, outcome: SearchOutcome)
    returns (status: Status, results: seq<Patient>, sent: seq<string>)
    ensures Trim(term) == "" ==> status == Idle && results == [] && sent == []
    ensures Trim(term) != "" ==> sent == [Trim(term)] && status != Loading
    ensures Trim(term) != "" ==> (results != [] <==> status == Success)
    ensures Trim(term) != "" && outcome.Found? ==> results == outcome.patients && status != Error
    ensures Trim(term) != "" && outcome.Threw? ==> status == Error && results == []
  {
    var v := new Search();
    v.SetSearchTerm(term);
    v.Submit();
    if v.inFlight.Some? {
      v.Complete(outcome);
    }
    status, results, sent := v.searchStatus, v.searchResults, v.queries;
  }
}

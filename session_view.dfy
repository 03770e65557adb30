/** The Arkime sessions view: the same paged list and key handling as the
    query view, but the query is searched exactly as typed, empty or not. */
module SessionViews {
  import opened PyValues
  import opened Paging

  /** The view's fields. */
  datatype SessionState = SessionState(query: seq<int>, results: seq<Value>, selected: int, message: string, page: int)

  /** `execute_query()`: results, page and highlight are reset, the query
      is searched as typed, and the outcome reported. */
  function Executed(st: SessionState, search: seq<int> -> SearchAnswer): SessionState {
    match search(st.query)
    case SearchRaised(t) => SessionState(st.query, [], 0, "Error: " + t, 0)
    case Sessions(rs) => SessionState(st.query, rs, 0, "Found " + NatText(|rs|) + " sessions.", 0)
  }

  /** `handle_input(key)`. */
  function AfterKey(st: SessionState, key: int, search: seq<int> -> SearchAnswer): SessionState {
    if IsEnter(key) then Executed(st, search)
    else
      var nav := NavKey(Nav(st.query, st.selected, st.page), key, |st.results|);
      st.(query := nav.query, selected := nav.selected, page := nav.page)
  }

  predicate Valid(st: SessionState) {
    NavValid(Nav(st.query, st.selected, st.page), |st.results|)
  }

  /** Every key keeps the view's state valid. */
  lemma AfterKeyKeepsValid(st: SessionState, key: int, search: seq<int> -> SearchAnswer)
    requires Valid(st)
    ensures Valid(AfterKey(st, key, search))
  {
    if !IsEnter(key) {
      NavKeyKeepsValid(Nav(st.query, st.selected, st.page), key, |st.results|);
    } else {
      var r := Executed(st, search);
      TotalPagesIsCeiling(|r.results|, ResultsPerPage);
    }
  }

  /** A search shows the first row of the first page and asks for the
      query exactly as typed; the results are what it returned, or none
      when it raised; the message counts the sessions found. */
  lemma ExecutedAsTyped(st: SessionState, search: seq<int> -> SearchAnswer, other: seq<int> -> SearchAnswer)
    ensures var r := Executed(st, search);
      && r.query == st.query && r.page == 0 && r.selected == 0
      && r.results == (if search(st.query).Sessions? then search(st.query).found else [])
    ensures search(st.query).Sessions? ==> Executed(st, search).message == "Found " + NatText(|Executed(st, search).results|) + " sessions."
    ensures search(st.query).SearchRaised? ==> Executed(st, search).message == "Error: " + search(st.query).text
    ensures search(st.query) == other(st.query) ==> Executed(st, search) == Executed(st, other)
  {
  }

  /** The sessions view. */
  class SessionView {
    var query: seq<int>
    var results: seq<Value>
    var selectedResult: int
    var message: string
    var currentPage: int

    function State(): SessionState
      reads this
    {
      SessionState(query, results, selectedResult, message, currentPage)
    }

    constructor ()
      ensures State() == SessionState([], [], 0, "", 0) && Valid(State())
    {
      query := [];
      results := [];
      selectedResult := 0;
      message := "";
      currentPage := 0;
    }

    /** The positions `draw` lists: the current page of the results. */
    method VisibleRange() returns (start: int, end: int)
      requires Valid(State()) && results != []
      ensures start == currentPage * ResultsPerPage
      ensures 0 <= start < end <= |results| && end - start <= ResultsPerPage
      ensures forall i :: 0 <= i < |results| ==> (start <= i < end <==> currentPage == i / ResultsPerPage)
    {
      start := currentPage * ResultsPerPage;
      end := if start + ResultsPerPage < |results| then start + ResultsPerPage else |results|;
      forall i | 0 <= i < |results|
        ensures start <= i < end <==> currentPage == i / ResultsPerPage
      {
        PageWindowInRange(currentPage, ResultsPerPage, |results|, i);
      }
      PageWindowInRange(currentPage, ResultsPerPage, |results|, 0);
    }

    /** `execute_query()`, searching with `search`. */
    method ExecuteQuery(search: seq<int> -> SearchAnswer)
      modifies this
      ensures State() == Executed(old(State()), search)
    {
      message := "Searching...";
      results := [];
      currentPage := 0;
      selectedResult := 0;
      var answer := search(query);
      if answer.SearchRaised? {
        message := "Error: " + answer.text;
        return;
      }
      results := answer.found;
      message := "Found " + NatText(|results|) + " sessions.";
    }

    /** `handle_input(key)`. */
    method HandleInput(key: int, search: seq<int> -> SearchAnswer)
      modifies this
      ensures State() == AfterKey(old(State()), key, search)
    {
      if IsEnter(key) {
        ExecuteQuery(search);
      } else if key == KeyUp {
        selectedResult := if selectedResult - 1 > 0 then selectedResult - 1 else 0;
      } else if key == KeyDown {
        selectedResult := if ResultsPerPage - 1 < selectedResult + 1 then ResultsPerPage - 1 else selectedResult + 1;
      } else if key == KeyPreviousPage {
        currentPage := if currentPage - 1 > 0 then currentPage - 1 else 0;
        selectedResult := 0;
      } else if key == KeyNextPage {
        var totalPages := (|results| + ResultsPerPage - 1) / ResultsPerPage;
        currentPage := if totalPages - 1 < currentPage + 1 then totalPages - 1 else currentPage + 1;
        selectedResult := 0;
      } else if key == KeyBackspace || key == Delete {
        query := if query == [] then [] else query[..|query| - 1];
      } else if IsCodePoint(key) {
        query := query + [key];
      }
    }
  }
}

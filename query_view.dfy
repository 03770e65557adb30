/** The Arkime query view: a query typed key by key, a search run on
    Enter, and a paged list of the sessions found. A bare query (one word,
    no comparison, no time field) is searched over the preceding day. */
module QueryViews {
  import opened PyValues
  import opened Paging

  /** The `isoformat()` texts of the current UTC time one day back and now. */
  datatype TimeWindow = TimeWindow(startIso: string, endIso: string)

  /** The view's fields. */
  datatype QueryState = QueryState(query: seq<int>, results: seq<Value>, selected: int, message: string, page: int)

  /** A query with no space and none of `<`, `>`, `:`, `firstPacket`,
      `lastPacket`. */
  predicate Bare(q: seq<int>) {
    && !Contains(q, Codes(" "))
    && !Contains(q, Codes("<"))
    && !Contains(q, Codes(">"))
    && !Contains(q, Codes(":"))
    && !Contains(q, Codes("firstPacket"))
    && !Contains(q, Codes("lastPacket"))
  }

  function WindowClause(w: TimeWindow): string {
    " && lastPacket>=" + w.startIso + "Z && lastPacket<" + w.endIso + "Z"
  }

  /** The expression sent to Arkime: a bare query restricted to the
      window, any other query as typed. */
  function ArkimeQuery(q: seq<int>, w: TimeWindow): seq<int> {
    if Bare(q) then q + Codes(WindowClause(w)) else q
  }

  /** The query as typed is kept at the front; only a bare query is
      changed, by appending the window clause. */
  lemma ArkimeQueryExtends(q: seq<int>, w: TimeWindow)
    ensures q <= ArkimeQuery(q, w)
    ensures ArkimeQuery(q, w) != q <==> Bare(q)
    ensures Bare(q) ==> ArkimeQuery(q, w)[|q|..] == Codes(WindowClause(w))
  {
  }

  /** A rewritten query is no longer bare, so rewriting it again, for any
      window, changes nothing. */
  lemma ArkimeQueryIdempotent(q: seq<int>, w: TimeWindow, w2: TimeWindow)
    ensures !Bare(ArkimeQuery(q, w))
    ensures ArkimeQuery(ArkimeQuery(q, w), w2) == ArkimeQuery(q, w)
  {
    if Bare(q) {
      var clause := Codes(WindowClause(w));
      assert clause[0..1] == Codes(" ");
      assert OccursAt(clause, Codes(" "), 0);
      ContainsAppend(q, Codes(" "), clause);
    }
  }

  /** `execute_query()`: results, page and highlight are reset; an empty
      query is refused without a search; otherwise the rewritten query is
      searched and the outcome reported. */
  function Executed(st: QueryState, search: seq<int> -> SearchAnswer, w: TimeWindow): QueryState {
    if st.query == [] then QueryState(st.query, [], 0, "Please enter a query.", 0)
    else
      match search(ArkimeQuery(st.query, w))
      case SearchRaised(t) => QueryState(st.query, [], 0, "Error: " + t, 0)
      case Sessions(rs) =>
        QueryState(st.query, rs, 0, if rs != [] then "Found " + NatText(|rs|) + " results." else "No results found.", 0)
  }

  /** `handle_input(key)`. */
  function AfterKey(st: QueryState, key: int, search: seq<int> -> SearchAnswer, w: TimeWindow): QueryState {
    if IsEnter(key) then Executed(st, search, w)
    else
      var nav := NavKey(Nav(st.query, st.selected, st.page), key, |st.results|);
      st.(query := nav.query, selected := nav.selected, page := nav.page)
  }

  predicate Valid(st: QueryState) {
    NavValid(Nav(st.query, st.selected, st.page), |st.results|)
  }

  /** Every key keeps the view's state valid. */
  lemma AfterKeyKeepsValid(st: QueryState, key: int, search: seq<int> -> SearchAnswer, w: TimeWindow)
    requires Valid(st)
    ensures Valid(AfterKey(st, key, search, w))
  {
    if !IsEnter(key) {
      NavKeyKeepsValid(Nav(st.query, st.selected, st.page), key, |st.results|);
    } else {
      var r := Executed(st, search, w);
      TotalPagesIsCeiling(|r.results|, ResultsPerPage);
    }
  }

  /** A search leaves the query as typed, shows the first row of the first
      page, and keeps results only from a search that returned some; an
      empty query is refused whatever the search would have answered. */
  lemma ExecutedResets(st: QueryState, search: seq<int> -> SearchAnswer, w: TimeWindow,
                       other: seq<int> -> SearchAnswer, w2: TimeWindow)
    ensures var r := Executed(st, search, w);
      && r.query == st.query && r.page == 0 && r.selected == 0
      && (r.results != [] ==> st.query != [] && search(ArkimeQuery(st.query, w)) == Sessions(r.results))
    ensures st.query == [] ==>
      Executed(st, search, w) == Executed(st, other, w2) && Executed(st, search, w).message == "Please enter a query."
    ensures st.query != [] && search(ArkimeQuery(st.query, w)).SearchRaised? ==>
      Executed(st, search, w).results == [] && Executed(st, search, w).message == "Error: " + search(ArkimeQuery(st.query, w)).text
  {
  }

  /** The outcome of a search depends on the search only through its
      answer to the rewritten query. */
  lemma ExecutedAsksRewritten(st: QueryState, search: seq<int> -> SearchAnswer, other: seq<int> -> SearchAnswer, w: TimeWindow)
    requires search(ArkimeQuery(st.query, w)) == other(ArkimeQuery(st.query, w))
    ensures Executed(st, search, w) == Executed(st, other, w)
  {
  }

  /** The query view. */
  class QueryView {
    var query: seq<int>
    var results: seq<Value>
    var selectedResult: int
    var message: string
    var currentPage: int

    function State(): QueryState
      reads this
    {
      QueryState(query, results, selectedResult, message, currentPage)
    }

    constructor ()
      ensures State() == QueryState([], [], 0, "", 0) && Valid(State())
    {
      query := [];
      results := [];
      selectedResult := 0;
      message := "";
      currentPage := 0;
    }

    /** The positions `draw` lists: the current page of the results. */
    method VisibleRange() returns (start: int, end: int)
      requires Valid(State()) && results != []
      ensures start == currentPage * ResultsPerPage
      ensures 0 <= start < end <= |results| && end - start <= ResultsPerPage
      ensures forall i :: 0 <= i < |results| ==> (start <= i < end <==> currentPage == i / ResultsPerPage)
    {
      start := currentPage * ResultsPerPage;
      end := if start + ResultsPerPage < |results| then start + ResultsPerPage else |results|;
      forall i | 0 <= i < |results|
        ensures start <= i < end <==> currentPage == i / ResultsPerPage
      {
        PageWindowInRange(currentPage, ResultsPerPage, |results|, i);
      }
      PageWindowInRange(currentPage, ResultsPerPage, |results|, 0);
    }

    /** `execute_query()`, searching with `search` over the window `w`. */
    method ExecuteQuery(search: seq<int> -> SearchAnswer, w: TimeWindow)
      modifies this
      ensures State() == Executed(old(State()), search, w)
    {
      message := "Searching...";
      results := [];
      currentPage := 0;
      selectedResult := 0;
      if query == [] {
        message := "Please enter a query.";
        return;
      }
      var arkimeQuery := if Bare(query) then query + Codes(WindowClause(w)) else query;
      var answer := search(arkimeQuery);
      if answer.SearchRaised? {
        message := "Error: " + answer.text;
        results := [];
        return;
      }
      results := answer.found;
      if results != [] {
        message := "Found " + NatText(|results|) + " results.";
      } else {
        message := "No results found.";
      }
    }

    /** `handle_input(key)`. */
    method HandleInput(key: int, search: seq<int> -> SearchAnswer, w: TimeWindow)
      modifies this
      ensures State() == AfterKey(old(State()), key, search, w)
    {
      if IsEnter(key) {
        ExecuteQuery(search, w);
      } else if key == KeyUp {
        selectedResult := if selectedResult - 1 > 0 then selectedResult - 1 else 0;
      } else if key == KeyDown {
        selectedResult := if ResultsPerPage - 1 < selectedResult + 1 then ResultsPerPage - 1 else selectedResult + 1;
      } else if key == KeyPreviousPage {
        currentPage := if currentPage - 1 > 0 then currentPage - 1 else 0;
        selectedResult := 0;
      } else if key == KeyNextPage {
        var totalPages := (|results| + ResultsPerPage - 1) / ResultsPerPage;
        currentPage := if totalPages - 1 < currentPage + 1 then totalPages - 1 else currentPage + 1;
        selectedResult := 0;
      } else if key == KeyBackspace || key == Delete {
        query := if query == [] then [] else query[..|query| - 1];
      } else if IsCodePoint(key) {
        query := query + [key];
      }
    }
  }
}

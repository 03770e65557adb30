/** What the query and session views share: the curses key codes they
    react to, the paging arithmetic of their result lists, and the way
    every key other than Enter moves the selection, the page or edits the
    query text. The query text is a sequence of code points, since
    `chr(key)` accepts every code point up to 0x10FFFF. */
module Paging {
  import opened PyValues

  const KeyDown := 258
  const KeyUp := 259
  const KeyBackspace := 263
  const KeyNextPage := 338
  const KeyPreviousPage := 339
  const KeyEnter := 343
  /** The line feed some terminals send for Enter. */
  const LineFeed := 10
  /** The DEL code some terminals send for Backspace. */
  const Delete := 127
  const MaxCodePoint := 0x10FFFF
  const ResultsPerPage := 10

  /** What the session search answers: the sessions found, or the text of
      the exception it raised. */
  datatype SearchAnswer = Sessions(found: seq<Value>) | SearchRaised(text: string)

  predicate IsEnter(key: int) {
    key == KeyEnter || key == LineFeed
  }

  /** `chr(key)` succeeds. */
  predicate IsCodePoint(key: int) {
    0 <= key <= MaxCodePoint
  }

  /** The code points of a text. */
  function Codes(s: string): (r: seq<int>)
    ensures |r| == |s| && forall i :: 0 <= i < |s| ==> r[i] == s[i] as int
  {
    seq(|s|, i requires 0 <= i < |s| => s[i] as int)
  }

  lemma CodesAppend(s: string, t: string)
    ensures Codes(s + t) == Codes(s) + Codes(t)
  {
  }

  // ---------------------------------------------------------------------------
  // Pages

  /** `(n + per_page - 1) // per_page` */
  function TotalPages(n: nat, perPage: nat): nat
    requires perPage > 0
  {
    (n + perPage - 1) / perPage
  }

  /** The page count is the ceiling of `n / perPage`: just enough pages to
      hold every result, and none for no results. */
  lemma TotalPagesIsCeiling(n: nat, perPage: nat)
    requires perPage > 0
    ensures TotalPages(n, perPage) * perPage >= n
    ensures n > 0 ==> (TotalPages(n, perPage) - 1) * perPage < n
    ensures TotalPages(n, perPage) == 0 <==> n == 0
  {
    var t := TotalPages(n, perPage);
    var r := (n + perPage - 1) % perPage;
    assert t * perPage + r == n + perPage - 1;
  }

  /** The positions `draw` lists for a page: from `page * per_page` up to,
      not including, `min(start + per_page, n)`. */
  function PageStart(page: int, perPage: nat): int {
    page * perPage
  }

  function PageEnd(page: int, perPage: nat, n: nat): int {
    var start := page * perPage;
    if start + perPage < n then start + perPage else n
  }

  /** On any page that exists the listed positions are in range, at least
      one and at most a page's worth; position `i` is listed on page
      `i / perPage` and on no other page. */
  lemma PageWindowInRange(page: int, perPage: nat, n: nat, i: int)
    requires perPage > 0 && 0 <= page < TotalPages(n, perPage)
    ensures 0 <= PageStart(page, perPage) < PageEnd(page, perPage, n) <= n
    ensures PageEnd(page, perPage, n) - PageStart(page, perPage) <= perPage
    ensures 0 <= i < n ==>
              (PageStart(page, perPage) <= i < PageEnd(page, perPage, n) <==> page == i / perPage)
  {
    TotalPagesIsCeiling(n, perPage);
    var t := TotalPages(n, perPage);
    if page < t - 1 {
      MulGap(page, t - 1, perPage);
    }
    assert 0 <= page * perPage;
    if 0 <= i < n {
      var q := i / perPage;
      assert q * perPage <= i < q * perPage + perPage;
      if page < q {
        MulGap(page, q, perPage);
      } else if page > q {
        MulGap(q, page, perPage);
      }
    }
  }

  /** Whole pages apart means at least a page's worth of positions apart. */
  lemma MulGap(a: int, b: int, p: nat)
    requires a < b
    ensures a * p + p <= b * p
  {
    var d := b - a - 1;
    assert b * p == a * p + p + d * p;
  }

  // ---------------------------------------------------------------------------
  // Keys other than Enter

  /** The fields `handle_input` changes: the query text, the highlighted
      row within the page, and the page. */
  datatype Nav = Nav(query: seq<int>, selected: int, page: int)

  /** What `handle_input` does for every key but Enter, with `n` results
      listed. */
  function NavKey(nav: Nav, key: int, n: nat): Nav
    requires !IsEnter(key)
  {
    if key == KeyUp then nav.(selected := if nav.selected - 1 > 0 then nav.selected - 1 else 0)
    else if key == KeyDown then
      nav.(selected := if ResultsPerPage - 1 < nav.selected + 1 then ResultsPerPage - 1 else nav.selected + 1)
    else if key == KeyPreviousPage then
      nav.(page := if nav.page - 1 > 0 then nav.page - 1 else 0, selected := 0)
    else if key == KeyNextPage then
      var last := TotalPages(n, ResultsPerPage) - 1;
      nav.(page := if last < nav.page + 1 then last else nav.page + 1, selected := 0)
    else if key == KeyBackspace || key == Delete then
      nav.(query := if nav.query == [] then [] else nav.query[..|nav.query| - 1])
    else if IsCodePoint(key) then nav.(query := nav.query + [key])
    else nav
  }

  /** The state the views keep between keys: the highlight within the
      page; a page that exists, or page 0 or -1 (what Page Down yields)
      when there are no results. */
  predicate NavValid(nav: Nav, n: nat) {
    && 0 <= nav.selected < ResultsPerPage
    && (n == 0 ==> -1 <= nav.page <= 0)
    && (n > 0 ==> 0 <= nav.page < TotalPages(n, ResultsPerPage))
  }

  /** Every key other than Enter keeps the view's state valid. */
  lemma NavKeyKeepsValid(nav: Nav, key: int, n: nat)
    requires !IsEnter(key) && NavValid(nav, n)
    ensures NavValid(NavKey(nav, key, n), n)
  {
    TotalPagesIsCeiling(n, ResultsPerPage);
  }

  /** Up and Down move the highlight by one, never below the first row nor
      past the last row of a full page, however many results the page
      holds; they touch nothing else. */
  lemma UpDownClamp(nav: Nav, n: nat)
    ensures var up := NavKey(nav, KeyUp, n);
      && up.selected == (if nav.selected >= 1 then nav.selected - 1 else 0)
      && up.query == nav.query && up.page == nav.page
    ensures var down := NavKey(nav, KeyDown, n);
      && down.selected == (if nav.selected <= ResultsPerPage - 2 then nav.selected + 1 else ResultsPerPage - 1)
      && down.query == nav.query && down.page == nav.page
    ensures 0 <= nav.selected < ResultsPerPage ==>
      0 <= NavKey(nav, KeyUp, n).selected < ResultsPerPage && 0 <= NavKey(nav, KeyDown, n).selected < ResultsPerPage
  {
  }

  /** Page Up and Page Down return the highlight to the first row; Page Up
      stops at page 0, Page Down at the last page, which for no results
      is page -1. */
  lemma PageKeys(nav: Nav, n: nat)
    ensures NavKey(nav, KeyPreviousPage, n) ==
      Nav(nav.query, 0, if nav.page >= 1 then nav.page - 1 else 0)
    ensures NavKey(nav, KeyNextPage, n).selected == 0 && NavKey(nav, KeyNextPage, n).query == nav.query
    ensures n == 0 && nav.page >= -1 ==> NavKey(nav, KeyNextPage, n).page == -1
    ensures n > 0 && 0 <= nav.page < TotalPages(n, ResultsPerPage) ==>
      NavKey(nav, KeyNextPage, n).page ==
        (if nav.page + 1 < TotalPages(n, ResultsPerPage) then nav.page + 1 else nav.page)
  {
    assert TotalPages(0, ResultsPerPage) == 9 / 10 == 0;
  }

  /** Backspace drops the last code point (nothing when the query is
      empty); any other key that is a code point is appended; any other
      key changes nothing. */
  lemma EditKeys(nav: Nav, key: int, n: nat)
    requires !IsEnter(key) && key != KeyUp && key != KeyDown && key != KeyPreviousPage && key != KeyNextPage
    ensures key == KeyBackspace || key == Delete ==>
      NavKey(nav, key, n) == nav.(query := if nav.query == [] then [] else nav.query[..|nav.query| - 1])
    ensures key != KeyBackspace && key != Delete && IsCodePoint(key) ==>
      NavKey(nav, key, n) == nav.(query := nav.query + [key])
    ensures key != KeyBackspace && key != Delete && !IsCodePoint(key) ==> NavKey(nav, key, n) == nav
  {
  }
}

/** The base every view of the terminal interface shares: when it refreshes
    its data, what it shows while loading, after an error or with no data,
    and how it clips a line of text to its window. A subclass's own
    `fetch_data`, the clock and the curses window are outside the model:
    what the fetch returned or raised, the times read, and the window's
    size come in as parameters. */
module Views {
  import opened PyValues

  const DefaultRefreshInterval := 5
  const LoadingText := "Loading..."
  const ErrorPrefix := "ERROR: "
  const NoDataText := "No data to display. Try refreshing (F5) or check configuration."

  /** `int(config.get('general', 'refresh_interval', fallback=5))` */
  function RefreshIntervalSetting(general: map<string, string>): (r: Option<int>)
    ensures "refresh_interval" !in general ==> r == Some(DefaultRefreshInterval)
  {
    IntSetting(general, "refresh_interval", DefaultRefreshInterval)
  }

  /** What a view's `fetch_data` did: returned a value, or raised an
      exception whose `str()` is `text`. */
  datatype FetchResult = Fetched(value: Value) | FetchRaised(text: string)

  /** The fields the base view changes. */
  datatype BaseState = BaseState(isLoading: bool, errorMessage: Option<string>, data: Value, lastUpdateTime: real)

  const Initial := BaseState(false, None, Null, 0.0)

  // ---------------------------------------------------------------------------
  // Refreshing

  /** `force_refresh_data`: nothing for a view without `fetch_data`;
      otherwise the fetch's value replaces the data and clears the error, or
      its exception's text becomes the error and the data is dropped; either
      way loading ends and the finishing time is recorded. */
  function Refreshed(st: BaseState, hasFetch: bool, r: FetchResult, finishedAt: real): BaseState {
    if !hasFetch then st
    else match r
      case Fetched(v) => BaseState(false, None, v, finishedAt)
      case FetchRaised(t) => BaseState(false, Some(t), Null, finishedAt)
  }

  /** `update`: refresh once more than the interval has passed since the
      last refresh, unless a refresh is under way. */
  predicate Due(st: BaseState, hasFetch: bool, interval: int, now: real) {
    now - st.lastUpdateTime > interval as real && !st.isLoading && hasFetch
  }

  function Updated(st: BaseState, hasFetch: bool, interval: int, now: real, r: FetchResult, finishedAt: real): BaseState {
    if Due(st, hasFetch, interval, now) then Refreshed(st, hasFetch, r, finishedAt) else st
  }

  /** A refresh ends with loading over, the data or the error of this fetch
      and never both, and the time it finished. A view without a fetch
      keeps its state. */
  lemma RefreshedSettles(st: BaseState, hasFetch: bool, r: FetchResult, finishedAt: real)
    ensures !hasFetch ==> Refreshed(st, hasFetch, r, finishedAt) == st
    ensures hasFetch ==>
      var s := Refreshed(st, hasFetch, r, finishedAt);
      && !s.isLoading && s.lastUpdateTime == finishedAt
      && (r.Fetched? ==> s.data == r.value && s.errorMessage == None)
      && (r.FetchRaised? ==> s.data == Null && s.errorMessage == Some(r.text))
  {
  }

  /** `update` refreshes exactly when the refresh is due, and otherwise
      changes nothing. */
  lemma UpdateGate(st: BaseState, hasFetch: bool, interval: int, now: real, r: FetchResult, finishedAt: real)
    ensures Due(st, hasFetch, interval, now) ==>
      Updated(st, hasFetch, interval, now, r, finishedAt) == Refreshed(st, hasFetch, r, finishedAt)
    ensures !Due(st, hasFetch, interval, now) ==> Updated(st, hasFetch, interval, now, r, finishedAt) == st
    ensures !st.isLoading && hasFetch && now <= st.lastUpdateTime + interval as real ==>
      Updated(st, hasFetch, interval, now, r, finishedAt) == st
  {
  }

  /** What the main loop does to a view: a forced refresh (F5), or a tick
      that calls `update`. */
  datatype Event =
    | Refresh(r: FetchResult, finishedAt: real)
    | Tick(now: real, tickResult: FetchResult, tickFinishedAt: real)

  function Step(st: BaseState, hasFetch: bool, interval: int, ev: Event): BaseState {
    match ev
    case Refresh(r, t) => Refreshed(st, hasFetch, r, t)
    case Tick(now, r, t) => Updated(st, hasFetch, interval, now, r, t)
  }

  function Run(st: BaseState, hasFetch: bool, interval: int, evs: seq<Event>): BaseState
    decreases |evs|
  {
    if evs == [] then st
    else Step(Run(st, hasFetch, interval, evs[..|evs| - 1]), hasFetch, interval, evs[|evs| - 1])
  }

  /** Between calls a view is never loading, and an error never stands
      beside data: the fetch runs synchronously and clears one when it
      sets the other. */
  predicate Settled(st: BaseState) {
    !st.isLoading && (st.errorMessage.Some? ==> st.data == Null)
  }

  /** Whatever refreshes and ticks reach a view, it stays settled; so the
      "Loading..." branch of `draw` is never taken. */
  lemma {:induction false} RunStaysSettled(st: BaseState, hasFetch: bool, interval: int, evs: seq<Event>, height: int, width: int)
    requires Settled(st)
    ensures Settled(Run(st, hasFetch, interval, evs))
    ensures !DrawBranch(Run(st, hasFetch, interval, evs), height, width).ShowLoading?
    decreases |evs|
  {
    if evs != [] {
      RunStaysSettled(st, hasFetch, interval, evs[..|evs| - 1], height, width);
    }
  }

  // ---------------------------------------------------------------------------
  // Drawing

  /** Which of its four faces `draw` shows. */
  datatype Screen =
    | ShowLoading(y: int, x: int)
    | ShowError(line: string)
    | ShowContent
    | ShowNoData

  /** `draw`, branch by branch: loading first, then a non-empty error (cut
      to `width - 3` characters), then the subclass's content when there is
      data, and the hint otherwise. */
  function DrawBranch(st: BaseState, height: int, width: int): Screen {
    if st.isLoading then ShowLoading(height / 2, (width - |LoadingText|) / 2)
    else if st.errorMessage.Some? && st.errorMessage.value != "" then
      ShowError(ErrorPrefix + Take(st.errorMessage.value, width - 3))
    else if st.data != Null then ShowContent
    else ShowNoData
  }

  /** The error line starts with the prefix and the start of the message,
      at most `width - 3` characters of it; in an area narrower than three
      columns Python's negative slice keeps all but the last `3 - width`
      characters instead. An exception whose text is
      empty shows no error at all, and the data or the hint appear instead. */
  lemma DrawBranchCases(st: BaseState, height: int, width: int)
    requires !st.isLoading
    ensures DrawBranch(st, height, width).ShowError? <==> st.errorMessage.Some? && st.errorMessage.value != ""
    ensures DrawBranch(st, height, width).ShowError? ==>
      var line := DrawBranch(st, height, width).line;
      && line[..|ErrorPrefix|] == ErrorPrefix
      && line[|ErrorPrefix|..] <= st.errorMessage.value
      && (width >= 3 ==> |line| - |ErrorPrefix| <= width - 3)
      && (width < 3 ==>
            |line| - |ErrorPrefix| ==
              (if |st.errorMessage.value| + width - 3 > 0 then |st.errorMessage.value| + width - 3 else 0))
    ensures DrawBranch(st, height, width) == ShowContent <==>
      (st.errorMessage == None || st.errorMessage == Some("")) && st.data != Null
    ensures DrawBranch(st, height, width) == ShowNoData <==>
      (st.errorMessage == None || st.errorMessage == Some("")) && st.data == Null
  {
    if st.errorMessage.Some? && st.errorMessage.value != "" {
      var m := st.errorMessage.value;
      var t := Take(m, width - 3);
      assert (ErrorPrefix + t)[|ErrorPrefix|..] == t;
    }
  }

  // ---------------------------------------------------------------------------
  // Clipped text

  /** `_safe_addstr` in a window of `h` rows and `w` columns: nothing outside
      the window or with no room left on the row; otherwise the text, or its
      first `w - x - 1` characters followed by "..". */
  function SafeText(y: int, x: int, h: int, w: int, text: string): Option<string> {
    if y >= h || x >= w || y < 0 || x < 0 then None
    else
      var maxLen := w - x - 1;
      if maxLen <= 0 then None
      else if |text| > maxLen then Some(text[..maxLen] + "..")
      else Some(text)
  }

  /** Text is written exactly when the position lies in the window with at
      least one column to spare; what is written is the text itself when it
      fits, and otherwise as much of it as fits followed by "..". */
  lemma SafeTextClips(y: int, x: int, h: int, w: int, text: string)
    ensures SafeText(y, x, h, w, text).Some? <==> 0 <= y < h && 0 <= x && x + 1 < w
    ensures SafeText(y, x, h, w, text).Some? ==>
      var shown := SafeText(y, x, h, w, text).value;
      var maxLen := w - x - 1;
      && (|text| <= maxLen ==> shown == text)
      && (|text| > maxLen ==> |shown| == maxLen + 2 && shown[..maxLen] == text[..maxLen] && shown[maxLen..] == "..")
      && |shown| <= maxLen + 2
  {
  }

  // ---------------------------------------------------------------------------
  // The view

  class BaseView {
    var isLoading: bool
    var errorMessage: Option<string>
    var data: Value
    var lastUpdateTime: real
    const refreshInterval: int
    /** Whether the subclass defines `fetch_data`. */
    const hasFetch: bool

    function State(): BaseState
      reads this
    {
      BaseState(isLoading, errorMessage, data, lastUpdateTime)
    }

    /** A view starts with no data, no error, not loading, and last
        refreshed at time 0, so its first tick refreshes. The setting must
        read as an integer: `int()` raises otherwise. */
    constructor (general: map<string, string>, hasFetch: bool)
      requires RefreshIntervalSetting(general).Some?
      ensures State() == Initial && Settled(State())
      ensures refreshInterval == RefreshIntervalSetting(general).value
      ensures this.hasFetch == hasFetch
    {
      isLoading := false;
      errorMessage := None;
      data := Null;
      lastUpdateTime := 0.0;
      refreshInterval := RefreshIntervalSetting(general).value;
      this.hasFetch := hasFetch;
    }

    method ForceRefreshData(r: FetchResult, finishedAt: real)
      modifies this
      ensures State() == Refreshed(old(State()), hasFetch, r, finishedAt)
    {
      if hasFetch {
        isLoading := true;
        errorMessage := None;
        match r {
          case Fetched(v) =>
            data := v;
          case FetchRaised(t) =>
            errorMessage := Some(t);
            data := Null;
        }
        isLoading := false;
        lastUpdateTime := finishedAt;
      }
    }

    method Update(now: real, r: FetchResult, finishedAt: real)
      modifies this
      ensures State() == Updated(old(State()), hasFetch, refreshInterval, now, r, finishedAt)
    {
      if now - lastUpdateTime > refreshInterval as real && !isLoading {
        if hasFetch {
          ForceRefreshData(r, finishedAt);
        }
      }
    }

    /** The face `draw` shows for the view's state, in a `height` by `width`
        area. */
    method Draw(height: int, width: int) returns (screen: Screen)
      ensures screen == DrawBranch(State(), height, width)
    {
      if isLoading {
        screen := ShowLoading(height / 2, (width - |LoadingText|) / 2);
      } else if errorMessage.Some? && errorMessage.value != "" {
        screen := ShowError(ErrorPrefix + Take(errorMessage.value, width - 3));
      } else if data != Null {
        screen := ShowContent;
      } else {
        screen := ShowNoData;
      }
    }
  }
}

/** Training: the bounded scrolled retrieval of connection records from the
    telemetry store and the step-by-step `main` that turns them into a
    fitted detector and scaler on disk. The store, the fit and the files
    are inputs: the store as the sequence of replies it gives, the fit as
    the matrix it was given, the files as whether each write succeeds. */
module Train {
  import opened PyValues
  import opened Features

  const DefaultPort := 9200
  const DefaultTrainingDays := 7
  const DefaultMaxTrainingSamples := 100000

  /** The module's configuration as loaded: the sample cap, provided the
      port, the window in days and the cap all read as integers. */
  function MaxSamplesSetting(env: map<string, string>): Option<int> {
    var _ :- IntSetting(env, "ELASTICSEARCH_PORT", DefaultPort);
    var _ :- IntSetting(env, "ML_TRAINING_DAYS", DefaultTrainingDays);
    IntSetting(env, "ML_MAX_TRAINING_SAMPLES", DefaultMaxTrainingSamples)
  }

  lemma DefaultSettings()
    ensures MaxSamplesSetting(map[]) == Some(100000)
    ensures forall n: int :: MaxSamplesSetting(map["ML_MAX_TRAINING_SAMPLES" := IntText(n)]) == Some(n)
  {
    forall n: int ensures MaxSamplesSetting(map["ML_MAX_TRAINING_SAMPLES" := IntText(n)]) == Some(n) {
      IntTextRoundTrip(n);
    }
  }

  // ---------------------------------------------------------------------------
  // Scrolled retrieval

  /** One reply of the store to a search or a scroll call: a page of hits,
      or an exception (the store failing, or a reply lacking `_scroll_id`
      or `hits.hits`). */
  datatype Reply = Hits(hits: seq<Value>) | Raised

  /** What the store answers during one retrieval: the reply to the
      search, the replies to the successive scroll calls (an exhausted
      scroll answers with empty pages), and whether `clear_scroll` raises. */
  datatype ScrollStore = ScrollStore(search: Reply, scrolls: seq<Reply>, clearRaises: bool)

  /** The reply to the `k`-th scroll call. */
  function PageAt(s: ScrollStore, k: nat): Reply {
    if k < |s.scrolls| then s.scrolls[k] else Hits([])
  }

  /** The scroll replies from the `k`-th on. */
  function Rest(s: ScrollStore, k: nat): seq<Reply> {
    if k <= |s.scrolls| then s.scrolls[k..] else []
  }

  /** The scroll loop: while the last page had hits and fewer than `max`
      documents are held, fetch the next page and append it; once `max` is
      reached, keep the first `max` and stop. `None` when a scroll raises. */
  function Drain(pages: seq<Reply>, hits: seq<Value>, all: seq<Value>, max: int): Option<seq<Value>>
    decreases |pages|
  {
    if !(|hits| > 0 && |all| < max) then Some(all)
    else
      var page := if pages == [] then Hits([]) else pages[0];
      match page
      case Raised => None
      case Hits(h) =>
        var grown := all + h;
        if |grown| >= max then Some(grown[..max])
        else if pages == [] then Some(grown)
        else Drain(pages[1..], h, grown, max)
  }

  /** `doc['_source']`; `None` where Python raises. */
  function SourceField(doc: Value): Option<Value> {
    if doc.Dict? && "_source" in doc.fields then Some(doc.fields["_source"]) else None
  }

  function OrEmpty<T>(o: Option<seq<T>>): seq<T> {
    if o.Some? then o.value else []
  }

  /** What `fetch_data_from_es` returns: the `_source` of every document
      the loop kept, or `[]` when anything inside its `try` raises. */
  function FetchData(s: ScrollStore, max: int): seq<Value> {
    match s.search
    case Raised => []
    case Hits(first) =>
      match Drain(s.scrolls, first, first, max)
      case None => []
      case Some(all) => if s.clearRaises then [] else OrEmpty(MapAll(SourceField, all))
  }

  /** `fetch_data_from_es(es_client, days_ago, max_samples)`. */
  method FetchDataFromEs(s: ScrollStore, maxSamples: int) returns (docs: seq<Value>)
    ensures docs == FetchData(s, maxSamples)
  {
    if s.search.Raised? {
      return [];
    }
    ghost var kept := Drain(s.scrolls, s.search.hits, s.search.hits, maxSamples);
    var hits := s.search.hits;
    var all := hits;
    var k := 0;
    while |hits| > 0 && |all| < maxSamples
      invariant k <= |s.scrolls| + 1
      invariant k == |s.scrolls| + 1 ==> hits == []
      invariant Drain(Rest(s, k), hits, all, maxSamples) == kept
      decreases |s.scrolls| + 1 - k
    {
      var res := PageAt(s, k);
      assert Rest(s, k) != [] ==> Rest(s, k)[0] == res && Rest(s, k)[1..] == Rest(s, k + 1);
      assert Rest(s, k) == [] ==> res == Hits([]) && Rest(s, k + 1) == [];
      k := k + 1;
      if res.Raised? {
        return [];
      }
      hits := res.hits;
      all := all + hits;
      if |all| >= maxSamples {
        all := all[..maxSamples];
        break;
      }
    }
    assert kept == Some(all);
    if s.clearRaises {
      return [];
    }
    docs := OrEmpty(MapAll(SourceField, all));
  }

  /** The hits of every page, in page order; a raising reply adds none. */
  function Flatten(pages: seq<Reply>): seq<Value>
    decreases |pages|
  {
    if pages == [] then [] else (if pages[0].Hits? then pages[0].hits else []) + Flatten(pages[1..])
  }

  /** Everything the store could hand out: the search page, then the
      scroll pages. */
  function Stream(s: ScrollStore): seq<Value> {
    if s.search.Hits? then s.search.hits + Flatten(s.scrolls) else []
  }

  /** The loop never holds more than `max` documents if it starts within
      the cap. */
  lemma {:induction false} DrainBound(pages: seq<Reply>, hits: seq<Value>, all: seq<Value>, max: int)
    requires |all| <= max
    ensures Drain(pages, hits, all, max).Some? ==> |Drain(pages, hits, all, max).value| <= max
    decreases |pages|
  {
    if |hits| > 0 && |all| < max && pages != [] && pages[0].Hits? {
      var grown := all + pages[0].hits;
      if |grown| < max {
        DrainBound(pages[1..], pages[0].hits, grown, max);
      }
    }
  }

  /** What the loop keeps is a prefix of what it held followed by every
      page in order. */
  lemma {:induction false} DrainPrefix(pages: seq<Reply>, hits: seq<Value>, all: seq<Value>, max: int)
    ensures Drain(pages, hits, all, max).Some? ==> Drain(pages, hits, all, max).value <= all + Flatten(pages)
    decreases |pages|
  {
    if |hits| > 0 && |all| < max && pages != [] && pages[0].Hits? {
      var h := pages[0].hits;
      var grown := all + h;
      assert all + Flatten(pages) == grown + Flatten(pages[1..]);
      if |grown| < max {
        DrainPrefix(pages[1..], h, grown, max);
      }
    }
  }

  /** Pages after an empty one are never read. */
  lemma {:induction false} DrainStopsAtEmptyPage(before: seq<Reply>, after1: seq<Reply>, after2: seq<Reply>,
                                                  hits: seq<Value>, all: seq<Value>, max: int)
    ensures Drain(before + [Hits([])] + after1, hits, all, max) == Drain(before + [Hits([])] + after2, hits, all, max)
    decreases |before|
  {
    var p1 := before + [Hits([])] + after1;
    var p2 := before + [Hits([])] + after2;
    if |hits| > 0 && |all| < max {
      if before == [] {
        assert p1[0] == Hits([]) && p2[0] == Hits([]);
        assert Drain(p1[1..], [], all, max) == Some(all) == Drain(p2[1..], [], all, max);
      } else {
        assert p1[0] == p2[0] == before[0];
        assert p1[1..] == before[1..] + [Hits([])] + after1;
        assert p2[1..] == before[1..] + [Hits([])] + after2;
        if before[0].Hits? {
          DrainStopsAtEmptyPage(before[1..], after1, after2, before[0].hits, all + before[0].hits, max);
        }
      }
    }
  }

  /** `fetch_data_from_es` returns at most `max_samples` documents when the
      search page holds at most that many (the query's `size`). */
  lemma FetchBound(s: ScrollStore, max: nat)
    requires s.search.Hits? ==> |s.search.hits| <= max
    ensures |FetchData(s, max)| <= max
  {
    if s.search.Hits? {
      var first := s.search.hits;
      DrainBound(s.scrolls, first, first, max);
      var d := Drain(s.scrolls, first, first, max);
      if d.Some? && !s.clearRaises {
        MapAllEach(SourceField, d.value);
      }
    }
  }

  /** Every document `fetch_data_from_es` returns is the `_source` of the
      hit at the same place in the search page followed by the scroll
      pages: the result is the sources of a prefix of that stream. */
  lemma FetchFromStream(s: ScrollStore, max: int)
    ensures var r := FetchData(s, max);
      && |r| <= |Stream(s)|
      && forall i :: 0 <= i < |r| ==> SourceField(Stream(s)[i]) == Some(r[i])
  {
    if s.search.Hits? {
      var first := s.search.hits;
      DrainPrefix(s.scrolls, first, first, max);
      var d := Drain(s.scrolls, first, first, max);
      if d.Some? && !s.clearRaises {
        MapAllEach(SourceField, d.value);
        assert d.value <= Stream(s);
      }
    }
  }

  /** Every scroll the loop requests answers: the loop goes on reading
      while the last page had hits and fewer than `max` documents are held,
      so a page past the first empty one, or past the cap, may raise. */
  predicate Answers(pages: seq<Reply>, hits: seq<Value>, held: int, max: int)
    decreases |pages|
  {
    hits == [] || held >= max || pages == []
    || (pages[0].Hits? && Answers(pages[1..], pages[0].hits, held + |pages[0].hits|, max))
  }

  /** The hits of the scroll pages before the first empty page. */
  function Live(pages: seq<Reply>): seq<Value>
    decreases |pages|
  {
    if pages == [] || pages[0].Raised? || pages[0].hits == [] then []
    else pages[0].hits + Live(pages[1..])
  }

  /** The hits the store holds before the range runs out: none when the
      search page is empty, otherwise that page followed by every scroll
      page before the first empty one. */
  function LiveStream(s: ScrollStore): seq<Value>
    requires s.search.Hits?
  {
    if s.search.hits == [] then [] else s.search.hits + Live(s.scrolls)
  }

  lemma {:induction false} LivePrefix(pages: seq<Reply>)
    ensures Live(pages) <= Flatten(pages)
    decreases |pages|
  {
    if pages != [] && pages[0].Hits? && pages[0].hits != [] {
      LivePrefix(pages[1..]);
    }
  }

  /** When no reply the loop requests raises, it keeps every hit until the
      cap or the first empty page, whichever comes first. */
  lemma {:induction false} DrainTakesAll(pages: seq<Reply>, hits: seq<Value>, all: seq<Value>, max: int)
    requires Answers(pages, hits, |all|, max) && |all| <= max
    ensures Drain(pages, hits, all, max) == Some(Take(all + (if hits == [] then [] else Live(pages)), max))
    decreases |pages|
  {
    var rest := if hits == [] then [] else Live(pages);
    if hits == [] {
      assert all + rest == all;
    } else if |all| >= max {
      assert Take(all + rest, max) == all by {
        if rest == [] {
          assert all + rest == all;
        } else {
          assert (all + rest)[..max] == all;
        }
      }
    } else if pages == [] {
      assert all + rest == all;
    } else {
      var h := pages[0].hits;
      var grown := all + h;
      if h == [] {
        assert grown == all + rest == all;
      } else {
        assert all + rest == grown + Live(pages[1..]);
        if |grown| >= max {
          var more := Live(pages[1..]);
          assert Take(grown + more, max) == grown[..max] by {
            if |grown + more| > max {
              assert (grown + more)[..max] == grown[..max];
            } else {
              assert more == [] && grown + more == grown == grown[..max];
            }
          }
        } else {
          DrainTakesAll(pages[1..], h, grown, max);
        }
      }
    }
  }

  /** `fetch_data_from_es` does not stop early: when the search and every
      scroll the loop requests answer, `clear_scroll` succeeds and every
      hit it keeps has a `_source`, it returns the `_source` of each of the
      first `max` hits before the range runs out, or of all of them when
      there are fewer. */
  lemma FetchTakesAll(s: ScrollStore, max: nat)
    requires s.search.Hits? && |s.search.hits| <= max
    requires Answers(s.scrolls, s.search.hits, |s.search.hits|, max) && !s.clearRaises
    requires forall i :: 0 <= i < |LiveStream(s)| && i < max ==> SourceField(LiveStream(s)[i]).Some?
    ensures LiveStream(s) <= Stream(s)
    ensures |FetchData(s, max)| == if |LiveStream(s)| < max then |LiveStream(s)| else max
    ensures forall i :: 0 <= i < |FetchData(s, max)| ==>
      FetchData(s, max)[i] == SourceField(LiveStream(s)[i]).value
  {
    var first := s.search.hits;
    LivePrefix(s.scrolls);
    DrainTakesAll(s.scrolls, first, first, max);
    var kept := Take(LiveStream(s), max);
    assert Drain(s.scrolls, first, first, max) == Some(kept);
    assert forall i :: 0 <= i < |kept| ==> kept[i] == LiveStream(s)[i];
    MapAllEach(SourceField, kept);
  }

  /** A scroll that raises ends the loop with nothing kept once the loop
      reaches it: every page before it had hits, and together with what was
      held they stayed below the cap. */
  lemma {:induction false} DrainRaisesAt(pages: seq<Reply>, hits: seq<Value>, all: seq<Value>, max: int, k: nat)
    requires hits != [] && k < |pages| && pages[k].Raised?
    requires forall j :: 0 <= j < k ==> pages[j].Hits? && pages[j].hits != []
    requires |all| + |Flatten(pages[..k])| < max
    ensures Drain(pages, hits, all, max) == None
    decreases k
  {
    if k > 0 {
      var h := pages[0].hits;
      assert pages[..k] == [pages[0]] + pages[1..][..k - 1];
      assert Flatten(pages[..k]) == h + Flatten(pages[1..][..k - 1]);
      DrainRaisesAt(pages[1..], h, all + h, max, k - 1);
    }
  }

  /** An exception from the search, from `clear_scroll`, or from any scroll
      the loop reaches yields no documents at all. The loop reaches scroll
      `k` when the search page and every scroll before `k` had hits and
      together stayed below the cap. */
  lemma FetchFailsEmpty(s: ScrollStore, max: int, k: nat)
    requires s.search.Raised? || s.clearRaises
             || (k < |s.scrolls| && s.scrolls[k].Raised? && s.search.hits != []
                 && (forall j :: 0 <= j < k ==> s.scrolls[j].Hits? && s.scrolls[j].hits != [])
                 && |s.search.hits| + |Flatten(s.scrolls[..k])| < max)
    ensures FetchData(s, max) == []
  {
    if s.search.Hits? && !s.clearRaises {
      DrainRaisesAt(s.scrolls, s.search.hits, s.search.hits, max, k);
    }
  }

  // ---------------------------------------------------------------------------
  // main

  /** A fitted detector or scaler, known by the matrix it was fitted on
      (the scaler on `X`, the detector on `X` scaled). */
  datatype Artifact = Fitted(trainedOn: Frame)

  /** The model file and the scaler file. */
  datatype Artifacts = Artifacts(model: Option<Artifact>, scaler: Option<Artifact>)

  /** The outside world of one training run: the environment, whether the
      store answers `ping`, what it answers to the retrieval, and which of
      the directory creation and the two file writes succeed. */
  datatype TrainEnv = TrainEnv(
    env: map<string, string>,
    pingOk: bool,
    store: ScrollStore,
    makedirsOk: bool,
    modelDumpOk: bool,
    scalerDumpOk: bool)

  /** How a training run ends: the abort paths `main` takes, a raise that
      escapes it, or a trained pair on disk. */
  datatype TrainOutcome =
    | BadConfig          // an integer setting does not parse
    | NotConnected       // "Elasticsearch connection error"
    | NoData             // "No data fetched. Aborting training."
    | PreprocessFailed   // a record `preprocess_conn_log_entry` cannot read
    | EmptyFrame         // "DataFrame is empty after preprocessing."
    | WriteFailed        // `makedirs` or a `joblib.dump` raises
    | Trained(x: Frame)

  /** The run `main` performs, and the files afterwards. */
  function TrainRun(e: TrainEnv, dir: Artifacts): (TrainOutcome, Artifacts) {
    match MaxSamplesSetting(e.env)
    case None => (BadConfig, dir)
    case Some(max) =>
      if !e.pingOk then (NotConnected, dir)
      else
        var raw := FetchData(e.store, max);
        if raw == [] then (NoData, dir)
        else
          match CreateFeatureDf(raw)
          case None => (PreprocessFailed, dir)
          case Some(df) =>
            if Empty(df) then (EmptyFrame, dir)
            else
              CreateFeatureDfRows(raw);
              var x := ForPrediction(df);
              if !e.makedirsOk || !e.modelDumpOk then (WriteFailed, dir)
              else if !e.scalerDumpOk then (WriteFailed, dir.(model := Some(Fitted(x))))
              else (Trained(x), Artifacts(Some(Fitted(x)), Some(Fitted(x))))
  }

  /** The directory the model and scaler files are written to. */
  class ModelDir {
    var model: Option<Artifact>
    var scaler: Option<Artifact>

    function State(): Artifacts
      reads this
    {
      Artifacts(model, scaler)
    }

    constructor ()
      ensures State() == Artifacts(None, None)
    {
      model := None;
      scaler := None;
    }
  }

  /** `main()` of the training script. */
  method TrainMain(e: TrainEnv, dir: ModelDir) returns (outcome: TrainOutcome)
    modifies dir
    ensures (outcome, dir.State()) == TrainRun(e, old(dir.State()))
  {
    var setting := MaxSamplesSetting(e.env);
    if setting.None? {
      return BadConfig;
    }
    if !e.pingOk {
      return NotConnected;
    }
    var raw := FetchDataFromEs(e.store, setting.value);
    if raw == [] {
      return NoData;
    }
    var built := CreateFeatureDf(raw);
    if built.None? {
      return PreprocessFailed;
    }
    var df := built.value;
    if Empty(df) {
      return EmptyFrame;
    }
    CreateFeatureDfRows(raw);
    var copy := new DataFrame(df);
    var x := GetFeaturesForPrediction(copy);
    if !e.makedirsOk || !e.modelDumpOk {
      return WriteFailed;
    }
    dir.model := Some(Fitted(x));
    if !e.scalerDumpOk {
      return WriteFailed;
    }
    dir.scaler := Some(Fitted(x));
    outcome := Trained(x);
  }

  /** Every abort path leaves both files as they were; only a successful
      run or a failed write touches them. */
  lemma AbortsWriteNothing(e: TrainEnv, dir: Artifacts)
    ensures TrainRun(e, dir).1 != dir ==> TrainRun(e, dir).0.Trained? || TrainRun(e, dir).0 == WriteFailed
  {
  }

  /** An unreachable store ends the run before anything is fetched: what
      the store would have answered makes no difference. */
  lemma NoFetchWithoutConnection(e: TrainEnv, other: ScrollStore, dir: Artifacts)
    requires !e.pingOk && MaxSamplesSetting(e.env).Some?
    ensures TrainRun(e, dir) == (NotConnected, dir)
    ensures TrainRun(e.(store := other), dir) == TrainRun(e, dir)
  {
  }

  /** A retrieval that raised and one that found nothing end the same way. */
  lemma EmptyFetchAborts(e: TrainEnv, dir: Artifacts)
    requires e.pingOk && MaxSamplesSetting(e.env).Some?
    ensures TrainRun(e, dir).0 == NoData <==> FetchData(e.store, MaxSamplesSetting(e.env).value) == []
  {
  }

  /** The empty-frame abort cannot happen: a non-empty batch that
      preprocesses gives a non-empty frame. */
  lemma EmptyFrameUnreachable(e: TrainEnv, dir: Artifacts)
    ensures TrainRun(e, dir).0 != EmptyFrame
  {
    var setting := MaxSamplesSetting(e.env);
    if setting.Some? && e.pingOk {
      CreateFeatureDfRows(FetchData(e.store, setting.value));
    }
  }

  /** A successful run writes the detector and the scaler, both fitted on
      the matrix of the model's 15 columns with one row per fetched record
      (the record's features), and at least one row. */
  lemma TrainedOnFetchedRecords(e: TrainEnv, dir: Artifacts)
    requires TrainRun(e, dir).0.Trained?
    ensures var (o, after) := TrainRun(e, dir);
      var raw := FetchData(e.store, MaxSamplesSetting(e.env).value);
      && after == Artifacts(Some(Fitted(o.x)), Some(Fitted(o.x)))
      && o.x.columns == FeatureColumns
      && |o.x.rows| == |raw| > 0
      && forall i :: 0 <= i < |raw| ==> Preprocess(raw[i]).Some? && o.x.rows[i] == Preprocess(raw[i]).value.values
  {
    var raw := FetchData(e.store, MaxSamplesSetting(e.env).value);
    ModelInputRows(raw);
  }

  /** The scaler file is written only after the model file of the same
      fit; a failing scaler write leaves a new model beside the old scaler. */
  lemma ModelWrittenFirst(e: TrainEnv, dir: Artifacts)
    ensures var after := TrainRun(e, dir).1;
      after.scaler != dir.scaler ==> after.model == after.scaler
    ensures var (o, after) := TrainRun(e, dir);
      o == WriteFailed && after != dir ==> after.scaler == dir.scaler && after.model.Some?
  {
  }
}

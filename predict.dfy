/** Prediction: load the trained pair, fetch the recent connection records,
    score them, turn every record the detector labels -1 into an alert, and
    post the alerts to one date-suffixed index. The detector, the clock and
    the store are inputs. */
module Predict {
  import opened PyValues
  import opened Features
  import opened Train

  const DefaultPredictionWindowMinutes := 15
  const DefaultMaxPredictionSamples := 10000
  const AlertIndexName := "axlap-ml-alerts"
  const TemplateName := "axlap_ml_alerts_template"
  const AlertType := "ConnectionAnomaly"
  const DescriptionPrefix := "Anomalous network connection detected for UID: "

  /** The script's configuration as loaded: the sample cap, provided the
      port, the window and the cap all read as integers. */
  function PredictSetting(env: map<string, string>): Option<int> {
    var _ :- IntSetting(env, "ELASTICSEARCH_PORT", DefaultPort);
    var _ :- IntSetting(env, "ML_PREDICTION_WINDOW_MINUTES", DefaultPredictionWindowMinutes);
    IntSetting(env, "ML_MAX_PREDICTION_SAMPLES", DefaultMaxPredictionSamples)
  }

  /** `load_model_and_scaler()`: the detector and the scaler when both files
      exist, nothing when either is missing. */
  method LoadModelAndScaler(dir: ModelDir) returns (r: Option<(Artifact, Artifact)>)
    ensures r.Some? <==> dir.model.Some? && dir.scaler.Some?
    ensures r.Some? ==> r.value.0 == dir.model.value && r.value.1 == dir.scaler.value
  {
    if dir.model.None? || dir.scaler.None? {
      return None;
    }
    r := Some((dir.model.value, dir.scaler.value));
  }

  /** `fetch_recent_data`: the hits of one search (no scrolling), `[]` when
      the search raises. */
  function FetchRecentData(reply: Reply): (docs: seq<Value>)
    ensures reply.Raised? ==> docs == []
    ensures reply.Hits? ==> docs == reply.hits
  {
    if reply.Hits? then reply.hits else []
  }

  // ---------------------------------------------------------------------------
  // Alerts

  /** The detector as far as this script is concerned: the scaled
      per-record decision score and the label, -1 for an anomaly, 1 for an
      inlier, each a function of the record's feature row. */
  datatype Detector = Detector(scoreOf: map<string, real> -> real, labelOf: map<string, real> -> int)

  /** `str(v)` inside the f-string, where the model spells it out: text as
      itself, `None`, `True`, `False` and integers; the text of a float, a
      list or a dict is Python's `repr`, which the model leaves as `None`. */
  function Show(v: Value): Option<string> {
    match v
    case Str(s) => Some(s)
    case Null => Some("None")
    case Bool(b) => Some(if b then "True" else "False")
    case Int(i) => Some(IntText(i))
    case _ => None
  }

  /** The alert's description for the record's uid field (`'N/A'` when the
      field is absent). */
  function Description(src: Doc): Option<string> {
    var shown :- Show(Get(src, "uid", Str("N/A")));
    Some(DescriptionPrefix + shown)
  }

  /** The alert document built for one anomalous record. */
  datatype Alert = Alert(
    timestamp: string,
    alertType: string,
    anomalyScore: real,
    description: Option<string>,
    uid: Value,
    eventTimestamp: Value,
    srcIp: Value,
    srcPort: Value,
    dstIp: Value,
    dstPort: Value,
    proto: Value,
    service: Value,
    duration: Value,
    origBytes: Value,
    respBytes: Value,
    details: Value)

  /** The alert for record `src` scored `score`, stamped `nowIso`. */
  function MakeAlert(src: Doc, score: real, nowIso: string): Alert {
    Alert(nowIso, AlertType, score, Description(src),
          Get(src, "uid", Null), Get(src, "@timestamp", Null),
          Get(src, "id.orig_h", Null), Get(src, "id.orig_p", Null),
          Get(src, "id.resp_h", Null), Get(src, "id.resp_p", Null),
          Get(src, "proto", Null), Get(src, "service", Null),
          Get(src, "duration", Null), Get(src, "orig_bytes", Null),
          Get(src, "resp_bytes", Null), Dict(src))
  }

  /** The positions labelled -1, in increasing order. */
  function AnomalyIndices(labels: seq<int>): seq<nat>
    decreases |labels|
  {
    if labels == [] then []
    else AnomalyIndices(labels[..|labels| - 1]) + (if labels[|labels| - 1] == -1 then [|labels| - 1] else [])
  }

  /** The alerts the loop in `main` builds: one per anomalous position, in
      that order, from the record and the score at that position. */
  function AlertsFor(sources: seq<Value>, scores: seq<real>, idx: seq<nat>, nowIso: string): seq<Alert>
    requires forall k :: 0 <= k < |idx| ==> idx[k] < |sources| && idx[k] < |scores| && sources[idx[k]].Dict?
  {
    seq(|idx|, k requires 0 <= k < |idx| => MakeAlert(sources[idx[k]].fields, scores[idx[k]], nowIso))
  }

  /** A position is listed exactly when it is labelled -1; the list is
      strictly increasing and within range. */
  lemma {:induction false} AnomalyIndicesExact(labels: seq<int>)
    ensures forall k :: 0 <= k < |AnomalyIndices(labels)| ==> AnomalyIndices(labels)[k] < |labels|
    ensures forall j :: 0 <= j < |labels| ==> (j in AnomalyIndices(labels) <==> labels[j] == -1)
    ensures forall k, l :: 0 <= k < l < |AnomalyIndices(labels)| ==>
              AnomalyIndices(labels)[k] < AnomalyIndices(labels)[l]
    decreases |labels|
  {
    if labels != [] {
      var init := labels[..|labels| - 1];
      AnomalyIndicesExact(init);
      assert forall j :: 0 <= j < |init| ==> init[j] == labels[j];
    }
  }

  /** The alert-building loop of `main`. */
  method BuildAlerts(sources: seq<Value>, scores: seq<real>, labels: seq<int>, nowIso: string)
    returns (alerts: seq<Alert>)
    requires |labels| <= |sources| && |labels| <= |scores|
    requires forall i :: 0 <= i < |sources| ==> sources[i].Dict?
    ensures AnomalyIndicesInRange(labels, |sources|, |scores|)
    ensures alerts == AlertsFor(sources, scores, AnomalyIndices(labels), nowIso)
  {
    alerts := [];
    for i := 0 to |labels|
      invariant AnomalyIndicesInRange(labels[..i], |sources|, |scores|)
      invariant alerts == AlertsFor(sources, scores, AnomalyIndices(labels[..i]), nowIso)
    {
      AnomalyIndicesExact(labels[..i]);
      assert labels[..i + 1][..i] == labels[..i];
      if labels[i] == -1 {
        alerts := alerts + [MakeAlert(sources[i].fields, scores[i], nowIso)];
      }
    }
    assert labels[..|labels|] == labels;
  }

  predicate AnomalyIndicesInRange(labels: seq<int>, nSources: nat, nScores: nat) {
    forall k :: 0 <= k < |AnomalyIndices(labels)| ==>
      AnomalyIndices(labels)[k] < nSources && AnomalyIndices(labels)[k] < nScores
  }

  /** Every alert is a `"ConnectionAnomaly"` carrying the score and the
      fields of the record at its position, and its description names the
      record's uid, or `N/A` when the record has none. */
  lemma AlertCarriesRecord(sources: seq<Value>, scores: seq<real>, labels: seq<int>, nowIso: string, k: nat)
    requires |labels| <= |sources| && |labels| <= |scores|
    requires forall i :: 0 <= i < |sources| ==> sources[i].Dict?
    requires k < |AnomalyIndices(labels)|
    ensures AnomalyIndicesInRange(labels, |sources|, |scores|)
    ensures AnomalyIndices(labels)[k] < |labels|
    ensures var i := AnomalyIndices(labels)[k];
      var a := AlertsFor(sources, scores, AnomalyIndices(labels), nowIso)[k];
      var src := sources[i].fields;
      && labels[i] == -1
      && a.alertType == "ConnectionAnomaly"
      && a.anomalyScore == scores[i]
      && a.timestamp == nowIso
      && a.details == sources[i]
      && ("uid" in src ==> a.uid == src["uid"])
      && ("uid" !in src ==> a.uid == Null && a.description == Some(DescriptionPrefix + "N/A"))
      && (forall u :: "uid" in src && src["uid"] == Str(u) ==> a.description == Some(DescriptionPrefix + u))
  {
    AnomalyIndicesExact(labels);
    var i := AnomalyIndices(labels)[k];
    assert i in AnomalyIndices(labels);
  }

  // ---------------------------------------------------------------------------
  // Posting

  /** A UTC calendar date as `strftime` sees it. */
  datatype Date = Date(year: int, month: int, day: int)

  predicate ValidDate(d: Date) {
    1000 <= d.year <= 9999 && 1 <= d.month <= 12 && 1 <= d.day <= 31
  }

  /** `f"{ALERT_INDEX_NAME}-{date.strftime('%Y.%m.%d')}"` */
  function IndexName(d: Date): string
    requires ValidDate(d)
  {
    AlertIndexName + "-" + Digits(d.year, 4) + "." + Digits(d.month, 2) + "." + Digits(d.day, 2)
  }

  /** Every alert index falls under the template's pattern
      `axlap-ml-alerts-*`, and different days get different indices. */
  lemma IndexNameMatchesTemplate(d: Date, e: Date)
    requires ValidDate(d) && ValidDate(e)
    ensures |IndexName(d)| == 26 && IndexName(d)[..16] == AlertIndexName + "-"
    ensures IndexName(d) == IndexName(e) ==> d == e
  {
    var n := IndexName(d);
    var m := IndexName(e);
    if n == m {
      assert n[16..20] == Digits(d.year, 4) && m[16..20] == Digits(e.year, 4);
      assert n[21..23] == Digits(d.month, 2) && m[21..23] == Digits(e.month, 2);
      assert n[24..26] == Digits(d.day, 2) && m[24..26] == Digits(e.day, 2);
      DigitsRoundTrip(d.year, 4);
      DigitsRoundTrip(e.year, 4);
      DigitsRoundTrip(d.month, 2);
      DigitsRoundTrip(e.month, 2);
      DigitsRoundTrip(d.day, 2);
      DigitsRoundTrip(e.day, 2);
    }
  }

  /** One bulk action: index this alert into that index. */
  datatype Action = Action(index: string, source: Alert)

  /** The alert store: the templates it holds and the documents indexed so
      far. */
  datatype AlertStoreState = AlertStoreState(templates: set<string>, docs: seq<Action>)

  /** The actions `post_alerts_to_es` sends: one per alert, in order, all
      to `index`. */
  function ActionsFor(alerts: seq<Alert>, index: string): (acts: seq<Action>)
    ensures |acts| == |alerts|
    ensures forall i :: 0 <= i < |acts| ==> acts[i].index == index && acts[i].source == alerts[i]
  {
    seq(|alerts|, i requires 0 <= i < |alerts| => Action(index, alerts[i]))
  }

  /** The store after `post_alerts_to_es(alerts)`: nothing for no alerts;
      otherwise the template is put if absent (a failing put is reported
      and ignored) and the actions are indexed unless the bulk call raises. */
  function Posted(s: AlertStoreState, alerts: seq<Alert>, d: Date, putRaises: bool, bulkRaises: bool): AlertStoreState
    requires ValidDate(d)
  {
    if alerts == [] then s
    else
      var templates := if TemplateName in s.templates || putRaises then s.templates else s.templates + {TemplateName};
      AlertStoreState(templates, if bulkRaises then s.docs else s.docs + ActionsFor(alerts, IndexName(d)))
  }

  /** The alert store the script writes to. */
  class AlertStore {
    var templates: set<string>
    var docs: seq<Action>

    function State(): AlertStoreState
      reads this
    {
      AlertStoreState(templates, docs)
    }

    constructor ()
      ensures State() == AlertStoreState({}, [])
    {
      templates := {};
      docs := [];
    }
  }

  /** `post_alerts_to_es(es_client, alerts)`, the date being today's UTC date. */
  method PostAlertsToEs(store: AlertStore, alerts: seq<Alert>, d: Date, putRaises: bool, bulkRaises: bool)
    requires ValidDate(d)
    modifies store
    ensures store.State() == Posted(old(store.State()), alerts, d, putRaises, bulkRaises)
  {
    if alerts == [] {
      return;
    }
    if TemplateName !in store.templates && !putRaises {
      store.templates := store.templates + {TemplateName};
    }
    var actions := [];
    var index := IndexName(d);
    for i := 0 to |alerts|
      invariant actions == ActionsFor(alerts[..i], index)
    {
      actions := actions + [Action(index, alerts[i])];
    }
    assert alerts[..|alerts|] == alerts;
    if !bulkRaises {
      store.docs := store.docs + actions;
    }
  }

  /** Posting no alerts changes nothing; posting some puts the template
      at most once and appends one document per alert, in order, all to
      the day's index, or nothing when the bulk call raises. */
  lemma PostedShape(s: AlertStoreState, alerts: seq<Alert>, d: Date, putRaises: bool, bulkRaises: bool)
    requires ValidDate(d)
    ensures var t := Posted(s, alerts, d, putRaises, bulkRaises);
      && (alerts == [] ==> t == s)
      && t.templates - s.templates <= {TemplateName}
      && (TemplateName in s.templates ==> t.templates == s.templates)
      && t.docs[..|s.docs|] == s.docs
      && (bulkRaises ==> t.docs == s.docs)
      && (alerts != [] && !putRaises ==> TemplateName in t.templates)
      && (!bulkRaises ==>
            && |t.docs| == |s.docs| + |alerts|
            && (forall i :: 0 <= i < |alerts| ==> t.docs[|s.docs| + i] == Action(IndexName(d), alerts[i])))
  {
  }

  // ---------------------------------------------------------------------------
  // main

  /** The outside world of one prediction run. */
  datatype PredictEnv = PredictEnv(
    env: map<string, string>,
    pingOk: bool,
    reply: Reply,
    detector: Detector,
    nowIso: string,
    today: Date,
    putTemplateRaises: bool,
    bulkRaises: bool)

  /** How a prediction run ends. */
  datatype PredictOutcome =
    | BadSetting         // an integer setting does not parse
    | MissingArtifacts   // "Model or scaler not found. Run training first."
    | Unreachable        // "Elasticsearch connection error"
    | NoRecentData       // "No recent data to predict on."
    | SourceMissing      // a hit without `_source`: the KeyError escapes `main`
    | Unreadable         // a record `preprocess_conn_log_entry` cannot read
    | EmptyFeatures      // "DataFrame is empty after preprocessing."
    | NoAnomalies        // "No anomalies detected in the current window."
    | Alerted(alerts: seq<Alert>)

  lemma PreprocessedAreDicts(sources: seq<Value>)
    requires forall i :: 0 <= i < |sources| ==> Preprocess(sources[i]).Some?
    ensures forall i :: 0 <= i < |sources| ==> sources[i].Dict?
  {
    forall i | 0 <= i < |sources| ensures sources[i].Dict? {
      if !sources[i].Dict? {
        NonDictFails(sources[i]);
      }
    }
  }

  /** The detector's labels for the rows of the model's input. */
  function Labels(det: Detector, x: Frame): (labels: seq<int>)
    ensures |labels| == |x.rows|
  {
    seq(|x.rows|, i requires 0 <= i < |x.rows| => det.labelOf(x.rows[i]))
  }

  /** The detector's scores for the rows of the model's input. */
  function Scores(det: Detector, x: Frame): (scores: seq<real>)
    ensures |scores| == |x.rows|
  {
    seq(|x.rows|, i requires 0 <= i < |x.rows| => det.scoreOf(x.rows[i]))
  }

  /** The model's input for records that preprocess. */
  function InputOf(sources: seq<Value>): (x: Frame)
    requires CreateFeatureDf(sources).Some?
    ensures |x.rows| == |sources|
  {
    ModelInputRows(sources);
    ForPrediction(CreateFeatureDf(sources).value)
  }

  /** The alerts `main` builds for records that preprocess. */
  function AlertsOf(det: Detector, sources: seq<Value>, nowIso: string): seq<Alert>
    requires CreateFeatureDf(sources).Some?
  {
    CreateFeatureDfRows(sources);
    PreprocessedAreDicts(sources);
    var x := InputOf(sources);
    AnomalyIndicesExact(Labels(det, x));
    AlertsFor(sources, Scores(det, x), AnomalyIndices(Labels(det, x)), nowIso)
  }

  /** The run `main` performs, and the alert store afterwards. */
  function PredictRun(e: PredictEnv, files: Artifacts, s: AlertStoreState): (PredictOutcome, AlertStoreState)
    requires ValidDate(e.today)
  {
    match PredictSetting(e.env)
    case None => (BadSetting, s)
    case Some(_) =>
      if files.model.None? || files.scaler.None? then (MissingArtifacts, s)
      else if !e.pingOk then (Unreachable, s)
      else
        var raw := FetchRecentData(e.reply);
        if raw == [] then (NoRecentData, s)
        else
          match MapAll(SourceField, raw)
          case None => (SourceMissing, s)
          case Some(sources) =>
            match CreateFeatureDf(sources)
            case None => (Unreadable, s)
            case Some(df) =>
              if Empty(df) then (EmptyFeatures, s)
              else AlertStage(e, sources, s)
  }

  /** The end of `main` once the records are preprocessed: alert on the
      anomalies and post them, or report that there are none. */
  function AlertStage(e: PredictEnv, sources: seq<Value>, s: AlertStoreState): (PredictOutcome, AlertStoreState)
    requires ValidDate(e.today) && CreateFeatureDf(sources).Some?
  {
    var alerts := AlertsOf(e.detector, sources, e.nowIso);
    if alerts == [] then (NoAnomalies, s)
    else (Alerted(alerts), Posted(s, alerts, e.today, e.putTemplateRaises, e.bulkRaises))
  }

  /** `main()` of the prediction script. */
  method PredictMain(e: PredictEnv, dir: ModelDir, store: AlertStore) returns (outcome: PredictOutcome)
    requires ValidDate(e.today)
    modifies store
    ensures (outcome, store.State()) == PredictRun(e, dir.State(), old(store.State()))
  {
    if PredictSetting(e.env).None? {
      return BadSetting;
    }
    var pair := LoadModelAndScaler(dir);
    if pair.None? {
      return MissingArtifacts;
    }
    if !e.pingOk {
      return Unreachable;
    }
    var raw := FetchRecentData(e.reply);
    if raw == [] {
      return NoRecentData;
    }
    var found := MapAll(SourceField, raw);
    if found.None? {
      return SourceMissing;
    }
    var sources := found.value;
    var built := CreateFeatureDf(sources);
    if built.None? {
      return Unreadable;
    }
    var df := built.value;
    if Empty(df) {
      return EmptyFeatures;
    }
    outcome := AlertAndPost(e, sources, df, store);
  }

  method AlertAndPost(e: PredictEnv, sources: seq<Value>, df: Frame, store: AlertStore) returns (outcome: PredictOutcome)
    requires ValidDate(e.today) && CreateFeatureDf(sources) == Some(df)
    modifies store
    ensures (outcome, store.State()) == AlertStage(e, sources, old(store.State()))
  {
    CreateFeatureDfRows(sources);
    PreprocessedAreDicts(sources);
    var copy := new DataFrame(df);
    var x := GetFeaturesForPrediction(copy);
    assert x == InputOf(sources);
    var alerts := BuildAlerts(sources, Scores(e.detector, x), Labels(e.detector, x), e.nowIso);
    assert alerts == AlertsOf(e.detector, sources, e.nowIso);
    if alerts == [] {
      return NoAnomalies;
    }
    PostAlertsToEs(store, alerts, e.today, e.putTemplateRaises, e.bulkRaises);
    outcome := Alerted(alerts);
  }

  /** The store changes only on a run that found anomalies. */
  lemma OnlyAlertsWrite(e: PredictEnv, files: Artifacts, s: AlertStoreState)
    requires ValidDate(e.today)
    ensures PredictRun(e, files, s).1 != s ==> PredictRun(e, files, s).0.Alerted?
  {
  }

  /** A missing model or scaler ends the run before the store is contacted:
      neither the connection nor the search reply makes a difference. */
  lemma MissingArtifactsStopEarly(e: PredictEnv, files: Artifacts, s: AlertStoreState, other: Reply, ping: bool)
    requires ValidDate(e.today) && PredictSetting(e.env).Some?
    requires files.model.None? || files.scaler.None?
    ensures PredictRun(e, files, s) == (MissingArtifacts, s)
    ensures PredictRun(e.(reply := other, pingOk := ping), files, s) == PredictRun(e, files, s)
  {
  }

  /** An empty or failed search ends the run without posting. */
  lemma EmptyFetchPostsNothing(e: PredictEnv, files: Artifacts, s: AlertStoreState)
    requires ValidDate(e.today) && PredictSetting(e.env).Some?
    requires files.model.Some? && files.scaler.Some? && e.pingOk
    requires e.reply.Raised? || e.reply.hits == []
    ensures PredictRun(e, files, s) == (NoRecentData, s)
  {
  }

  /** The empty-frame abort cannot happen once records were fetched. */
  lemma EmptyFeaturesUnreachable(e: PredictEnv, files: Artifacts, s: AlertStoreState)
    requires ValidDate(e.today)
    ensures PredictRun(e, files, s).0 != EmptyFeatures
  {
    var raw := FetchRecentData(e.reply);
    var found := MapAll(SourceField, raw);
    if found.Some? {
      MapAllEach(SourceField, raw);
      CreateFeatureDfRows(found.value);
    }
  }

  /** A record gets an alert exactly when the detector labels its feature
      row -1; the alerts follow record order (see `AnomalyIndicesExact`),
      and the alert for record `i` is built from record `i` and its score.
      With `x == InputOf(sources)`, row `i` is the features of record `i`
      (`ModelInputRows`). */
  lemma AlertsMatchLabels(det: Detector, sources: seq<Value>, x: Frame, nowIso: string)
    requires |x.rows| == |sources|
    requires forall i :: 0 <= i < |sources| ==> sources[i].Dict?
    ensures AnomalyIndicesInRange(Labels(det, x), |sources|, |sources|)
    ensures var idx := AnomalyIndices(Labels(det, x));
      var alerts := AlertsFor(sources, Scores(det, x), idx, nowIso);
      && |alerts| == |idx|
      && (forall i :: 0 <= i < |sources| ==> (det.labelOf(x.rows[i]) == -1 <==> i in idx))
      && (forall k :: 0 <= k < |idx| ==>
            alerts[k] == MakeAlert(sources[idx[k]].fields, det.scoreOf(x.rows[idx[k]]), nowIso))
  {
    AnomalyIndicesExact(Labels(det, x));
  }
}

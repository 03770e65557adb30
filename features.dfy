/** Connection-record feature extraction: one `conn.log` document becomes a
    dict of 15 numeric features; a batch becomes a frame (rows = records,
    columns = feature names); the model's input is that frame reconciled to
    the fixed feature columns. */
module Features {
  import opened PyValues

  /** The model's feature names, in the order the model expects them. */
  const NumericalFeatures: seq<string> := [
    "duration", "orig_bytes", "resp_bytes", "orig_pkts", "resp_pkts",
    "proto_tcp", "proto_udp", "proto_icmp",
    "total_bytes", "total_pkts", "orig_Bps", "resp_Bps",
    "orig_pps", "resp_pps", "byte_ratio_orig_to_total"
  ]

  const FeatureColumns: seq<string> := NumericalFeatures

  predicate Distinct<T(==)>(s: seq<T>) {
    forall i, j :: 0 <= i < j < |s| ==> s[i] != s[j]
  }

  lemma FeatureColumnsDistinct()
    ensures |FeatureColumns| == 15 && Distinct(FeatureColumns)
  {
  }

  // ---------------------------------------------------------------------------
  // Coercion of raw fields

  /** `int(r)` for a float: truncation toward zero. */
  function Trunc(r: real): (i: int)
    ensures r >= 0.0 ==> i as real <= r < i as real + 1.0
    ensures r < 0.0 ==> i as real - 1.0 < r <= i as real
  {
    if r >= 0.0 then r.Floor else -((-r).Floor)
  }

  /** `float(v or 0)`: falsy values (missing, `None`, `0`, `""`, empty
      containers) become 0 before conversion; `None` result where Python
      raises. */
  function ToFloat(v: Value): (r: Option<real>)
    ensures !Truthy(v) ==> r == Some(0.0)
  {
    if !Truthy(v) then Some(0.0)
    else match v
      case Bool(_) => Some(1.0)
      case Int(i) => Some(i as real)
      case Float(x) => Some(x)
      case Str(s) => (match ParseInt(s) case Some(i) => Some(i as real) case None => None)
      case _ => None
  }

  /** `int(v or 0)`, with the same coercion of falsy values. */
  function ToInt(v: Value): (r: Option<int>)
    ensures !Truthy(v) ==> r == Some(0)
  {
    if !Truthy(v) then Some(0)
    else match v
      case Bool(_) => Some(1)
      case Int(i) => Some(i)
      case Float(x) => Some(Trunc(x))
      case Str(s) => ParseInt(s)
      case _ => None
  }

  /** `entry.get('_source', entry)`, which must be a dict for the later
      `source.get(...)` calls. */
  function SourceOf(entry: Value): Option<Doc> {
    match entry
    case Dict(m) =>
      if "_source" in m then (match m["_source"] case Dict(s) => Some(s) case _ => None)
      else Some(m)
    case _ => None
  }

  // ---------------------------------------------------------------------------
  // The feature dict

  /** A Python dict of feature values: its keys in insertion order and the
      value of each. */
  datatype FeatureDict = FeatureDict(keys: seq<string>, values: map<string, real>)

  /** `d[k] = v`: a new key goes to the end, an existing one keeps its place. */
  function SetItem(d: FeatureDict, k: string, v: real): FeatureDict {
    FeatureDict(if k in d.keys then d.keys else d.keys + [k], d.values[k := v])
  }

  function AsReal(b: bool): real { if b then 1.0 else 0.0 }

  /** The assignments `preprocess_conn_log_entry` makes once the five raw
      counts are coerced, as (key, value) pairs in the order the source
      makes them. */
  function Assignments(duration: real, origBytes: int, respBytes: int,
                       origPkts: int, respPkts: int, proto: Value): seq<(string, real)>
  {
    var totalBytes := origBytes + respBytes;
    var totalPkts := origPkts + respPkts;
    [ ("duration", duration),
      ("orig_bytes", origBytes as real),
      ("resp_bytes", respBytes as real),
      ("orig_pkts", origPkts as real),
      ("resp_pkts", respPkts as real),
      ("proto_tcp", AsReal(proto == Str("tcp"))),
      ("proto_udp", AsReal(proto == Str("udp"))),
      ("proto_icmp", AsReal(proto == Str("icmp"))),
      ("total_bytes", totalBytes as real),
      ("total_pkts", totalPkts as real),
      ("orig_Bps", if duration > 0.0 then origBytes as real / duration else 0.0),
      ("resp_Bps", if duration > 0.0 then respBytes as real / duration else 0.0),
      ("orig_pps", if duration > 0.0 then origPkts as real / duration else 0.0),
      ("resp_pps", if duration > 0.0 then respPkts as real / duration else 0.0),
      ("byte_ratio_orig_to_total",
        if totalBytes > 0 then origBytes as real / totalBytes as real else 0.5) ]
  }

  /** A dict built from `{}` by assigning the pairs one after another. */
  function FromPairs(ps: seq<(string, real)>): FeatureDict
    decreases |ps|
  {
    if ps == [] then FeatureDict([], map[])
    else SetItem(FromPairs(ps[..|ps| - 1]), ps[|ps| - 1].0, ps[|ps| - 1].1)
  }

  function PairKeys(ps: seq<(string, real)>): (ks: seq<string>)
    ensures |ks| == |ps| && forall i :: 0 <= i < |ps| ==> ks[i] == ps[i].0
  {
    seq(|ps|, i requires 0 <= i < |ps| => ps[i].0)
  }

  /** Assigning distinct keys one after another leaves them in assignment
      order, each holding the value assigned to it. */
  lemma {:induction false} FromPairsDistinct(ps: seq<(string, real)>)
    requires Distinct(PairKeys(ps))
    ensures FromPairs(ps).keys == PairKeys(ps)
    ensures FromPairs(ps).values.Keys == set k | k in PairKeys(ps)
    ensures forall i :: 0 <= i < |ps| ==> FromPairs(ps).values[ps[i].0] == ps[i].1
  {
    if ps != [] {
      var init := ps[..|ps| - 1];
      assert PairKeys(init) == PairKeys(ps)[..|ps| - 1];
      FromPairsDistinct(init);
      assert ps[|ps| - 1].0 !in PairKeys(init);
      assert PairKeys(ps) == PairKeys(init) + [ps[|ps| - 1].0];
    }
  }

  function BuildFeatures(duration: real, origBytes: int, respBytes: int,
                         origPkts: int, respPkts: int, proto: Value): FeatureDict
  {
    FromPairs(Assignments(duration, origBytes, respBytes, origPkts, respPkts, proto))
  }

  /** The raw counts of a source document after coercion, and its protocol
      field (`None` when absent). */
  datatype Counts = Counts(duration: real, origBytes: int, respBytes: int,
                           origPkts: int, respPkts: int, proto: Value)

  /** The five `float(...)`/`int(...)` conversions, in source order; `None`
      where one of them raises. */
  function CountsOf(src: Doc): Option<Counts> {
    var duration :- ToFloat(Get(src, "duration", Int(0)));
    var origBytes :- ToInt(Get(src, "orig_bytes", Int(0)));
    var respBytes :- ToInt(Get(src, "resp_bytes", Int(0)));
    var origPkts :- ToInt(Get(src, "orig_pkts", Int(0)));
    var respPkts :- ToInt(Get(src, "resp_pkts", Int(0)));
    Some(Counts(duration, origBytes, respBytes, origPkts, respPkts, Get(src, "proto", Null)))
  }

  function FeaturesOf(c: Counts): FeatureDict {
    BuildFeatures(c.duration, c.origBytes, c.respBytes, c.origPkts, c.respPkts, c.proto)
  }

  /** `preprocess_conn_log_entry`: `None` where the source raises (an entry
      or `_source` that is not a dict, a field that `int()`/`float()`
      rejects). */
  function Preprocess(entry: Value): Option<FeatureDict> {
    var src :- SourceOf(entry);
    var c :- CountsOf(src);
    Some(FeaturesOf(c))
  }

  // ---------------------------------------------------------------------------
  // Properties of one feature dict

  /** Whatever raw fields were present, the dict has exactly the 15 feature
      keys, in the model's order, each holding the value assigned to it. */
  lemma {:induction false} BuildFeaturesKeys(c: Counts)
    ensures FeaturesOf(c).keys == NumericalFeatures
    ensures forall k :: k in FeaturesOf(c).values <==> k in NumericalFeatures
    ensures var ps := Assignments(c.duration, c.origBytes, c.respBytes, c.origPkts, c.respPkts, c.proto);
      forall i :: 0 <= i < |ps| ==>
        NumericalFeatures[i] in FeaturesOf(c).values && FeaturesOf(c).values[NumericalFeatures[i]] == ps[i].1
  {
    var ps := Assignments(c.duration, c.origBytes, c.respBytes, c.origPkts, c.respPkts, c.proto);
    assert PairKeys(ps) == NumericalFeatures;
    FeatureColumnsDistinct();
    FromPairsDistinct(ps);
  }

  lemma PreprocessKeys(entry: Value)
    requires Preprocess(entry).Some?
    ensures Preprocess(entry).value.keys == NumericalFeatures
    ensures Preprocess(entry).value.values.Keys == set k | k in NumericalFeatures
  {
    var v := Preprocess(entry).value.values;
    BuildFeaturesKeys(CountsOf(SourceOf(entry).value).value);
    assert v.Keys == set k | k in NumericalFeatures;
  }

  /** A raw count that is missing, `None` or otherwise falsy enters the
      arithmetic as 0. */
  lemma FalsyCountsAreZero(src: Doc)
    requires CountsOf(src).Some?
    ensures !Truthy(Get(src, "duration", Int(0))) ==> CountsOf(src).value.duration == 0.0
    ensures !Truthy(Get(src, "orig_bytes", Int(0))) ==> CountsOf(src).value.origBytes == 0
    ensures !Truthy(Get(src, "resp_bytes", Int(0))) ==> CountsOf(src).value.respBytes == 0
    ensures !Truthy(Get(src, "orig_pkts", Int(0))) ==> CountsOf(src).value.origPkts == 0
    ensures !Truthy(Get(src, "resp_pkts", Int(0))) ==> CountsOf(src).value.respPkts == 0
  {
  }

  /** The five coerced counts are copied into the dict unchanged. */
  lemma CountsCopied(c: Counts)
    ensures var v := FeaturesOf(c).values;
      && "duration" in v && "orig_bytes" in v && "resp_bytes" in v
      && "orig_pkts" in v && "resp_pkts" in v
      && v["duration"] == c.duration
      && v["orig_bytes"] == c.origBytes as real && v["resp_bytes"] == c.respBytes as real
      && v["orig_pkts"] == c.origPkts as real && v["resp_pkts"] == c.respPkts as real
  {
    BuildFeaturesKeys(c);
    var v := FeaturesOf(c).values;
    var ps := Assignments(c.duration, c.origBytes, c.respBytes, c.origPkts, c.respPkts, c.proto);
    assert "duration" == NumericalFeatures[0] && v["duration"] == ps[0].1;
    assert "orig_bytes" == NumericalFeatures[1] && v["orig_bytes"] == ps[1].1;
    assert "resp_bytes" == NumericalFeatures[2] && v["resp_bytes"] == ps[2].1;
    assert "orig_pkts" == NumericalFeatures[3] && v["orig_pkts"] == ps[3].1;
    assert "resp_pkts" == NumericalFeatures[4] && v["resp_pkts"] == ps[4].1;
  }

  /** The totals are the sums of the originator's and responder's counts. */
  lemma Totals(c: Counts)
    ensures var v := FeaturesOf(c).values;
      && "total_bytes" in v && "total_pkts" in v
      && v["total_bytes"] == (c.origBytes + c.respBytes) as real
      && v["total_pkts"] == (c.origPkts + c.respPkts) as real
  {
    BuildFeaturesKeys(c);
    assert NumericalFeatures[8] == "total_bytes" && NumericalFeatures[9] == "total_pkts";
  }

  /** The protocol flags are 0/1, at most one is set, each is set exactly
      when the protocol is that name, and all are 0 for any other protocol. */
  lemma ProtocolOneHot(c: Counts)
    ensures var v := FeaturesOf(c).values;
      && "proto_tcp" in v && "proto_udp" in v && "proto_icmp" in v
      && v["proto_tcp"] in {0.0, 1.0} && v["proto_udp"] in {0.0, 1.0} && v["proto_icmp"] in {0.0, 1.0}
      && v["proto_tcp"] + v["proto_udp"] + v["proto_icmp"] <= 1.0
      && (v["proto_tcp"] == 1.0 <==> c.proto == Str("tcp"))
      && (v["proto_udp"] == 1.0 <==> c.proto == Str("udp"))
      && (v["proto_icmp"] == 1.0 <==> c.proto == Str("icmp"))
      && (c.proto !in {Str("tcp"), Str("udp"), Str("icmp")} ==>
            v["proto_tcp"] == v["proto_udp"] == v["proto_icmp"] == 0.0)
  {
    BuildFeaturesKeys(c);
    assert NumericalFeatures[5] == "proto_tcp" && NumericalFeatures[6] == "proto_udp";
    assert NumericalFeatures[7] == "proto_icmp";
  }

  /** Rates are guarded on a positive duration: otherwise all four are 0,
      whatever the counts; with one, each rate is its count divided by the
      duration. */
  lemma RatesGuarded(c: Counts)
    ensures var v := FeaturesOf(c).values;
      && "orig_Bps" in v && "resp_Bps" in v && "orig_pps" in v && "resp_pps" in v
      && (c.duration <= 0.0 ==>
            v["orig_Bps"] == v["resp_Bps"] == v["orig_pps"] == v["resp_pps"] == 0.0)
      && (c.duration > 0.0 ==>
            && v["orig_Bps"] == c.origBytes as real / c.duration
            && v["resp_Bps"] == c.respBytes as real / c.duration
            && v["orig_pps"] == c.origPkts as real / c.duration
            && v["resp_pps"] == c.respPkts as real / c.duration)
  {
    BuildFeaturesKeys(c);
    assert NumericalFeatures[10] == "orig_Bps" && NumericalFeatures[11] == "resp_Bps";
    assert NumericalFeatures[12] == "orig_pps" && NumericalFeatures[13] == "resp_pps";
  }

  /** The byte ratio is the originator's share of the bytes, and exactly
      0.5 when there are no bytes; with non-negative counts it lies in
      [0, 1]. */
  lemma ByteRatio(c: Counts)
    ensures var v := FeaturesOf(c).values;
      && "byte_ratio_orig_to_total" in v
      && (c.origBytes + c.respBytes > 0 ==>
            v["byte_ratio_orig_to_total"] == c.origBytes as real / (c.origBytes + c.respBytes) as real)
      && (c.origBytes + c.respBytes <= 0 ==> v["byte_ratio_orig_to_total"] == 0.5)
      && (c.origBytes >= 0 && c.respBytes >= 0 ==>
            0.0 <= v["byte_ratio_orig_to_total"] <= 1.0)
  {
    BuildFeaturesKeys(c);
    assert NumericalFeatures[14] == "byte_ratio_orig_to_total";
    var v := FeaturesOf(c).values;
    var total := c.origBytes + c.respBytes;
    if total > 0 && c.origBytes >= 0 && c.respBytes >= 0 {
      assert c.origBytes as real <= total as real;
    }
  }

  /** A document wrapped as `{'_source': s}` gives the features of `s`
      itself, unless `s` is wrapped again (only one level is unwrapped). */
  lemma SourceUnwrapped(s: Doc)
    requires "_source" !in s
    ensures Preprocess(Dict(map["_source" := Dict(s)])) == Preprocess(Dict(s))
  {
  }

  /** A document that is not a dict, or whose `_source` is not one, cannot
      be preprocessed. */
  lemma NonDictFails(entry: Value)
    requires !entry.Dict? || ("_source" in entry.fields && !entry.fields["_source"].Dict?)
    ensures Preprocess(entry) == None
  {
  }

  /** The row the model sees for a feature dict: its values in the order of
      `FeatureColumns`. */
  function Vector(d: FeatureDict): (r: seq<real>)
    requires forall k :: k in FeatureColumns ==> k in d.values
    ensures |r| == |FeatureColumns|
  {
    seq(|FeatureColumns|, i requires 0 <= i < |FeatureColumns| => d.values[FeatureColumns[i]])
  }

  lemma VectorIsAssignments(c: Counts)
    ensures forall k :: k in FeatureColumns ==> k in FeaturesOf(c).values
    ensures Vector(FeaturesOf(c)) ==
      PairValues(Assignments(c.duration, c.origBytes, c.respBytes, c.origPkts, c.respPkts, c.proto))
  {
    BuildFeaturesKeys(c);
  }

  function PairValues(ps: seq<(string, real)>): (vs: seq<real>)
    ensures |vs| == |ps| && forall i :: 0 <= i < |ps| ==> vs[i] == ps[i].1
  {
    seq(|ps|, i requires 0 <= i < |ps| => ps[i].1)
  }

  /** 100 bytes sent over TCP in no time. */
  lemma ScenarioZeroDuration()
    ensures var e := Dict(map["duration" := Int(0), "orig_bytes" := Int(100),
                              "resp_bytes" := Int(0), "proto" := Str("tcp")]);
      && Preprocess(e).Some?
      && (forall k :: k in FeatureColumns ==> k in Preprocess(e).value.values)
      && Vector(Preprocess(e).value) ==
           [0.0, 100.0, 0.0, 0.0, 0.0, 1.0, 0.0, 0.0, 100.0, 0.0, 0.0, 0.0, 0.0, 0.0, 1.0]
  {
    var c := Counts(0.0, 100, 0, 0, 0, Str("tcp"));
    ZeroDurationCounts();
    ZeroDurationValues();
    VectorIsAssignments(c);
  }

  lemma ZeroDurationCounts()
    ensures Preprocess(Dict(map["duration" := Int(0), "orig_bytes" := Int(100),
                                "resp_bytes" := Int(0), "proto" := Str("tcp")]))
      == Some(FeaturesOf(Counts(0.0, 100, 0, 0, 0, Str("tcp"))))
  {
    var src := map["duration" := Int(0), "orig_bytes" := Int(100), "resp_bytes" := Int(0), "proto" := Str("tcp")];
    assert SourceOf(Dict(src)) == Some(src);
    assert CountsOf(src) == Some(Counts(0.0, 100, 0, 0, 0, Str("tcp")));
  }

  lemma ZeroDurationValues()
    ensures PairValues(Assignments(0.0, 100, 0, 0, 0, Str("tcp"))) ==
      [0.0, 100.0, 0.0, 0.0, 0.0, 1.0, 0.0, 0.0, 100.0, 0.0, 0.0, 0.0, 0.0, 0.0, 1.0]
  {
  }

  /** A symmetric ten-second UDP exchange. */
  lemma ScenarioSymmetricUdp()
    ensures var e := Dict(map["duration" := Int(10), "orig_bytes" := Int(1000),
                              "resp_bytes" := Int(1000), "orig_pkts" := Int(10),
                              "resp_pkts" := Int(10), "proto" := Str("udp")]);
      && Preprocess(e).Some?
      && (forall k :: k in FeatureColumns ==> k in Preprocess(e).value.values)
      && Vector(Preprocess(e).value) ==
           [10.0, 1000.0, 1000.0, 10.0, 10.0, 0.0, 1.0, 0.0, 2000.0, 20.0, 100.0, 100.0, 1.0, 1.0, 0.5]
  {
    var c := Counts(10.0, 1000, 1000, 10, 10, Str("udp"));
    SymmetricUdpCounts();
    SymmetricUdpValues();
    VectorIsAssignments(c);
  }

  lemma SymmetricUdpCounts()
    ensures Preprocess(Dict(map["duration" := Int(10), "orig_bytes" := Int(1000),
                                "resp_bytes" := Int(1000), "orig_pkts" := Int(10),
                                "resp_pkts" := Int(10), "proto" := Str("udp")]))
      == Some(FeaturesOf(Counts(10.0, 1000, 1000, 10, 10, Str("udp"))))
  {
    var src := map["duration" := Int(10), "orig_bytes" := Int(1000), "resp_bytes" := Int(1000),
                   "orig_pkts" := Int(10), "resp_pkts" := Int(10), "proto" := Str("udp")];
    assert SourceOf(Dict(src)) == Some(src);
    assert CountsOf(src) == Some(Counts(10.0, 1000, 1000, 10, 10, Str("udp")));
  }

  lemma SymmetricUdpValues()
    ensures PairValues(Assignments(10.0, 1000, 1000, 10, 10, Str("udp"))) ==
      [10.0, 1000.0, 1000.0, 10.0, 10.0, 0.0, 1.0, 0.0, 2000.0, 20.0, 100.0, 100.0, 1.0, 1.0, 0.5]
  {
  }

  // ---------------------------------------------------------------------------
  // Frames

  /** A pandas DataFrame of numbers: its column names in order and, for each
      row, the value in each column. */
  datatype Frame = Frame(columns: seq<string>, rows: seq<map<string, real>>)

  /** What every DataFrame satisfies: distinct column names, and every row
      has a value in exactly those columns. */
  ghost predicate WellFormed(f: Frame) {
    && Distinct(f.columns)
    && forall i :: 0 <= i < |f.rows| ==> forall c :: c in f.rows[i] <==> c in f.columns
  }

  /** `df.empty`: no rows or no columns. */
  predicate Empty(f: Frame) {
    |f.rows| == 0 || |f.columns| == 0
  }

  /** The column order `pd.DataFrame(list_of_dicts)` chooses: every key, in
      the order it is first met. */
  function MergeKeys(cols: seq<string>, ks: seq<string>): seq<string>
    decreases |ks|
  {
    if ks == [] then cols
    else MergeKeys(if ks[0] in cols then cols else cols + [ks[0]], ks[1..])
  }

  function ColumnsOf(ds: seq<FeatureDict>): seq<string>
    decreases |ds|
  {
    if ds == [] then [] else MergeKeys(ColumnsOf(ds[..|ds| - 1]), ds[|ds| - 1].keys)
  }

  /** One row of `pd.DataFrame(dicts).fillna(0)`: a column the dict lacks
      would hold NaN, which `fillna` turns into 0. */
  function FilledRow(d: FeatureDict, cols: seq<string>): map<string, real> {
    map c | c in cols :: if c in d.values then d.values[c] else 0.0
  }

  function FromRecords(ds: seq<FeatureDict>): Frame {
    var cols := ColumnsOf(ds);
    Frame(cols, seq(|ds|, i requires 0 <= i < |ds| => FilledRow(ds[i], cols)))
  }

  /** `[preprocess_conn_log_entry(e) for e in entries]`. */
  function PreprocessAll(es: seq<Value>): Option<seq<FeatureDict>> {
    MapAll(Preprocess, es)
  }

  /** `create_feature_df`. */
  function CreateFeatureDf(es: seq<Value>): Option<Frame> {
    var ds :- PreprocessAll(es);
    Some(FromRecords(ds))
  }

  lemma {:induction false} MergeKeysAllPresent(cols: seq<string>, ks: seq<string>)
    requires forall k :: k in ks ==> k in cols
    ensures MergeKeys(cols, ks) == cols
    decreases |ks|
  {
    if ks != [] {
      MergeKeysAllPresent(cols, ks[1..]);
    }
  }

  lemma {:induction false} MergeKeysIntoEmpty(cols: seq<string>, ks: seq<string>)
    requires Distinct(cols + ks)
    ensures MergeKeys(cols, ks) == cols + ks
    decreases |ks|
  {
    if ks != [] {
      assert ks[0] !in cols by {
        assert (cols + ks)[|cols|] == ks[0];
        forall j | 0 <= j < |cols| ensures cols[j] != ks[0] {
          assert (cols + ks)[j] == cols[j];
        }
      }
      assert cols + ks == (cols + [ks[0]]) + ks[1..];
      MergeKeysIntoEmpty(cols + [ks[0]], ks[1..]);
    }
  }

  /** When every dict has the same distinct keys, the frame's columns are
      those keys in their order. */
  lemma {:induction false} ColumnsOfUniform(ds: seq<FeatureDict>, ks: seq<string>)
    requires ds != [] && Distinct(ks)
    requires forall i :: 0 <= i < |ds| ==> ds[i].keys == ks
    ensures ColumnsOf(ds) == ks
    decreases |ds|
  {
    var init := ds[..|ds| - 1];
    if init == [] {
      assert [] + ks == ks;
      MergeKeysIntoEmpty([], ks);
    } else {
      ColumnsOfUniform(init, ks);
      MergeKeysAllPresent(ks, ks);
    }
  }

  /** Every dict has the keys `ks`, in that order. */
  ghost predicate HasKeys(d: FeatureDict, ks: seq<string>) {
    d.keys == ks && forall k :: k in d.values <==> k in ks
  }

  lemma FromRecordsUniform(ds: seq<FeatureDict>, ks: seq<string>)
    requires Distinct(ks)
    requires forall i :: 0 <= i < |ds| ==> HasKeys(ds[i], ks)
    ensures var f := FromRecords(ds);
      && WellFormed(f)
      && f.columns == (if ds == [] then [] else ks)
      && |f.rows| == |ds|
      && forall i :: 0 <= i < |ds| ==> f.rows[i] == ds[i].values
  {
    var f := FromRecords(ds);
    if ds != [] {
      ColumnsOfUniform(ds, ks);
      forall i | 0 <= i < |ds| ensures f.rows[i] == ds[i].values {
        var r := FilledRow(ds[i], ks);
        assert f.rows[i] == r;
        assert r.Keys == ds[i].values.Keys;
      }
    }
  }

  /** `create_feature_df` gives one row per entry, in input order, each row
      the entry's features; its columns are the 15 features (none at all
      for an empty batch), and it is empty exactly when the batch is. It
      fails exactly when some entry cannot be preprocessed. */
  lemma CreateFeatureDfRows(es: seq<Value>)
    ensures CreateFeatureDf(es).Some? <==> forall i :: 0 <= i < |es| ==> Preprocess(es[i]).Some?
    ensures CreateFeatureDf(es).Some? ==>
      var f := CreateFeatureDf(es).value;
      && WellFormed(f)
      && f.columns == (if es == [] then [] else NumericalFeatures)
      && |f.rows| == |es|
      && (forall i :: 0 <= i < |es| ==> f.rows[i] == Preprocess(es[i]).value.values)
      && (Empty(f) <==> es == [])
  {
    MapAllEach(Preprocess, es);
    if CreateFeatureDf(es).Some? {
      var ds := PreprocessAll(es).value;
      forall i | 0 <= i < |ds| ensures HasKeys(ds[i], NumericalFeatures) {
        PreprocessKeys(es[i]);
        assert forall k :: k in ds[i].values.Keys <==> k in (set k | k in NumericalFeatures);
      }
      FeatureColumnsDistinct();
      FromRecordsUniform(ds, NumericalFeatures);
    }
  }

  // ---------------------------------------------------------------------------
  // Reconciliation with the model's columns

  /** `df[c] = 0`: column `c` holds 0 in every row; a new column goes last. */
  function AssignZero(f: Frame, c: string): Frame {
    Frame(if c in f.columns then f.columns else f.columns + [c],
          seq(|f.rows|, i requires 0 <= i < |f.rows| => f.rows[i][c := 0.0]))
  }

  /** The frame after `for col in cols: if col not in df.columns: df[col] = 0`. */
  function PadMissing(f: Frame, cols: seq<string>): (g: Frame)
    requires WellFormed(f)
    ensures WellFormed(g)
    ensures |g.rows| == |f.rows|
    ensures forall c :: c in g.columns <==> c in f.columns || c in cols
    ensures |f.columns| <= |g.columns| && g.columns[..|f.columns|] == f.columns
    ensures forall i, c :: 0 <= i < |f.rows| && c in f.columns ==> g.rows[i][c] == f.rows[i][c]
    ensures forall i, c :: 0 <= i < |g.rows| && c in g.columns && c !in f.columns ==> g.rows[i][c] == 0.0
    decreases |cols|
  {
    if cols == [] then f
    else
      var g := PadMissing(f, cols[..|cols| - 1]);
      var c := cols[|cols| - 1];
      assert forall k :: k in cols <==> k in cols[..|cols| - 1] || k == c;
      if c in g.columns then g
      else
        assert Distinct(g.columns + [c]);
        AssignZero(g, c)
  }

  /** `df[cols]`: the named columns, in that order, as a new frame. */
  function Select(f: Frame, cols: seq<string>): Frame
    requires WellFormed(f) && forall c :: c in cols ==> c in f.columns
  {
    Frame(cols, seq(|f.rows|, i requires 0 <= i < |f.rows| => map c | c in cols :: f.rows[i][c]))
  }

  /** The result of `get_features_for_prediction`: exactly the model's
      columns in the model's order, one row per input row; a column the
      input had keeps its values and a missing one is all zeros. */
  function ForPrediction(f: Frame): (r: Frame)
    requires WellFormed(f)
    ensures WellFormed(r)
    ensures r.columns == FeatureColumns && |r.rows| == |f.rows|
    ensures forall i, c :: 0 <= i < |f.rows| && c in FeatureColumns && c in f.columns ==>
              r.rows[i][c] == f.rows[i][c]
    ensures forall i, c :: 0 <= i < |f.rows| && c in FeatureColumns && c !in f.columns ==>
              r.rows[i][c] == 0.0
  {
    FeatureColumnsDistinct();
    Select(PadMissing(f, FeatureColumns), FeatureColumns)
  }

  /** Reconciling an already reconciled frame changes nothing. */
  lemma ForPredictionIdempotent(f: Frame)
    requires WellFormed(f)
    ensures ForPrediction(ForPrediction(f)) == ForPrediction(f)
  {
    var r := ForPrediction(f);
    var rr := ForPrediction(r);
    assert |rr.rows| == |r.rows|;
    forall i | 0 <= i < |r.rows| ensures rr.rows[i] == r.rows[i] {
      assert rr.rows[i].Keys == r.rows[i].Keys;
    }
  }

  /** A frame that already has exactly the model's columns, in order, is
      left as it is. */
  lemma ForPredictionOfReconciled(f: Frame)
    requires WellFormed(f) && f.columns == FeatureColumns
    ensures ForPrediction(f) == f
  {
    var r := ForPrediction(f);
    forall i | 0 <= i < |f.rows| ensures r.rows[i] == f.rows[i] {
      assert r.rows[i].Keys == f.rows[i].Keys;
    }
  }

  /** The model's input for a batch that preprocesses: each row is the
      entry's feature values, under the model's columns; an empty batch
      gives no rows but still the 15 columns. */
  lemma ModelInputRows(es: seq<Value>)
    requires CreateFeatureDf(es).Some?
    ensures WellFormed(CreateFeatureDf(es).value)
    ensures var x := ForPrediction(CreateFeatureDf(es).value);
      && x.columns == FeatureColumns && |x.rows| == |es|
      && forall i :: 0 <= i < |es| ==> Preprocess(es[i]).Some? && x.rows[i] == Preprocess(es[i]).value.values
  {
    CreateFeatureDfRows(es);
    if es != [] {
      ForPredictionOfReconciled(CreateFeatureDf(es).value);
    }
  }

  /** A pandas DataFrame of numbers that `get_features_for_prediction`
      updates in place. */
  class DataFrame {
    var columns: seq<string>
    var rows: seq<map<string, real>>

    function Value(): Frame
      reads this
    {
      Frame(columns, rows)
    }

    constructor (f: Frame)
      ensures Value() == f
    {
      columns := f.columns;
      rows := f.rows;
    }

    /** `df[c] = 0` */
    method AssignZeroColumn(c: string)
      modifies this
      ensures Value() == AssignZero(old(Value()), c)
    {
      if c !in columns {
        columns := columns + [c];
      }
      var rs := rows;
      rows := seq(|rs|, i requires 0 <= i < |rs| => rs[i][c := 0.0]);
    }
  }

  /** `get_features_for_prediction(df)`: adds the missing model columns to
      `df` itself, then returns its model columns in order. */
  method GetFeaturesForPrediction(df: DataFrame) returns (x: Frame)
    requires WellFormed(df.Value())
    modifies df
    ensures df.Value() == PadMissing(old(df.Value()), FeatureColumns)
    ensures x == ForPrediction(old(df.Value()))
  {
    ghost var f := df.Value();
    for i := 0 to |FeatureColumns|
      invariant df.Value() == PadMissing(f, FeatureColumns[..i])
    {
      var col := FeatureColumns[i];
      assert FeatureColumns[..i + 1][..i] == FeatureColumns[..i];
      if col !in df.columns {
        df.AssignZeroColumn(col);
      }
    }
    assert FeatureColumns[..|FeatureColumns|] == FeatureColumns;
    FeatureColumnsDistinct();
    x := Select(df.Value(), FeatureColumns);
  }
}

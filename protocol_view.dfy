/** The protocol view: the protocols seen in the connection logs, read
    from a terms aggregation of the store, and a highlight kept within the
    list by the arrow keys. */
module ProtocolViews {
  import opened PyValues
  import opened Paging

  /** What the store's search gives: the response, or the text of the
      exception it raised. */
  datatype EsReply = EsRaised(text: string) | EsResponse(res: Value)

  /** `k in v` for a text `k`: a key of a dict, a substring of a text, an
      element of a list; `None` where Python raises `TypeError`. */
  function HasKey(v: Value, k: string): Option<bool> {
    match v
    case Dict(m) => Some(k in m)
    case Str(s) => Some(Contains(s, k))
    case List(xs) => Some(Str(k) in xs)
    case _ => None
  }

  /** `v[k]` for a text `k`; `None` where Python raises. */
  function Index(v: Value, k: string): Option<Value> {
    if v.Dict? && k in v.fields then Some(v.fields[k]) else None
  }

  /** The buckets iterated over. Iterating a non-empty dict or text yields
      texts, and indexing a text by `"key"` raises, so only a list or an
      empty dict or text gets past the comprehension. */
  function BucketsOf(v: Value): Option<seq<Value>> {
    match v
    case List(xs) => Some(xs)
    case Dict(m) => if m == map[] then Some([]) else None
    case Str(s) => if s == "" then Some([]) else None
    case _ => None
  }

  /** `bucket["key"]` */
  function BucketKey(bucket: Value): Option<Value> {
    Index(bucket, "key")
  }

  /** How reading the protocol list out of a response ends: the bucket
      keys, no list in the response, or a raise while reading it. */
  datatype Extracted = Keys(keys: seq<Value>) | NoList | Malformed

  /** The test and the comprehension in `fetch_protocols`. */
  function ExtractProtocols(res: Value): Extracted {
    if !Truthy(res) then NoList
    else
      match HasKey(res, "aggregations")
      case None => Malformed
      case Some(false) => NoList
      case Some(true) =>
        match Index(res, "aggregations")
        case None => Malformed
        case Some(aggs) =>
          match HasKey(aggs, "protocols")
          case None => Malformed
          case Some(false) => NoList
          case Some(true) =>
            match Index(aggs, "protocols")
            case None => Malformed
            case Some(terms) =>
              match Index(terms, "buckets")
              case None => Malformed
              case Some(b) =>
                match BucketsOf(b)
                case None => Malformed
                case Some(items) =>
                  match MapAll(BucketKey, items)
                  case None => Malformed
                  case Some(ks) => Keys(ks)
  }

  /** The response a terms aggregation named `protocols` gives for these
      keys, one bucket per key. */
  function ResponseOf(keys: seq<Value>): Value {
    var buckets := seq(|keys|, i requires 0 <= i < |keys| => Dict(map["key" := keys[i]]));
    Dict(map["aggregations" := Dict(map["protocols" := Dict(map["buckets" := List(buckets)])])])
  }

  /** Reading a well-formed response gives back its bucket keys, in
      bucket order. */
  lemma ExtractResponseOf(keys: seq<Value>)
    ensures ExtractProtocols(ResponseOf(keys)) == Keys(keys)
  {
    var buckets := seq(|keys|, i requires 0 <= i < |keys| => Dict(map["key" := keys[i]]));
    var terms := Dict(map["buckets" := List(buckets)]);
    var aggs := Dict(map["protocols" := terms]);
    var res := Dict(map["aggregations" := aggs]);
    assert res == ResponseOf(keys);
    assert "aggregations" in res.fields && res.fields["aggregations"] == aggs;
    assert "protocols" in aggs.fields && aggs.fields["protocols"] == terms;
    assert "buckets" in terms.fields && terms.fields["buckets"] == List(buckets);
    MapAllEach(BucketKey, buckets);
    assert MapAll(BucketKey, buckets).value == keys;
  }

  /** A response without `aggregations`, or whose `aggregations` has no
      `protocols`, holds no list. */
  lemma MissingAggregation(fields: map<string, Value>, aggs: map<string, Value>)
    ensures fields != map[] && "aggregations" !in fields ==> ExtractProtocols(Dict(fields)) == NoList
    ensures "protocols" !in aggs ==> ExtractProtocols(Dict(fields["aggregations" := Dict(aggs)])) == NoList
  {
    assert "aggregations" in fields["aggregations" := Dict(aggs)];
  }

  /** The view's fields. */
  datatype ProtocolState = ProtocolState(protocols: seq<Value>, selected: int, message: string)

  /** `fetch_protocols()`, with `errorText` the text Python gives the
      exception raised while reading a malformed response. */
  function Fetched(st: ProtocolState, reply: EsReply, errorText: string): ProtocolState {
    match reply
    case EsRaised(t) => st.(protocols := [], message := "Error fetching protocols: " + t)
    case EsResponse(res) =>
      match ExtractProtocols(res)
      case Keys(ks) => st.(protocols := ks, message := "Found " + NatText(|ks|) + " protocols.")
      case NoList => st.(protocols := [], message := "Could not retrieve protocol list.")
      case Malformed => st.(protocols := [], message := "Error fetching protocols: " + errorText)
  }

  /** A fetch never moves the highlight, and keeps a list only when the
      response holds one. */
  lemma FetchedKeepsSelection(st: ProtocolState, reply: EsReply, errorText: string)
    ensures Fetched(st, reply, errorText).selected == st.selected
    ensures Fetched(st, reply, errorText).protocols != [] ==>
      reply.EsResponse? && ExtractProtocols(reply.res) == Keys(Fetched(st, reply, errorText).protocols)
    ensures reply.EsResponse? && ExtractProtocols(reply.res).Keys? ==>
      Fetched(st, reply, errorText).message == "Found " + NatText(|ExtractProtocols(reply.res).keys|) + " protocols."
  {
  }

  /** `handle_input(key)`: the new fields, and whether it raised. Enter on
      a non-empty list calls `show_protocol_details`, which the class does
      not define: it raises `AttributeError` and changes nothing. */
  function AfterKey(st: ProtocolState, key: int): (ProtocolState, bool) {
    if st.protocols == [] then (st, false)
    else if key == KeyUp then (st.(selected := if st.selected - 1 > 0 then st.selected - 1 else 0), false)
    else if key == KeyDown then
      (st.(selected := if |st.protocols| - 1 < st.selected + 1 then |st.protocols| - 1 else st.selected + 1), false)
    else if IsEnter(key) then (st, true)
    else (st, false)
  }

  /** The keys do nothing on an empty list; Up and Down keep a highlight
      that is on the list on the list, and bring one past its end back to
      the last entry (Down) or one step nearer (Up); only Enter raises,
      and no key changes the list or the message. */
  lemma AfterKeyClamps(st: ProtocolState, key: int)
    ensures st.protocols == [] ==> AfterKey(st, key) == (st, false)
    ensures var (after, raised) := AfterKey(st, key);
      && after.protocols == st.protocols && after.message == st.message
      && (raised <==> st.protocols != [] && IsEnter(key))
      && (0 <= st.selected < |st.protocols| ==> 0 <= after.selected < |st.protocols|)
      && (st.protocols != [] && key == KeyDown && st.selected >= |st.protocols| ==> after.selected == |st.protocols| - 1)
      && (st.protocols != [] && key == KeyUp && st.selected >= |st.protocols| ==> after.selected == st.selected - 1)
  {
  }

  /** The protocol view. */
  class ProtocolView {
    var protocols: seq<Value>
    var selectedProtocol: int
    var message: string

    function State(): ProtocolState
      reads this
    {
      ProtocolState(protocols, selectedProtocol, message)
    }

    /** The view as created: empty, then filled by a first fetch. */
    constructor (reply: EsReply, errorText: string)
      ensures State() == Fetched(ProtocolState([], 0, ""), reply, errorText)
    {
      protocols := [];
      selectedProtocol := 0;
      message := "";
      new;
      FetchProtocols(reply, errorText);
    }

    /** `fetch_protocols()` */
    method FetchProtocols(reply: EsReply, errorText: string)
      modifies this
      ensures State() == Fetched(old(State()), reply, errorText)
    {
      if reply.EsRaised? {
        protocols := [];
        message := "Error fetching protocols: " + reply.text;
        return;
      }
      var extracted := ExtractProtocols(reply.res);
      match extracted
      case Keys(ks) =>
        protocols := ks;
        message := "Found " + NatText(|protocols|) + " protocols.";
      case NoList =>
        protocols := [];
        message := "Could not retrieve protocol list.";
      case Malformed =>
        protocols := [];
        message := "Error fetching protocols: " + errorText;
    }

    /** `update()`: fetches the list again. */
    method Update(reply: EsReply, errorText: string)
      modifies this
      ensures State() == Fetched(old(State()), reply, errorText)
    {
      FetchProtocols(reply, errorText);
    }

    /** `handle_input(key)`; `raised` when the call ends in an exception. */
    method HandleInput(key: int) returns (raised: bool)
      modifies this
      ensures (State(), raised) == AfterKey(old(State()), key)
    {
      raised := false;
      if protocols == [] {
        return;
      }
      if key == KeyUp {
        selectedProtocol := if selectedProtocol - 1 > 0 then selectedProtocol - 1 else 0;
      } else if key == KeyDown {
        selectedProtocol := if |protocols| - 1 < selectedProtocol + 1 then |protocols| - 1 else selectedProtocol + 1;
      } else if IsEnter(key) {
        raised := true;
      }
    }
  }
}

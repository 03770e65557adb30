/** Python values as the pipeline and the views see them: the documents read
    from the telemetry store, the fields of a configuration, and the small
    pieces of Python's built-in behaviour (truthiness, `int()` on text,
    `str()` on integers, slicing) that the rest of the model relies on. */
module PyValues {

  datatype Option<+T> = None | Some(value: T) {
    predicate IsFailure() { None? }
    function PropagateFailure<U>(): Option<U> requires None? { None }
    function Extract(): T requires Some? { value }
  }

  /** A JSON-like Python object: what a store document or a field of one holds. */
  datatype Value =
    | Null
    | Bool(b: bool)
    | Int(i: int)
    | Float(r: real)
    | Str(s: string)
    | List(items: seq<Value>)
    | Dict(fields: map<string, Value>)

  /** A Python `dict` with string keys, as far as lookups are concerned. */
  type Doc = map<string, Value>

  /** Python's truth value of an object (`bool(v)`). */
  predicate Truthy(v: Value) {
    match v
    case Null => false
    case Bool(b) => b
    case Int(i) => i != 0
    case Float(r) => r != 0.0
    case Str(s) => s != ""
    case List(xs) => xs != []
    case Dict(m) => m != map[]
  }

  /** `d.get(k, default)` */
  function Get(d: Doc, k: string, default: Value): (v: Value)
    ensures k !in d ==> v == default
    ensures k in d ==> v == d[k]
  {
    if k in d then d[k] else default
  }

  // ---------------------------------------------------------------------------
  // Decimal digits

  predicate IsDigit(c: char) { '0' <= c <= '9' }

  predicate AllDigits(s: string) {
    forall i :: 0 <= i < |s| ==> IsDigit(s[i])
  }

  function DigitChar(d: nat): (c: char)
    requires d < 10
    ensures IsDigit(c) && (c as int) - ('0' as int) == d
  {
    ('0' as int + d) as char
  }

  /** The number a string of decimal digits denotes (leading zeros allowed). */
  function DigitsValue(s: string): nat
    requires AllDigits(s)
  {
    if s == [] then 0
    else DigitsValue(s[..|s| - 1]) * 10 + ((s[|s| - 1] as int) - ('0' as int))
  }

  function Pow10(w: nat): (p: nat)
    ensures p >= 1
  {
    if w == 0 then 1 else 10 * Pow10(w - 1)
  }

  /** The last `w` decimal digits of `n`, left-padded with zeros: the text
      `strftime` writes for `%m` (w = 2) or `%Y` (w = 4). */
  function Digits(n: nat, w: nat): (s: string)
    ensures |s| == w && AllDigits(s)
  {
    if w == 0 then [] else Digits(n / 10, w - 1) + [DigitChar(n % 10)]
  }

  lemma {:induction false} DigitsValueAppend(s: string, c: char)
    requires AllDigits(s) && IsDigit(c)
    ensures AllDigits(s + [c])
    ensures DigitsValue(s + [c]) == DigitsValue(s) * 10 + ((c as int) - ('0' as int))
  {
    assert (s + [c])[..|s + [c]| - 1] == s;
  }

  /** Zero-padding loses nothing when the number fits in the width. */
  lemma {:induction false} DigitsRoundTrip(n: nat, w: nat)
    requires n < Pow10(w)
    ensures DigitsValue(Digits(n, w)) == n
  {
    if w > 0 {
      DigitsRoundTrip(n / 10, w - 1);
      DigitsValueAppend(Digits(n / 10, w - 1), DigitChar(n % 10));
    }
  }

  /** `str(n)` for a natural number: the shortest decimal text. */
  function NatText(n: nat): (s: string)
    ensures |s| >= 1 && AllDigits(s)
    ensures |s| > 1 ==> s[0] != '0'
    decreases n
  {
    if n < 10 then [DigitChar(n)] else NatText(n / 10) + [DigitChar(n % 10)]
  }

  lemma {:induction false} NatTextValue(n: nat)
    ensures DigitsValue(NatText(n)) == n
    decreases n
  {
    if n >= 10 {
      NatTextValue(n / 10);
      DigitsValueAppend(NatText(n / 10), DigitChar(n % 10));
    } else {
      assert NatText(n)[..0] == [];
    }
  }

  /** `str(i)` for a Python `int`. */
  function IntText(i: int): (s: string)
    ensures |s| >= 1
  {
    if i < 0 then "-" + NatText(-i) else NatText(i)
  }

  /** `int(s)` for text made of an optional sign and decimal digits; `None`
      where Python raises `ValueError`. Surrounding whitespace, underscores
      between digits and non-ASCII digits, which Python also accepts, are not
      modelled and give `None`. */
  function ParseInt(s: string): (r: Option<int>)
    ensures r.Some? ==> |s| >= 1
  {
    if |s| >= 2 && (s[0] == '-' || s[0] == '+') && AllDigits(s[1..]) then
      Some(if s[0] == '-' then -(DigitsValue(s[1..]) as int) else DigitsValue(s[1..]))
    else if |s| >= 1 && AllDigits(s) then Some(DigitsValue(s))
    else None
  }

  /** `int(str(i)) == i`: the text `str()` writes for an integer reads back
      as that integer. */
  lemma IntTextRoundTrip(i: int)
    ensures ParseInt(IntText(i)) == Some(i)
  {
    if i < 0 {
      NatTextValue(-i);
      assert IntText(i)[1..] == NatText(-i);
    } else {
      NatTextValue(i);
    }
  }

  /** `int(lookup(name, default))` over environment variables or a
      configuration section: the default when the name is unset, otherwise
      its text read as an integer (`None` where `int()` raises, which stops
      the program or the view while it loads). */
  function IntSetting(env: map<string, string>, name: string, default: int): (r: Option<int>)
    ensures name !in env ==> r == Some(default)
    ensures name in env ==> r == ParseInt(env[name])
  {
    if name in env then ParseInt(env[name]) else Some(default)
  }

  // ---------------------------------------------------------------------------
  // Comprehensions

  /** `[f(x) for x in xs]` where `f` may raise: `None` if any call does. */
  function MapAll<A, B>(f: A -> Option<B>, xs: seq<A>): Option<seq<B>>
    decreases |xs|
  {
    if xs == [] then Some([])
    else
      var init :- MapAll(f, xs[..|xs| - 1]);
      var y :- f(xs[|xs| - 1]);
      Some(init + [y])
  }

  /** A comprehension succeeds exactly when every call does, and then
      holds each call's result in order. */
  lemma {:induction false} MapAllEach<A, B>(f: A -> Option<B>, xs: seq<A>)
    ensures MapAll(f, xs).Some? <==> forall i :: 0 <= i < |xs| ==> f(xs[i]).Some?
    ensures MapAll(f, xs).Some? ==>
      && |MapAll(f, xs).value| == |xs|
      && forall i :: 0 <= i < |xs| ==> MapAll(f, xs).value[i] == f(xs[i]).value
    decreases |xs|
  {
    if xs != [] {
      var init := xs[..|xs| - 1];
      MapAllEach(f, init);
      assert forall i :: 0 <= i < |init| ==> init[i] == xs[i];
    }
  }

  // ---------------------------------------------------------------------------
  // Slicing

  /** `s[:n]`, including Python's reading of a negative `n` as "all but the
      last -n elements". */
  function Take<T>(s: seq<T>, n: int): (r: seq<T>)
    ensures n >= 0 ==> |r| == if n < |s| then n else |s|
    ensures n < 0 ==> |r| == if |s| + n > 0 then |s| + n else 0
    ensures r <= s
  {
    if n >= 0 then (if n < |s| then s[..n] else s)
    else (if |s| + n > 0 then s[..|s| + n] else [])
  }

  /** `s[:-1]`: the text without its last character; empty stays empty. */
  function DropLast<T>(s: seq<T>): (r: seq<T>)
    ensures s == [] ==> r == []
    ensures s != [] ==> r + [s[|s| - 1]] == s
  {
    Take(s, -1)
  }

  /** `needle in haystack` for Python strings: substring containment. */
  predicate Contains<T(==)>(haystack: seq<T>, needle: seq<T>) {
    exists i :: 0 <= i <= |haystack| - |needle| && OccursAt(haystack, needle, i)
  }

  predicate OccursAt<T(==)>(haystack: seq<T>, needle: seq<T>, i: int) {
    0 <= i <= |haystack| - |needle| && haystack[i..i + |needle|] == needle
  }

  lemma ContainsAppend<T>(a: seq<T>, needle: seq<T>, b: seq<T>)
    requires Contains(b, needle)
    ensures Contains(a + b, needle)
  {
    var i :| 0 <= i <= |b| - |needle| && OccursAt(b, needle, i);
    assert (a + b)[|a| + i..|a| + i + |needle|] == b[i..i + |needle|];
    assert OccursAt(a + b, needle, |a| + i);
  }

  lemma ContainsPrefix<T>(a: seq<T>, needle: seq<T>, b: seq<T>)
    requires Contains(a, needle)
    ensures Contains(a + b, needle)
  {
    var i :| 0 <= i <= |a| - |needle| && OccursAt(a, needle, i);
    assert (a + b)[i..i + |needle|] == a[i..i + |needle|];
    assert OccursAt(a + b, needle, i);
  }
}

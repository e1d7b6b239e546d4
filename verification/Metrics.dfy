/** The in-memory metrics collector: label keys, the series cap with its overflow
    bucket, counters that conserve what was added, and bounded histograms. */
module Metrics {
  import opened Wrappers

  const MAX_SERIES := 500
  const MAX_SAMPLES := 1000

  // ---------- Label keys ----------

  datatype Label = Label(key: string, value: string)

  /** A label dictionary: distinct keys, in insertion order. */
  ghost predicate IsDict(labels: seq<Label>) {
    forall i, j :: 0 <= i < j < |labels| ==> labels[i].key != labels[j].key
  }

  /** Python's string order. */
  predicate Less(a: string, b: string) {
    b != "" && (a == "" || a[0] < b[0] || (a[0] == b[0] && Less(a[1..], b[1..])))
  }

  lemma {:induction false} LessIsIrreflexive(a: string)
    ensures !Less(a, a)
  {
    if a != "" {
      LessIsIrreflexive(a[1..]);
    }
  }

  lemma {:induction false} LessIsStrictOrder(a: string, b: string, c: string)
    ensures !Less(a, a)
    ensures Less(a, b) && Less(b, c) ==> Less(a, c)
    ensures a != b ==> Less(a, b) || Less(b, a)
  {
    LessIsIrreflexive(a);
    if a != "" && b != "" {
      assert a[0] == b[0] && a[1..] == b[1..] ==> a == [a[0]] + a[1..] == b;
      LessIsStrictOrder(a[1..], b[1..], if c != "" then c[1..] else "");
    }
  }

  function Insert(l: Label, s: seq<Label>): seq<Label> {
    if s == [] || Less(l.key, s[0].key) then [l] + s else [s[0]] + Insert(l, s[1..])
  }

  /** `sorted(labels.items())`; the keys are distinct, so the values are never compared. */
  function Sorted(labels: seq<Label>): seq<Label> {
    if labels == [] then [] else Insert(labels[0], Sorted(labels[1..]))
  }

  function Render(s: seq<Label>): string {
    if s == [] then ""
    else (s[0].key + "=") + ['"'] + (s[0].value + ['"'] + ((if |s| > 1 then "," else "") + Render(s[1..])))
  }

  /** `_label_key` */
  function LabelKey(name: string, labels: seq<Label>): string {
    if labels == [] then name else name + "{" + Render(Sorted(labels)) + "}"
  }

  ghost predicate Below(key: string, s: seq<Label>) {
    forall x :: x in multiset(s) ==> Less(key, x.key)
  }

  ghost predicate InOrder(s: seq<Label>) {
    s == [] || (Below(s[0].key, s[1..]) && InOrder(s[1..]))
  }

  lemma {:induction false} InsertSorts(l: Label, s: seq<Label>)
    requires InOrder(s) && forall x :: x in multiset(s) ==> x.key != l.key
    ensures InOrder(Insert(l, s)) && multiset(Insert(l, s)) == multiset(s) + multiset{l}
  {
    if s == [] {
    } else if Less(l.key, s[0].key) {
      assert s == [s[0]] + s[1..];
      forall x | x in multiset(s)
        ensures Less(l.key, x.key)
      {
        LessIsStrictOrder(l.key, s[0].key, x.key);
      }
      assert Insert(l, s)[1..] == s;
    } else {
      assert s == [s[0]] + s[1..];
      assert s[0] in multiset(s);
      LessIsStrictOrder(s[0].key, l.key, l.key);
      InsertSorts(l, s[1..]);
      assert Insert(l, s)[1..] == Insert(l, s[1..]);
    }
  }

  lemma {:induction false} SortedSorts(labels: seq<Label>)
    requires IsDict(labels)
    ensures InOrder(Sorted(labels)) && multiset(Sorted(labels)) == multiset(labels)
  {
    if labels != [] {
      SortedSorts(labels[1..]);
      assert labels == [labels[0]] + labels[1..];
      forall x | x in multiset(Sorted(labels[1..]))
        ensures x.key != labels[0].key
      {
        assert x in labels[1..];
      }
      InsertSorts(labels[0], Sorted(labels[1..]));
    }
  }

  lemma HeadIsLeast(s: seq<Label>, x: Label)
    requires InOrder(s) && x in multiset(s)
    ensures x == s[0] || Less(s[0].key, x.key)
  {
  }

  lemma {:induction false} SortedIsUnique(s: seq<Label>, t: seq<Label>)
    requires InOrder(s) && InOrder(t) && multiset(s) == multiset(t)
    ensures s == t
  {
    assert |s| == |multiset(s)| && |t| == |multiset(t)|;
    if s != [] {
      assert s[0] in multiset(s) && t[0] in multiset(t);
      HeadIsLeast(s, t[0]);
      HeadIsLeast(t, s[0]);
      LessIsStrictOrder(s[0].key, t[0].key, s[0].key);
      TailOf(s);
      TailOf(t);
      SortedIsUnique(s[1..], t[1..]);
    }
  }

  lemma TailOf(s: seq<Label>)
    requires s != []
    ensures s == [s[0]] + s[1..] && multiset(s[1..]) == multiset(s) - multiset{s[0]}
  {
  }

  /** Two dictionaries with the same entries have one key, whatever their insertion order. */
  lemma LabelKeyIgnoresOrder(name: string, a: seq<Label>, b: seq<Label>)
    requires IsDict(a) && IsDict(b) && multiset(a) == multiset(b)
    ensures LabelKey(name, a) == LabelKey(name, b)
  {
    SortedSorts(a);
    SortedSorts(b);
    SortedIsUnique(Sorted(a), Sorted(b));
    assert a == [] <==> b == [] by {
      assert |multiset(a)| == |multiset(b)|;
    }
  }

  ghost predicate QuoteFree(labels: seq<Label>) {
    forall l :: l in labels ==> '"' !in l.key && '"' !in l.value
  }

  /** What follows the value of the first label. */
  function After(s: seq<Label>): string
    requires s != []
  {
    (if |s| > 1 then "," else "") + Render(s[1..])
  }

  lemma RenderSplit(s: seq<Label>)
    requires s != []
    ensures Render(s) == (s[0].key + "=") + ['"'] + (s[0].value + ['"'] + After(s))
  {
  }

  lemma FirstLabelIsDetermined(s: seq<Label>, t: seq<Label>)
    requires s != [] && t != [] && Render(s) == Render(t)
    requires '"' !in s[0].key && '"' !in s[0].value && '"' !in t[0].key && '"' !in t[0].value
    ensures s[0] == t[0] && After(s) == After(t)
  {
    RenderSplit(s);
    RenderSplit(t);
    SplitAtFirst('"', s[0].key + "=", s[0].value + ['"'] + After(s), t[0].key + "=", t[0].value + ['"'] + After(t));
    SplitAtFirst('"', s[0].value, After(s), t[0].value, After(t));
    assert (s[0].key + "=")[..|s[0].key|] == s[0].key && (t[0].key + "=")[..|t[0].key|] == t[0].key;
  }

  lemma {:induction false} RenderIsInjective(s: seq<Label>, t: seq<Label>)
    requires QuoteFree(s) && QuoteFree(t) && Render(s) == Render(t)
    ensures s == t
  {
    if s != [] {
      RenderSplit(s);
    }
    if t != [] {
      RenderSplit(t);
    }
    if s != [] && t != [] {
      FirstLabelIsDetermined(s, t);
      assert |s| > 1 ==> After(s)[1..] == Render(s[1..]);
      assert |t| > 1 ==> After(t)[1..] == Render(t[1..]);
      RenderIsInjective(s[1..], t[1..]);
      assert s == [s[0]] + s[1..] && t == [t[0]] + t[1..];
    }
  }

  /** For quote-free labels and brace-free names, equal keys come from equal names and
      equal label sets. */
  lemma LabelKeyIsInjective(n: string, a: seq<Label>, m: string, b: seq<Label>)
    requires IsDict(a) && IsDict(b) && QuoteFree(a) && QuoteFree(b) && '{' !in n && '{' !in m
    requires LabelKey(n, a) == LabelKey(m, b)
    ensures n == m && multiset(a) == multiset(b)
  {
    KeyDeterminesName(n, a, m, b);
    if a != [] {
      SortedSorts(a);
      SortedSorts(b);
      forall l | l in Sorted(a)
        ensures l in a
      {
        assert l in multiset(a);
      }
      forall l | l in Sorted(b)
        ensures l in b
      {
        assert l in multiset(b);
      }
      RenderIsInjective(Sorted(a), Sorted(b));
    }
  }

  // ---------- Which label sets have a key of their own ----------

  /** The text between a key and its value begins at `i`. */
  predicate SepAt(t: string, i: nat) {
    i + 1 < |t| && t[i] == '=' && t[i + 1] == '"'
  }

  predicate HasSep(t: string) {
    exists i: nat :: i < |t| && SepAt(t, i)
  }

  /** The value of a lone label that shows the text `t` and whose key ends at `i`. */
  function ValueFrom(t: string, i: nat): string
    requires i + 2 < |t|
  {
    t[i + 2..|t| - 1]
  }

  /** Any text that ends in a quote reads as one label, wherever a separator stands in it. */
  lemma ReadAsOne(t: string, i: nat)
    requires SepAt(t, i) && i + 2 < |t| && t[|t| - 1] == '"'
    ensures Render([Label(t[..i], ValueFrom(t, i))]) == t
  {
    var l := Label(t[..i], ValueFrom(t, i));
    RenderSplit([l]);
    assert l.value + ['"'] + "" == t[i + 2..];
    assert t == t[..i] + "=" + ['"'] + t[i + 2..];
  }

  lemma {:induction false} RenderEndsInQuote(s: seq<Label>)
    requires s != []
    ensures Render(s) != "" && Render(s)[|Render(s)| - 1] == '"'
  {
    RenderSplit(s);
    if |s| > 1 {
      RenderEndsInQuote(s[1..]);
      assert After(s)[|After(s)| - 1] == Render(s[1..])[|Render(s[1..])| - 1];
    }
  }

  lemma SepAfter(t: string, k: string, rest: string)
    requires t == (k + "=") + ['"'] + rest && rest != ""
    ensures SepAt(t, |k|) && |k| + 2 < |t| && t[..|k|] == k && t[|k| + 2..] == rest
  {
  }

  lemma FirstSep(s: seq<Label>)
    requires s != []
    ensures SepAt(Render(s), |s[0].key|) && |s[0].key| + 2 < |Render(s)|
    ensures Render(s)[..|s[0].key|] == s[0].key
    ensures Render(s)[|s[0].key| + 2..] == s[0].value + ['"'] + After(s)
  {
    RenderSplit(s);
    SepAfter(Render(s), s[0].key, s[0].value + ['"'] + After(s));
  }

  lemma RenderOne(l: Label)
    ensures Render([l]) == (l.key + "=") + ['"'] + (l.value + ['"'])
  {
    RenderSplit([l]);
    assert After([l]) == "";
    assert l.value + ['"'] + "" == l.value + ['"'];
  }

  lemma SecondSep(s: seq<Label>) returns (i: nat)
    requires |s| > 1
    ensures |s[0].key| < i && i + 2 < |Render(s)| && SepAt(Render(s), i)
  {
    FirstSep(s);
    FirstSep(s[1..]);
    var before := |s[0].key| + 2 + |s[0].value| + 2;
    i := before + |s[1].key|;
    var t, rest := Render(s), Render(s[1..]);
    assert t[before..] == rest by {
      assert t[|s[0].key| + 2..][|s[0].value| + 2..] == rest;
    }
    assert t[i] == t[before..][|s[1].key|] && t[i + 1] == t[before..][|s[1].key| + 1];
  }

  lemma SepInKey(t: string, k: string, i: nat)
    requires |k| < |t| && t[..|k|] == k && t[|k|] == '=' && i < |k| && SepAt(t, i)
    ensures HasSep(k)
  {
    assert i + 1 < |k| ==> k[i] == t[..|k|][i] == t[i] && k[i + 1] == t[..|k|][i + 1] == t[i + 1];
    assert i + 1 < |k| ==> SepAt(k, i);
  }

  lemma SepInValue(v: string, j: nat)
    requires SepAt(v + ['"'], j) && j + 2 < |v + ['"']|
    ensures HasSep(v)
  {
    assert SepAt(v, j);
  }

  lemma OnlySepOf(t: string, k: string, v: string, i: nat)
    requires !HasSep(k) && !HasSep(v) && t == (k + "=") + ['"'] + (v + ['"'])
    requires SepAt(t, i) && i + 2 < |t|
    ensures i == |k|
  {
    var rest := v + ['"'];
    SepAfter(t, k, rest);
    if i < |k| {
      SepInKey(t, k, i);
    } else if i > |k| + 1 {
      var j := i - |k| - 2;
      assert t[i] == t[|k| + 2..][j] && t[i + 1] == t[|k| + 2..][j + 1];
      SepInValue(v, j);
    }
  }

  /** The text of one plain label holds one separator, but for one its closing quote may
      complete. */
  lemma OnlySep(l: Label, i: nat)
    requires !HasSep(l.key) && !HasSep(l.value)
    requires SepAt(Render([l]), i) && i + 2 < |Render([l])|
    ensures i == |l.key|
  {
    RenderOne(l);
    OnlySepOf(Render([l]), l.key, l.value, i);
  }

  lemma PlainLabelStandsAlone(l: Label, s: seq<Label>)
    requires !HasSep(l.key) && !HasSep(l.value) && s != [] && Render(s) == Render([l])
    ensures s == [l]
  {
    FirstSep(s);
    FirstSep([l]);
    OnlySep(l, |s[0].key|);
    assert s[0].key == l.key;
    if |s| > 1 {
      var i := SecondSep(s);
      OnlySep(l, i);
    } else {
      assert s[0].value + ['"'] + "" == l.value + ['"'] + "";
      assert |s[0].value| == |l.value|;
      assert s[0].value == (s[0].value + ['"'] + "")[..|l.value|] == (l.value + ['"'] + "")[..|l.value|] == l.value;
      assert s == [s[0]];
    }
  }

  lemma SameRender(n: string, a: seq<Label>, b: seq<Label>)
    requires a != [] && LabelKey(n, b) == LabelKey(n, a)
    ensures b != [] && Render(Sorted(b)) == Render(Sorted(a))
  {
    if b != [] {
      var x, y := Render(Sorted(a)), Render(Sorted(b));
      assert n + "{" + x + "}" == (n + "{") + (x + "}") && n + "{" + y + "}" == (n + "{") + (y + "}");
      assert (n + "{" + x + "}")[|n| + 1..] == x + "}" && (n + "{" + y + "}")[|n| + 1..] == y + "}";
      assert (x + "}")[..|x|] == x && (y + "}")[..|y|] == y;
    }
  }

  /** Where a text with a separator other than that of its one label is split. */
  lemma OtherSep(a: seq<Label>) returns (i: nat)
    requires |a| > 1 || (|a| == 1 && (HasSep(a[0].key) || HasSep(a[0].value)))
    ensures SepAt(Render(a), i) && i + 2 < |Render(a)| && (|a| == 1 ==> i != |a[0].key|)
  {
    FirstSep(a);
    var k, v := a[0].key, a[0].value;
    i := |k|;
    if |a| == 1 && HasSep(k) {
      i :| i < |k| && SepAt(k, i);
      assert Render(a)[i] == Render(a)[..|k|][i] && Render(a)[i + 1] == Render(a)[..|k|][i + 1];
    } else if |a| == 1 {
      var j: nat :| j < |v| && SepAt(v, j);
      i := |k| + 2 + j;
      var rest := Render(a)[|k| + 2..];
      assert Render(a)[i] == rest[j] && Render(a)[i + 1] == rest[j + 1];
    }
  }

  /** Any other label set has a double. */
  lemma HasDouble(n: string, a: seq<Label>) returns (b: seq<Label>)
    requires IsDict(a) && (|a| > 1 || (|a| == 1 && (HasSep(a[0].key) || HasSep(a[0].value))))
    ensures IsDict(b) && LabelKey(n, b) == LabelKey(n, a) && multiset(b) != multiset(a)
  {
    var s := Sorted(a);
    SortedSorts(a);
    assert |s| == |multiset(s)| == |a|;
    assert |a| == 1 ==> s == a;
    var i := OtherSep(s);
    RenderEndsInQuote(s);
    var t := Render(s);
    ReadAsOne(t, i);
    b := [Label(t[..i], ValueFrom(t, i))];
    assert Sorted(b) == b;
    assert |multiset(b)| == 1;
    assert |a| == 1 ==> multiset(a)[a[0]] == 1 && b[0] != a[0];
  }

  /** A label set shares its key with no other under the same name if and only if it is
      empty, or a single label with no `="` in its key or its value. In particular every set
      of two labels has a double, with quotes in it or without. */
  lemma OwnKeyIff(n: string, a: seq<Label>)
    requires IsDict(a)
    ensures (forall b :: IsDict(b) && LabelKey(n, b) == LabelKey(n, a) ==> multiset(b) == multiset(a)) <==>
            a == [] || (|a| == 1 && !HasSep(a[0].key) && !HasSep(a[0].value))
  {
    if a != [] && !(|a| == 1 && !HasSep(a[0].key) && !HasSep(a[0].value)) {
      var b := HasDouble(n, a);
    }
    forall b | IsDict(b) && LabelKey(n, b) == LabelKey(n, a)
      ensures a == [] || (|a| == 1 && !HasSep(a[0].key) && !HasSep(a[0].value)) ==> multiset(b) == multiset(a)
    {
      if |a| == 1 && !HasSep(a[0].key) && !HasSep(a[0].value) {
        SameRender(n, a, b);
        assert Sorted(a) == [a[0]] == a;
        SortedSorts(b);
        assert |Sorted(b)| == |multiset(Sorted(b))| == |b|;
        PlainLabelStandsAlone(a[0], Sorted(b));
      }
    }
  }

  /** For example, one label with a quote in its value passes for two labels. */
  lemma QuotedLabelsCollide()
    ensures LabelKey("m", [Label("a", "1\",b=\"2")]) == LabelKey("m", [Label("a", "1"), Label("b", "2")])
  {
    var one, a, b := Label("a", "1\",b=\"2"), Label("a", "1"), Label("b", "2");
    assert Sorted([b]) == [b] && Sorted([one]) == [one];
    assert [a, b][1..] == [b] && Sorted([a, b]) == [a, b];
    assert Render([b]) == "b=\"2\"";
    assert Render([a, b]) == "a=\"1\",b=\"2\"";
    assert Render([one]) == "a=\"1\",b=\"2\"";
  }

  lemma BraceShowsLabels(n: string, a: seq<Label>)
    requires '{' !in n
    ensures '{' in LabelKey(n, a) <==> a != []
  {
  }

  lemma SplitKey(n: string, ra: string, m: string, rb: string)
    requires '{' !in n && '{' !in m && n + "{" + ra + "}" == m + "{" + rb + "}"
    ensures n == m && ra == rb
  {
    assert n + "{" + ra + "}" == n + ['{'] + (ra + "}");
    assert m + "{" + rb + "}" == m + ['{'] + (rb + "}");
    SplitAtFirst('{', n, ra + "}", m, rb + "}");
    assert (ra + "}")[..|ra|] == ra && (rb + "}")[..|rb|] == rb;
  }

  lemma KeyDeterminesName(n: string, a: seq<Label>, m: string, b: seq<Label>)
    requires '{' !in n && '{' !in m && LabelKey(n, a) == LabelKey(m, b)
    ensures n == m && (a == [] <==> b == []) && (a != [] ==> Render(Sorted(a)) == Render(Sorted(b)))
  {
    BraceShowsLabels(n, a);
    BraceShowsLabels(m, b);
    if a != [] {
      SplitKey(n, Render(Sorted(a)), m, Render(Sorted(b)));
    }
  }

  // ---------- The collector ----------

  datatype Kind = Inc | Observe | SetGauge

  datatype Op = Op(kind: Kind, name: string, labels: seq<Label>, value: real)

  datatype State = State(
    counters: map<string, real>, histograms: map<string, seq<real>>, gauges: map<string, real>,
    series: map<string, nat>, dropped: map<string, nat>)

  const EMPTY := State(map[], map[], map[], map[], map[])

  const OVERFLOW := [Label("label", "__overflow__")]

  function Get<T>(m: map<string, T>, k: string, default: T): T {
    if k in m then m[k] else default
  }

  predicate Present(s: State, k: string) {
    k in s.counters || k in s.histograms || k in s.gauges
  }

  /** The series cap on one labelled key: past the cap an unseen key folds into `overflow`. */
  function Fold(s: State, name: string, k: string, overflow: string): string {
    if Present(s, k) || Get(s.series, name, 0) < MAX_SERIES then k else overflow
  }

  /** `_capped_key`: the storage key of a call. */
  function KeyFor(s: State, name: string, labels: seq<Label>): string {
    if labels == [] then name else Fold(s, name, LabelKey(name, labels), LabelKey(name, OVERFLOW))
  }

  /** The bookkeeping `_capped_key` does on the side for the labelled key `k`. */
  function Noted(s: State, name: string, k: string): State {
    if Present(s, k) then s
    else if Get(s.series, name, 0) >= MAX_SERIES then s.(dropped := s.dropped[name := Get(s.dropped, name, 0) + 1])
    else s.(series := s.series[name := Get(s.series, name, 0) + 1])
  }

  function Last(s: seq<real>, n: nat): seq<real> {
    if |s| > n then s[|s| - n..] else s
  }

  function Store(s: State, kind: Kind, k: string, value: real): State {
    match kind
    case Inc => s.(counters := s.counters[k := Get(s.counters, k, 0.0) + value])
    case Observe => s.(histograms := s.histograms[k := Last(Get(s.histograms, k, []) + [value], MAX_SAMPLES)])
    case SetGauge => s.(gauges := s.gauges[k := value])
  }

  function Apply(s: State, op: Op): State {
    var noted := if op.labels == [] then s else Noted(s, op.name, LabelKey(op.name, op.labels));
    Store(noted, op.kind, KeyFor(s, op.name, op.labels), op.value)
  }

  function Run(ops: seq<Op>): State {
    if ops == [] then EMPTY else Apply(Run(ops[..|ops| - 1]), ops[|ops| - 1])
  }

  class Metrics {
    var counters: map<string, real>
    var histograms: map<string, seq<real>>
    var gauges: map<string, real>
    var seriesCount: map<string, nat>
    var dropped: map<string, nat>

    function View(): State
      reads this
    {
      State(counters, histograms, gauges, seriesCount, dropped)
    }

    constructor ()
      ensures View() == EMPTY
    {
      counters, histograms, gauges, seriesCount, dropped := map[], map[], map[], map[], map[];
    }

    method CappedKey(name: string, labels: seq<Label>) returns (key: string)
      modifies this`seriesCount, this`dropped
      ensures key == KeyFor(old(View()), name, labels)
      ensures View() == if labels == [] then old(View()) else Noted(old(View()), name, LabelKey(name, labels))
    {
      if labels == [] {
        return name;
      }
      key := LabelKey(name, labels);
      if key in counters || key in histograms || key in gauges {
        return;
      }
      if Get(seriesCount, name, 0) >= MAX_SERIES {
        dropped := dropped[name := Get(dropped, name, 0) + 1];
        return LabelKey(name, OVERFLOW);
      }
      seriesCount := seriesCount[name := Get(seriesCount, name, 0) + 1];
    }

    method Increment(name: string, value: real, labels: seq<Label>)
      modifies this
      ensures View() == Apply(old(View()), Op(Inc, name, labels, value))
    {
      var key := CappedKey(name, labels);
      ghost var noted := View();
      counters := counters[key := Get(counters, key, 0.0) + value];
      assert View() == Store(noted, Inc, key, value);
    }

    method Observation(name: string, value: real, labels: seq<Label>)
      modifies this
      ensures View() == Apply(old(View()), Op(Observe, name, labels, value))
    {
      var key := CappedKey(name, labels);
      histograms := histograms[key := Get(histograms, key, []) + [value]];
      if |histograms[key]| > MAX_SAMPLES {
        histograms := histograms[key := histograms[key][|histograms[key]| - MAX_SAMPLES..]];
      }
    }

    method Gauge(name: string, value: real, labels: seq<Label>)
      modifies this
      ensures View() == Apply(old(View()), Op(SetGauge, name, labels, value))
    {
      var key := CappedKey(name, labels);
      ghost var noted := View();
      gauges := gauges[key := value];
      assert View() == Store(noted, SetGauge, key, value);
    }
  }

  // ---------- Which names a key belongs to ----------

  predicate IsSeriesOf(name: string, k: string) {
    name + "{" <= k
  }

  predicate BelongsTo(name: string, k: string) {
    k == name || IsSeriesOf(name, k)
  }

  lemma KeyBelongs(name: string, labels: seq<Label>)
    ensures BelongsTo(name, LabelKey(name, labels))
    ensures labels != [] ==> IsSeriesOf(name, LabelKey(name, labels))
    ensures '{' !in name ==> (IsSeriesOf(name, LabelKey(name, labels)) <==> labels != [])
  {
  }

  lemma SeriesHaveBraces(name: string, k: string)
    ensures IsSeriesOf(name, k) ==> '{' in k
  {
    if IsSeriesOf(name, k) {
      assert k[|name|] == (name + "{")[|name|];
    }
  }

  lemma ShorterOwner(owner: string, name: string, k: string)
    requires IsSeriesOf(owner, k) && name <= k && |owner| < |name|
    ensures '{' in name
  {
    assert name[|owner|] == k[|owner|] == (owner + "{")[|owner|];
  }

  /** Whatever the owner's name, its keys belong to `name` exactly when the owner is `name`
      itself or reads like one of its series. */
  lemma OwnersOfName(owner: string, name: string, k: string)
    requires '{' !in name && BelongsTo(owner, k)
    ensures BelongsTo(name, k) <==> owner == name || IsSeriesOf(name, owner)
  {
    if BelongsTo(name, k) && |owner| < |name| {
      ShorterOwner(owner, name, k);
    } else if BelongsTo(name, k) {
      assert name == k[..|name|] == owner[..|name|];
      assert |owner| > |name| ==> owner[|name|] == k[|name|] == (name + "{")[|name|];
    }
  }

  // ---------- The series cap ----------

  /** The distinct labelled keys asked for under a name, in order of first request. */
  function Requested(ops: seq<Op>, name: string): seq<string> {
    if ops == [] then []
    else
      var r, op := Requested(ops[..|ops| - 1], name), ops[|ops| - 1];
      var k := LabelKey(name, op.labels);
      if op.name == name && op.labels != [] && k !in r then r + [k] else r
  }

  function FirstOnes<T>(s: seq<T>): seq<T> {
    if |s| > 500 then s[..500] else s
  }

  ghost predicate BraceFree(ops: seq<Op>) {
    forall op :: op in ops ==> '{' !in op.name
  }

  ghost function SeriesOf(s: State, name: string): set<string> {
    set k | k in s.counters.Keys + s.histograms.Keys + s.gauges.Keys && IsSeriesOf(name, k)
  }

  /** The series of a name: the first 500 keys asked for, plus the overflow bucket once
      a 501st has come. */
  ghost predicate SeriesInv(s: State, name: string, requested: seq<string>, overflow: string) {
    var owners := FirstOnes(requested);
    && Get(s.series, name, 0) == |owners|
    && (forall k :: k in owners ==> Present(s, k) && IsSeriesOf(name, k))
    && (forall k :: Present(s, k) && IsSeriesOf(name, k) ==>
          k in owners || (k == overflow && |owners| == MAX_SERIES))
  }

  lemma StorePresent(s: State, kind: Kind, k: string, value: real)
    ensures forall x :: Present(Store(s, kind, k, value), x) <==> Present(s, x) || x == k
    ensures Store(s, kind, k, value).series == s.series
  {
  }

  lemma NotedPresent(s: State, name: string, k: string)
    ensures forall x :: Present(Noted(s, name, k), x) <==> Present(s, x)
  {
  }

  /** A call under `name` with the labelled key `k`. */
  lemma OwnCallKeepsSeries(s: State, s': State, name: string, r: seq<string>, k: string, overflow: string)
    requires SeriesInv(s, name, r, overflow) && IsSeriesOf(name, k) && IsSeriesOf(name, overflow)
    requires forall x :: Present(s', x) <==> Present(s, x) || x == Fold(s, name, k, overflow)
    requires s'.series == Noted(s, name, k).series
    ensures SeriesInv(s', name, if k in r then r else r + [k], overflow)
  {
    var r' := if k in r then r else r + [k];
    if |r| >= MAX_SERIES {
      assert FirstOnes(r') == FirstOnes(r);
    } else {
      assert FirstOnes(r) == r && FirstOnes(r') == r';
    }
  }

  lemma ForeignCallKeepsSeries(s: State, s': State, name: string, r: seq<string>, used: string, overflow: string)
    requires SeriesInv(s, name, r, overflow) && !IsSeriesOf(name, used)
    requires forall x :: Present(s', x) <==> Present(s, x) || x == used
    requires Get(s'.series, name, 0) == Get(s.series, name, 0)
    ensures SeriesInv(s', name, r, overflow)
  {
  }

  lemma ApplyKeepsSeries(s: State, op: Op, name: string, r: seq<string>)
    requires '{' !in op.name && '{' !in name && SeriesInv(s, name, r, LabelKey(name, OVERFLOW))
    ensures var k := LabelKey(name, op.labels);
            SeriesInv(Apply(s, op), name, if op.name == name && op.labels != [] && k !in r then r + [k] else r,
                      LabelKey(name, OVERFLOW))
  {
    var k, overflow := LabelKey(op.name, op.labels), LabelKey(op.name, OVERFLOW);
    var noted := if op.labels == [] then s else Noted(s, op.name, k);
    NotedPresent(s, op.name, k);
    StorePresent(noted, op.kind, KeyFor(s, op.name, op.labels), op.value);
    KeyBelongs(op.name, op.labels);
    KeyBelongs(op.name, OVERFLOW);
    if op.name != name {
      SeriesHaveBraces(name, op.name);
      OwnersOfName(op.name, name, KeyFor(s, op.name, op.labels));
      ForeignCallKeepsSeries(s, Apply(s, op), name, r, KeyFor(s, op.name, op.labels), LabelKey(name, OVERFLOW));
    } else if op.labels == [] {
      ForeignCallKeepsSeries(s, Apply(s, op), name, r, name, overflow);
    } else {
      OwnCallKeepsSeries(s, Apply(s, op), name, r, k, overflow);
    }
  }

  lemma {:induction false} RunKeepsSeries(ops: seq<Op>, name: string)
    requires BraceFree(ops) && '{' !in name
    ensures SeriesInv(Run(ops), name, Requested(ops, name), LabelKey(name, OVERFLOW))
  {
    if ops != [] {
      var before, op := ops[..|ops| - 1], ops[|ops| - 1];
      assert op in ops;
      RunKeepsSeries(before, name);
      ApplyKeepsSeries(Run(before), op, name, Requested(before, name));
    }
  }

  /** The keys that calls under other names put among the series of `name`. */
  function LeakedKeys(ops: seq<Op>, name: string): set<string> {
    if ops == [] then {}
    else
      var before, op := ops[..|ops| - 1], ops[|ops| - 1];
      LeakedKeys(before, name)
      + if IsSeriesOf(name, op.name) then {KeyFor(Run(before), op.name, op.labels)} else {}
  }

  lemma GrowsByOne(a: set<string>, b: set<string>, k: string)
    requires b <= a + {k}
    ensures |b| <= |a| + 1 && (b <= a ==> |b| <= |a|)
  {
    assert |a + {k} - b| == |a + {k}| - |b|;
    assert |a + {k}| <= |a| + 1;
    assert b <= a ==> |a - b| == |a| - |b|;
  }

  lemma OneKeyMore(a: set<string>, b: set<string>, leaked: set<string>, leaked': set<string>, used: string,
                   over: string)
    requires b <= a + {used} && leaked <= leaked'
    ensures |b - leaked' - {over}| <= |a - leaked - {over}| + 1
    ensures used in a || used !in b || used in leaked' || used == over ==>
              |b - leaked' - {over}| <= |a - leaked - {over}|
  {
    GrowsByOne(a - leaked - {over}, b - leaked' - {over}, used);
  }

  lemma SeriesGrow(s: State, s': State, name: string, used: string)
    requires forall x :: Present(s', x) <==> Present(s, x) || x == used
    ensures SeriesOf(s', name) <= SeriesOf(s, name) + {used}
    ensures Present(s, used) ==> used in SeriesOf(s, name) || used !in SeriesOf(s', name)
    ensures !IsSeriesOf(name, used) ==> used !in SeriesOf(s', name)
  {
    forall x | x in SeriesOf(s', name)
      ensures x in SeriesOf(s, name) + {used}
    {
      assert Present(s', x);
    }
  }

  /** A call counts a new series of its own name exactly when it is allowed a new key. */
  predicate TakesNew(s: State, owner: string, k: string) {
    !Present(s, k) && Get(s.series, owner, 0) < MAX_SERIES
  }

  lemma NotedCount(s: State, owner: string, k: string, name: string)
    ensures Get(Noted(s, owner, k).series, name, 0)
            == Get(s.series, name, 0) + if owner == name && TakesNew(s, owner, k) then 1 else 0
  {
  }

  lemma FoldedKey(s: State, owner: string, k: string, overflow: string)
    ensures !TakesNew(s, owner, k) ==>
              Present(s, Fold(s, owner, k, overflow)) || Fold(s, owner, k, overflow) == overflow
  {
  }

  /** A labelled call under its own name: at most one more series, and then it is counted. */
  lemma OwnCallCounts(s: State, s': State, name: string, leaked: set<string>, k: string, over: string)
    requires |SeriesOf(s, name) - leaked - {over}| <= Get(s.series, name, 0) <= MAX_SERIES
    requires forall x :: Present(s', x) <==> Present(s, x) || x == Fold(s, name, k, over)
    requires Get(s'.series, name, 0) == Get(s.series, name, 0) + if TakesNew(s, name, k) then 1 else 0
    ensures |SeriesOf(s', name) - leaked - {over}| <= Get(s'.series, name, 0) <= MAX_SERIES
  {
    var used := Fold(s, name, k, over);
    FoldedKey(s, name, k, over);
    SeriesGrow(s, s', name, used);
    OneKeyMore(SeriesOf(s, name), SeriesOf(s', name), leaked, leaked, used, over);
  }

  /** Any other call: its key is no series of `name`, or leaks in. */
  lemma OtherCallAddsNone(s: State, s': State, name: string, leaked: set<string>, leaked': set<string>, used: string,
                          over: string)
    requires |SeriesOf(s, name) - leaked - {over}| <= Get(s.series, name, 0) <= MAX_SERIES
    requires forall x :: Present(s', x) <==> Present(s, x) || x == used
    requires Get(s'.series, name, 0) == Get(s.series, name, 0)
    requires leaked <= leaked' && (IsSeriesOf(name, used) ==> used in leaked')
    ensures |SeriesOf(s', name) - leaked' - {over}| <= Get(s'.series, name, 0) <= MAX_SERIES
  {
    SeriesGrow(s, s', name, used);
    OneKeyMore(SeriesOf(s, name), SeriesOf(s', name), leaked, leaked', used, over);
  }

  lemma ApplyMeans(s: State, op: Op, k: string, used: string)
    requires k == LabelKey(op.name, op.labels) && used == KeyFor(s, op.name, op.labels)
    ensures forall x :: Present(Apply(s, op), x) <==> Present(s, x) || x == used
    ensures forall name :: Get(Apply(s, op).series, name, 0)
                           == Get(s.series, name, 0)
                              + if op.name == name && op.labels != [] && TakesNew(s, name, k) then 1 else 0
  {
    var noted := if op.labels == [] then s else Noted(s, op.name, k);
    NotedPresent(s, op.name, k);
    StorePresent(noted, op.kind, used, op.value);
    forall name
      ensures Get(Noted(s, op.name, k).series, name, 0)
              == Get(s.series, name, 0) + if op.name == name && TakesNew(s, name, k) then 1 else 0
    {
      NotedCount(s, op.name, k, name);
    }
  }

  lemma KeyForBelongs(s: State, name: string, labels: seq<Label>)
    ensures BelongsTo(name, KeyFor(s, name, labels))
    ensures labels == [] ==> KeyFor(s, name, labels) == name
  {
    KeyBelongs(name, labels);
    KeyBelongs(name, OVERFLOW);
  }

  lemma CallKeepsOwnSeries(s: State, s': State, owner: string, name: string, labelled: bool, k: string, used: string,
                           leaked: set<string>, over: string)
    requires '{' !in name && BelongsTo(owner, used)
    requires if labelled then owner == name ==> used == Fold(s, name, k, over) else used == owner
    requires |SeriesOf(s, name) - leaked - {over}| <= Get(s.series, name, 0) <= MAX_SERIES
    requires forall x :: Present(s', x) <==> Present(s, x) || x == used
    requires Get(s'.series, name, 0)
             == Get(s.series, name, 0) + if owner == name && labelled && TakesNew(s, name, k) then 1 else 0
    ensures |SeriesOf(s', name) - (leaked + if IsSeriesOf(name, owner) then {used} else {}) - {over}|
            <= Get(s'.series, name, 0) <= MAX_SERIES
  {
    OwnersOfName(owner, name, used);
    SeriesHaveBraces(name, name);
    if owner == name && labelled {
      assert leaked + {} == leaked;
      OwnCallCounts(s, s', name, leaked, k, over);
    } else {
      OtherCallAddsNone(s, s', name, leaked, leaked + if IsSeriesOf(name, owner) then {used} else {}, used, over);
    }
  }

  lemma ApplyKeepsOwnSeries(s: State, op: Op, name: string, leaked: set<string>, over: string)
    requires '{' !in name && over == LabelKey(name, OVERFLOW)
    requires |SeriesOf(s, name) - leaked - {over}| <= Get(s.series, name, 0) <= MAX_SERIES
    ensures var leaked' := leaked + if IsSeriesOf(name, op.name) then {KeyFor(s, op.name, op.labels)} else {};
            |SeriesOf(Apply(s, op), name) - leaked' - {over}| <= Get(Apply(s, op).series, name, 0) <= MAX_SERIES
  {
    var k, used, s' := LabelKey(op.name, op.labels), KeyFor(s, op.name, op.labels), Apply(s, op);
    ApplyMeans(s, op, k, used);
    KeyForBelongs(s, op.name, op.labels);
    CallKeepsOwnSeries(s, s', op.name, name, op.labels != [], k, used, leaked, over);
  }

  lemma {:induction false} RunKeepsOwnSeries(ops: seq<Op>, name: string, over: string)
    requires '{' !in name && over == LabelKey(name, OVERFLOW)
    ensures |SeriesOf(Run(ops), name) - LeakedKeys(ops, name) - {over}| <= Get(Run(ops).series, name, 0) <= MAX_SERIES
  {
    if ops == [] {
      assert SeriesOf(EMPTY, name) == {};
    } else {
      var before := ops[..|ops| - 1];
      RunKeepsOwnSeries(before, name, over);
      ApplyKeepsOwnSeries(Run(before), ops[|ops| - 1], name, LeakedKeys(before, name), over);
    }
  }

  /** Over any run of the three operations, whatever names it uses, a name has at most 501
      labelled series in the three tables together besides those that leaked in. */
  lemma SeriesAreCappedButForLeaks(ops: seq<Op>, name: string)
    requires '{' !in name
    ensures |SeriesOf(Run(ops), name) - LeakedKeys(ops, name)| <= 501
  {
    var over := LabelKey(name, OVERFLOW);
    RunKeepsOwnSeries(ops, name, over);
    var all := SeriesOf(Run(ops), name) - LeakedKeys(ops, name);
    GrowsByOne(all - {over}, all, over);
  }

  /** With brace-free names nothing leaks in: no name ever has more than 501. */
  lemma SeriesAreCapped(ops: seq<Op>, name: string)
    requires BraceFree(ops) && '{' !in name
    ensures |SeriesOf(Run(ops), name)| <= 501
  {
    SeriesAreCappedButForLeaks(ops, name);
    NoKeysLeak(ops, name);
    assert SeriesOf(Run(ops), name) - {} == SeriesOf(Run(ops), name);
  }

  lemma {:induction false} NoKeysLeak(ops: seq<Op>, name: string)
    requires BraceFree(ops)
    ensures LeakedKeys(ops, name) == {}
  {
    if ops != [] {
      NoKeysLeak(ops[..|ops| - 1], name);
      assert ops[|ops| - 1] in ops;
      SeriesHaveBraces(name, ops[|ops| - 1].name);
    }
  }

  /** The distinct label sets asked for under a name, in order of first request. */
  function RequestedSets(ops: seq<Op>, name: string): seq<multiset<Label>> {
    if ops == [] then []
    else
      var r, op := RequestedSets(ops[..|ops| - 1], name), ops[|ops| - 1];
      if op.name == name && op.labels != [] && multiset(op.labels) !in r then r + [multiset(op.labels)] else r
  }

  ghost predicate Plain(labels: seq<Label>) {
    IsDict(labels) && QuoteFree(labels) && labels != []
  }

  /** Keys and label sets name the same things, position by position. */
  ghost predicate Match(name: string, keys: seq<string>, sets: seq<multiset<Label>>) {
    |keys| == |sets| && forall i, labels :: 0 <= i < |keys| && Plain(labels) ==>
      (LabelKey(name, labels) == keys[i] <==> multiset(labels) == sets[i])
  }

  lemma {:induction false} KeysMatchSets(ops: seq<Op>, name: string)
    requires '{' !in name && forall op :: op in ops && op.labels != [] ==> Plain(op.labels)
    ensures Match(name, Requested(ops, name), RequestedSets(ops, name))
  {
    if ops != [] {
      var before, op := ops[..|ops| - 1], ops[|ops| - 1];
      assert op in ops;
      KeysMatchSets(before, name);
      if op.name == name && op.labels != [] {
        MatchGrows(name, Requested(before, name), RequestedSets(before, name), op.labels);
      }
    }
  }

  lemma MatchGrows(name: string, keys: seq<string>, sets: seq<multiset<Label>>, labels: seq<Label>)
    requires '{' !in name && Match(name, keys, sets) && Plain(labels)
    ensures LabelKey(name, labels) in keys <==> multiset(labels) in sets
    ensures Match(name, keys + [LabelKey(name, labels)], sets + [multiset(labels)])
  {
    forall other | Plain(other)
      ensures LabelKey(name, other) == LabelKey(name, labels) <==> multiset(other) == multiset(labels)
    {
      if multiset(other) == multiset(labels) {
        LabelKeyIgnoresOrder(name, other, labels);
      }
      if LabelKey(name, other) == LabelKey(name, labels) {
        LabelKeyIsInjective(name, other, name, labels);
      }
    }
    assert forall i :: 0 <= i < |keys| ==> (LabelKey(name, labels) == keys[i] <==> multiset(labels) == sets[i]);
  }

  lemma MatchSelects(name: string, keys: seq<string>, sets: seq<multiset<Label>>, labels: seq<Label>)
    requires Match(name, keys, sets) && Plain(labels)
    ensures LabelKey(name, labels) in FirstOnes(keys) <==> multiset(labels) in FirstOnes(sets)
  {
  }

  /** A labelled key is stored exactly when it was among the first 500 distinct ones asked
      for under its name, whatever its labels contain. */
  lemma KeysOfTheFirst(ops: seq<Op>, name: string, k: string)
    requires BraceFree(ops) && '{' !in name && IsSeriesOf(name, k) && k != LabelKey(name, OVERFLOW)
    ensures Present(Run(ops), k) <==> k in FirstOnes(Requested(ops, name))
  {
    RunKeepsSeries(ops, name);
  }

  /** A label set owns a series of its own exactly when it was among the first 500
      distinct ones asked for under its name. */
  lemma OwnersAreTheFirst(ops: seq<Op>, name: string, labels: seq<Label>)
    requires BraceFree(ops) && '{' !in name && Plain(labels) && multiset(labels) != multiset(OVERFLOW)
    requires forall op :: op in ops && op.labels != [] ==> Plain(op.labels)
    ensures Present(Run(ops), LabelKey(name, labels)) <==> multiset(labels) in FirstOnes(RequestedSets(ops, name))
  {
    KeyBelongs(name, labels);
    NotOverflow(name, labels);
    KeysOfTheFirst(ops, name, LabelKey(name, labels));
    KeysMatchSets(ops, name);
    MatchSelects(name, Requested(ops, name), RequestedSets(ops, name), labels);
  }

  lemma NotOverflow(name: string, labels: seq<Label>)
    requires '{' !in name && Plain(labels) && multiset(labels) != multiset(OVERFLOW)
    ensures LabelKey(name, labels) != LabelKey(name, OVERFLOW)
  {
    if LabelKey(name, labels) == LabelKey(name, OVERFLOW) {
      LabelKeyIsInjective(name, labels, name, OVERFLOW);
    }
  }

  // ---------- Where every value goes ----------

  predicate NoRepeats(s: seq<string>) {
    forall i, j :: 0 <= i < j < |s| ==> s[i] != s[j]
  }

  /** The key a call is stored under, as the run as a whole decides it: its own if that is
      among the first 500 of its name, else the overflow key. */
  function Home(ops: seq<Op>, op: Op): string {
    var k := LabelKey(op.name, op.labels);
    if op.labels == [] || k in FirstOnes(Requested(ops, op.name)) then k else LabelKey(op.name, OVERFLOW)
  }

  /** A run goes on: keys asked for stay where they are, and new ones queue up behind. */
  lemma {:induction false} RequestsGrow(ops: seq<Op>, op: Op, name: string)
    ensures Requested(ops, name) <= Requested(ops + [op], name)
    ensures NoRepeats(Requested(ops, name)) ==> NoRepeats(Requested(ops + [op], name))
    ensures op.name == name && op.labels != [] ==> LabelKey(name, op.labels) in Requested(ops + [op], name)
  {
    assert (ops + [op])[..|ops|] == ops;
  }

  lemma {:induction false} RequestsOfPrefix(ops: seq<Op>, n: nat, name: string)
    requires n <= |ops|
    ensures Requested(ops[..n], name) <= Requested(ops, name) && NoRepeats(Requested(ops, name))
  {
    if ops != [] {
      var m := |ops| - 1;
      RequestsOfPrefix(ops[..m], if n <= m then n else m, name);
      RequestsGrow(ops[..m], ops[m], name);
      assert ops[..m] + [ops[m]] == ops;
      assert n <= m ==> ops[..m][..n] == ops[..n];
      assert n > m ==> ops[..n] == ops;
    }
  }

  lemma FirstOnesOfPrefix(r: seq<string>, r': seq<string>, k: string)
    requires r <= r' && NoRepeats(r') && k in r
    ensures k in FirstOnes(r) <==> k in FirstOnes(r')
  {
    var i :| 0 <= i < |r| && r[i] == k;
    assert forall j :: 0 <= j < |r'| && r'[j] == k ==> j == i;
    assert k in FirstOnes(r) <==> i < MAX_SERIES;
    assert k in FirstOnes(r') <==> i < MAX_SERIES;
  }

  /** What `Fold` does is what the run, this call included, decides. */
  lemma FoldIsHome(s: State, name: string, r: seq<string>, k: string, overflow: string)
    requires SeriesInv(s, name, r, overflow) && IsSeriesOf(name, k) && IsSeriesOf(name, overflow)
    ensures Fold(s, name, k, overflow) == if k in FirstOnes(if k in r then r else r + [k]) then k else overflow
  {
    if |r| < MAX_SERIES {
      assert FirstOnes(r) == r;
    } else {
      assert FirstOnes(if k in r then r else r + [k]) == FirstOnes(r);
    }
  }

  lemma {:induction false} KeyForIsHome(ops: seq<Op>, op: Op)
    requires BraceFree(ops + [op])
    ensures KeyFor(Run(ops), op.name, op.labels) == Home(ops + [op], op)
  {
    assert op in ops + [op] && forall o :: o in ops ==> o in ops + [op];
    assert (ops + [op])[..|ops|] == ops;
    if op.labels != [] {
      RunKeepsSeries(ops, op.name);
      KeyBelongs(op.name, op.labels);
      KeyBelongs(op.name, OVERFLOW);
      FoldIsHome(Run(ops), op.name, Requested(ops, op.name), LabelKey(op.name, op.labels), LabelKey(op.name, OVERFLOW));
    }
  }

  lemma {:induction false} JustRequested(before: seq<Op>, op: Op, now: seq<Op>)
    requires now == before + [op] && op.labels != []
    ensures LabelKey(op.name, op.labels) in Requested(now, op.name)
  {
    assert now[..|now| - 1] == before;
  }

  /** And it stays so: no later call moves the series of an earlier one. */
  lemma {:induction false} HomeIsFinal(ops: seq<Op>, n: nat)
    requires n < |ops|
    ensures Home(ops[..n + 1], ops[n]) == Home(ops, ops[n])
  {
    if ops[n].labels != [] {
      var k := LabelKey(ops[n].name, ops[n].labels);
      JustRequested(ops[..n], ops[n], ops[..n + 1]);
      RequestsOfPrefix(ops, n + 1, ops[n].name);
      FirstOnesOfPrefix(Requested(ops[..n + 1], ops[n].name), Requested(ops, ops[n].name), k);
    }
  }

  /** The values that the first `n` calls of a kind gave to `k`, in their order. */
  function Given(ops: seq<Op>, n: nat, kind: Kind, k: string): seq<real>
    requires n <= |ops|
  {
    if n == 0 then []
    else Given(ops, n - 1, kind, k)
         + if ops[n - 1].kind == kind && Home(ops, ops[n - 1]) == k then [ops[n - 1].value] else []
  }

  function Total(s: seq<real>): real {
    if s == [] then 0.0 else Total(s[..|s| - 1]) + s[|s| - 1]
  }

  /** The counter is the sum of what was added, the histogram the latest 1000 samples, the
      gauge the value set last; and a key is there exactly when it was given something. */
  ghost predicate Holds(s: State, k: string, added: seq<real>, observed: seq<real>, latest: seq<real>) {
    Sums(s.counters, k, added) && Keeps(s.histograms, k, observed) && Shows(s.gauges, k, latest)
  }

  ghost predicate Sums(counters: map<string, real>, k: string, added: seq<real>) {
    (k in counters <==> added != []) && Get(counters, k, 0.0) == Total(added)
  }

  /** The latest of all samples, 1000 of them if there are so many. */
  ghost predicate IsLatest(kept: seq<real>, all: seq<real>) {
    && |kept| == (if |all| > 1000 then 1000 else |all|)
    && forall i :: 0 <= i < |kept| ==> kept[i] == all[|all| - |kept| + i]
  }

  ghost predicate Keeps(histograms: map<string, seq<real>>, k: string, observed: seq<real>) {
    (k in histograms <==> observed != []) && IsLatest(Get(histograms, k, []), observed)
  }

  ghost predicate Shows(gauges: map<string, real>, k: string, latest: seq<real>) {
    (k in gauges <==> latest != []) && (latest != [] ==> k in gauges && gauges[k] == latest[|latest| - 1])
  }

  lemma TotalGrows(s: seq<real>, v: real)
    ensures Total(s + [v]) == Total(s) + v
  {
    assert (s + [v])[..|s|] == s;
  }

  lemma StoreSums(m: map<string, real>, used: string, v: real, k: string, added: seq<real>)
    requires Sums(m, k, added)
    ensures Sums(m[used := Get(m, used, 0.0) + v], k, added + if used == k then [v] else [])
  {
    TotalGrows(added, v);
    assert added + [] == added;
  }

  lemma LatestOfLatest(kept: seq<real>, all: seq<real>, v: real)
    requires IsLatest(kept, all)
    ensures IsLatest(Last(kept + [v], MAX_SAMPLES), all + [v])
  {
  }

  lemma StoreKeeps(m: map<string, seq<real>>, used: string, v: real, k: string, observed: seq<real>)
    requires Keeps(m, k, observed)
    ensures Keeps(m[used := Last(Get(m, used, []) + [v], MAX_SAMPLES)], k, observed + if used == k then [v] else [])
  {
    LatestOfLatest(Get(m, k, []), observed, v);
    assert observed + [] == observed;
  }

  lemma StoreShows(m: map<string, real>, used: string, v: real, k: string, latest: seq<real>)
    requires Shows(m, k, latest)
    ensures Shows(m[used := v], k, latest + if used == k then [v] else [])
  {
    assert latest + [] == latest;
  }

  /** One call adds its value to what its kind has given to the key it is stored under. */
  lemma StoreHolds(s: State, kind: Kind, used: string, v: real, k: string, added: seq<real>, observed: seq<real>,
                   latest: seq<real>)
    requires Holds(s, k, added, observed, latest)
    ensures var one := if used == k then [v] else [];
            match kind
            case Inc => Holds(Store(s, kind, used, v), k, added + one, observed, latest)
            case Observe => Holds(Store(s, kind, used, v), k, added, observed + one, latest)
            case SetGauge => Holds(Store(s, kind, used, v), k, added, observed, latest + one)
  {
    match kind
    case Inc => StoreSums(s.counters, used, v, k, added);
    case Observe => StoreKeeps(s.histograms, used, v, k, observed);
    case SetGauge => StoreShows(s.gauges, used, v, k, latest);
  }

  ghost predicate SameTables(s: State, t: State) {
    s.counters == t.counters && s.histograms == t.histograms && s.gauges == t.gauges
  }

  lemma NotedTables(s: State, name: string, k: string)
    ensures SameTables(Noted(s, name, k), s)
  {
  }

  lemma HoldsInTables(s: State, t: State, k: string, added: seq<real>, observed: seq<real>, latest: seq<real>)
    requires SameTables(s, t) && Holds(s, k, added, observed, latest)
    ensures Holds(t, k, added, observed, latest)
  {
  }

  lemma ApplyHolds(s: State, op: Op, used: string, k: string, added: seq<real>, observed: seq<real>, latest: seq<real>)
    requires Holds(s, k, added, observed, latest) && KeyFor(s, op.name, op.labels) == used
    ensures var one := if used == k then [op.value] else [];
            match op.kind
            case Inc => Holds(Apply(s, op), k, added + one, observed, latest)
            case Observe => Holds(Apply(s, op), k, added, observed + one, latest)
            case SetGauge => Holds(Apply(s, op), k, added, observed, latest + one)
  {
    var key := LabelKey(op.name, op.labels);
    NotedTables(s, op.name, key);
    var noted := if op.labels == [] then s else Noted(s, op.name, key);
    HoldsInTables(s, noted, k, added, observed, latest);
    StoreHolds(noted, op.kind, used, op.value, k, added, observed, latest);
  }

  lemma {:induction false} GivenGrows(ops: seq<Op>, n: nat, kind: Kind, k: string, used: string)
    requires n < |ops| && used == Home(ops, ops[n])
    ensures Given(ops, n + 1, kind, k)
            == if kind == ops[n].kind then Given(ops, n, kind, k) + if used == k then [ops[n].value] else []
               else Given(ops, n, kind, k)
  {
  }

  lemma {:induction false} RunStep(ops: seq<Op>, n: nat)
    requires BraceFree(ops) && n < |ops|
    ensures Run(ops[..n + 1]) == Apply(Run(ops[..n]), ops[n])
    ensures KeyFor(Run(ops[..n]), ops[n].name, ops[n].labels) == Home(ops, ops[n])
  {
    assert ops[..n + 1] == ops[..n] + [ops[n]] && ops[..n + 1][..n] == ops[..n];
    KeyForIsHome(ops[..n], ops[n]);
    HomeIsFinal(ops, n);
  }

  lemma {:induction false} PrefixHolds(ops: seq<Op>, n: nat, k: string)
    requires BraceFree(ops) && n <= |ops|
    ensures Holds(Run(ops[..n]), k, Given(ops, n, Inc, k), Given(ops, n, Observe, k), Given(ops, n, SetGauge, k))
  {
    if n > 0 {
      var m, used := n - 1, Home(ops, ops[n - 1]);
      PrefixHolds(ops, m, k);
      RunStep(ops, m);
      ApplyHolds(Run(ops[..m]), ops[m], used, k, Given(ops, m, Inc, k), Given(ops, m, Observe, k),
                 Given(ops, m, SetGauge, k));
      GivenGrows(ops, m, Inc, k, used);
      GivenGrows(ops, m, Observe, k, used);
      GivenGrows(ops, m, SetGauge, k, used);
    }
  }

  /** Over every run of brace-free names every key holds exactly what calls at home there
      gave it. */
  lemma {:induction false} EveryValueIsAtHome(ops: seq<Op>, k: string)
    requires BraceFree(ops)
    ensures Holds(Run(ops), k, Given(ops, |ops|, Inc, k), Given(ops, |ops|, Observe, k), Given(ops, |ops|, SetGauge, k))
  {
    assert ops[..|ops|] == ops;
    PrefixHolds(ops, |ops|, k);
  }

  /** The values of a kind recorded with exactly the name and labels that `k` spells. */
  function Under(ops: seq<Op>, kind: Kind, k: string): seq<real> {
    if ops == [] then []
    else
      var op := ops[|ops| - 1];
      Under(ops[..|ops| - 1], kind, k)
      + if op.kind == kind && LabelKey(op.name, op.labels) == k then [op.value] else []
  }

  /** Those recorded under a name with labels that are not among its first 500 keys, or that
      are those of the overflow bucket. */
  function Beyond(ops: seq<Op>, kind: Kind, name: string, first: seq<string>): seq<real> {
    if ops == [] then []
    else
      var op := ops[|ops| - 1];
      var k := LabelKey(name, op.labels);
      Beyond(ops[..|ops| - 1], kind, name, first)
      + if op.kind == kind && op.name == name && op.labels != [] && (k !in first || k == LabelKey(name, OVERFLOW))
        then [op.value] else []
  }

  ghost predicate OwnKey(name: string, k: string, first: seq<string>) {
    k == name || (IsSeriesOf(name, k) && k in first && k != LabelKey(name, OVERFLOW))
  }

  lemma {:induction false} OwnHome(ops: seq<Op>, op: Op, name: string, k: string)
    requires BraceFree(ops) && op in ops && '{' !in name && OwnKey(name, k, FirstOnes(Requested(ops, name)))
    ensures Home(ops, op) == k <==> LabelKey(op.name, op.labels) == k
  {
    KeyBelongs(op.name, op.labels);
    KeyBelongs(op.name, OVERFLOW);
    SeriesHaveBraces(name, op.name);
    OwnersOfName(op.name, name, LabelKey(op.name, op.labels));
    OwnersOfName(op.name, name, LabelKey(op.name, OVERFLOW));
  }

  lemma {:induction false} OwnIsUnder(ops: seq<Op>, n: nat, kind: Kind, name: string, k: string)
    requires n <= |ops| && BraceFree(ops) && '{' !in name && OwnKey(name, k, FirstOnes(Requested(ops, name)))
    ensures Given(ops, n, kind, k) == Under(ops[..n], kind, k)
  {
    if n > 0 {
      OwnIsUnder(ops, n - 1, kind, name, k);
      OwnHome(ops, ops[n - 1], name, k);
      assert ops[..n][..n - 1] == ops[..n - 1];
    }
  }

  /** A series among the first 500 of its name goes on receiving all that is recorded with
      its labels, and nothing else; so does the plain key of the name. */
  lemma {:induction false} SeriesKeepTheirOwn(ops: seq<Op>, name: string, k: string)
    requires BraceFree(ops) && '{' !in name && OwnKey(name, k, FirstOnes(Requested(ops, name)))
    ensures Holds(Run(ops), k, Under(ops, Inc, k), Under(ops, Observe, k), Under(ops, SetGauge, k))
  {
    assert ops[..|ops|] == ops;
    EveryValueIsAtHome(ops, k);
    OwnIsUnder(ops, |ops|, Inc, name, k);
    OwnIsUnder(ops, |ops|, Observe, name, k);
    OwnIsUnder(ops, |ops|, SetGauge, name, k);
  }

  lemma {:induction false} OverflowHome(ops: seq<Op>, op: Op, name: string)
    requires BraceFree(ops) && op in ops && '{' !in name
    ensures Home(ops, op) == LabelKey(name, OVERFLOW) <==>
              op.name == name && op.labels != [] &&
              (LabelKey(name, op.labels) !in FirstOnes(Requested(ops, name))
               || LabelKey(name, op.labels) == LabelKey(name, OVERFLOW))
  {
    KeyBelongs(op.name, op.labels);
    KeyBelongs(op.name, OVERFLOW);
    KeyBelongs(name, OVERFLOW);
    SeriesHaveBraces(name, op.name);
    OwnersOfName(op.name, name, Home(ops, op));
  }

  lemma {:induction false} OverflowIsBeyond(ops: seq<Op>, n: nat, kind: Kind, name: string)
    requires n <= |ops| && BraceFree(ops) && '{' !in name
    ensures Given(ops, n, kind, LabelKey(name, OVERFLOW))
            == Beyond(ops[..n], kind, name, FirstOnes(Requested(ops, name)))
  {
    if n > 0 {
      OverflowIsBeyond(ops, n - 1, kind, name);
      OverflowHome(ops, ops[n - 1], name);
      assert ops[..n][..n - 1] == ops[..n - 1];
    }
  }

  /** And the overflow bucket receives all the rest. */
  lemma {:induction false} OverflowTakesTheRest(ops: seq<Op>, name: string)
    requires BraceFree(ops) && '{' !in name
    ensures var first := FirstOnes(Requested(ops, name));
            Holds(Run(ops), LabelKey(name, OVERFLOW), Beyond(ops, Inc, name, first), Beyond(ops, Observe, name, first),
                  Beyond(ops, SetGauge, name, first))
  {
    assert ops[..|ops|] == ops;
    EveryValueIsAtHome(ops, LabelKey(name, OVERFLOW));
    OverflowIsBeyond(ops, |ops|, Inc, name);
    OverflowIsBeyond(ops, |ops|, Observe, name);
    OverflowIsBeyond(ops, |ops|, SetGauge, name);
  }

  /** How many of the first `n` calls under a name were stored under another key than theirs. */
  function Folded(ops: seq<Op>, n: nat, name: string): nat
    requires n <= |ops|
  {
    if n == 0 then 0
    else Folded(ops, n - 1, name)
         + if ops[n - 1].name == name && Home(ops, ops[n - 1]) != LabelKey(name, ops[n - 1].labels) then 1 else 0
  }

  lemma NotedDrops(s: State, owner: string, k: string, name: string, overflow: string)
    requires k != overflow
    ensures Get(Noted(s, owner, k).dropped, name, 0)
            == Get(s.dropped, name, 0) + if owner == name && Fold(s, owner, k, overflow) != k then 1 else 0
  {
  }

  lemma StoreDropsNothing(s: State, kind: Kind, k: string, value: real)
    ensures Store(s, kind, k, value).dropped == s.dropped
  {
  }

  lemma DropsWhenFolding(s: State, op: Op, name: string)
    requires op.labels != [] && op.name == name ==> LabelKey(name, op.labels) != LabelKey(name, OVERFLOW)
    ensures Get(Apply(s, op).dropped, name, 0) == Get(s.dropped, name, 0)
              + if op.name == name && KeyFor(s, name, op.labels) != LabelKey(name, op.labels) then 1 else 0
  {
    var k, overflow := LabelKey(op.name, op.labels), LabelKey(op.name, OVERFLOW);
    StoreDropsNothing(if op.labels == [] then s else Noted(s, op.name, k), op.kind, KeyFor(s, op.name, op.labels),
                      op.value);
    if op.labels != [] && op.name == name {
      NotedDrops(s, op.name, k, name, overflow);
    }
  }

  /** The drop count of a name is the number of its calls that were folded, as long as nobody
      uses the label of the overflow bucket. */
  lemma {:induction false} DropsAreCounted(ops: seq<Op>, n: nat, name: string)
    requires BraceFree(ops) && n <= |ops|
    requires forall op :: op in ops && op.name == name && op.labels != [] ==>
               LabelKey(name, op.labels) != LabelKey(name, OVERFLOW)
    ensures Get(Run(ops[..n]).dropped, name, 0) == Folded(ops, n, name)
  {
    if n > 0 {
      DropsAreCounted(ops, n - 1, name);
      RunStep(ops, n - 1);
      assert ops[n - 1] in ops;
      DropsWhenFolding(Run(ops[..n - 1]), ops[n - 1], name);
    }
  }

  // ---------- Conservation ----------

  ghost function Sum(m: map<string, real>, ks: set<string>): real
    requires ks <= m.Keys
  {
    if ks == {} then 0.0
    else
      var k :| k in ks;
      m[k] + Sum(m, ks - {k})
  }

  lemma {:induction false} SumTakesOut(m: map<string, real>, ks: set<string>, k: string)
    requires ks <= m.Keys && k in ks
    ensures Sum(m, ks) == m[k] + Sum(m, ks - {k})
  {
    var c :| c in ks && Sum(m, ks) == m[c] + Sum(m, ks - {c});
    if c != k {
      SumTakesOut(m, ks - {c}, k);
      SumTakesOut(m, ks - {k}, c);
      assert ks - {c} - {k} == ks - {k} - {c};
    }
  }

  lemma {:induction false} SumIgnoresOthers(m: map<string, real>, m': map<string, real>, ks: set<string>)
    requires ks <= m.Keys && ks <= m'.Keys && forall k :: k in ks ==> m[k] == m'[k]
    ensures Sum(m, ks) == Sum(m', ks)
  {
    if ks != {} {
      var c :| c in ks && Sum(m, ks) == m[c] + Sum(m, ks - {c});
      SumIgnoresOthers(m, m', ks - {c});
      SumTakesOut(m', ks, c);
    }
  }

  /** The counters of a name: its plain key, its own series and its overflow bucket. */
  ghost function CounterTotal(s: State, name: string): real {
    Sum(s.counters, set k | k in s.counters && BelongsTo(name, k))
  }

  function Added(ops: seq<Op>, name: string): real {
    if ops == [] then 0.0
    else
      var op := ops[|ops| - 1];
      Added(ops[..|ops| - 1], name) + if op.kind == Inc && op.name == name then op.value else 0.0
  }

  lemma SumAfterAdding(m: map<string, real>, m': map<string, real>, ks: set<string>, k: string, v: real)
    requires ks <= m.Keys && (k in m ==> k in ks) && m' == m[k := Get(m, k, 0.0) + v]
    ensures Sum(m', ks + {k}) == Sum(m, ks) + v
  {
    SumTakesOut(m', ks + {k}, k);
    if k in m {
      SumTakesOut(m, ks, k);
    }
    assert ks + {k} - {k} == ks - {k};
    SumIgnoresOthers(m, m', ks - {k});
    assert k !in ks ==> ks - {k} == ks;
  }

  /** What increments under other names add to the counters of `name`: those whose own name
      reads like one of its series. */
  function Leaked(ops: seq<Op>, name: string): real {
    if ops == [] then 0.0
    else
      var op := ops[|ops| - 1];
      Leaked(ops[..|ops| - 1], name) + if op.kind == Inc && IsSeriesOf(name, op.name) then op.value else 0.0
  }

  lemma StoreConserves(s: State, kind: Kind, k: string, value: real, owner: string, name: string)
    requires '{' !in name && BelongsTo(owner, k)
    ensures CounterTotal(Store(s, kind, k, value), name)
            == CounterTotal(s, name) + if kind == Inc && (owner == name || IsSeriesOf(name, owner)) then value else 0.0
  {
    var s' := Store(s, kind, k, value);
    var ks := set x | x in s.counters && BelongsTo(name, x);
    var ks' := set x | x in s'.counters && BelongsTo(name, x);
    OwnersOfName(owner, name, k);
    if kind == Inc {
      if BelongsTo(name, k) {
        assert ks' == ks + {k};
        SumAfterAdding(s.counters, s'.counters, ks, k, value);
      } else {
        assert ks' == ks;
        SumIgnoresOthers(s.counters, s'.counters, ks);
      }
    }
  }

  lemma ApplyConserves(s: State, op: Op, name: string)
    requires '{' !in name
    ensures CounterTotal(Apply(s, op), name) == CounterTotal(s, name)
              + if op.kind == Inc && (op.name == name || IsSeriesOf(name, op.name)) then op.value else 0.0
  {
    KeyBelongs(op.name, op.labels);
    KeyBelongs(op.name, OVERFLOW);
    var noted := if op.labels == [] then s else Noted(s, op.name, LabelKey(op.name, op.labels));
    assert noted.counters == s.counters;
    StoreConserves(noted, op.kind, KeyFor(s, op.name, op.labels), op.value, op.name, name);
  }

  /** Over every run, whatever names it uses: the counters of a name sum to its own
      increments and what leaks in from names that read like its series. Folding into the
      overflow bucket loses nothing. */
  lemma {:induction false} CountersBalance(ops: seq<Op>, name: string)
    requires '{' !in name
    ensures CounterTotal(Run(ops), name) == Added(ops, name) + Leaked(ops, name)
    ensures CounterTotal(Run(ops), name) == Added(ops, name) <==> Leaked(ops, name) == 0.0
  {
    if ops == [] {
      assert (set k | k in EMPTY.counters && BelongsTo(name, k)) == {};
    } else {
      var op := ops[|ops| - 1];
      CountersBalance(ops[..|ops| - 1], name);
      ApplyConserves(Run(ops[..|ops| - 1]), op, name);
      assert op.name == name ==> !IsSeriesOf(name, op.name);
    }
  }

  lemma {:induction false} BraceFreeNeverLeaks(ops: seq<Op>, name: string)
    requires BraceFree(ops)
    ensures Leaked(ops, name) == 0.0
  {
    if ops != [] {
      BraceFreeNeverLeaks(ops[..|ops| - 1], name);
      var op := ops[|ops| - 1];
      assert op in ops;
      SeriesHaveBraces(name, op.name);
    }
  }

  /** So with brace-free names the counters of a name always sum to the total of its
      increments. */
  lemma CountersConserve(ops: seq<Op>, name: string)
    requires BraceFree(ops) && '{' !in name
    ensures CounterTotal(Run(ops), name) == Added(ops, name)
  {
    CountersBalance(ops, name);
    BraceFreeNeverLeaks(ops, name);
  }

  /** A name that spells out a labelled key feeds that key's counter. */
  lemma BracesInNamesLeak()
    ensures var ops := [Op(Inc, "a{b=\"c\"}", [], 1.0), Op(Inc, "a", [Label("b", "c")], 1.0)];
            Added(ops, "a") == 1.0 && "a{b=\"c\"}" in Run(ops).counters && Run(ops).counters["a{b=\"c\"}"] == 2.0
            && Get(Run(ops).series, "a", 0) == 0
  {
    var first, second := Op(Inc, "a{b=\"c\"}", [], 1.0), Op(Inc, "a", [Label("b", "c")], 1.0);
    assert Sorted([Label("b", "c")]) == [Label("b", "c")];
    assert Render([Label("b", "c")]) == "b=\"c\"";
    assert LabelKey("a", [Label("b", "c")]) == "a{b=\"c\"}";
    assert Run([]) == EMPTY && Added([], "a") == 0.0;
    assert [first][..0] == [] && Run([first]) == Apply(EMPTY, first) && Added([first], "a") == 0.0;
    assert [first, second][..1] == [first];
  }

  // ---------- Bounded histograms ----------

  /** Every sample ever routed to a key. */
  function Samples(ops: seq<Op>, k: string): seq<real> {
    if ops == [] then []
    else
      var before, op := ops[..|ops| - 1], ops[|ops| - 1];
      Samples(before, k)
      + if op.kind == Observe && KeyFor(Run(before), op.name, op.labels) == k then [op.value] else []
  }

  lemma {:induction false} HistogramStep(s: State, op: Op, k: string)
    ensures Get(Apply(s, op).histograms, k, [])
            == if op.kind == Observe && KeyFor(s, op.name, op.labels) == k
               then Last(Get(s.histograms, k, []) + [op.value], MAX_SAMPLES) else Get(s.histograms, k, [])
  {
  }

  /** A histogram is exactly the last 1000 samples routed to its key, whatever the names. */
  lemma {:induction false} HistogramIsRecent(ops: seq<Op>, k: string)
    ensures IsLatest(Get(Run(ops).histograms, k, []), Samples(ops, k))
  {
    if ops != [] {
      var before, op := ops[..|ops| - 1], ops[|ops| - 1];
      HistogramIsRecent(before, k);
      HistogramStep(Run(before), op, k);
      LatestOfLatest(Get(Run(before).histograms, k, []), Samples(before, k), op.value);
      assert Samples(before, k) + [] == Samples(before, k);
    }
  }
}

/** The counters of wasmplugin/metrics.go and the host's metric registry behind them. */
module Metrics {
  import opened Prelude
  import opened MetricNames
  import opened HttpStream

  // ---- the registry as a value: names in the order they were defined, and their counts ----

  datatype Store = Store(names: seq<string>, values: seq<nat>)

  ghost predicate WellFormed(st: Store) {
    && |st.names| == |st.values|
    && forall i, j :: 0 <= i < j < |st.names| ==> st.names[i] != st.names[j]
  }

  function IndexOf(names: seq<string>, name: string): (i: nat)
    ensures i <= |names|
    ensures i < |names| ==> names[i] == name
    ensures i == |names| ==> name !in names
  {
    if names == [] then 0
    else if names[0] == name then 0
    else 1 + IndexOf(names[1..], name)
  }

  function Count(st: Store, name: string): nat
    requires |st.names| == |st.values|
  {
    var i := IndexOf(st.names, name);
    if i < |st.names| then st.values[i] else 0
  }

  /** One increment; the first one of a name defines it. */
  function Bump(st: Store, name: string): (r: Store)
    requires |st.names| == |st.values|
    ensures |r.names| == |r.values|
  {
    var i := IndexOf(st.names, name);
    if i < |st.names| then st.(values := st.values[i := st.values[i] + 1])
    else Store(st.names + [name], st.values + [1])
  }

  lemma IndexIsUnique(st: Store, name: string, i: nat)
    requires WellFormed(st) && i < |st.names| && st.names[i] == name
    ensures IndexOf(st.names, name) == i
  {}

  /** An increment counts one for its own name, none for any other, and defines no name twice. */
  lemma BumpCounts(st: Store, name: string, other: string)
    requires WellFormed(st)
    ensures WellFormed(Bump(st, name))
    ensures Count(Bump(st, name), other) == Count(st, other) + if other == name then 1 else 0
  {
    var r := Bump(st, name);
    assert WellFormed(r);
    var i := IndexOf(st.names, other);
    if i < |st.names| {
      assert r.names[i] == other;
      IndexIsUnique(r, other, i);
    } else if other == name {
      IndexIsUnique(r, other, |st.names|);
    }
  }

  function BumpAll(st: Store, names: seq<string>): (r: Store)
    requires |st.names| == |st.values|
    ensures |r.names| == |r.values|
  {
    if names == [] then st else Bump(BumpAll(st, names[..|names| - 1]), names[|names| - 1])
  }

  lemma {:induction false} BumpAllCounts(st: Store, names: seq<string>, other: string)
    requires WellFormed(st)
    ensures WellFormed(BumpAll(st, names))
    ensures Count(BumpAll(st, names), other) == Count(st, other) + multiset(names)[other]
  {
    if names != [] {
      var front, last := names[..|names| - 1], names[|names| - 1];
      assert names == front + [last];
      BumpAllCounts(st, front, other);
      BumpCounts(BumpAll(st, front), last, other);
    }
  }

  // ---- the names of the increments a stream makes ----

  /** `interruptionPhase.String` */
  function PhaseName(p: Phase): string {
    match p
    case RequestHeadersPhase => "http_request_headers"
    case RequestBodyPhase => "http_request_body"
    case ResponseHeadersPhase => "http_response_headers"
    case ResponseBodyPhase => "http_response_body"
    case NoPhase => "no interruption yet"
  }

  /** The key/value list a stream passes: the configured pairs, then the authority's own pair. */
  function LabelList(l: Labels): seq<string> {
    if l.authority.None? then l.configured else l.configured + ["authority", l.authority.value]
  }

  function NameOf(m: Metered): string {
    match m
    case TransactionCounted => TOTAL
    case InterruptionCounted(phase, ruleID, labels) => InterruptionName(PhaseName(phase), ruleID, LabelList(labels))
  }

  /** The counters as they are written, for one label pair; further pairs follow in the same way (SuffixAppends). */
  lemma WrittenNames(p: Phase, r: int, key: string, value: string, l: Labels)
    ensures NameOf(TransactionCounted) == "waf_filter.tx.total"
    ensures PhaseName(RequestHeadersPhase) == "http_request_headers" && PhaseName(RequestBodyPhase) == "http_request_body"
    ensures PhaseName(ResponseHeadersPhase) == "http_response_headers" && PhaseName(ResponseBodyPhase) == "http_response_body"
    ensures InterruptionName(PhaseName(p), r, [key, value])
         == "waf_filter.tx.interruptions_ruleid=" + Decimal(r) + "_phase=" + PhaseName(p) + ("_" + key + "=" + value)
    ensures LabelList(l) == if l.authority.Some? then l.configured + ["authority", l.authority.value] else l.configured
  {
    assert [key, value][2..] == [];
    assert LabelPair(key, value) + "" == LabelPair(key, value) == "_" + key + "=" + value;
    assert LabelSuffix([key, value]) == LabelPair(key, value);
  }

  // ---- which increments share a counter ----

  /** How the text after `_phase=` begins tells the phase. */
  function PhaseOf(s: string): Phase {
    if |s| < 15 || s[0] == 'n' then NoPhase
    else if s[7] == 'q' then (if s[13] == 'h' then RequestHeadersPhase else RequestBodyPhase)
    else if s[14] == 'h' then ResponseHeadersPhase
    else ResponseBodyPhase
  }

  lemma PhaseReadBack(p: Phase, suffix: string)
    ensures PhaseOf(PhaseName(p) + suffix) == p
  {
    var s := PhaseName(p) + suffix;
    assert s[..|PhaseName(p)|] == PhaseName(p);
    match p
    case NoPhase => assert s[0] == 'n';
    case RequestHeadersPhase => assert s[0] == 'h' && s[7] == 'q' && s[13] == 'h';
    case RequestBodyPhase => assert s[0] == 'h' && s[7] == 'q' && s[13] == 'b';
    case ResponseHeadersPhase => assert s[0] == 'h' && s[7] == 's' && s[14] == 'h';
    case ResponseBodyPhase => assert s[0] == 'h' && s[7] == 's' && s[14] == 'b';
  }

  /** For any two label lists: one counter exactly for the same rule, the same phase and the same written labels. */
  lemma SameCounterIff(p: Phase, r: int, a: seq<string>, p': Phase, r': int, b: seq<string>)
    ensures InterruptionName(PhaseName(p), r, a) == InterruptionName(PhaseName(p'), r', b) <==>
              p == p' && r == r' && LabelSuffix(a) == LabelSuffix(b)
  {
    if InterruptionName(PhaseName(p), r, a) == InterruptionName(PhaseName(p'), r', b) {
      SameName(PhaseName(p), r, a, PhaseName(p'), r', b);
      PhaseReadBack(p, LabelSuffix(a));
      PhaseReadBack(p', LabelSuffix(b));
      CancelPrefix(PhaseName(p), LabelSuffix(a), LabelSuffix(b));
    }
  }

  lemma ListSuffix(l: Labels)
    requires |l.configured| % 2 == 0
    ensures LabelSuffix(LabelList(l)) ==
              LabelSuffix(l.configured) + if l.authority.None? then "" else LabelPair("authority", l.authority.value)
  {
    if l.authority.Some? {
      SuffixAppends(l.configured, "authority", l.authority.value);
    } else {
      assert LabelSuffix(l.configured) + "" == LabelSuffix(l.configured);
    }
  }

  lemma SameAuthority(a: Option<string>, b: Option<string>)
    requires (if a.None? then "" else LabelPair("authority", a.value)) == (if b.None? then "" else LabelPair("authority", b.value))
    ensures a == b
  {
    if a.Some? && b.Some? {
      assert LabelPair("authority", a.value) == "_authority=" + a.value;
      assert LabelPair("authority", b.value) == "_authority=" + b.value;
      CancelPrefix("_authority=", a.value, b.value);
    }
  }

  /**
   In one plugin, whose streams all start from the same configured pairs, two interruptions share a
   counter exactly if they agree in rule, in phase and in the authority whose own engine was used.
   */
  lemma SameCounterOfPlugin(configured: seq<string>, p: Phase, r: int, a: Option<string>, p': Phase, r': int, b: Option<string>)
    requires |configured| % 2 == 0
    ensures InterruptionName(PhaseName(p), r, LabelList(Labels(configured, a)))
              == InterruptionName(PhaseName(p'), r', LabelList(Labels(configured, b)))
            <==> p == p' && r == r' && a == b
  {
    SameCounterIff(p, r, LabelList(Labels(configured, a)), p', r', LabelList(Labels(configured, b)));
    if LabelSuffix(LabelList(Labels(configured, a))) == LabelSuffix(LabelList(Labels(configured, b))) {
      ListSuffix(Labels(configured, a));
      ListSuffix(Labels(configured, b));
      CancelPrefix(LabelSuffix(configured), if a.None? then "" else LabelPair("authority", a.value),
                   if b.None? then "" else LabelPair("authority", b.value));
      SameAuthority(a, b);
    }
  }

  // ---- lists of increments ----

  function Each<T, U>(f: T -> U, s: seq<T>): (r: seq<U>)
    ensures |r| == |s| && forall i :: 0 <= i < |s| ==> r[i] == f(s[i])
  {
    seq(|s|, i requires 0 <= i < |s| => f(s[i]))
  }

  lemma EachJoins<T, U>(f: T -> U, a: seq<T>, b: seq<T>)
    ensures Each(f, a + b) == Each(f, a) + Each(f, b)
  {}

  function NamesOf(ms: seq<Metered>): (r: seq<string>)
    ensures |r| == |ms|
  {
    Each(NameOf, ms)
  }

  lemma NamesJoin(a: seq<Metered>, b: seq<Metered>)
    ensures NamesOf(a + b) == NamesOf(a) + NamesOf(b)
  {
    EachJoins(NameOf, a, b);
  }

  // ---- the objects ----

  /** The host's registry: a counter is defined once and then incremented through its number. */
  class MetricHost {
    var names: seq<string>
    var values: seq<nat>

    constructor ()
      ensures names == [] && values == []
    {
      names, values := [], [];
    }

    method DefineCounterMetric(name: string) returns (id: nat)
      modifies this
      ensures id == |old(names)| && names == old(names) + [name] && values == old(values) + [0]
    {
      id := |names|;
      names, values := names + [name], values + [0];
    }

    method Increment(id: nat, offset: nat)
      requires id < |values|
      modifies this`values
      ensures values == old(values)[id := old(values)[id] + offset]
    {
      values := values[id := values[id] + offset];
    }
  }

  /** The cache holds exactly the counters that were defined, each with its number. */
  ghost predicate Caches(counters: map<string, nat>, names: seq<string>) {
    && (forall n :: n in counters ==> counters[n] < |names| && names[counters[n]] == n)
    && (forall i :: 0 <= i < |names| ==> names[i] in counters)
  }

  lemma CachedCounter(counters: map<string, nat>, st: Store, name: string)
    requires WellFormed(st) && Caches(counters, st.names) && name in counters
    ensures counters[name] < |st.values|
    ensures Bump(st, name) == st.(values := st.values[counters[name] := st.values[counters[name]] + 1])
  {
    IndexIsUnique(st, name, counters[name]);
  }

  lemma NewCounter(counters: map<string, nat>, st: Store, name: string)
    requires WellFormed(st) && Caches(counters, st.names) && name !in counters
    ensures Bump(st, name) == Store(st.names + [name], st.values + [1])
    ensures Caches(counters[name := |st.names|], st.names + [name])
  {
    assert name !in st.names;
  }

  class WafMetrics {
    var counters: map<string, nat>
    const host: MetricHost

    ghost function Value(): Store
      reads this, host
    {
      Store(host.names, host.values)
    }

    ghost predicate Valid()
      reads this, host
    {
      WellFormed(Value()) && Caches(counters, host.names)
    }

    constructor (host: MetricHost)
      requires host.names == [] && host.values == []
      ensures Valid() && this.host == host && Value() == Store([], [])
    {
      counters := map[];
      this.host := host;
    }

    method IncrementCounter(fqn: string)
      requires Valid()
      modifies this, host
      ensures Valid() && Value() == Bump(old(Value()), fqn)
    {
      assert |host.names| == |host.values|;
      hide WellFormed, Caches, Bump;
      BumpCounts(Value(), fqn, fqn);
      var counter: nat;
      if fqn in counters {
        CachedCounter(counters, Value(), fqn);
        counter := counters[fqn];
      } else {
        NewCounter(counters, Value(), fqn);
        counter := host.DefineCounterMetric(fqn);
        counters := counters[fqn := counter];
        assert host.values[counter := 1] == old(host.values) + [1];
      }
      host.Increment(counter, 1);
    }

    method CountTX()
      requires Valid()
      modifies this, host
      ensures Valid() && Value() == Bump(old(Value()), TOTAL)
    {
      IncrementCounter(TOTAL);
    }

    /** The label list must hold whole pairs, or the loop would run past its end. */
    static method AppendLabels(head: string, metricLabelsKV: seq<string>) returns (fqn: string)
      requires |metricLabelsKV| % 2 == 0
      ensures fqn == head + LabelSuffix(metricLabelsKV)
    {
      fqn := head;
      var i := 0;
      assert metricLabelsKV[0..] == metricLabelsKV;
      while i < |metricLabelsKV|
        invariant 0 <= i <= |metricLabelsKV| && i % 2 == 0
        invariant fqn + LabelSuffix(metricLabelsKV[i..]) == head + LabelSuffix(metricLabelsKV)
      {
        NextPair(metricLabelsKV, i, fqn);
        fqn := fqn + LabelPair(metricLabelsKV[i], metricLabelsKV[i + 1]);
        i := i + 2;
      }
      assert fqn + "" == fqn;
    }

    method CountTXInterruption(phase: string, ruleID: int, metricLabelsKV: seq<string>)
      requires Valid() && |metricLabelsKV| % 2 == 0
      modifies this, host
      ensures Valid() && Value() == Bump(old(Value()), InterruptionName(phase, ruleID, metricLabelsKV))
    {
      var fqn := AppendLabels(INTERRUPTIONS + Decimal(ruleID) + PHASE + phase, metricLabelsKV);
      IncrementCounter(fqn);
    }
  }
}

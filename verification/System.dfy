/**
 The plugin as a whole: any number of streams, opened at any time and interleaved in any order, that
 share the counters and copy the routing table, while ticks and answers run the reload protocol.
 */
module System {
  import opened Prelude
  import opened Wafs
  import opened MetricNames
  import opened Metrics
  import opened HttpStream
  import opened HttpRuns
  import opened HttpGuarantees
  import opened HttpHeaders
  import R = Reload

  /** `control` is the part that reloading works on, the routing table among it. */
  datatype Plugin = Plugin(control: R.PluginState, policy: FailurePolicy, labels: seq<string>, streams: seq<Stream>, store: Store)

  datatype Happening =
    | Open                           // NewHttpContext
    | Deliver(i: nat, ev: Event)     // a callback of stream i
    | Control(input: R.Input)        // a tick, or an answer of the rule-set server

  function Begin(control: R.PluginState, policy: FailurePolicy, labels: seq<string>): Plugin {
    Plugin(control, policy, labels, [], Store([], []))
  }

  /** What a stream adds to the counters in one event. */
  function Added(s: Stream, r: Stream): seq<Metered> {
    if |s.metered| <= |r.metered| then r.metered[|s.metered|..] else []
  }

  function Happen(p: Plugin, h: Happening, compiles: Waf -> bool): (r: Plugin)
    requires |p.store.names| == |p.store.values|
    ensures |r.store.names| == |r.store.values|
  {
    match h
    case Open => p.(streams := p.streams + [NewStream(p.control.table, p.policy, p.labels)])
    case Deliver(i, ev) =>
      if i >= |p.streams| then p
      else
        var r := Step(p.streams[i], ev);
        p.(streams := p.streams[i := r], store := BumpAll(p.store, NamesOf(Added(p.streams[i], r))))
    case Control(input) => p.(control := R.Handle(p.control, input, compiles))
  }

  function History(p: Plugin, hs: seq<Happening>, compiles: Waf -> bool): (r: Plugin)
    requires |p.store.names| == |p.store.values|
    ensures |r.store.names| == |r.store.values|
  {
    if hs == [] then p else Happen(History(p, hs[..|hs| - 1], compiles), hs[|hs| - 1], compiles)
  }

  // ---- sums over streams ----

  function Sum(streams: seq<Stream>, f: Stream -> nat): nat {
    if streams == [] then 0 else Sum(streams[..|streams| - 1], f) + f(streams[|streams| - 1])
  }

  lemma {:induction false} SumUpdate(streams: seq<Stream>, i: nat, r: Stream, f: Stream -> nat)
    requires i < |streams|
    ensures Sum(streams[i := r], f) + f(streams[i]) == Sum(streams, f) + f(r)
  {
    var n := |streams| - 1;
    if i == n {
      assert streams[i := r][..n] == streams[..n];
    } else {
      assert streams[i := r][..n] == streams[..n][i := r];
      SumUpdate(streams[..n], i, r, f);
    }
  }

  lemma SumAppend(streams: seq<Stream>, r: Stream, f: Stream -> nat)
    ensures Sum(streams + [r], f) == Sum(streams, f) + f(r)
  {
    assert (streams + [r])[..|streams|] == streams;
  }

  /** How often a stream has incremented a counter. */
  function Occurrences(name: string): Stream -> nat {
    (s: Stream) => multiset(NamesOf(s.metered))[name]
  }

  // ---- conservation ----

  ghost predicate PluginInv(p: Plugin) {
    && WellFormed(p.store)
    && (forall i :: 0 <= i < |p.streams| ==> Reachable(p.streams[i]))
    && (forall name :: Count(p.store, name) == Sum(p.streams, Occurrences(name)))
  }

  /** A stream's list of increments only grows. */
  lemma MeteredGrows(s: Stream, ev: Event)
    requires Reachable(s)
    ensures var r := Step(s, ev); r.metered == s.metered + Added(s, r)
  {
    assert !Enabled(s, ev) ==> Step(s, ev) == s;
    hide Step, StreamInv;
    StepReachable(s, ev);
    MeteredExactly(s);
    MeteredExactly(Step(s, ev));
    ReachableKeeps(s);
    if Enabled(s, ev) {
      SeenStays(s, ev);
      StepEvolves(s, ev);
    }
  }

  lemma HappenKeeps(p: Plugin, h: Happening, compiles: Waf -> bool)
    requires PluginInv(p)
    ensures PluginInv(Happen(p, h, compiles))
  {
    match h
    case Open =>
      var s := NewStream(p.control.table, p.policy, p.labels);
      assert s == Run(s, []);
      forall name ensures Count(p.store, name) == Sum(p.streams + [s], Occurrences(name)) {
        SumAppend(p.streams, s, Occurrences(name));
      }
    case Deliver(i, ev) =>
      if i < |p.streams| {
        DeliverKeeps(p, i, ev, compiles);
      }
    case Control(_) =>
  }

  /** The counters follow a stream that has made more increments. */
  lemma CountFollows(st: Store, streams: seq<Stream>, i: nat, r: Stream, added: seq<Metered>, name: string)
    requires WellFormed(st) && i < |streams| && r.metered == streams[i].metered + added
    requires Count(st, name) == Sum(streams, Occurrences(name))
    ensures Count(BumpAll(st, NamesOf(added)), name) == Sum(streams[i := r], Occurrences(name))
  {
    hide Count, BumpAll, Sum, NamesOf, WellFormed;
    BumpAllCounts(st, NamesOf(added), name);
    SumUpdate(streams, i, r, Occurrences(name));
    NamesJoin(streams[i].metered, added);
  }

  lemma DeliverKeeps(p: Plugin, i: nat, ev: Event, compiles: Waf -> bool)
    requires PluginInv(p) && i < |p.streams|
    ensures PluginInv(Happen(p, Deliver(i, ev), compiles))
  {
    assert |p.store.names| == |p.store.values|;
    hide Step, Count, BumpAll, Sum, NamesOf, WellFormed, Occurrences, Added, Reachable;
    var s := p.streams[i];
    var r := Step(s, ev);
    StepReachable(s, ev);
    MeteredGrows(s, ev);
    var names := NamesOf(Added(s, r));
    BumpAllCounts(p.store, names, "");
    forall name ensures Count(BumpAll(p.store, names), name) == Sum(p.streams[i := r], Occurrences(name)) {
      CountFollows(p.store, p.streams, i, r, Added(s, r), name);
    }
  }

  lemma {:induction false} HistoryKeeps(control: R.PluginState, policy: FailurePolicy, labels: seq<string>, hs: seq<Happening>, compiles: Waf -> bool)
    ensures PluginInv(History(Begin(control, policy, labels), hs, compiles))
  {
    if hs == [] {
      assert PluginInv(Begin(control, policy, labels));
    } else {
      HistoryKeeps(control, policy, labels, hs[..|hs| - 1], compiles);
      HappenKeeps(History(Begin(control, policy, labels), hs[..|hs| - 1], compiles), hs[|hs| - 1], compiles);
    }
  }

  lemma {:induction false} SumCongruence(streams: seq<Stream>, f: Stream -> nat, g: Stream -> nat)
    requires forall i :: 0 <= i < |streams| ==> f(streams[i]) == g(streams[i])
    ensures Sum(streams, f) == Sum(streams, g)
  {
    if streams != [] {
      SumCongruence(streams[..|streams| - 1], f, g);
    }
  }

  lemma {:induction false} SumOfSums(streams: seq<Stream>, f: Stream -> nat, g: Stream -> nat, h: Stream -> nat)
    requires forall i :: 0 <= i < |streams| ==> f(streams[i]) == g(streams[i]) + h(streams[i])
    ensures Sum(streams, f) == Sum(streams, g) + Sum(streams, h)
  {
    if streams != [] {
      SumOfSums(streams[..|streams| - 1], f, g, h);
    }
  }

  function Seen(): Stream -> nat {
    (s: Stream) => if s.host.requestHeadersSeen then 1 else 0
  }

  function Interrupted(): Stream -> nat {
    (s: Stream) => if s.interruptedAt != NoPhase then 1 else 0
  }

  function Increments(): Stream -> nat {
    (s: Stream) => |s.metered|
  }

  /** The total counter is the number of streams whose request headers arrived, however they interleave. */
  lemma TotalCountsStreams(control: R.PluginState, policy: FailurePolicy, labels: seq<string>, hs: seq<Happening>, compiles: Waf -> bool)
    ensures var p := History(Begin(control, policy, labels), hs, compiles);
            Count(p.store, TOTAL) == Sum(p.streams, Seen())
  {
    HistoryKeeps(control, policy, labels, hs, compiles);
    var p := History(Begin(control, policy, labels), hs, compiles);
    forall i | 0 <= i < |p.streams| ensures Occurrences(TOTAL)(p.streams[i]) == Seen()(p.streams[i]) {
      TotalOccursOnce(p.streams[i]);
    }
    SumCongruence(p.streams, Occurrences(TOTAL), Seen());
  }

  lemma TotalOccursOnce(s: Stream)
    requires Reachable(s)
    ensures multiset(NamesOf(s.metered))[TOTAL] == if s.host.requestHeadersSeen then 1 else 0
  {
    MeteredExactly(s);
    if s.interruptedAt == NoPhase {
      assert NamesOf(s.metered) == if s.host.requestHeadersSeen then [TOTAL] else [];
    } else {
      var m := s.metered[1];
      InterruptionIsNotTotal(PhaseName(m.phase), m.ruleID, LabelList(m.labels));
      assert NamesOf(s.metered) == [TOTAL, NameOf(m)];
    }
  }

  function SumValues(values: seq<nat>): nat {
    if values == [] then 0 else SumValues(values[..|values| - 1]) + values[|values| - 1]
  }

  /** The sum of all counters but the total one. */
  function InterruptionSum(names: seq<string>, values: seq<nat>): nat
    requires |names| == |values|
  {
    if names == [] then 0
    else
      var n := |names| - 1;
      InterruptionSum(names[..n], values[..n]) + if names[n] == TOTAL then 0 else values[n]
  }

  lemma {:induction false} SumsAgree(names: seq<string>, values: seq<nat>)
    requires WellFormed(Store(names, values))
    ensures InterruptionSum(names, values) + Count(Store(names, values), TOTAL) == SumValues(values)
  {
    if names != [] {
      var n := |names| - 1;
      SumsAgree(names[..n], values[..n]);
      var i := IndexOf(names[..n], TOTAL);
      if i < n {
        assert names[i] == TOTAL;
        IndexIsUnique(Store(names, values), TOTAL, i);
      } else if names[n] == TOTAL {
        IndexIsUnique(Store(names, values), TOTAL, n);
      } else {
        assert TOTAL !in names[..n];
        assert IndexOf(names, TOTAL) == |names|;
      }
    }
  }

  lemma {:induction false} SumValuesUpdate(values: seq<nat>, i: nat)
    requires i < |values|
    ensures SumValues(values[i := values[i] + 1]) == SumValues(values) + 1
  {
    var n := |values| - 1;
    if i == n {
      assert values[i := values[i] + 1][..n] == values[..n];
    } else {
      assert values[i := values[i] + 1][..n] == values[..n][i := values[..n][i] + 1];
      SumValuesUpdate(values[..n], i);
    }
  }

  lemma BumpSum(st: Store, name: string)
    requires |st.names| == |st.values|
    ensures SumValues(Bump(st, name).values) == SumValues(st.values) + 1
  {
    var i := IndexOf(st.names, name);
    if i < |st.names| {
      SumValuesUpdate(st.values, i);
    } else {
      assert (st.values + [1])[..|st.values|] == st.values;
    }
  }

  lemma {:induction false} BumpAllSum(st: Store, names: seq<string>)
    requires |st.names| == |st.values|
    ensures SumValues(BumpAll(st, names).values) == SumValues(st.values) + |names|
  {
    if names != [] {
      BumpAllSum(st, names[..|names| - 1]);
      BumpSum(BumpAll(st, names[..|names| - 1]), names[|names| - 1]);
    }
  }

  lemma {:induction false} SumCountsIncrements(control: R.PluginState, policy: FailurePolicy, labels: seq<string>, hs: seq<Happening>, compiles: Waf -> bool)
    ensures var p := History(Begin(control, policy, labels), hs, compiles);
            SumValues(p.store.values) == Sum(p.streams, Increments())
  {
    if hs != [] {
      SumCountsIncrements(control, policy, labels, hs[..|hs| - 1], compiles);
      HistoryKeeps(control, policy, labels, hs[..|hs| - 1], compiles);
      var p, h := History(Begin(control, policy, labels), hs[..|hs| - 1], compiles), hs[|hs| - 1];
      match h
      case Open => SumAppend(p.streams, NewStream(p.control.table, p.policy, p.labels), Increments());
      case Deliver(i, ev) =>
        if i < |p.streams| {
          var r := Step(p.streams[i], ev);
          MeteredGrows(p.streams[i], ev);
          BumpAllSum(p.store, NamesOf(Added(p.streams[i], r)));
          SumUpdate(p.streams, i, r, Increments());
        }
      case Control(_) =>
    }
  }

  /** The interruption counters together count the interrupted streams, so never more than there are transactions. */
  lemma InterruptionsCountStreams(control: R.PluginState, policy: FailurePolicy, labels: seq<string>, hs: seq<Happening>, compiles: Waf -> bool)
    ensures var p := History(Begin(control, policy, labels), hs, compiles);
            && InterruptionSum(p.store.names, p.store.values) == Sum(p.streams, Interrupted())
            && InterruptionSum(p.store.names, p.store.values) <= Count(p.store, TOTAL)
  {
    var p := History(Begin(control, policy, labels), hs, compiles);
    HistoryKeeps(control, policy, labels, hs, compiles);
    SumCountsIncrements(control, policy, labels, hs, compiles);
    TotalCountsStreams(control, policy, labels, hs, compiles);
    SumsAgree(p.store.names, p.store.values);
    forall i | 0 <= i < |p.streams|
      ensures Increments()(p.streams[i]) == Seen()(p.streams[i]) + Interrupted()(p.streams[i])
      ensures Interrupted()(p.streams[i]) <= Seen()(p.streams[i])
    {
      MeteredExactly(p.streams[i]);
    }
    SumOfSums(p.streams, Increments(), Seen(), Interrupted());
    SumMonotone(p.streams, Interrupted(), Seen());
  }

  lemma {:induction false} SumMonotone(streams: seq<Stream>, f: Stream -> nat, g: Stream -> nat)
    requires forall i :: 0 <= i < |streams| ==> f(streams[i]) <= g(streams[i])
    ensures Sum(streams, f) <= Sum(streams, g)
  {
    if streams != [] {
      SumMonotone(streams[..|streams| - 1], f, g);
    }
  }

  // ---- snapshots ----

  /** A stream without a transaction does not carry an authority yet. */
  lemma NoAuthorityYet(s: Stream)
    requires Reachable(s) && s.tx.None?
    ensures s.labels.authority == None
  {
    var wafs, policy, labels, events :| s == Run(NewStream(wafs, policy, labels), events);
    FreshLabels(wafs, policy, labels, events);
  }

  /** The engine of `s` is the one that `table` gives for the authority of the request headers `h` delivered. */
  predicate GivenBy(h: Happening, i: nat, table: WafMap, s: Stream)
    requires s.tx.Some?
  {
    && h.Deliver? && h.i == i && h.ev.RequestHeaders? && h.ev.env.authority.Some?
    && GetWAFOrDefault(table, h.ev.env.authority.value) == Resolved(s.tx.value.waf, s.labels.authority.None?)
    && (s.labels.authority.Some? ==> s.labels.authority == h.ev.env.authority)
  }

  /** A stream that had no engine got it from its own request headers and its own table; one that had keeps it. */
  predicate Settled(before: Stream, after: Stream, i: nat, hs: seq<Happening>) {
    && after.wafs == before.wafs
    && (before.tx.Some? ==>
          after.tx.Some? && after.tx.value.waf == before.tx.value.waf && after.labels == before.labels)
    && (before.tx.None? && after.tx.Some? ==> exists k :: 0 <= k < |hs| && GivenBy(hs[k], i, before.wafs, after))
  }

  lemma SettledStep(s: Stream, t: Stream, i: nat, hs: seq<Happening>, h: Happening)
    requires Reachable(t) && Settled(s, t, i, hs)
    ensures Settled(s, if h.Deliver? && h.i == i then Step(t, h.ev) else t, i, hs + [h])
  {
    var r := if h.Deliver? && h.i == i then Step(t, h.ev) else t;
    ReachableKeeps(t);
    if h.Deliver? && h.i == i && Enabled(t, h.ev) {
      StepEvolves(t, h.ev);
      if t.tx.None? {
        NoAuthorityYet(t);
        ResolutionStep(t, h.ev);
      }
    }
    if s.tx.None? && t.tx.Some? {
      var k :| 0 <= k < |hs| && GivenBy(hs[k], i, s.wafs, t);
      assert (hs + [h])[k] == hs[k] && GivenBy((hs + [h])[k], i, s.wafs, r);
    } else if s.tx.None? && r.tx.Some? {
      assert GivenBy((hs + [h])[|hs|], i, s.wafs, r);
    }
  }

  /**
   Whatever happens after a stream was opened, ticks, answers and reloads included, the stream keeps the
   table it copied, and its engine is the one that table gives for the authority of its own request.
   */
  lemma {:induction false} SnapshotIsolation(p: Plugin, i: nat, hs: seq<Happening>, compiles: Waf -> bool)
    requires PluginInv(p) && i < |p.streams|
    ensures var q := History(p, hs, compiles);
            PluginInv(q) && i < |q.streams| && Settled(p.streams[i], q.streams[i], i, hs)
  {
    if hs != [] {
      var front, h := hs[..|hs| - 1], hs[|hs| - 1];
      SnapshotIsolation(p, i, front, compiles);
      var q := History(p, front, compiles);
      HappenKeeps(q, h, compiles);
      SettledStep(p.streams[i], q.streams[i], i, front, h);
      assert front + [h] == hs;
    }
  }

  /**
   A rules answer leaves every open stream as it is. A stream opened after it copies a table whose default is
   the engine of that answer if it could be loaded, and the default from before if not.
   */
  lemma ReloadReachesLaterStreams(p: Plugin, r: R.Reply<R.RuleSet>, compiles: Waf -> bool)
    requires PluginInv(p)
    ensures var q := Happen(Happen(p, Control(R.RulesAnswer(r)), compiles), Open, compiles);
            && q.streams[..|p.streams|] == p.streams && |q.streams| == |p.streams| + 1
            && q.streams[|p.streams|].wafs == p.control.table.(
                 defaultWAF := if R.Usable(r, compiles) then Some(Waf(r.body.value.rules, r.body.value.dataFiles))
                               else p.control.table.defaultWAF)
  {
    R.UsableIff(r, compiles);
  }
}

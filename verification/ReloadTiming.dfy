/**
 The reload protocol in time: ticks at least a period apart, calls answered or timed out within two
 seconds, and a server whose rule sets are published one after the other.
 */
module ReloadTiming {
  import opened Prelude
  import opened Wafs
  import opened Reload

  /** A call on its way; `served` is the number of the rule set the server answered with, once it has. */
  datatype Flight = Flight(kind: CallKind, sentAt: nat, served: Option<nat>)

  datatype Net = Net(
    plugin: PluginState,
    period: nat,
    now: nat,
    nextTick: nat,              // the earliest time of the next tick
    flights: seq<Flight>,
    published: seq<RuleSet>,    // all rule sets of the server so far, oldest first
    loads: seq<nat>,            // the numbers of the rule sets the plugin has loaded, in order
    fetches: nat)               // how many rules calls have been dispatched

  datatype Event =
    | Elapse(ms: nat)
    | TickEvent(dispatchOk: bool)
    | Publish(rs: RuleSet)
    | Serve(i: nat)                         // the server looks at call i
    | Answered(i: nat, dispatchOk: bool)    // the server's answer to call i arrives
    | LatestFailed(i: nat, latest: Reply<Latest>)   // call i times out or comes back unusable
    | RulesFailed(i: nat, rules: Reply<RuleSet>)

  function Good<T>(value: T): Reply<T> {
    Reply(Some([(":status", "200")]), Decoded(value))
  }

  predicate InTime(f: Flight, now: nat) {
    now <= f.sentAt + CACHE_TIMEOUT_MS
  }

  /** Which events can happen: time does not pass the deadline of a call, and ticks keep their distance. */
  predicate Possible(n: Net, ev: Event, compiles: Waf -> bool) {
    match ev
    case Elapse(ms) => forall f :: f in n.flights ==> InTime(f, n.now + ms)
    case TickEvent(_) => n.nextTick <= n.now
    case Publish(_) => true
    case Serve(i) => i < |n.flights| && n.flights[i].served.None? && n.published != []
    case Answered(i, _) => i < |n.flights| && n.flights[i].served.Some? && n.flights[i].served.value < |n.published|
    case LatestFailed(i, r) => i < |n.flights| && n.flights[i].kind.LatestCall? && !Successful(r)
    case RulesFailed(i, r) => i < |n.flights| && n.flights[i].kind.RulesCall? && !Loadable(r, compiles)
  }

  /** The calls that the plugin has just dispatched take off now. */
  function TakeOff(n: Net, p: PluginState): Net {
    if |p.dispatched| <= |n.plugin.dispatched| then n.(plugin := p)
    else
      var kind := p.dispatched[|p.dispatched| - 1];
      n.(plugin := p, flights := n.flights + [Flight(kind, n.now, None)],
         fetches := n.fetches + if kind == RulesCall then 1 else 0)
  }

  function Land(n: Net, i: nat): Net
    requires i < |n.flights|
  {
    n.(flights := n.flights[..i] + n.flights[i + 1..])
  }

  function Next(n: Net, ev: Event, compiles: Waf -> bool): Net {
    if !Possible(n, ev, compiles) then n
    else
      match ev
      case Elapse(ms) => n.(now := n.now + ms)
      case TickEvent(ok) => TakeOff(n, OnTick(n.plugin, ok)).(nextTick := n.now + n.period)
      case Publish(rs) => n.(published := n.published + [rs])
      case Serve(i) =>
        n.(flights := n.flights[i := n.flights[i].(served := Some(|n.published| - 1))])
      case Answered(i, ok) =>
        var version := n.flights[i].served.value;
        var rs := n.published[version];
        var m := Land(n, i);
        if n.flights[i].kind.LatestCall?
        then TakeOff(m, OnLatestRuleSetResponse(n.plugin, Good(Latest(rs.uuid)), ok))
        else
          var m := m.(loads := if Loadable(Good(rs), compiles) then m.loads + [version] else m.loads);
          m.(plugin := OnRuleSetCacheServerResponse(n.plugin, Good(rs), compiles))
      case LatestFailed(i, r) =>
        var m := Land(n, i);
        m.(plugin := OnLatestRuleSetResponse(n.plugin, r, true))
      case RulesFailed(i, r) =>
        var m := Land(n, i);
        m.(plugin := OnRuleSetCacheServerResponse(n.plugin, r, compiles))
  }

  function Play(n: Net, evs: seq<Event>, compiles: Waf -> bool): Net {
    if evs == [] then n else Next(Play(n, evs[..|evs| - 1], compiles), evs[|evs| - 1], compiles)
  }

  /** Right after a start with a rule-set server: the first fetch is in flight, the first tick a period away. */
  predicate JustStarted(n: Net) {
    && FreshlyStarted(n.plugin) && n.period >= 2 * CACHE_TIMEOUT_MS + 1000
    && n.nextTick == n.now + n.period && n.loads == []
    && (n.flights == [] || n.flights == [Flight(RulesCall, n.now, None)])
  }

  /** The chain a tick starts is over before the next tick can come. */
  predicate ChainInv(n: Net) {
    && n.period >= 2 * CACHE_TIMEOUT_MS + 1000
    && |n.flights| <= 1
    && (n.flights != [] ==>
          var f := n.flights[0];
          && f.sentAt <= n.now && InTime(f, n.now)
          && f.sentAt + (if f.kind.LatestCall? then 2 else 1) * CACHE_TIMEOUT_MS < n.nextTick)
  }

  predicate Rising(loads: seq<nat>) {
    forall i, j :: 0 <= i < j < |loads| ==> loads[i] <= loads[j]
  }

  /** Everything loaded is at most as new as what is published, and as what is being delivered. */
  predicate VersionInv(n: Net) {
    && Rising(n.loads)
    && (forall i :: 0 <= i < |n.loads| ==> n.loads[i] < |n.published|)
    && (forall f, i :: f in n.flights && f.served.Some? && 0 <= i < |n.loads| ==> n.loads[i] <= f.served.value)
    && (forall f :: f in n.flights && f.served.Some? ==> f.served.value < |n.published|)
  }

  /** What the plugin runs is the rule set it loaded last. */
  predicate LoadedInv(n: Net) {
    if n.loads == [] then n.plugin.table.defaultWAF.None? && n.plugin.uuid == ""
    else
      var v := n.loads[|n.loads| - 1];
      && v < |n.published|
      && n.plugin.uuid == n.published[v].uuid
      && n.plugin.table.defaultWAF == Some(Waf(n.published[v].rules, n.published[v].dataFiles))
  }

  lemma LandEmpties(n: Net, i: nat)
    requires |n.flights| <= 1 && i < |n.flights|
    ensures i == 0 && Land(n, i).flights == []
  {}

  /** A tick finds nothing in flight. */
  lemma TickFindsQuiet(n: Net)
    requires ChainInv(n) && n.nextTick <= n.now
    ensures n.flights == []
  {}

  lemma NextKeepsChain(n: Net, ev: Event, compiles: Waf -> bool)
    requires ChainInv(n)
    ensures ChainInv(Next(n, ev, compiles))
  {
    if Possible(n, ev, compiles) {
      match ev
      case Elapse(ms) => if n.flights != [] { assert n.flights[0] in n.flights; }
      case TickEvent(_) => TickFindsQuiet(n);
      case Answered(i, _) => LandEmpties(n, i);
      case LatestFailed(i, _) => LandEmpties(n, i);
      case RulesFailed(i, _) => LandEmpties(n, i);
      case _ =>
    }
  }

  /** A step that loads nothing, and after which a newly served call carries the newest version. */
  predicate NothingLoaded(n: Net, m: Net) {
    && m.loads == n.loads && n.published <= m.published
    && m.plugin.table == n.plugin.table && m.plugin.uuid == n.plugin.uuid
    && (forall f :: f in m.flights && f.served.Some? ==> f in n.flights || f.served.value + 1 == |m.published|)
  }

  lemma NothingLoadedKeeps(n: Net, m: Net)
    requires VersionInv(n) && LoadedInv(n) && NothingLoaded(n, m)
    ensures VersionInv(m) && LoadedInv(m)
  {}

  /** Only the rules answer loads. */
  lemma NextLoadsNothing(n: Net, ev: Event, compiles: Waf -> bool)
    requires Possible(n, ev, compiles) && (ev.Answered? ==> n.flights[ev.i].kind.LatestCall?)
    ensures NothingLoaded(n, Next(n, ev, compiles))
  {
    hide InTime, StatusOf;
  }

  /** The rules answer loads at most the version it carries, which is no older than any loaded before. */
  lemma RulesAnswerKeepsVersions(n: Net, i: nat, ok: bool, compiles: Waf -> bool)
    requires ChainInv(n) && VersionInv(n) && LoadedInv(n) && Possible(n, Answered(i, ok), compiles)
    requires n.flights[i].kind.RulesCall?
    ensures var m := Next(n, Answered(i, ok), compiles); VersionInv(m) && LoadedInv(m)
  {
    LandEmpties(n, i);
    assert n.flights[i] in n.flights;
    var v := n.flights[i].served.value;
    var m := Next(n, Answered(i, ok), compiles);
    assert m.flights == [] && m.published == n.published;
    if Loadable(Good(n.published[v]), compiles) {
      assert m.loads == n.loads + [v];
      assert Rising(n.loads + [v]);
    } else {
      assert m.loads == n.loads;
    }
  }

  lemma NextKeepsVersions(n: Net, ev: Event, compiles: Waf -> bool)
    requires ChainInv(n) && VersionInv(n) && LoadedInv(n)
    ensures var m := Next(n, ev, compiles); VersionInv(m) && LoadedInv(m)
  {
    hide ChainInv, VersionInv, LoadedInv, NothingLoaded;
    if Possible(n, ev, compiles) {
      if ev.Answered? && n.flights[ev.i].kind.RulesCall? {
        RulesAnswerKeepsVersions(n, ev.i, ev.dispatchOk, compiles);
      } else {
        NextLoadsNothing(n, ev, compiles);
        NothingLoadedKeeps(n, Next(n, ev, compiles));
      }
    }
  }

  /** At any time at most one call to the server is in flight. */
  lemma {:induction false} OneCallInFlight(n: Net, evs: seq<Event>, compiles: Waf -> bool)
    requires JustStarted(n)
    ensures var m := Play(n, evs, compiles); ChainInv(m) && |m.flights| <= 1
  {
    if evs != [] {
      OneCallInFlight(n, evs[..|evs| - 1], compiles);
      NextKeepsChain(Play(n, evs[..|evs| - 1], compiles), evs[|evs| - 1], compiles);
    }
  }

  lemma {:induction false} VersionsKept(n: Net, evs: seq<Event>, compiles: Waf -> bool)
    requires JustStarted(n)
    ensures var m := Play(n, evs, compiles); VersionInv(m) && LoadedInv(m)
  {
    if evs != [] {
      VersionsKept(n, evs[..|evs| - 1], compiles);
      OneCallInFlight(n, evs[..|evs| - 1], compiles);
      NextKeepsVersions(Play(n, evs[..|evs| - 1], compiles), evs[|evs| - 1], compiles);
    }
  }

  /** The rule sets the plugin loads, one after the other, are never older than those before. */
  lemma VersionsNeverGoBack(n: Net, evs: seq<Event>, compiles: Waf -> bool, i: nat, j: nat)
    requires JustStarted(n) && i < j < |Play(n, evs, compiles).loads|
    ensures Play(n, evs, compiles).loads[i] <= Play(n, evs, compiles).loads[j]
  {
    VersionsKept(n, evs, compiles);
  }

  // ---- convergence ----

  predicate Serves(rs: RuleSet, uuid: string, compiles: Waf -> bool) {
    rs.uuid == uuid && Loadable(Good(rs), compiles)
  }

  /** Nothing fails, and whatever is published carries the one UUID and compiles. */
  predicate Steady(ev: Event, uuid: string, compiles: Waf -> bool) {
    match ev
    case Elapse(_) => true
    case TickEvent(ok) => ok
    case Publish(rs) => Serves(rs, uuid, compiles)
    case Serve(_) => true
    case Answered(_, ok) => ok
    case _ => false
  }

  /** From the tick at time `start` on: the version is current, or the tick's chain is still on its way to it. */
  predicate Converging(n: Net, uuid: string, start: nat, compiles: Waf -> bool) {
    && ChainInv(n) && n.plugin.reloadEnabled
    && n.published != [] && Serves(n.published[|n.published| - 1], uuid, compiles)
    && (forall f :: f in n.flights && f.served.Some? ==>
          f.served.value < |n.published| && Serves(n.published[f.served.value], uuid, compiles))
    && (n.plugin.uuid != uuid ==>
          && n.flights != []
          && n.flights[0].sentAt + (if n.flights[0].kind.LatestCall? then 2 else 1) * CACHE_TIMEOUT_MS <= start + 2 * CACHE_TIMEOUT_MS)
    && (n.plugin.uuid == uuid ==> forall f :: f in n.flights ==> f.kind.LatestCall?)
  }

  /** How many fetches may still come. */
  function Pending(n: Net, uuid: string): nat {
    if n.plugin.uuid != uuid && n.flights != [] && n.flights[0].kind.LatestCall? then 1 else 0
  }

  lemma NextConverges(n: Net, ev: Event, uuid: string, start: nat, compiles: Waf -> bool)
    requires Converging(n, uuid, start, compiles) && Steady(ev, uuid, compiles)
    ensures var m := Next(n, ev, compiles);
            && Converging(m, uuid, start, compiles)
            && m.fetches + Pending(m, uuid) == n.fetches + Pending(n, uuid)
            && (n.plugin.uuid == uuid ==> m.plugin.uuid == uuid && m.plugin.table == n.plugin.table)
  {
    hide StatusOf;
    NextKeepsChain(n, ev, compiles);
    if Possible(n, ev, compiles) {
      match ev
      case TickEvent(_) => TickFindsQuiet(n);
      case Answered(i, _) =>
        LandEmpties(n, i);
        assert n.flights[i] in n.flights;
      case _ =>
    }
  }

  lemma {:induction false} PlayConverges(n: Net, evs: seq<Event>, uuid: string, start: nat, compiles: Waf -> bool)
    requires Converging(n, uuid, start, compiles) && forall i :: 0 <= i < |evs| ==> Steady(evs[i], uuid, compiles)
    ensures var m := Play(n, evs, compiles);
            && Converging(m, uuid, start, compiles)
            && m.fetches + Pending(m, uuid) == n.fetches + Pending(n, uuid)
            && (n.plugin.uuid == uuid ==> m.plugin.uuid == uuid && m.plugin.table == n.plugin.table)
  {
    hide Next, Converging, Steady, Pending;
    if evs != [] {
      PlayConverges(n, evs[..|evs| - 1], uuid, start, compiles);
      NextConverges(Play(n, evs[..|evs| - 1], compiles), evs[|evs| - 1], uuid, start, compiles);
    }
  }

  /**
   The reload that was due at `n` is done at `m`, with one fetch if the UUID was not yet current: the UUID is
   recorded and the engine is the one of a rule set published under it.
   */
  predicate Settled(n: Net, m: Net, uuid: string) {
    && m.plugin.uuid == uuid
    && m.fetches == n.fetches + (if n.plugin.uuid == uuid then 0 else 1)
    && (uuid != "" ==> exists v :: 0 <= v < |m.published| && RunsVersion(m, v) && m.published[v].uuid == uuid)
  }

  /** The default engine is the one compiled from the rules of version `v`. */
  predicate RunsVersion(m: Net, v: nat)
    requires v < |m.published|
  {
    m.plugin.table.defaultWAF == Some(Waf(m.published[v].rules, m.published[v].dataFiles))
  }

  /** Between `m` and `later` nothing was fetched or loaded. */
  predicate Undisturbed(m: Net, later: Net) {
    && later.fetches == m.fetches
    && later.plugin.uuid == m.plugin.uuid && later.plugin.table == m.plugin.table
  }

  predicate TickDue(n: Net, uuid: string, compiles: Waf -> bool) {
    && n.plugin.reloadEnabled && n.nextTick <= n.now
    && n.published != [] && Serves(n.published[|n.published| - 1], uuid, compiles)
  }

  predicate AllSteady(evs: seq<Event>, uuid: string, compiles: Waf -> bool) {
    forall i :: 0 <= i < |evs| ==> Steady(evs[i], uuid, compiles)
  }

  lemma TickStartsConverging(n: Net, uuid: string, compiles: Waf -> bool)
    requires ChainInv(n) && TickDue(n, uuid, compiles)
    ensures var t := Next(n, TickEvent(true), compiles);
            && Converging(t, uuid, n.now, compiles) && t.plugin.uuid == n.plugin.uuid
            && t.fetches + Pending(t, uuid) == n.fetches + (if n.plugin.uuid == uuid then 0 else 1)
  {
    TickFindsQuiet(n);
    NextKeepsChain(n, TickEvent(true), compiles);
    var t := Next(n, TickEvent(true), compiles);
    assert t.flights == [Flight(LatestCall, n.now, None)];
  }

  /** Once the chain's time is over nothing of it is left, so the version is current. */
  lemma ConvergedInTime(m: Net, uuid: string, start: nat, compiles: Waf -> bool)
    requires Converging(m, uuid, start, compiles)
    requires m.flights == [] || m.now > start + 2 * CACHE_TIMEOUT_MS
    ensures m.plugin.uuid == uuid && Pending(m, uuid) == 0
  {}

  lemma ChainSettles(n: Net, uuid: string, evs: seq<Event>, compiles: Waf -> bool)
    requires ChainInv(n) && VersionInv(n) && LoadedInv(n)
    requires TickDue(n, uuid, compiles) && AllSteady(evs, uuid, compiles)
    ensures var m := Play(Next(n, TickEvent(true), compiles), evs, compiles);
            && Converging(m, uuid, n.now, compiles)
            && (m.flights == [] || m.now > n.now + 2 * CACHE_TIMEOUT_MS ==> Settled(n, m, uuid))
  {
    hide Next, Play, ChainInv, VersionInv, Serves, Steady, Loadable;
    var t := Next(n, TickEvent(true), compiles);
    TickStartsConverging(n, uuid, compiles);
    NextKeepsVersions(n, TickEvent(true), compiles);
    PlayConverges(t, evs, uuid, n.now, compiles);
    PlayKeepsLoaded(t, evs, compiles);
    var m := Play(t, evs, compiles);
    if m.flights == [] || m.now > n.now + 2 * CACHE_TIMEOUT_MS {
      ConvergedInTime(m, uuid, n.now, compiles);
      if uuid != "" {
        assert RunsVersion(m, m.loads[|m.loads| - 1]);
      }
    }
  }

  /**
   If, from a tick on, the server steadily answers with one UUID and rules that compile, then that
   tick's chain ends within four seconds with the UUID recorded, after at most one fetch, and no later
   tick fetches anything. For a non-empty UUID the default engine is then that of a rule set with this UUID.
   */
  lemma ReloadConvergence(start: Net, before: seq<Event>, uuid: string, evs: seq<Event>, more: seq<Event>, compiles: Waf -> bool)
    requires JustStarted(start) && start.plugin.reloadEnabled
    requires TickDue(Play(start, before, compiles), uuid, compiles)
    requires AllSteady(evs, uuid, compiles) && AllSteady(more, uuid, compiles)
    ensures var n := Play(start, before, compiles);
            var m := Play(Next(n, TickEvent(true), compiles), evs, compiles);
            m.flights == [] || m.now > n.now + 2 * CACHE_TIMEOUT_MS ==>
              Settled(n, m, uuid) && Undisturbed(m, Play(m, more, compiles))
  {
    hide Next, ChainInv, VersionInv, LoadedInv, Steady, Serves;
    var n := Play(start, before, compiles);
    OneCallInFlight(start, before, compiles);
    VersionsKept(start, before, compiles);
    ChainSettles(n, uuid, evs, compiles);
    var m := Play(Next(n, TickEvent(true), compiles), evs, compiles);
    if m.flights == [] || m.now > n.now + 2 * CACHE_TIMEOUT_MS {
      PlayConverges(m, more, uuid, n.now, compiles);
      assert Pending(m, uuid) == 0 && Pending(Play(m, more, compiles), uuid) == 0;
    }
  }

  lemma {:induction false} PlayKeepsLoaded(n: Net, evs: seq<Event>, compiles: Waf -> bool)
    requires ChainInv(n) && VersionInv(n) && LoadedInv(n)
    ensures var m := Play(n, evs, compiles); ChainInv(m) && VersionInv(m) && LoadedInv(m)
  {
    if evs != [] {
      PlayKeepsLoaded(n, evs[..|evs| - 1], compiles);
      NextKeepsChain(Play(n, evs[..|evs| - 1], compiles), evs[|evs| - 1], compiles);
      NextKeepsVersions(Play(n, evs[..|evs| - 1], compiles), evs[|evs| - 1], compiles);
    }
  }

  // ---- why the period must exceed both timeouts ----

  ghost predicate Reaches(n: Net, m: Net, compiles: Waf -> bool) {
    exists evs: seq<Event> :: Play(n, evs, compiles) == m
  }

  lemma ReachesNext(n: Net, m: Net, ev: Event, compiles: Waf -> bool)
    requires Reaches(n, m, compiles)
    ensures Reaches(n, Next(m, ev, compiles), compiles)
  {
    hide Next;
    var evs :| Play(n, evs, compiles) == m;
    assert (evs + [ev])[..|evs + [ev]| - 1] == evs;
    assert Play(n, evs + [ev], compiles) == Next(m, ev, compiles);
  }

  lemma ReachesItself(n: Net, compiles: Waf -> bool)
    ensures Reaches(n, n, compiles)
  {
    assert Play(n, [], compiles) == n;
  }

  /** No call is on its way; the time is 4 s and the first tick is due. */
  function AtFirstTick(p: PluginState, stale: RuleSet): Net {
    Net(p, 2 * CACHE_TIMEOUT_MS, 4000, 4000, [], [stale], [], 0)
  }

  /** The fetch of the old rule set is under way, and due, when the new one is out and a tick arrives. */
  function AtSecondTick(p: PluginState, stale: RuleSet, recent: RuleSet): Net {
    Net(p, 2 * CACHE_TIMEOUT_MS, 8000, 8000, [Flight(RulesCall, 6000, Some(0))], [stale, recent], [], 1)
  }

  /** The plugin has sent the two calls of one chain. */
  function Asked(p: PluginState): PluginState {
    p.(dispatched := p.dispatched + [LatestCall] + [RulesCall])
  }

  /** The first tick's call has been answered by the server. */
  function FirstTickServed(p: PluginState, stale: RuleSet): Net {
    AtFirstTick(p, stale).(plugin := p.(dispatched := p.dispatched + [LatestCall]), nextTick := 8000,
                           flights := [Flight(LatestCall, 4000, Some(0))])
  }

  lemma FirstTick(n: Net, p: PluginState, stale: RuleSet, compiles: Waf -> bool)
    requires p.reloadEnabled && Reaches(n, AtFirstTick(p, stale), compiles)
    ensures Reaches(n, FirstTickServed(p, stale), compiles)
  {
    hide Play, Reaches;
    var n1 := AtFirstTick(p, stale);
    var n2 := FirstTickServed(p, stale).(flights := [Flight(LatestCall, 4000, None)]);
    assert Next(n1, TickEvent(true), compiles) == n2;
    ReachesNext(n, n1, TickEvent(true), compiles);
    assert Next(n2, Serve(0), compiles) == FirstTickServed(p, stale);
    ReachesNext(n, n2, Serve(0), compiles);
  }

  /** A tick and a slow answer about the latest version leave the rules call on its way. */
  lemma SlowAnswer(n: Net, p: PluginState, stale: RuleSet, compiles: Waf -> bool)
    requires FreshlyStarted(p) && p.reloadEnabled && stale.uuid != ""
    requires Reaches(n, AtFirstTick(p, stale), compiles)
    ensures Reaches(n, Net(Asked(p), 2 * CACHE_TIMEOUT_MS, 6000, 8000, [Flight(RulesCall, 6000, None)], [stale], [], 1), compiles)
  {
    hide Play, Reaches;
    FirstTick(n, p, stale, compiles);
    var n3 := FirstTickServed(p, stale);
    var n4 := n3.(now := 6000);
    assert Next(n3, Elapse(2000), compiles) == n4;
    ReachesNext(n, n3, Elapse(2000), compiles);
    assert Next(n4, Answered(0, true), compiles) ==
           Net(Asked(p), 2 * CACHE_TIMEOUT_MS, 6000, 8000, [Flight(RulesCall, 6000, None)], [stale], [], 1);
    ReachesNext(n, n4, Answered(0, true), compiles);
  }

  /** The server answers the rules call, publishes, and the answer takes the whole timeout. */
  lemma SlowRules(n: Net, p: PluginState, stale: RuleSet, recent: RuleSet, compiles: Waf -> bool)
    requires Reaches(n, Net(p, 2 * CACHE_TIMEOUT_MS, 6000, 8000, [Flight(RulesCall, 6000, None)], [stale], [], 1), compiles)
    ensures Reaches(n, AtSecondTick(p, stale, recent), compiles)
  {
    hide Play, Reaches, Loadable, OnRuleSetCacheServerResponse;
    var n5 := Net(p, 2 * CACHE_TIMEOUT_MS, 6000, 8000, [Flight(RulesCall, 6000, None)], [stale], [], 1);
    var n6 := n5.(flights := [Flight(RulesCall, 6000, Some(0))]);
    assert Next(n5, Serve(0), compiles) == n6;
    ReachesNext(n, n5, Serve(0), compiles);
    var n7 := n6.(published := [stale, recent]);
    assert Next(n6, Publish(recent), compiles) == n7;
    ReachesNext(n, n6, Publish(recent), compiles);
    assert Next(n7, Elapse(2000), compiles) == AtSecondTick(p, stale, recent);
    ReachesNext(n, n7, Elapse(2000), compiles);
  }

  /** The second tick's chain overtakes the first one's answer. */
  lemma FastAnswer(n: Net, p: PluginState, stale: RuleSet, recent: RuleSet, compiles: Waf -> bool)
    requires FreshlyStarted(p) && p.reloadEnabled && recent.uuid != ""
    requires Reaches(n, AtSecondTick(p, stale, recent), compiles)
    ensures Reaches(n, AtSecondTick(Asked(p), stale, recent).(
                         nextTick := 12000, fetches := 2,
                         flights := [Flight(RulesCall, 6000, Some(0)), Flight(RulesCall, 8000, None)]), compiles)
  {
    hide Play, Reaches, Loadable, OnRuleSetCacheServerResponse;
    var m0 := AtSecondTick(p, stale, recent);
    var overdue := Flight(RulesCall, 6000, Some(0));
    var p1 := p.(dispatched := p.dispatched + [LatestCall]);
    ReachesNext(n, m0, TickEvent(true), compiles);
    var m1 := m0.(plugin := p1, nextTick := 12000, flights := [overdue, Flight(LatestCall, 8000, None)]);
    assert Next(m0, TickEvent(true), compiles) == m1;
    ReachesNext(n, m1, Serve(1), compiles);
    var m2 := m1.(flights := [overdue, Flight(LatestCall, 8000, Some(1))]);
    assert Next(m1, Serve(1), compiles) == m2;
    assert Next(m2, Answered(1, true), compiles) ==
           AtSecondTick(Asked(p), stale, recent).(nextTick := 12000, fetches := 2,
                                                  flights := [overdue, Flight(RulesCall, 8000, None)]);
    ReachesNext(n, m2, Answered(1, true), compiles);
  }

  /** With both answers on their way, the new version is loaded first and the old one after it. */
  lemma OvertakenGoesBack(n: Net, m: Net, compiles: Waf -> bool)
    requires |m.published| == 2 && m.loads == []
    requires m.flights == [Flight(RulesCall, 6000, Some(0)), Flight(RulesCall, 8000, None)]
    requires Loadable(Good(m.published[0]), compiles) && Loadable(Good(m.published[1]), compiles)
    requires Reaches(n, m, compiles)
    ensures exists l: Net :: Reaches(n, l, compiles) && l.loads == [1, 0]
  {
    hide Play, Reaches;
    ReachesNext(n, m, Serve(1), compiles);
    var m1 := m.(flights := [Flight(RulesCall, 6000, Some(0)), Flight(RulesCall, 8000, Some(1))]);
    assert Next(m, Serve(1), compiles) == m1;
    ReachesNext(n, m1, Answered(1, true), compiles);
    var m2 := Next(m1, Answered(1, true), compiles);
    assert m2.loads == [1] && m2.flights == [Flight(RulesCall, 6000, Some(0))];
    ReachesNext(n, m2, Answered(0, true), compiles);
    assert Next(m2, Answered(0, true), compiles).loads == [1, 0];
  }

  /**
   A period of twice the timeout is not enough: two fetches overlap, and an older rule set replaces a
   newer one although the server only moved forward.
   */
  lemma ShortPeriodGoesBack(p: PluginState, stale: RuleSet, recent: RuleSet, compiles: Waf -> bool)
    requires FreshlyStarted(p) && p.reloadEnabled && stale.uuid != "" && recent.uuid != ""
    requires Loadable(Good(stale), compiles) && Loadable(Good(recent), compiles)
    ensures exists m: Net ::
              && Reaches(Net(p, 2 * CACHE_TIMEOUT_MS, 0, 4000, [], [stale], [], 0), m, compiles)
              && m.loads == [1, 0]
  {
    hide Play, Loadable;
    var n := Net(p, 2 * CACHE_TIMEOUT_MS, 0, 4000, [], [stale], [], 0);
    ReachesItself(n, compiles);
    ReachesNext(n, n, Elapse(4000), compiles);
    SlowAnswer(n, p, stale, compiles);
    SlowRules(n, Asked(p), stale, recent, compiles);
    FastAnswer(n, Asked(p), stale, recent, compiles);
    OvertakenGoesBack(n, AtSecondTick(Asked(Asked(p)), stale, recent).(
      nextTick := 12000, fetches := 2,
      flights := [Flight(RulesCall, 6000, Some(0)), Flight(RulesCall, 8000, None)]), compiles);
  }
}

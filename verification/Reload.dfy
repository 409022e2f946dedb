/** The reload handlers of wasmplugin/plugin.go and the rule-set server's answers they work on. */
module Reload {
  import opened Prelude
  import opened Wafs

  const CACHE_TIMEOUT_MS := 2000

  datatype CallKind = LatestCall | RulesCall

  /** What the `/latest` endpoint says. */
  datatype Latest = Latest(uuid: string)

  /** What the rules endpoint says. */
  datatype RuleSet = RuleSet(uuid: string, rules: string, dataFiles: map<string, seq<Byte>>)

  datatype Body<T> = Unreadable | EmptyBody | Malformed | Decoded(value: T)

  /** An answer to a call; a timed-out call is answered without headers. */
  datatype Reply<T> = Reply(headers: Option<seq<(string, string)>>, body: Body<T>)

  /** The first `:status` header, or "". */
  function StatusOf(headers: seq<(string, string)>): string {
    if headers == [] then "" else if headers[0].0 == ":status" then headers[0].1 else StatusOf(headers[1..])
  }

  predicate Successful<T(==)>(r: Reply<T>) {
    r.headers.Some? && StatusOf(r.headers.value) == "200" && r.body.Decoded?
  }

  function WafFrom(rs: RuleSet): Waf {
    Waf(rs.rules, rs.dataFiles)
  }

  /** The part of the plugin's state that reloading works on. */
  datatype PluginState = PluginState(table: WafMap, uuid: string, reloadEnabled: bool, dispatched: seq<CallKind>)

  function Dispatch(p: PluginState, kind: CallKind, ok: bool): PluginState {
    if ok then p.(dispatched := p.dispatched + [kind]) else p
  }

  function OnTick(p: PluginState, dispatchOk: bool): PluginState {
    if !p.reloadEnabled then p else Dispatch(p, LatestCall, dispatchOk)
  }

  function OnLatestRuleSetResponse(p: PluginState, r: Reply<Latest>, dispatchOk: bool): PluginState {
    if Successful(r) && r.body.value.uuid != p.uuid then Dispatch(p, RulesCall, dispatchOk) else p
  }

  /** Whether an answer carries a rule set that can be put to work. */
  predicate Loadable(r: Reply<RuleSet>, compiles: Waf -> bool) {
    Successful(r) && r.body.value.rules != "" && compiles(WafFrom(r.body.value))
  }

  function OnRuleSetCacheServerResponse(p: PluginState, r: Reply<RuleSet>, compiles: Waf -> bool): PluginState {
    if Loadable(r, compiles)
    then p.(table := p.table.(defaultWAF := Some(WafFrom(r.body.value))), uuid := r.body.value.uuid)
    else p
  }

  // ---- what an answer must be like, and what is loaded then ----

  /** The first status among the headers is `code`. */
  ghost predicate FirstStatus(headers: seq<(string, string)>, code: string) {
    exists i :: 0 <= i < |headers| && headers[i] == (":status", code) && forall j :: 0 <= j < i ==> headers[j].0 != ":status"
  }

  lemma {:induction false} StatusIff(headers: seq<(string, string)>, code: string)
    requires code != ""
    ensures StatusOf(headers) == code <==> FirstStatus(headers, code)
  {
    if headers != [] && headers[0].0 != ":status" {
      StatusIff(headers[1..], code);
      if FirstStatus(headers[1..], code) {
        var i :| 0 <= i < |headers[1..]| && headers[1..][i] == (":status", code) && forall j :: 0 <= j < i ==> headers[1..][j].0 != ":status";
        assert headers[i + 1] == (":status", code);
        assert forall j :: 0 < j < i + 1 ==> headers[j] == headers[1..][j - 1];
      }
      if FirstStatus(headers, code) {
        var i :| 0 <= i < |headers| && headers[i] == (":status", code) && forall j :: 0 <= j < i ==> headers[j].0 != ":status";
        assert headers[1..][i - 1] == (":status", code);
        assert forall j :: 0 <= j < i - 1 ==> headers[1..][j] == headers[j + 1];
      }
    } else if headers != [] {
      assert headers[0].0 == ":status";
    }
  }

  /** An answer that came in time, with status 200 and a body that could be decoded. */
  ghost predicate Arrived<T>(r: Reply<T>) {
    r.headers.Some? && FirstStatus(r.headers.value, "200") && r.body.Decoded?
  }

  lemma ArrivedIff<T>(r: Reply<T>)
    ensures Successful(r) <==> Arrived(r)
  {
    if r.headers.Some? {
      StatusIff(r.headers.value, "200");
    }
  }

  /** It carries rules, and they compile together with the data files they come with. */
  ghost predicate Usable(r: Reply<RuleSet>, compiles: Waf -> bool) {
    Arrived(r) && |r.body.value.rules| > 0 && compiles(Waf(r.body.value.rules, r.body.value.dataFiles))
  }

  lemma UsableIff(r: Reply<RuleSet>, compiles: Waf -> bool)
    ensures Loadable(r, compiles) <==> Usable(r, compiles)
  {
    ArrivedIff(r);
  }

  /** The default engine is compiled from the rules of `rs` and its data files, and its UUID is the recorded one. */
  predicate RunsRules(p: PluginState, rs: RuleSet) {
    && p.table.defaultWAF.Some?
    && p.table.defaultWAF.value.directives == rs.rules && p.table.defaultWAF.value.dataFiles == rs.dataFiles
    && p.uuid == rs.uuid
  }

  /** What each handler does, on the answer it gets. */
  lemma HandlersDo(p: PluginState, i: Input, compiles: Waf -> bool)
    ensures var q := Handle(p, i, compiles);
            && q.reloadEnabled == p.reloadEnabled && q.table.kv == p.table.kv
            && (if i.RulesAnswer? && Usable(i.rules, compiles) then RunsRules(q, i.rules.body.value)
                else q.table == p.table && q.uuid == p.uuid)
            && q.dispatched == p.dispatched +
                 match i
                 case Tick(ok) => if p.reloadEnabled && ok then [LatestCall] else []
                 case LatestAnswer(r, ok) => if Arrived(r) && r.body.value.uuid != p.uuid && ok then [RulesCall] else []
                 case RulesAnswer(_) => []
  {
    match i
    case Tick(_) =>
    case LatestAnswer(r, _) => ArrivedIff(r);
    case RulesAnswer(r) => UsableIff(r, compiles);
  }

  // ---- any interleaving of ticks and answers ----

  datatype Input =
    | Tick(dispatchOk: bool)
    | LatestAnswer(latest: Reply<Latest>, dispatchOk: bool)
    | RulesAnswer(rules: Reply<RuleSet>)

  function Handle(p: PluginState, i: Input, compiles: Waf -> bool): PluginState {
    match i
    case Tick(ok) => OnTick(p, ok)
    case LatestAnswer(r, ok) => OnLatestRuleSetResponse(p, r, ok)
    case RulesAnswer(r) => OnRuleSetCacheServerResponse(p, r, compiles)
  }

  function HandleAll(p: PluginState, inputs: seq<Input>, compiles: Waf -> bool): PluginState {
    if inputs == [] then p
    else Handle(HandleAll(p, inputs[..|inputs| - 1], compiles), inputs[|inputs| - 1], compiles)
  }

  /** Nothing was loaded, or the default engine comes from an answer whose UUID is the current one. */
  ghost predicate LoadedFrom(p: PluginState, inputs: seq<Input>, compiles: Waf -> bool) {
    if p.table.defaultWAF.None? then p.uuid == ""
    else exists i | 0 <= i < |inputs| :: inputs[i].RulesAnswer? && IsSource(p, inputs[i].rules, compiles)
  }

  ghost predicate IsSource(p: PluginState, r: Reply<RuleSet>, compiles: Waf -> bool) {
    Usable(r, compiles) && RunsRules(p, r.body.value)
  }

  /** The state a start with a rule-set server leaves behind. */
  predicate FreshlyStarted(p: PluginState) {
    p.table == WafMap(map[], None) && p.uuid == ""
  }

  /**
   Under any interleaving of ticks and answers, in flight calls and failures included, the default
   engine and the recorded version belong together.
   */
  lemma {:induction false} ReloadConsistency(p: PluginState, inputs: seq<Input>, compiles: Waf -> bool)
    requires FreshlyStarted(p)
    ensures LoadedFrom(HandleAll(p, inputs, compiles), inputs, compiles)
    ensures HandleAll(p, inputs, compiles).table.kv == map[]
  {
    if inputs != [] {
      var front, last := inputs[..|inputs| - 1], inputs[|inputs| - 1];
      ReloadConsistency(p, front, compiles);
      var before, after := HandleAll(p, front, compiles), HandleAll(p, inputs, compiles);
      HandlersDo(before, last, compiles);
      if last.RulesAnswer? && Usable(last.rules, compiles) {
        assert IsSource(after, inputs[|inputs| - 1].rules, compiles);
      } else if before.table.defaultWAF.Some? {
        var i :| 0 <= i < |front| && front[i].RulesAnswer? && IsSource(before, front[i].rules, compiles);
        assert inputs[i] == front[i] && IsSource(after, inputs[i].rules, compiles);
      }
    }
  }

  /** A failing answer changes neither the engine nor the version, and a loaded default stays loaded. */
  lemma FailuresChangeNothing(p: PluginState, i: Input, compiles: Waf -> bool)
    ensures var q := Handle(p, i, compiles);
            && (p.table.defaultWAF.Some? ==> q.table.defaultWAF.Some?)
            && (!(i.RulesAnswer? && Usable(i.rules, compiles)) ==> q.table == p.table && q.uuid == p.uuid)
            && (q.dispatched != p.dispatched ==>
                  || (i.Tick? && p.reloadEnabled && q.dispatched == p.dispatched + [LatestCall])
                  || (i.LatestAnswer? && Arrived(i.latest) && i.latest.body.value.uuid != p.uuid
                      && q.dispatched == p.dispatched + [RulesCall]))
  {
    HandlersDo(p, i, compiles);
  }

  // ---- what a sequence of inputs comes to ----

  ghost predicate Loads(i: Input, compiles: Waf -> bool) {
    i.RulesAnswer? && Usable(i.rules, compiles)
  }

  /** `rs` comes from the last input that loads. */
  ghost predicate LastLoad(inputs: seq<Input>, compiles: Waf -> bool, rs: RuleSet) {
    exists i :: 0 <= i < |inputs| && Loads(inputs[i], compiles) && inputs[i].rules.body.value == rs
             && forall j :: i < j < |inputs| ==> !Loads(inputs[j], compiles)
  }

  ghost predicate NoLoad(inputs: seq<Input>, compiles: Waf -> bool) {
    forall i :: 0 <= i < |inputs| ==> !Loads(inputs[i], compiles)
  }

  /** Two states that differ at most in the calls they have dispatched. */
  predicate SameLoad(p: PluginState, q: PluginState) {
    q.table == p.table && q.uuid == p.uuid && q.reloadEnabled == p.reloadEnabled
  }

  /**
   Whatever interleaving of ticks, answers and failures: the plugin runs the rules of the last answer that could
   be loaded and has recorded its UUID; if there was none, it runs what it ran before.
   */
  lemma {:induction false} LastLoadDecides(p: PluginState, inputs: seq<Input>, compiles: Waf -> bool)
    ensures var q := HandleAll(p, inputs, compiles);
            && q.table.kv == p.table.kv && q.reloadEnabled == p.reloadEnabled
            && (NoLoad(inputs, compiles) ==> SameLoad(p, q))
            && (!NoLoad(inputs, compiles) ==> exists rs :: LastLoad(inputs, compiles, rs) && RunsRules(q, rs))
  {
    if inputs != [] {
      var front, n := inputs[..|inputs| - 1], |inputs| - 1;
      LastLoadDecides(p, front, compiles);
      HandlersDo(HandleAll(p, front, compiles), inputs[n], compiles);
      assert forall i :: 0 <= i < n ==> front[i] == inputs[i];
      if Loads(inputs[n], compiles) {
        assert LastLoad(inputs, compiles, inputs[n].rules.body.value);
      } else if !NoLoad(front, compiles) {
        var rs :| LastLoad(front, compiles, rs) && RunsRules(HandleAll(p, front, compiles), rs);
        LastLoadStays(inputs, compiles, rs);
      } else {
        assert NoLoad(inputs, compiles);
      }
    }
  }

  lemma LastLoadStays(inputs: seq<Input>, compiles: Waf -> bool, rs: RuleSet)
    requires inputs != [] && LastLoad(inputs[..|inputs| - 1], compiles, rs) && !Loads(inputs[|inputs| - 1], compiles)
    ensures LastLoad(inputs, compiles, rs) && !NoLoad(inputs, compiles)
  {
    var front := inputs[..|inputs| - 1];
    var i :| 0 <= i < |front| && Loads(front[i], compiles) && front[i].rules.body.value == rs
          && forall j :: i < j < |front| ==> !Loads(front[j], compiles);
    assert front[i] == inputs[i];
    assert forall j :: 0 <= j < |front| ==> front[j] == inputs[j];
  }

  /** While every answer fails nothing changes, however many there are and whatever ticks come between. */
  lemma FailingAnswersChangeNothing(p: PluginState, inputs: seq<Input>, compiles: Waf -> bool)
    requires NoLoad(inputs, compiles)
    ensures SameLoad(p, HandleAll(p, inputs, compiles))
  {
    LastLoadDecides(p, inputs, compiles);
  }

  lemma {:induction false} HandleAllJoins(p: PluginState, a: seq<Input>, b: seq<Input>, compiles: Waf -> bool)
    ensures HandleAll(p, a + b, compiles) == HandleAll(HandleAll(p, a, compiles), b, compiles)
  {
    if b == [] {
      assert a + b == a;
    } else {
      HandleAllJoins(p, a, b[..|b| - 1], compiles);
      assert (a + b)[..|a + b| - 1] == a + b[..|b| - 1];
    }
  }

  /** Once there is a default engine, there is one forever. */
  lemma DefaultNeverLost(p: PluginState, before: seq<Input>, after: seq<Input>, compiles: Waf -> bool)
    requires HandleAll(p, before, compiles).table.defaultWAF.Some?
    ensures HandleAll(p, before + after, compiles).table.defaultWAF.Some?
  {
    HandleAllJoins(p, before, after, compiles);
    LastLoadDecides(HandleAll(p, before, compiles), after, compiles);
  }

  // ---- the tick interval ----

  /**
   `max(uint32(seconds * 1000), 2 * cacheTimeoutMs + 1000)`. The product is an int of either width;
   its residue modulo 2^32 is the same for both.
   */
  function TickPeriodMs(seconds: int): (r: int)
    ensures r >= 2 * CACHE_TIMEOUT_MS + 1000
  {
    var wanted := Uint32(seconds * 1000);
    if wanted < 2 * CACHE_TIMEOUT_MS + 1000 then 2 * CACHE_TIMEOUT_MS + 1000 else wanted
  }

  /** The larger of five seconds and the wrapped product. */
  lemma PeriodExactly(seconds: int)
    ensures var wrapped := (seconds * 1000) % 0x1_0000_0000;
            TickPeriodMs(seconds) == if wrapped < 5000 then 5000 else wrapped
  {}

  /** The period is the configured one exactly from 5 seconds up to the largest that fits in 32 bits. */
  lemma PeriodHonoured(seconds: int)
    requires seconds > 0
    ensures TickPeriodMs(seconds) == seconds * 1000 <==> 5 <= seconds <= 4294967
  {
    if seconds > 4294967 {
      assert seconds * 1000 >= 0x1_0000_0000;
    }
  }
}

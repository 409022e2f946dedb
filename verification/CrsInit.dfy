/**
 REQUEST-901-INITIALIZATION.conf: the check that a setup is present, defaults for missing settings, zeroed
 scores, sampling, and the plausibility check of the two levels. Settings that are texts have no part here.
 */
module CrsInit {
  import opened Prelude
  import opened Crs
  import opened CrsGating

  datatype Default = Default(id: nat, variable: Var, value: Operand)

  function Defaults(): seq<Default> {
    [Default(901100, InboundThreshold, Number(5)),
     Default(901110, OutboundThreshold, Number(4)),
     Default(901111, ReportingLevel, Number(4)),
     Default(901115, EarlyBlocking, Number(0)),
     Default(901120, BlockingLevel, Number(1)),
     Default(901125, DetectionLevel, Macro(BlockingLevel)),
     Default(901130, SamplingPercentage, Number(100)),
     Default(901140, Anomaly(Critical), Number(5)),
     Default(901141, Anomaly(Error), Number(4)),
     Default(901142, Anomaly(Warning), Number(3)),
     Default(901143, Anomaly(Notice), Number(2)),
     Default(901167, EnforceUrlencoded, Number(0)),
     Default(901169, ValidateUtf8, Number(0)),
     Default(901170, SkipResponseAnalysis, Number(0))]
  }

  function DefaultRule(d: Default): Item {
    Rule(d.id, 1, Missing(d.variable), [Put(d.variable, d.value)], Pass)
  }

  function DefaultRules(ds: seq<Default>): seq<Item> {
    if ds == [] then [] else DefaultRules(ds[..|ds| - 1]) + [DefaultRule(ds[|ds| - 1])]
  }

  /** The variables that start at zero. */
  function ZeroVars(): seq<Var> {
    [BlockingInbound, DetectionInbound, InboundScore(1), InboundScore(2), InboundScore(3), InboundScore(4),
     AttackScore(SqlInjection), AttackScore(Xss), AttackScore(Rfi), AttackScore(Lfi), AttackScore(Rce),
     AttackScore(PhpInjection), AttackScore(HttpViolation), AttackScore(SessionFixation),
     BlockingOutbound, DetectionOutbound, OutboundScore(1), OutboundScore(2), OutboundScore(3), OutboundScore(4),
     AnomalyScore]
  }

  /** What counts as a score: the sums, the scores of the four levels in both directions, and those of the attacks. */
  predicate IsScore(v: Var) {
    || v.BlockingInbound? || v.DetectionInbound? || v.BlockingOutbound? || v.DetectionOutbound? || v.AnomalyScore?
    || v.AttackScore?
    || (v.InboundScore? && 1 <= v.level <= 4) || (v.OutboundScore? && 1 <= v.level <= 4)
  }

  function Zeroes(vs: seq<Var>): seq<Action> {
    if vs == [] then [] else Zeroes(vs[..|vs| - 1]) + [Put(vs[|vs| - 1], Number(0))]
  }

  const SETUP_CHECK := Rule(901001, 1, Missing(SetupVersion), [], Deny)
  const ZERO_SCORES := Rule(901200, 1, Always, Zeroes(ZeroVars()), Pass)
  const SAMPLE_ALL := Rule(901400, 1, Equal(SamplingPercentage, Number(100)), [], SkipAfter(EndSampling))
  const DRAW := Rule(901410, 1, Inspects, [PutHit(SamplingRnd)], Pass)
  const SAMPLE := Rule(901450, 1, AtLeast(SamplingRnd, Macro(SamplingPercentage)), [], RemoveCrs)
  const PLAUSIBILITY := Rule(901500, 1, Below(DetectionLevel, Macro(BlockingLevel)), [], Deny)

  function Initialization(): seq<Item> {
    [SETUP_CHECK] + DefaultRules(Defaults()) + [ZERO_SCORES] + [SAMPLE_ALL, DRAW, SAMPLE, Mark(EndSampling)] + [PLAUSIBILITY]
  }

  // ---- what the file should settle ----

  predicate IsSetting(v: Var) {
    v.InboundThreshold? || v.OutboundThreshold? || v.ReportingLevel? || v.EarlyBlocking? || v.BlockingLevel?
    || v.DetectionLevel? || v.SamplingPercentage? || v.Anomaly? || v.EnforceUrlencoded? || v.ValidateUtf8?
    || v.SkipResponseAnalysis?
  }

  /** The value a setting has when nothing is configured; the detection level follows the blocking level. */
  function Setting(configured: Vars, v: Var): int
    requires IsSetting(v)
    decreases if v.DetectionLevel? then 1 else 0
  {
    if v in configured then configured[v]
    else
      match v
      case InboundThreshold => 5
      case OutboundThreshold => 4
      case ReportingLevel => 4
      case BlockingLevel => 1
      case DetectionLevel => Setting(configured, BlockingLevel)
      case SamplingPercentage => 100
      case Anomaly(w) => (match w case Critical => 5 case Error => 4 case Warning => 3 case Notice => 2)
      case _ => 0
  }

  /** The request is left unchecked: the number drawn from its id is not below the percentage. */
  predicate SampledOut(configured: Vars, draws: seq<Hit>) {
    var percentage := Setting(configured, SamplingPercentage);
    && percentage != 100
    && if draws != [] then draws[|draws| - 1].number >= percentage
       else SamplingRnd in configured && configured[SamplingRnd] >= percentage
  }

  // ---- defaults ----

  function ApplyDefaults(vars: Vars, ds: seq<Default>): Vars {
    if ds == [] then vars
    else
      var before, d := ApplyDefaults(vars, ds[..|ds| - 1]), ds[|ds| - 1];
      if d.variable in before then before else before[d.variable := Eval(before, d.value)]
  }

  lemma {:induction false} DefaultsRun(s: Tx, ds: seq<Default>, verdicts: Verdicts)
    requires Open(s)
    ensures var t := Run(s, DefaultRules(ds), 1, verdicts); t == s.(tried := t.tried, vars := ApplyDefaults(s.vars, ds))
  {
    if ds != [] {
      var front, d := ds[..|ds| - 1], ds[|ds| - 1];
      DefaultsRun(s, front, verdicts);
      RunConcat(s, DefaultRules(front), [DefaultRule(d)], 1, verdicts);
      var t := Run(s, DefaultRules(front), 1, verdicts);
      RunOne(t, DefaultRule(d), 1, verdicts);
      OneHit(t.vars, DefaultRule(d).actions, PLAIN);
      OneAction(t.vars, DefaultRule(d).actions[0], PLAIN);
    }
  }

  /** What is set stays as it is, and what has no default stays missing. */
  lemma {:induction false} DefaultsKeep(vars: Vars, ds: seq<Default>, v: Var)
    requires v in vars || forall i :: 0 <= i < |ds| ==> ds[i].variable != v
    ensures Same(ApplyDefaults(vars, ds), vars, v)
  {
    if ds != [] {
      DefaultsKeep(vars, ds[..|ds| - 1], v);
    }
  }

  lemma {:induction false} DefaultsDecide(vars: Vars, ds: seq<Default>, k: nat)
    requires k < |ds| && forall i, j :: 0 <= i < j < |ds| ==> ds[i].variable != ds[j].variable
    ensures var v := ds[k].variable;
            && v in ApplyDefaults(vars, ds)
            && ApplyDefaults(vars, ds)[v] == if v in vars then vars[v] else Eval(ApplyDefaults(vars, ds[..k]), ds[k].value)
  {
    var front := ds[..|ds| - 1];
    if k == |ds| - 1 {
      DefaultsKeep(vars, front, ds[k].variable);
    } else {
      DefaultsDecide(vars, front, k);
      assert front[..k] == ds[..k];
    }
  }

  function Position(v: Var): (k: nat)
    requires IsSetting(v)
    ensures k < |Defaults()| && Defaults()[k].variable == v
  {
    match v
    case InboundThreshold => 0
    case OutboundThreshold => 1
    case ReportingLevel => 2
    case EarlyBlocking => 3
    case BlockingLevel => 4
    case DetectionLevel => 5
    case SamplingPercentage => 6
    case Anomaly(w) => (match w case Critical => 7 case Error => 8 case Warning => 9 case Notice => 10)
    case EnforceUrlencoded => 11
    case ValidateUtf8 => 12
    case _ => 13
  }

  lemma DefaultsDistinct()
    ensures forall i, j :: 0 <= i < j < |Defaults()| ==> Defaults()[i].variable != Defaults()[j].variable
  {
    forall i, j | 0 <= i < j < |Defaults()| ensures Defaults()[i].variable != Defaults()[j].variable {
      assert IsSetting(Defaults()[i].variable) && Position(Defaults()[i].variable) == i;
      assert IsSetting(Defaults()[j].variable) && Position(Defaults()[j].variable) == j;
    }
  }

  lemma FirstFiveHold(configured: Vars)
    ensures var v := ApplyDefaults(configured, Defaults()[..5]);
            BlockingLevel in v && v[BlockingLevel] == Setting(configured, BlockingLevel)
  {
    DefaultsDistinct();
    var front := Defaults()[..5];
    assert front[4] == Default(901120, BlockingLevel, Number(1));
    DefaultsDecide(configured, front, 4);
  }

  lemma SettingsHold(configured: Vars, v: Var)
    requires IsSetting(v)
    ensures v in ApplyDefaults(configured, Defaults()) && ApplyDefaults(configured, Defaults())[v] == Setting(configured, v)
  {
    DefaultsDistinct();
    DefaultsDecide(configured, Defaults(), Position(v));
    if v.DetectionLevel? {
      FirstFiveHold(configured);
    } else if v !in configured {
      DefaultValues(configured, v);
    }
  }

  lemma DefaultValues(configured: Vars, v: Var)
    requires IsSetting(v) && v !in configured && !v.DetectionLevel?
    ensures Defaults()[Position(v)].value == Number(Setting(configured, v))
  {}

  lemma OtherVarsKept(configured: Vars, v: Var)
    requires !IsSetting(v)
    ensures Same(ApplyDefaults(configured, Defaults()), configured, v)
  {
    DefaultsKeep(configured, Defaults(), v);
  }

  // ---- zeroing ----

  lemma {:induction false} ZeroesApply(vars: Vars, vs: seq<Var>, hit: Hit, v: Var)
    ensures var after := ApplyAll(vars, Zeroes(vs), hit);
            if v in vs then v in after && after[v] == 0 else Same(after, vars, v)
  {
    if vs != [] {
      ZeroesApply(vars, vs[..|vs| - 1], hit, v);
      assert vs == vs[..|vs| - 1] + [vs[|vs| - 1]];
    }
  }

  // ---- the whole file ----

  /** The variables after the defaults and the zeroing. */
  function Prepared(configured: Vars): Vars {
    ApplyAll(ApplyDefaults(configured, Defaults()), Zeroes(ZeroVars()), PLAIN)
  }

  function ScorePosition(v: Var): (k: nat)
    requires IsScore(v)
    ensures k < |ZeroVars()| && ZeroVars()[k] == v
  {
    match v
    case BlockingInbound => 0
    case DetectionInbound => 1
    case InboundScore(n) => 1 + n
    case AttackScore(a) =>
      (match a case SqlInjection => 6 case Xss => 7 case Rfi => 8 case Lfi => 9 case Rce => 10
               case PhpInjection => 11 case HttpViolation => 12 case SessionFixation => 13)
    case BlockingOutbound => 14
    case DetectionOutbound => 15
    case OutboundScore(n) => 15 + n
    case _ => 20
  }

  /** Exactly the scores are zeroed. */
  lemma ScoresZeroed(v: Var)
    ensures v in ZeroVars() <==> IsScore(v)
  {
    if IsScore(v) {
      assert ZeroVars()[ScorePosition(v)] == v;
    }
  }

  lemma PreparedVars(configured: Vars, v: Var)
    ensures var after := Prepared(configured);
            && (IsSetting(v) ==> v in after && after[v] == Setting(configured, v))
            && (IsScore(v) ==> v in after && after[v] == 0)
            && (!IsSetting(v) && !IsScore(v) ==> Same(after, configured, v))
  {
    ZeroesApply(ApplyDefaults(configured, Defaults()), ZeroVars(), PLAIN, v);
    ScoresZeroed(v);
    if IsSetting(v) {
      SettingsHold(configured, v);
    } else {
      OtherVarsKept(configured, v);
    }
  }

  lemma SetupMissing(s: Tx, items: seq<Item>, verdicts: Verdicts)
    requires Open(s) && SetupVersion !in s.vars
    ensures Run(s, [SETUP_CHECK] + items, 1, verdicts) == s.(tried := s.tried + [901001], denied := Some(901001))
  {
    RunConcat(s, [SETUP_CHECK], items, 1, verdicts);
    RunOne(s, SETUP_CHECK, 1, verdicts);
    NoActions(s.vars, [PLAIN]);
    DeniedStays(Step(s, SETUP_CHECK, 1, verdicts), items, 1, verdicts);
  }

  lemma SetupPresent(s: Tx, items: seq<Item>, verdicts: Verdicts)
    requires Open(s) && SetupVersion in s.vars
    ensures Run(s, [SETUP_CHECK] + items, 1, verdicts) == Run(s.(tried := s.tried + [901001]), items, 1, verdicts)
  {
    RunConcat(s, [SETUP_CHECK], items, 1, verdicts);
    RunOne(s, SETUP_CHECK, 1, verdicts);
  }

  lemma Prepares(s: Tx, verdicts: Verdicts)
    requires Open(s)
    ensures var t := Run(s, DefaultRules(Defaults()) + [ZERO_SCORES], 1, verdicts);
            t == s.(tried := t.tried, vars := Prepared(s.vars))
  {
    RunConcat(s, DefaultRules(Defaults()), [ZERO_SCORES], 1, verdicts);
    DefaultsRun(s, Defaults(), verdicts);
    var t := Run(s, DefaultRules(Defaults()), 1, verdicts);
    RunOne(t, ZERO_SCORES, 1, verdicts);
    OneHit(t.vars, ZERO_SCORES.actions, PLAIN);
  }

  /** The number the sampling decides on. */
  function Drawn(vars: Vars, draws: seq<Hit>): Vars {
    if draws == [] then vars else vars[SamplingRnd := draws[|draws| - 1].number]
  }

  lemma {:induction false} DrawLast(vars: Vars, draws: seq<Hit>)
    ensures ApplyHits(vars, [PutHit(SamplingRnd)], draws) == Drawn(vars, draws)
  {
    if draws != [] {
      DrawLast(vars, draws[..|draws| - 1]);
      OneAction(ApplyHits(vars, [PutHit(SamplingRnd)], draws[..|draws| - 1]), PutHit(SamplingRnd), draws[|draws| - 1]);
    }
  }

  function Sampling(): seq<Item> {
    [SAMPLE_ALL, DRAW, SAMPLE, Mark(EndSampling)]
  }

  /** At 100 percent the drawing is skipped and every request is checked. */
  lemma SamplesAll(s: Tx, verdicts: Verdicts)
    requires Open(s) && SamplingPercentage in s.vars && s.vars[SamplingPercentage] == 100
    ensures Run(s, Sampling(), 1, verdicts) == s
  {
    FourSteps(s, SAMPLE_ALL, DRAW, SAMPLE, Mark(EndSampling), 1, verdicts);
    NoActions(s.vars, [PLAIN]);
  }

  lemma DrawStep(s: Tx, verdicts: Verdicts)
    requires Open(s)
    ensures var t := Step(s, DRAW, 1, verdicts); t == s.(tried := s.tried + [901410], vars := Drawn(s.vars, verdicts(901410)))
  {
    DrawLast(s.vars, verdicts(901410));
  }

  lemma SampleStep(s: Tx, verdicts: Verdicts)
    requires Open(s) && SamplingPercentage in s.vars
    ensures Step(s, SAMPLE, 1, verdicts)
         == s.(tried := s.tried + [901450], removed := SamplingRnd in s.vars && s.vars[SamplingRnd] >= s.vars[SamplingPercentage])
  {
    NoActions(s.vars, [PLAIN]);
  }

  lemma SamplesSome(s: Tx, verdicts: Verdicts)
    requires Open(s) && SamplingPercentage in s.vars && s.vars[SamplingPercentage] != 100
    ensures var t := Run(s, Sampling(), 1, verdicts);
            var w := Drawn(s.vars, verdicts(901410));
            t == s.(tried := t.tried, vars := w, removed := SamplingRnd in w && w[SamplingRnd] >= s.vars[SamplingPercentage])
  {
    FourSteps(s, SAMPLE_ALL, DRAW, SAMPLE, Mark(EndSampling), 1, verdicts);
    assert Step(s, SAMPLE_ALL, 1, verdicts) == s;
    DrawStep(s, verdicts);
    var t := Step(s, DRAW, 1, verdicts);
    SampleStep(t, verdicts);
  }

  /** What the settings and scores are, and what happens to the request, by the end of the file. */
  predicate Initialized(configured: Vars, t: Tx, draws: seq<Hit>) {
    && t.skip.None?
    && SameButRnd(t.vars, Prepared(configured))
    && (t.removed <==> SampledOut(configured, draws))
    && t.denied == if !t.removed && Setting(configured, DetectionLevel) < Setting(configured, BlockingLevel) then Some(901500) else None
  }

  predicate SameButRnd(a: Vars, b: Vars) {
    a - {SamplingRnd} == b - {SamplingRnd}
  }

  lemma RndAside(a: Vars, b: Vars, v: Var)
    requires SameButRnd(a, b) && v != SamplingRnd
    ensures Same(a, b, v)
  {
    assert v in a <==> v in a - {SamplingRnd};
    assert v in b <==> v in b - {SamplingRnd};
    if v in a {
      assert (a - {SamplingRnd})[v] == a[v];
      assert (b - {SamplingRnd})[v] == b[v];
    }
  }

  lemma DrawnAside(vars: Vars, draws: seq<Hit>)
    ensures SameButRnd(Drawn(vars, draws), vars)
  {}

  lemma Samples(s: Tx, configured: Vars, verdicts: Verdicts)
    requires Open(s) && s.vars == Prepared(configured)
    ensures var t := Run(s, Sampling(), 1, verdicts);
            && t == s.(tried := t.tried, vars := t.vars, removed := SampledOut(configured, verdicts(901410)))
            && SameButRnd(t.vars, s.vars)
  {
    PreparedVars(configured, SamplingPercentage);
    PreparedVars(configured, SamplingRnd);
    if s.vars[SamplingPercentage] == 100 {
      SamplesAll(s, verdicts);
      assert !SampledOut(configured, verdicts(901410));
    } else {
      SamplesSome(s, verdicts);
      DrawnAside(s.vars, verdicts(901410));
    }
  }

  lemma ChecksLevels(s: Tx, configured: Vars, verdicts: Verdicts)
    requires s.skip.None? && s.denied.None? && SameButRnd(s.vars, Prepared(configured))
    ensures var t := Run(s, [PLAUSIBILITY], 1, verdicts);
            t == s.(tried := t.tried,
                    denied := if !s.removed && Setting(configured, DetectionLevel) < Setting(configured, BlockingLevel)
                              then Some(901500) else None)
  {
    RunOne(s, PLAUSIBILITY, 1, verdicts);
    NoActions(s.vars, [PLAIN]);
    PreparedVars(configured, DetectionLevel);
    PreparedVars(configured, BlockingLevel);
    RndAside(s.vars, Prepared(configured), DetectionLevel);
    RndAside(s.vars, Prepared(configured), BlockingLevel);
  }

  /**
   Without a setup the request is denied at once. Otherwise every setting is the configured one or its
   default, every score is zero, everything else is untouched; a sampled-out request loses all further
   rules, and of the others exactly those with a detection level below the blocking level are denied.
   */
  lemma InitializationOutcome(s: Tx, verdicts: Verdicts)
    requires Open(s)
    ensures var t := Run(s, Initialization(), 1, verdicts);
            if SetupVersion !in s.vars then t == s.(tried := t.tried, denied := Some(901001))
            else Initialized(s.vars, t, verdicts(901410))
  {
    var rest := DefaultRules(Defaults()) + [ZERO_SCORES] + Sampling() + [PLAUSIBILITY];
    assert Initialization() == [SETUP_CHECK] + rest;
    if SetupVersion !in s.vars {
      SetupMissing(s, rest, verdicts);
    } else {
      SetupPresent(s, rest, verdicts);
      var s0 := s.(tried := s.tried + [901001]);
      InitializationRest(s0, verdicts);
    }
  }

  lemma InitializationRest(s: Tx, verdicts: Verdicts)
    requires Open(s)
    ensures Initialized(s.vars, Run(s, DefaultRules(Defaults()) + [ZERO_SCORES] + Sampling() + [PLAUSIBILITY], 1, verdicts), verdicts(901410))
  {
    RunConcat(s, DefaultRules(Defaults()) + [ZERO_SCORES] + Sampling(), [PLAUSIBILITY], 1, verdicts);
    RunConcat(s, DefaultRules(Defaults()) + [ZERO_SCORES], Sampling(), 1, verdicts);
    Prepares(s, verdicts);
    var t := Run(s, DefaultRules(Defaults()) + [ZERO_SCORES], 1, verdicts);
    Samples(t, s.vars, verdicts);
    ChecksLevels(Run(t, Sampling(), 1, verdicts), s.vars, verdicts);
  }
}

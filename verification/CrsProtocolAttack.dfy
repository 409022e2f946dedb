/** REQUEST-921-PROTOCOL-ATTACK.conf: a detection file with rules at all four levels, and the scores it gives. */
module CrsProtocolAttack {
  import opened Crs
  import opened CrsGating

  /** A rule that adds the critical score to its level, and to the HTTP violations where it says so. */
  function Scoring(id: nat, phase: nat, level: nat, violation: bool): Item {
    Rule(id, phase, Inspects, ScoreActions(level, violation), Pass)
  }

  function ScoreActions(level: nat, violation: bool): seq<Action> {
    if violation
    then [Add(AttackScore(HttpViolation), Macro(Anomaly(Critical))), Add(InboundScore(level), Macro(Anomaly(Critical)))]
    else [Add(InboundScore(level), Macro(Anomaly(Critical)))]
  }

  const VIOLATION := AttackScore(HttpViolation)

  function LevelOne(): seq<Item> {
    [Scoring(921110, 2, 1, true), Scoring(921120, 2, 1, true), Scoring(921130, 2, 1, true),
     Scoring(921140, 1, 1, true), Scoring(921150, 2, 1, true), Scoring(921160, 1, 1, true),
     Scoring(921190, 1, 1, true), Scoring(921200, 2, 1, false), Scoring(921421, 1, 1, false),
     Scoring(921240, 1, 1, false), Scoring(921250, 1, 1, false)]
  }

  function LevelTwo(): seq<Item> {
    [Scoring(921151, 1, 2, true), Scoring(921422, 1, 2, false)]
  }

  const RANGE := Scoring(921230, 1, 3, false)
  const BOGUS_ARRAY := Scoring(921210, 2, 3, true)
  const COUNT_NAMES := Rule(921170, 2, Inspects, [CountHit], Pass)
  const POLLUTED := Rule(921180, 2, CountersAbove(1), ScoreActions(3, true), Pass)

  function LevelThree(): seq<Item> {
    [RANGE, COUNT_NAMES, POLLUTED, BOGUS_ARRAY]
  }

  function LevelFour(): seq<Item> {
    [Scoring(921220, 2, 4, true)]
  }

  function Bodies(): seq<seq<Item>> {
    [LevelOne(), LevelTwo(), LevelThree(), LevelFour()]
  }

  function ProtocolAttack(): seq<Item> {
    Gated(921, Bodies())
  }

  // ---- what the file should score ----

  function Times(hits: seq<Hit>, name: string): nat {
    if hits == [] then 0
    else Times(hits[..|hits| - 1], name) + if hits[|hits| - 1].name == name then 1 else 0
  }

  /** The parameter names that occur more than once. */
  function Repeated(hits: seq<Hit>): set<Var> {
    set h | h in hits && Times(hits, h.name) > 1 :: ParamCounter(h.name)
  }

  /** The matches of all inspecting rules of a phase. */
  function HitCount(items: seq<Item>, phase: nat, verdicts: Verdicts): nat {
    if items == [] then 0
    else
      var last := items[|items| - 1];
      HitCount(items[..|items| - 1], phase, verdicts)
      + if last.Rule? && last.phase == phase && last.test.Inspects? then |verdicts(last.id)| else 0
  }

  /**
   How often level `n` of the file scores, rule by rule, as the file says with the phase of each rule and the
   level it adds to; at level 3 a parameter name that is repeated scores once.
   */
  function Scores(n: nat, phase: nat, v: Verdicts): nat {
    match (n, phase)
    case (1, 1) => |v(921140)| + |v(921160)| + |v(921190)| + |v(921421)| + |v(921240)| + |v(921250)|
    case (1, 2) => |v(921110)| + |v(921120)| + |v(921130)| + |v(921150)| + |v(921200)|
    case (2, 1) => |v(921151)| + |v(921422)|
    case (3, 1) => |v(921230)|
    case (3, 2) => |Repeated(v(921170))| + |v(921210)|
    case (4, 2) => |v(921220)|
    case _ => 0
  }

  predicate CountsViolation(item: Item) {
    item.Rule? && |item.actions| == 2
  }

  /** The matches of those inspecting rules of a phase that also count as HTTP violations. */
  function ViolationHits(items: seq<Item>, phase: nat, verdicts: Verdicts): nat {
    if items == [] then 0
    else
      var last := items[|items| - 1];
      ViolationHits(items[..|items| - 1], phase, verdicts)
      + if CountsViolation(last) && last.phase == phase && last.test.Inspects? then |verdicts(last.id)| else 0
  }

  /** How often level `n` of the file counts a violation, rule by rule. */
  function Violations(n: nat, phase: nat, v: Verdicts): nat {
    match (n, phase)
    case (1, 1) => |v(921140)| + |v(921160)| + |v(921190)|
    case (1, 2) => |v(921110)| + |v(921120)| + |v(921130)| + |v(921150)|
    case (2, 1) => |v(921151)|
    case (3, 2) => |Repeated(v(921170))| + |v(921210)|
    case (4, 2) => |v(921220)|
    case _ => 0
  }

  /** What one rule adds to the two counts. */
  function Counted(item: Item, phase: nat, v: Verdicts): nat {
    if item.Rule? && item.phase == phase && item.test.Inspects? then |v(item.id)| else 0
  }

  lemma PrefixCounts(items: seq<Item>, k: nat, phase: nat, v: Verdicts)
    requires k < |items|
    ensures HitCount(items[..k + 1], phase, v) == HitCount(items[..k], phase, v) + Counted(items[k], phase, v)
    ensures ViolationHits(items[..k + 1], phase, v)
         == ViolationHits(items[..k], phase, v) + if CountsViolation(items[k]) then Counted(items[k], phase, v) else 0
  {
    assert items[..k + 1][..k] == items[..k];
  }

  lemma LevelOneFront(phase: nat, v: Verdicts)
    requires phase == 1 || phase == 2
    ensures HitCount(LevelOne()[..6], phase, v)
         == if phase == 1 then |v(921140)| + |v(921160)| else |v(921110)| + |v(921120)| + |v(921130)| + |v(921150)|
    ensures ViolationHits(LevelOne()[..6], phase, v) == HitCount(LevelOne()[..6], phase, v)
  {
    hide HitCount, ViolationHits;
    var l := LevelOne();
    NothingCounts(phase, v);
    assert l[..0] == [];
    PrefixCounts(l, 0, phase, v);
    PrefixCounts(l, 1, phase, v);
    PrefixCounts(l, 2, phase, v);
    PrefixCounts(l, 3, phase, v);
    PrefixCounts(l, 4, phase, v);
    PrefixCounts(l, 5, phase, v);
  }

  lemma LevelOneCounts(phase: nat, v: Verdicts)
    requires phase == 1 || phase == 2
    ensures HitCount(LevelOne(), phase, v) == Scores(1, phase, v) && ViolationHits(LevelOne(), phase, v) == Violations(1, phase, v)
  {
    hide HitCount, ViolationHits;
    var l := LevelOne();
    LevelOneFront(phase, v);
    PrefixCounts(l, 6, phase, v);
    PrefixCounts(l, 7, phase, v);
    PrefixCounts(l, 8, phase, v);
    PrefixCounts(l, 9, phase, v);
    PrefixCounts(l, 10, phase, v);
    assert l[..11] == l;
  }

  lemma NothingCounts(phase: nat, v: Verdicts)
    ensures HitCount([], phase, v) == 0 && ViolationHits([], phase, v) == 0
  {}

  /** The lists count as the file says, rule by rule. */
  lemma LevelCounts(n: nat, phase: nat, v: Verdicts)
    requires (n == 1 || n == 2 || n == 4) && (phase == 1 || phase == 2)
    ensures HitCount(Bodies()[n - 1], phase, v) == Scores(n, phase, v)
    ensures ViolationHits(Bodies()[n - 1], phase, v) == Violations(n, phase, v)
  {
    if n == 1 {
      LevelOneCounts(phase, v);
    } else {
      hide HitCount, ViolationHits;
      var l := Bodies()[n - 1];
      NothingCounts(phase, v);
      PrefixCounts(l, 0, phase, v);
      if n == 2 { PrefixCounts(l, 1, phase, v); }
      assert l[..0] == [] && l[..|l|] == l;
    }
  }

  /** The violations of levels `n` to 4 that the detection level reaches. */
  function AllViolations(n: nat, detection: int, phase: nat, verdicts: Verdicts): nat
    decreases 5 - n
  {
    if n > 4 || n > detection then 0 else Violations(n, phase, verdicts) + AllViolations(n + 1, detection, phase, verdicts)
  }

  predicate NoCounters(vars: Vars) {
    forall v :: v in vars ==> !v.ParamCounter?
  }

  // ---- one rule ----

  lemma ScoreOnce(vars: Vars, level: nat, violation: bool, hit: Hit)
    ensures var after := ApplyAll(vars, ScoreActions(level, violation), hit);
            && Val(after, InboundScore(level)) == Val(vars, InboundScore(level)) + Val(vars, Anomaly(Critical))
            && Val(after, VIOLATION) == Val(vars, VIOLATION) + (if violation then Val(vars, Anomaly(Critical)) else 0)
            && Val(after, Anomaly(Critical)) == Val(vars, Anomaly(Critical))
  {
    var actions := ScoreActions(level, violation);
    if violation {
      assert actions[..1] == [actions[0]];
      OneAction(vars, actions[0], hit);
    } else {
      OneAction(vars, actions[0], hit);
    }
  }

  lemma {:induction false} ScoreEach(vars: Vars, level: nat, violation: bool, hits: seq<Hit>)
    ensures var after := ApplyHits(vars, ScoreActions(level, violation), hits);
            && Val(after, InboundScore(level)) == Val(vars, InboundScore(level)) + |hits| * Val(vars, Anomaly(Critical))
            && Val(after, VIOLATION) == Val(vars, VIOLATION) + (if violation then |hits| else 0) * Val(vars, Anomaly(Critical))
            && Val(after, Anomaly(Critical)) == Val(vars, Anomaly(Critical))
  {
    if hits != [] {
      var front := hits[..|hits| - 1];
      ScoreEach(vars, level, violation, front);
      ScoreOnce(ApplyHits(vars, ScoreActions(level, violation), front), level, violation, hits[|hits| - 1]);
      assert |hits| * Val(vars, Anomaly(Critical)) == |front| * Val(vars, Anomaly(Critical)) + Val(vars, Anomaly(Critical));
    }
  }

  /** A rule with these actions that looks at the request or at the counters. */
  predicate ScoresLevel(item: Item, level: nat) {
    && item.Rule? && item.flow.Pass? && (item.test.Inspects? || item.test.CountersAbove?)
    && (item.actions == ScoreActions(level, true) || item.actions == ScoreActions(level, false))
  }

  /** The effect of scoring `count` times at a level and counting `violations`. */
  predicate Scored(s: Tx, t: Tx, level: nat, count: nat, violations: nat) {
    && Open(t)
    && Val(t.vars, InboundScore(level)) == Val(s.vars, InboundScore(level)) + count * Val(s.vars, Anomaly(Critical))
    && Val(t.vars, VIOLATION) == Val(s.vars, VIOLATION) + violations * Val(s.vars, Anomaly(Critical))
    && Val(t.vars, Anomaly(Critical)) == Val(s.vars, Anomaly(Critical))
  }

  lemma StepScores(s: Tx, item: Item, level: nat, phase: nat, verdicts: Verdicts)
    requires Open(s) && ScoresLevel(item, level)
    ensures var n := if item.phase == phase then |Hits(item.test, s.vars, verdicts(item.id))| else 0;
            Scored(s, Step(s, item, phase, verdicts), level, n, if CountsViolation(item) then n else 0)
  {
    if item.phase == phase {
      var hits := Hits(item.test, s.vars, verdicts(item.id));
      if item.actions == ScoreActions(level, true) {
        ScoreEach(s.vars, level, true, hits);
      } else {
        ScoreEach(s.vars, level, false, hits);
      }
    }
  }

  lemma ScoredTwice(s: Tx, t: Tx, u: Tx, level: nat, m: nat, k: nat, n: nat, l: nat)
    requires Scored(s, t, level, m, k) && Scored(t, u, level, n, l)
    ensures Scored(s, u, level, m + n, k + l)
  {
    var c := Val(s.vars, Anomaly(Critical));
    assert (m + n) * c == m * c + n * c;
    assert (k + l) * c == k * c + l * c;
  }

  // ---- one level ----

  predicate AllInspect(items: seq<Item>, level: nat) {
    forall i :: 0 <= i < |items| ==> ScoresLevel(items[i], level) && items[i].test.Inspects?
  }

  lemma {:induction false} LevelScores(s: Tx, items: seq<Item>, level: nat, phase: nat, verdicts: Verdicts)
    requires Open(s) && AllInspect(items, level)
    ensures Scored(s, Run(s, items, phase, verdicts), level, HitCount(items, phase, verdicts), ViolationHits(items, phase, verdicts))
  {
    if items != [] {
      var front, last := items[..|items| - 1], items[|items| - 1];
      LevelScores(s, front, level, phase, verdicts);
      var t := Run(s, front, phase, verdicts);
      StepScores(t, last, level, phase, verdicts);
      var n := if last.phase == phase then |verdicts(last.id)| else 0;
      ScoredTwice(s, t, Run(s, items, phase, verdicts), level, HitCount(front, phase, verdicts), ViolationHits(front, phase, verdicts),
                  n, if CountsViolation(last) then n else 0);
    }
  }

  /** The counters count the names. */
  lemma {:induction false} CountersCount(vars: Vars, hits: seq<Hit>, name: string)
    requires NoCounters(vars)
    ensures var after := ApplyHits(vars, [CountHit], hits);
            && Val(after, ParamCounter(name)) == Times(hits, name)
            && (ParamCounter(name) in after <==> Times(hits, name) > 0)
  {
    if hits != [] {
      CountersCount(vars, hits[..|hits| - 1], name);
      OneAction(ApplyHits(vars, [CountHit], hits[..|hits| - 1]), CountHit, hits[|hits| - 1]);
    }
  }

  lemma {:induction false} TimesPositive(hits: seq<Hit>, name: string)
    requires Times(hits, name) > 0
    ensures exists h :: h in hits && h.name == name
  {
    var front, last := hits[..|hits| - 1], hits[|hits| - 1];
    if last.name == name {
      assert last in hits;
    } else {
      TimesPositive(front, name);
      var h :| h in front && h.name == name;
      assert h in hits;
    }
  }

  /** 921180 matches once for every name that 921170 saw more than once. */
  lemma PollutedNames(vars: Vars, hits: seq<Hit>)
    requires NoCounters(vars)
    ensures CountersOver(ApplyHits(vars, [CountHit], hits), 1) == Repeated(hits)
  {
    var after := ApplyHits(vars, [CountHit], hits);
    forall v | v in CountersOver(after, 1) ensures v in Repeated(hits) {
      CountersCount(vars, hits, v.name);
      TimesPositive(hits, v.name);
      var h :| h in hits && h.name == v.name;
    }
    forall v | v in Repeated(hits) ensures v in CountersOver(after, 1) {
      CountersCount(vars, hits, v.name);
    }
  }

  lemma StepCounts(s: Tx, verdicts: Verdicts)
    requires Open(s) && NoCounters(s.vars)
    ensures var t := Step(s, COUNT_NAMES, 2, verdicts);
            && Scored(s, t, 3, 0, 0) && CountersOver(t.vars, 1) == Repeated(verdicts(921170))
  {
    PollutedNames(s.vars, verdicts(921170));
    StepKeeps(s, COUNT_NAMES, 2, verdicts, InboundScore(3));
    StepKeeps(s, COUNT_NAMES, 2, verdicts, Anomaly(Critical));
    StepKeeps(s, COUNT_NAMES, 2, verdicts, VIOLATION);
  }

  /** The phase-2 rules of level 3. */
  lemma PollutionScores(s: Tx, bogus: Item, verdicts: Verdicts)
    requires Open(s) && NoCounters(s.vars)
    requires ScoresLevel(bogus, 3) && bogus.test.Inspects? && bogus.phase == 2 && CountsViolation(bogus)
    ensures var n := |Repeated(verdicts(921170))| + |verdicts(bogus.id)|;
            Scored(s, Step(Step(Step(s, COUNT_NAMES, 2, verdicts), POLLUTED, 2, verdicts), bogus, 2, verdicts), 3, n, n)
  {
    hide Step, Scored, Repeated, ScoresLevel;
    var t1 := Step(s, COUNT_NAMES, 2, verdicts);
    StepCounts(s, verdicts);
    var t2 := Step(t1, POLLUTED, 2, verdicts);
    StepScores(t1, POLLUTED, 3, 2, verdicts);
    var m, n := |Repeated(verdicts(921170))|, |verdicts(bogus.id)|;
    ScoredTwice(s, t1, t2, 3, 0, 0, m, m);
    StepScores(t2, bogus, 3, 2, verdicts);
    ScoredTwice(s, t2, Step(t2, bogus, 2, verdicts), 3, m, m, n, n);
  }

  lemma LevelThreeRuns(s: Tx, phase: nat, verdicts: Verdicts)
    ensures Run(s, LevelThree(), phase, verdicts)
         == Step(Step(Step(Step(s, RANGE, phase, verdicts), COUNT_NAMES, phase, verdicts), POLLUTED, phase, verdicts),
                 BOGUS_ARRAY, phase, verdicts)
  {
    hide Step, Run;
    FourSteps(s, RANGE, COUNT_NAMES, POLLUTED, BOGUS_ARRAY, phase, verdicts);
  }

  lemma LevelThreeHeaders(s: Tx, verdicts: Verdicts)
    requires Open(s)
    ensures Scored(s, Run(s, LevelThree(), 1, verdicts), 3, Scores(3, 1, verdicts), Violations(3, 1, verdicts))
  {
    LevelThreeRuns(s, 1, verdicts);
    StepScores(s, RANGE, 3, 1, verdicts);
  }

  lemma RangeWaits(s: Tx, verdicts: Verdicts)
    ensures Step(s, RANGE, 2, verdicts) == s
  {}

  lemma LevelThreeArguments(s: Tx, verdicts: Verdicts)
    requires Open(s) && NoCounters(s.vars)
    ensures Scored(s, Run(s, LevelThree(), 2, verdicts), 3, Scores(3, 2, verdicts), Violations(3, 2, verdicts))
  {
    hide Step, Scored, Repeated;
    LevelThreeRuns(s, 2, verdicts);
    PollutionScores(s, BOGUS_ARRAY, verdicts);
    RangeWaits(s, verdicts);
  }

  // ---- the whole file ----

  /** What every rule of level `n` is like. */
  predicate OfLevel(item: Item, n: nat) {
    ScoresLevel(item, n) || (n == 3 && item == COUNT_NAMES)
  }

  predicate AllOfLevel(body: seq<Item>, n: nat) {
    forall i :: 0 <= i < |body| ==> OfLevel(body[i], n)
  }

  lemma BodiesWellFormed(n: nat)
    requires 1 <= n <= 4
    ensures AllOfLevel(Bodies()[n - 1], n)
    ensures n != 3 ==> AllInspect(Bodies()[n - 1], n)
  {}

  lemma OfLevelWrites(item: Item, n: nat, v: Var)
    requires OfLevel(item, n)
    ensures Writes(item, v) ==> v == InboundScore(n) || v == AttackScore(HttpViolation) || (n == 3 && v.ParamCounter?)
  {}

  lemma OfLevelGated(body: seq<Item>, level: nat)
    requires AllOfLevel(body, level)
    ensures AddsOnlyTo(body, level) && LevelRules(921, body)
  {
    forall i, n: nat | 0 <= i < |body| && Writes(body[i], InboundScore(n)) ensures n == level {
      OfLevelWrites(body[i], level, InboundScore(n));
    }
    forall i | 0 <= i < |body| ensures !Writes(body[i], DetectionLevel) {
      OfLevelWrites(body[i], level, DetectionLevel);
    }
  }

  lemma BodiesGated()
    ensures AllLevelRules(921, Bodies()) && OwnScoreOnly(Bodies())
  {
    forall k | 0 <= k < 4 ensures AddsOnlyTo(Bodies()[k], k + 1) && LevelRules(921, Bodies()[k]) {
      BodiesWellFormed(k + 1);
      OfLevelGated(Bodies()[k], k + 1);
    }
  }

  lemma LevelKeeps(s: Tx, n: nat, phase: nat, verdicts: Verdicts, v: Var)
    requires 1 <= n <= 4 && v != InboundScore(n) && v != AttackScore(HttpViolation) && !(n == 3 && v.ParamCounter?)
    ensures Same(Run(s, Bodies()[n - 1], phase, verdicts).vars, s.vars, v)
  {
    var body := Bodies()[n - 1];
    BodiesWellFormed(n);
    forall i | 0 <= i < |body| ensures !Writes(body[i], v) {
      OfLevelWrites(body[i], n, v);
    }
    RunKeeps(s, body, phase, verdicts, v);
  }

  lemma OneLevel(s: Tx, n: nat, phase: nat, verdicts: Verdicts)
    requires Open(s) && 1 <= n <= 4 && (phase == 1 || phase == 2) && (n <= 3 ==> NoCounters(s.vars))
    ensures var t := Run(s, Bodies()[n - 1], phase, verdicts);
            && Scored(s, t, n, Scores(n, phase, verdicts), Violations(n, phase, verdicts)) && (n < 3 ==> NoCounters(t.vars))
  {
    BodiesWellFormed(n);
    var t := Run(s, Bodies()[n - 1], phase, verdicts);
    if n == 3 {
      if phase == 1 {
        LevelThreeHeaders(s, verdicts);
      } else {
        LevelThreeArguments(s, verdicts);
      }
    } else {
      LevelScores(s, Bodies()[n - 1], n, phase, verdicts);
      LevelCounts(n, phase, verdicts);
    }
    if n < 3 {
      forall v | v in t.vars ensures !v.ParamCounter? {
        if v.ParamCounter? {
          LevelKeeps(s, n, phase, verdicts, v);
        }
      }
    }
  }

  function Share(n: nat, detection: int, phase: nat, verdicts: Verdicts): nat {
    if 1 <= n <= 4 && n <= detection then Scores(n, phase, verdicts) else 0
  }

  /** The score of `level` that comes from the levels from `n` on. */
  function ShareFrom(n: nat, level: nat, detection: int, phase: nat, verdicts: Verdicts): nat {
    if n <= level then Share(level, detection, phase, verdicts) else 0
  }

  /** The items of level `n`, and the unlocked ones from level `n` on. */
  function Body(n: nat): seq<Item>
    requires 1 <= n <= 4
  {
    Bodies()[n - 1]
  }

  function UnlockedFrom(n: nat, detection: int): seq<Item>
    requires 1 <= n <= 5
  {
    Unlocked(n, Bodies()[n - 1..], detection)
  }

  /** Above the detection level, or after the last level, nothing is left. */
  lemma NothingLeft(s: Tx, n: nat, detection: int, phase: nat, verdicts: Verdicts, level: nat)
    requires Open(s) && 1 <= n <= 5 && (n == 5 || detection < n)
    ensures Scored(s, Run(s, UnlockedFrom(n, detection), phase, verdicts), level,
                   ShareFrom(n, level, detection, phase, verdicts), AllViolations(n, detection, phase, verdicts))
  {
    assert n == 5 ==> Bodies()[4..] == [];
    assert AllViolations(n, detection, phase, verdicts) == 0 && ShareFrom(n, level, detection, phase, verdicts) == 0;
  }

  /** What one level does to the score of any level. */
  lemma OneLevelScores(s: Tx, n: nat, phase: nat, verdicts: Verdicts, level: nat)
    requires Open(s) && 1 <= n <= 4 && (phase == 1 || phase == 2) && (n <= 3 ==> NoCounters(s.vars))
    ensures var t := Run(s, Body(n), phase, verdicts);
            && Scored(s, t, level, if level == n then Scores(n, phase, verdicts) else 0, Violations(n, phase, verdicts))
            && (n < 3 ==> NoCounters(t.vars))
  {
    hide Scores, Violations, Run, Bodies;
    OneLevel(s, n, phase, verdicts);
    if level != n {
      LevelKeeps(s, n, phase, verdicts, InboundScore(level));
    }
  }

  /** An unlocked level runs, and then the levels after it. */
  lemma LevelThenRest(s: Tx, n: nat, detection: int, phase: nat, verdicts: Verdicts, level: nat)
    requires 1 <= n <= 4 && n <= detection
    ensures Run(s, UnlockedFrom(n, detection), phase, verdicts)
         == Run(Run(s, Body(n), phase, verdicts), UnlockedFrom(n + 1, detection), phase, verdicts)
    ensures AllViolations(n, detection, phase, verdicts) == Violations(n, phase, verdicts) + AllViolations(n + 1, detection, phase, verdicts)
    ensures ShareFrom(n, level, detection, phase, verdicts)
         == (if level == n then Scores(n, phase, verdicts) else 0) + ShareFrom(n + 1, level, detection, phase, verdicts)
  {
    hide Scores, Violations, Run, LevelOne, LevelTwo, LevelThree, LevelFour;
    assert Bodies()[n - 1..][1..] == Bodies()[n..];
    RunConcat(s, Body(n), UnlockedFrom(n + 1, detection), phase, verdicts);
  }

  lemma {:induction false} UnlockedScores(s: Tx, n: nat, detection: int, phase: nat, verdicts: Verdicts, level: nat)
    requires Open(s) && 1 <= n <= 5 && (phase == 1 || phase == 2) && (n <= 3 ==> NoCounters(s.vars))
    ensures Scored(s, Run(s, UnlockedFrom(n, detection), phase, verdicts), level,
                   ShareFrom(n, level, detection, phase, verdicts), AllViolations(n, detection, phase, verdicts))
    decreases 5 - n
  {
    hide Scores, Violations, AllViolations, ShareFrom, Run, Scored, Body, UnlockedFrom, NoCounters, Open;
    if n == 5 || detection < n {
      NothingLeft(s, n, detection, phase, verdicts, level);
    } else {
      var t := Run(s, Body(n), phase, verdicts);
      var own := if level == n then Scores(n, phase, verdicts) else 0;
      LevelThenRest(s, n, detection, phase, verdicts, level);
      OneLevelScores(s, n, phase, verdicts, level);
      ScoredIsOpen(s, t, level, own, Violations(n, phase, verdicts));
      UnlockedScores(t, n + 1, detection, phase, verdicts, level);
      ScoredTwice(s, t, Run(t, UnlockedFrom(n + 1, detection), phase, verdicts), level,
                  own, Violations(n, phase, verdicts),
                  ShareFrom(n + 1, level, detection, phase, verdicts), AllViolations(n + 1, detection, phase, verdicts));
    }
  }

  lemma ScoredIsOpen(s: Tx, t: Tx, level: nat, count: nat, violations: nat)
    requires Scored(s, t, level, count, violations)
    ensures Open(t)
  {}

  /**
   The file raises the score of each level the detection level reaches by the critical score times the
   matches of that level's rules, and no other level's score; and the violation score by the critical score
   times the matches of the rules that count as violations.
   */
  lemma ProtocolAttackScores(s: Tx, phase: nat, verdicts: Verdicts, level: nat)
    requires Open(s) && DetectionLevel in s.vars && NoCounters(s.vars) && (phase == 1 || phase == 2)
    ensures var t := Run(s, ProtocolAttack(), phase, verdicts);
            && Open(t)
            && Val(t.vars, InboundScore(level))
               == Val(s.vars, InboundScore(level))
                  + Share(level, s.vars[DetectionLevel], phase, verdicts) * Val(s.vars, Anomaly(Critical))
            && Val(t.vars, VIOLATION)
               == Val(s.vars, VIOLATION) + AllViolations(1, s.vars[DetectionLevel], phase, verdicts) * Val(s.vars, Anomaly(Critical))
  {
    BodiesGated();
    GatingRefines(s, 921, Bodies(), phase, verdicts);
    assert Bodies()[0..] == Bodies();
    UnlockedScores(s, 1, s.vars[DetectionLevel], phase, verdicts, level);
  }
}

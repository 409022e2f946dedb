/** The whole path of a request through initialization, REQUEST-921-PROTOCOL-ATTACK.conf and blocking. */
module CrsVerdict {
  import opened Crs
  import opened CrsGating
  import opened CrsBlocking
  import opened CrsInit
  import opened CrsRequest
  import opened CrsProtocolAttack

  const PROTOCOL_ATTACK := RuleFile(921, [], Bodies())

  function SumUpTo(f: nat -> nat, levels: nat): nat {
    if levels == 0 then 0 else SumUpTo(f, levels - 1) + f(levels)
  }

  /** How often each level scores in a phase. */
  function PhaseScores(phase: nat, verdicts: Verdicts): nat -> nat {
    n => Scores(n, phase, verdicts)
  }

  /** How often the rules of levels 1 to `levels` score over both phases. */
  function Matches(levels: nat, first: Verdicts, second: Verdicts): nat {
    SumUpTo(PhaseScores(1, first), levels) + SumUpTo(PhaseScores(2, second), levels)
  }

  lemma LevelDetects(body: seq<Item>, n: nat)
    requires AllOfLevel(body, n)
    ensures AllDetecting(body)
  {
    forall i | 0 <= i < |body| ensures Detecting(body[i]) {
      assert OfLevel(body[i], n);
    }
  }

  lemma ProtocolAttackDetects()
    ensures DetectionFiles([PROTOCOL_ATTACK])
  {
    BodiesGated();
    forall k | 0 <= k < 4 ensures AllDetecting(Bodies()[k]) {
      BodiesWellFormed(k + 1);
      LevelDetects(Bodies()[k], k + 1);
    }
    assert DetectionFile(PROTOCOL_ATTACK);
  }

  lemma OneFile(s: Tx, phase: nat, verdicts: Verdicts)
    ensures Run(s, FileRules([PROTOCOL_ATTACK]), phase, verdicts) == Run(s, ProtocolAttack(), phase, verdicts)
  {
    assert [PROTOCOL_ATTACK][..0] == [];
    assert FileRules([]) + ([] + ProtocolAttack()) == ProtocolAttack();
  }

  lemma {:induction false} SectionRemovesNothing(file: nat, n: nat, bodies: seq<seq<Item>>)
    requires AllLevelRules(file, bodies)
    ensures RemovesNothing(Section(file, n, bodies))
    decreases |bodies|
  {
    if bodies != [] {
      SectionRemovesNothing(file, n + 1, bodies[1..]);
      assert RemovesNothing(Gates(file, n)) && LevelRules(file, bodies[0]);
    }
  }

  /** The file excuses no request. */
  lemma NothingExcused(s: Tx, phase: nat, verdicts: Verdicts)
    ensures Inspection(s, [PROTOCOL_ATTACK], phase, verdicts).removed == s.removed
  {
    BodiesGated();
    SectionRemovesNothing(921, 1, Bodies());
    OneFile(s, phase, verdicts);
    NeverRemoved(s, ProtocolAttack(), phase, verdicts);
  }

  // ---- the two files without gates ----

  /** REQUEST-905-COMMON-EXCEPTIONS.conf: requests of the server to itself are excused. */
  const COMMON_EXCEPTIONS := RuleFile(905, [Rule(905100, 1, Inspects, [], RemoveCrs), Rule(905110, 1, Inspects, [], RemoveCrs)], [])

  /** REQUEST-922-MULTIPART-ATTACK.conf, its chains as one inspection each. */
  const MULTIPART_ATTACK :=
    RuleFile(922, [Rule(922100, 2, Inspects, ScoreActions(1, false), Pass), Rule(922110, 2, Inspects, ScoreActions(1, false), Pass),
                   Rule(922120, 2, Inspects, ScoreActions(1, false), Pass), Rule(922130, 2, Inspects, ScoreActions(1, false), Pass)], [])

  lemma UngatedFilesDetect()
    ensures DetectionFiles([COMMON_EXCEPTIONS, PROTOCOL_ATTACK, MULTIPART_ATTACK])
  {
    hide DetectionFile;
    ProtocolAttackDetects();
    assert DetectionFile([PROTOCOL_ATTACK][0]);
    CommonExceptionsDetects();
    MultipartDetects();
  }

  lemma CommonExceptionsDetects()
    ensures DetectionFile(COMMON_EXCEPTIONS)
  {}

  lemma MultipartDetects()
    ensures DetectionFile(MULTIPART_ATTACK)
  {}

  /** In phase 2 the multipart rules raise the score of level 1 by the critical score for each match. */
  lemma MultipartScores(s: Tx, v: Verdicts)
    requires Open(s)
    ensures Scored(s, Run(s, FileItems(MULTIPART_ATTACK), 2, v), 1, |v(922100)| + |v(922110)| + |v(922120)| + |v(922130)|, 0)
  {
    hide HitCount, ViolationHits, Scored;
    var l := MULTIPART_ATTACK.ungated;
    assert FileItems(MULTIPART_ATTACK) == l;
    LevelScores(s, l, 1, 2, v);
    NothingCounts(2, v);
    PrefixCounts(l, 0, 2, v);
    PrefixCounts(l, 1, 2, v);
    PrefixCounts(l, 2, 2, v);
    PrefixCounts(l, 3, 2, v);
    assert l[..0] == [] && l[..4] == l;
  }

  /** A request that one of the two exceptions matches is excused from all further rules. */
  lemma ExceptionsExcuse(s: Tx, v: Verdicts)
    requires Open(s)
    ensures Run(s, FileItems(COMMON_EXCEPTIONS), 1, v).removed <==> v(905100) != [] || v(905110) != []
  {
    var l := COMMON_EXCEPTIONS.ungated;
    assert FileItems(COMMON_EXCEPTIONS) == l && l[..1] == [l[0]];
    RunOne(s, l[0], 1, v);
  }

  /** Nothing counts parameter names in phase 1. */
  lemma NoCountersInPhaseOne(s: Tx, verdicts: Verdicts)
    requires NoCounters(s.vars)
    ensures NoCounters(Run(s, ProtocolAttack(), 1, verdicts).vars)
  {
    var t := Run(s, ProtocolAttack(), 1, verdicts);
    forall v | v in t.vars ensures !v.ParamCounter? {
      if v.ParamCounter? {
        PhaseOneCountsNothing(v);
        RunKeeps(s, ProtocolAttack(), 1, verdicts, v);
      }
    }
  }

  predicate LeavesInPhaseOne(items: seq<Item>, v: Var) {
    forall i :: 0 <= i < |items| && items[i].Rule? && items[i].phase == 1 ==> !Writes(items[i], v)
  }

  lemma LevelCountsNothing(body: seq<Item>, n: nat, v: Var)
    requires AllOfLevel(body, n) && v.ParamCounter?
    ensures LeavesInPhaseOne(body, v)
  {
    forall i | 0 <= i < |body| && body[i].Rule? && body[i].phase == 1 ensures !Writes(body[i], v) {
      assert OfLevel(body[i], n);
    }
  }

  lemma {:induction false} SectionCountsNothing(n: nat, bodies: seq<seq<Item>>, v: Var)
    requires v.ParamCounter?
    requires forall k :: 0 <= k < |bodies| ==> LeavesInPhaseOne(bodies[k], v)
    ensures LeavesInPhaseOne(Section(921, n, bodies), v)
    decreases |bodies|
  {
    if bodies != [] {
      SectionCountsNothing(n + 1, bodies[1..], v);
    }
  }

  lemma PhaseOneCountsNothing(v: Var)
    requires v.ParamCounter?
    ensures LeavesInPhaseOne(ProtocolAttack(), v)
  {
    forall k | 0 <= k < 4 ensures LeavesInPhaseOne(Bodies()[k], v) {
      BodiesWellFormed(k + 1);
      LevelCountsNothing(Bodies()[k], k + 1, v);
    }
    SectionCountsNothing(1, Bodies(), v);
  }

  /** The score of a level after one phase of the file. */
  lemma PhaseAdds(s: Tx, phase: nat, verdicts: Verdicts, level: nat)
    requires Open(s) && Ready(s.vars) && NoCounters(s.vars) && (phase == 1 || phase == 2)
    requires 1 <= level <= 4 && level <= s.vars[DetectionLevel]
    ensures var w := Inspected(s, [PROTOCOL_ATTACK], phase, verdicts);
            Val(w, InboundScore(level)) == Val(s.vars, InboundScore(level)) + Scores(level, phase, verdicts) * Val(s.vars, Anomaly(Critical))
  {
    OneFile(s, phase, verdicts);
    ProtocolAttackScores(s, phase, verdicts, level);
  }

  /** The variables with which a request that is to be checked leaves the initialization. */
  predicate Fresh(s: Tx, configured: Vars) {
    && Checked(s) && NoCounters(s.vars)
    && Val(s.vars, Anomaly(Critical)) == Setting(configured, Anomaly(Critical))
    && s.vars[InboundThreshold] == Setting(configured, InboundThreshold)
    && s.vars[BlockingLevel] == Setting(configured, BlockingLevel)
    && forall n: nat :: 1 <= n <= 4 ==> Val(s.vars, InboundScore(n)) == 0
  }

  /** A variable other than the random number comes out of the initialization prepared. */
  lemma AfterInit(configured: Vars, verdicts: Verdicts, v: Var)
    requires SetupVersion in configured && v != SamplingRnd
    ensures Same(Run(Start(configured), Initialization(), 1, verdicts).vars, Prepared(configured), v)
  {
    InitializationSorts(configured, verdicts);
    RndAside(Run(Start(configured), Initialization(), 1, verdicts).vars, Prepared(configured), v);
  }

  lemma CounterAfterInit(configured: Vars, verdicts: Verdicts, v: Var)
    requires SetupVersion in configured && v.ParamCounter? && v !in configured
    ensures v !in Run(Start(configured), Initialization(), 1, verdicts).vars
  {
    AfterInit(configured, verdicts, v);
    PreparedVars(configured, v);
  }

  lemma CountersAfterInit(configured: Vars, verdicts: Verdicts)
    requires SetupVersion in configured && NoCounters(configured)
    ensures NoCounters(Run(Start(configured), Initialization(), 1, verdicts).vars)
  {
    var s := Run(Start(configured), Initialization(), 1, verdicts);
    forall v: Var | v.ParamCounter? ensures v !in s.vars {
      CounterAfterInit(configured, verdicts, v);
    }
  }

  lemma ZeroAfterInit(configured: Vars, verdicts: Verdicts, n: nat)
    requires SetupVersion in configured && 1 <= n <= 4
    ensures Val(Run(Start(configured), Initialization(), 1, verdicts).vars, InboundScore(n)) == 0
  {
    AfterInit(configured, verdicts, InboundScore(n));
    PreparedVars(configured, InboundScore(n));
  }

  lemma SettingAfterInit(configured: Vars, verdicts: Verdicts, v: Var)
    requires SetupVersion in configured && IsSetting(v)
    ensures Val(Run(Start(configured), Initialization(), 1, verdicts).vars, v) == Setting(configured, v)
  {
    AfterInit(configured, verdicts, v);
    PreparedVars(configured, v);
  }

  lemma InitializationFresh(configured: Vars, verdicts: Verdicts)
    requires SetupVersion in configured && NoCounters(configured)
    requires Checked(Run(Start(configured), Initialization(), 1, verdicts))
    ensures Fresh(Run(Start(configured), Initialization(), 1, verdicts), configured)
  {
    CountersAfterInit(configured, verdicts);
    SettingAfterInit(configured, verdicts, Anomaly(Critical));
    SettingAfterInit(configured, verdicts, InboundThreshold);
    SettingAfterInit(configured, verdicts, BlockingLevel);
    forall n: nat | 1 <= n <= 4 ensures Val(Run(Start(configured), Initialization(), 1, verdicts).vars, InboundScore(n)) == 0 {
      ZeroAfterInit(configured, verdicts, n);
    }
  }

  lemma Distributes(a: nat, b: nat, k: int)
    ensures (a + b) * k == a * k + b * k
  {}

  lemma MoreIsEnough(a: nat, b: nat, k: nat, threshold: int)
    requires a * k >= threshold
    ensures (a + b) * k >= threshold
  {
    Distributes(a, b, k);
  }

  /** A total is the critical score times the matches. */
  lemma {:induction false} TotalOfMatches(vars: Vars, levels: nat, critical: int, f: nat -> nat, g: nat -> nat)
    requires forall n: nat :: 1 <= n <= levels ==> Val(vars, InboundScore(n)) == f(n) * critical + g(n) * critical
    ensures Total(vars, levels) == SumUpTo(f, levels) * critical + SumUpTo(g, levels) * critical
  {
    if levels > 0 {
      TotalOfMatches(vars, levels - 1, critical, f, g);
      Distributes(SumUpTo(f, levels - 1), f(levels), critical);
      Distributes(SumUpTo(g, levels - 1), g(levels), critical);
    }
  }

  lemma {:induction false} SumOfNone(f: nat -> nat, levels: nat)
    requires forall n: nat :: f(n) == 0
    ensures SumUpTo(f, levels) == 0
  {
    if levels > 0 {
      SumOfNone(f, levels - 1);
    }
  }

  lemma CriticalKept(s: Tx, phase: nat, verdicts: Verdicts)
    ensures Same(Inspected(s, [PROTOCOL_ATTACK], phase, verdicts), s.vars, Anomaly(Critical))
  {
    ProtocolAttackDetects();
    FilesDetect([PROTOCOL_ATTACK]);
    DetectingKeeps(s, FileRules([PROTOCOL_ATTACK]), phase, verdicts, Anomaly(Critical));
  }

  /** The score of level `n` after both phases. */
  lemma BothPhasesScore(configured: Vars, s: Tx, t: Tx, first: Verdicts, second: Verdicts, n: nat)
    requires Fresh(s, configured) && Open(t) && 1 <= n <= Reached(s.vars[BlockingLevel], 4)
    requires var w := Inspected(s, [PROTOCOL_ATTACK], 1, first); Ready(w) && t.vars == WithSums(w, BlockingTotal(w), DetectionTotal(w))
    ensures var critical := Setting(configured, Anomaly(Critical));
            Val(Inspected(t, [PROTOCOL_ATTACK], 2, second), InboundScore(n))
            == PhaseScores(1, first)(n) * critical + PhaseScores(2, second)(n) * critical
  {
    hide Scores, Run, FileRules, Program, DetectionFiles, BlockingTotal, DetectionTotal;
    ProtocolAttackDetects();
    FilesKeepReady(s, [PROTOCOL_ATTACK], 1, first);
    OneFile(s, 1, first);
    NoCountersInPhaseOne(s, first);
    CriticalKept(s, 1, first);
    PhaseAdds(s, 1, first, n);
    PhaseAdds(t, 2, second, n);
  }

  lemma BothPhasesTotal(configured: Vars, s: Tx, t: Tx, first: Verdicts, second: Verdicts, levels: nat)
    requires Fresh(s, configured) && Open(t) && levels <= Reached(s.vars[BlockingLevel], 4)
    requires var w := Inspected(s, [PROTOCOL_ATTACK], 1, first); Ready(w) && t.vars == WithSums(w, BlockingTotal(w), DetectionTotal(w))
    ensures Total(Inspected(t, [PROTOCOL_ATTACK], 2, second), levels) == Matches(levels, first, second) * Setting(configured, Anomaly(Critical))
  {
    hide Scores, Run, FileRules, BlockingTotal, DetectionTotal, Inspected;
    var critical := Setting(configured, Anomaly(Critical));
    var f, g := PhaseScores(1, first), PhaseScores(2, second);
    var w := Inspected(t, [PROTOCOL_ATTACK], 2, second);
    forall n: nat | 1 <= n <= levels ensures Val(w, InboundScore(n)) == f(n) * critical + g(n) * critical {
      BothPhasesScore(configured, s, t, first, second, n);
    }
    TotalOfMatches(w, levels, critical, f, g);
    Distributes(SumUpTo(f, levels), SumUpTo(g, levels), critical);
  }

  /** Where phase 1 has not denied, phase 2 decides on all matches. */
  lemma SecondPhaseDecides(configured: Vars, s: Tx, t: Tx, first: Verdicts, second: Verdicts)
    requires Fresh(s, configured) && Open(t)
    requires var w := Inspected(s, [PROTOCOL_ATTACK], 1, first); Ready(w) && t.vars == WithSums(w, BlockingTotal(w), DetectionTotal(w))
    ensures Run(t, Program([PROTOCOL_ATTACK]), 2, second).denied.Some? <==>
              FinalScore(configured, first, second) >= Setting(configured, InboundThreshold)
  {
    hide Scores, FileRules, Matches, SumUpTo;
    ProtocolAttackDetects();
    FilesKeepReady(s, [PROTOCOL_ATTACK], 1, first);
    TotalsIgnoreSums(Inspected(s, [PROTOCOL_ATTACK], 1, first), BlockingTotal(Inspected(s, [PROTOCOL_ATTACK], 1, first)),
                     DetectionTotal(Inspected(s, [PROTOCOL_ATTACK], 1, first)));
    PhaseTwoOutcome(t, [PROTOCOL_ATTACK], second);
    FilesKeepReady(t, [PROTOCOL_ATTACK], 2, second);
    BothPhasesTotal(configured, s, t, first, second, Reached(Setting(configured, BlockingLevel), 4));
  }

  lemma FirstPhaseTotal(configured: Vars, s: Tx, first: Verdicts, levels: nat)
    requires Fresh(s, configured) && levels <= Reached(s.vars[BlockingLevel], 4)
    ensures Total(Inspected(s, [PROTOCOL_ATTACK], 1, first), levels)
         == SumUpTo(PhaseScores(1, first), levels) * Setting(configured, Anomaly(Critical))
  {
    var critical := Setting(configured, Anomaly(Critical));
    var f, none := PhaseScores(1, first), (n: nat) => 0 as nat;
    var w := Inspected(s, [PROTOCOL_ATTACK], 1, first);
    forall n: nat | 1 <= n <= levels ensures Val(w, InboundScore(n)) == f(n) * critical + none(n) * critical {
      PhaseAdds(s, 1, first, n);
    }
    TotalOfMatches(w, levels, critical, f, none);
    SumOfNone(none, levels);
  }

  /** The score after phase 1, from the matches alone. */
  function FirstScore(configured: Vars, first: Verdicts): int {
    SumUpTo(PhaseScores(1, first), Reached(Setting(configured, BlockingLevel), 4)) * Setting(configured, Anomaly(Critical))
  }

  /** The score after both phases. */
  function FinalScore(configured: Vars, first: Verdicts, second: Verdicts): int {
    Matches(Reached(Setting(configured, BlockingLevel), 4), first, second) * Setting(configured, Anomaly(Critical))
  }

  lemma FirstPhaseDecides(configured: Vars, s: Tx, first: Verdicts)
    requires Fresh(s, configured) && s.vars[EarlyBlocking] == Setting(configured, EarlyBlocking)
    ensures var w := Inspected(s, [PROTOCOL_ATTACK], 1, first);
            && Ready(w)
            && (EarlyVerdict(w, BlockingTotal(w)).Some? <==>
                  Setting(configured, EarlyBlocking) == 1 && FirstScore(configured, first) >= Setting(configured, InboundThreshold))
  {
    ProtocolAttackDetects();
    FilesKeepReady(s, [PROTOCOL_ATTACK], 1, first);
    FirstPhaseTotal(configured, s, first, Reached(Setting(configured, BlockingLevel), 4));
  }

  /** A request that is set up, not sampled out and plausibly configured. */
  predicate Judged(configured: Vars, first: Verdicts) {
    && SetupVersion in configured && NoCounters(configured) && !SampledOut(configured, first(901410))
    && Setting(configured, BlockingLevel) <= Setting(configured, DetectionLevel)
  }

  /**
   Such a request is denied exactly when the matches of the rules up to the blocking level, over both
   phases, times the critical score reach the threshold, or, with early blocking, those of phase 1 do.
   */
  lemma RequestDeniedExactly(configured: Vars, first: Verdicts, second: Verdicts)
    requires Judged(configured, first)
    ensures Judge(configured, [PROTOCOL_ATTACK], first, second).Some? <==>
              || (Setting(configured, EarlyBlocking) == 1 && FirstScore(configured, first) >= Setting(configured, InboundThreshold))
              || FinalScore(configured, first, second) >= Setting(configured, InboundThreshold)
  {
    ProtocolAttackDetects();
    var s := Run(Start(configured), Initialization(), 1, first);
    InitializationOutcome(Start(configured), first);
    InitializationSorts(configured, first);
    InitializationFresh(configured, first);
    SettingAfterInit(configured, first, EarlyBlocking);
    FirstPhaseDecides(configured, s, first);
    PhaseOneOutcome(configured, [PROTOCOL_ATTACK], first);
    NothingExcused(s, 1, first);
    var t := Run(Start(configured), Program([PROTOCOL_ATTACK]), 1, first);
    if t.denied.Some? {
      DeniedStays(t, Program([PROTOCOL_ATTACK]), 2, second);
    } else {
      SecondPhaseDecides(configured, s, t, first, second);
    }
  }

  lemma ScoreGrows(configured: Vars, first: Verdicts, second: Verdicts)
    requires Setting(configured, Anomaly(Critical)) >= 0
    ensures FirstScore(configured, first) <= FinalScore(configured, first, second)
  {
    var levels, critical := Reached(Setting(configured, BlockingLevel), 4), Setting(configured, Anomaly(Critical));
    MoreIsEnough(SumUpTo(PhaseScores(1, first), levels), SumUpTo(PhaseScores(2, second), levels), critical,
                 FirstScore(configured, first));
  }

  /** With a critical score that is not negative, early blocking and the detection level do not matter. */
  lemma RequestDeniedIff(configured: Vars, first: Verdicts, second: Verdicts)
    requires Judged(configured, first) && Setting(configured, Anomaly(Critical)) >= 0
    ensures Judge(configured, [PROTOCOL_ATTACK], first, second).Some? <==>
              FinalScore(configured, first, second) >= Setting(configured, InboundThreshold)
  {
    RequestDeniedExactly(configured, first, second);
    ScoreGrows(configured, first, second);
  }
}

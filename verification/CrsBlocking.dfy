/** REQUEST-949-BLOCKING-EVALUATION.conf: summing the per-level scores and blocking on the sum. */
module CrsBlocking {
  import opened Prelude
  import opened Crs
  import opened CrsGating

  function BlockingRule(phase: nat, base: nat, n: nat): Item {
    Rule(base + n, phase, AtLeast(BlockingLevel, Number(n)), [Add(BlockingInbound, Macro(InboundScore(n)))], Pass)
  }

  function DetectionRule(phase: nat, base: nat, n: nat): Item {
    Rule(base + 100 + n, phase, AtLeast(DetectionLevel, Number(n)), [Add(DetectionInbound, Macro(InboundScore(n)))], Pass)
  }

  /** For each level, the rule that adds its score to the blocking sum and the one for the detection sum. */
  function SumRules(phase: nat, base: nat, levels: nat): seq<Item> {
    if levels == 0 then []
    else
      SumRules(phase, base, levels - 1)
      + [BlockingRule(phase, base, levels), DetectionRule(phase, base, levels)]
  }

  const RESET_BLOCKING := Rule(949059, 2, Always, [Put(BlockingInbound, Number(0))], Pass)
  const RESET_DETECTION := Rule(949159, 2, Always, [Put(DetectionInbound, Number(0))], Pass)

  const EARLY_BLOCK := Rule(949111, 1, AtLeast(BlockingInbound, Macro(InboundThreshold)), [],
                            DenyIf(Equal(EarlyBlocking, Number(1))))
  const FINAL_BLOCK := Rule(949110, 2, AtLeast(BlockingInbound, Macro(InboundThreshold)), [], Deny)

  function Sums(): seq<Item> {
    SumRules(1, 949051, 4) + [RESET_BLOCKING, RESET_DETECTION] + SumRules(2, 949059, 4) + [Mark(BeginBlockingEval)]
  }

  function Verdict(): seq<Item> {
    [EARLY_BLOCK, FINAL_BLOCK] + Gated(949, [[], [], [], []])
  }

  function BlockingEvaluation(): seq<Item> {
    Sums() + Verdict()
  }

  // ---- what the file should compute ----

  /** The sum of the scores of levels 1 to `levels`. */
  function Total(vars: Vars, levels: nat): int {
    if levels == 0 then 0 else Total(vars, levels - 1) + Val(vars, InboundScore(levels))
  }

  /** Levels beyond 4 have no scores. */
  function Reached(level: int, levels: nat): (r: nat) {
    if level < 0 then 0 else if level < levels then level else levels
  }

  /** All variables that the file needs are set. */
  predicate Ready(vars: Vars) {
    && BlockingLevel in vars && DetectionLevel in vars && InboundThreshold in vars && EarlyBlocking in vars
    && BlockingInbound in vars && DetectionInbound in vars
  }

  function WithSums(vars: Vars, blocking: int, detection: int): Vars {
    vars[BlockingInbound := blocking][DetectionInbound := detection]
  }

  /** The score a request is judged by. */
  function BlockingTotal(vars: Vars): int
    requires Ready(vars)
  {
    Total(vars, Reached(vars[BlockingLevel], 4))
  }

  function DetectionTotal(vars: Vars): int
    requires Ready(vars)
  {
    Total(vars, Reached(vars[DetectionLevel], 4))
  }

  // ---- summing ----

  /** One of the two summing rules. */
  lemma SumStep(s: Tx, r: Item, level: Var, sum: Var, n: nat, phase: nat, verdicts: Verdicts)
    requires Open(s) && level in s.vars && sum in s.vars
    requires r.Rule? && r.phase == phase && r.test == AtLeast(level, Number(n)) && r.flow == Pass
    requires r.actions == [Add(sum, Macro(InboundScore(n)))]
    ensures var t := Step(s, r, phase, verdicts);
            t == s.(tried := t.tried,
                    vars := s.vars[sum := s.vars[sum] + if s.vars[level] >= n then Val(s.vars, InboundScore(n)) else 0])
  {
    OneHit(s.vars, r.actions, PLAIN);
    OneAction(s.vars, r.actions[0], PLAIN);
    assert s.vars[sum := s.vars[sum]] == s.vars;
  }

  lemma TotalIgnoresSums(vars: Vars, blocking: int, detection: int, levels: nat)
    ensures Total(WithSums(vars, blocking, detection), levels) == Total(vars, levels)
  {
    if levels > 0 {
      TotalIgnoresSums(vars, blocking, detection, levels - 1);
    }
  }

  lemma WithSumsTwice(vars: Vars, b0: int, d0: int, b: int, d: int)
    ensures WithSums(vars, b0, d0)[BlockingInbound := b][DetectionInbound := d] == WithSums(vars, b, d)
    ensures DetectionInbound in vars ==> vars[BlockingInbound := b][DetectionInbound := vars[DetectionInbound]] == vars[BlockingInbound := b]
  {}

  /** What the two rules of level `n` add. */
  function OneMore(vars: Vars, n: nat): Vars
    requires Ready(vars)
  {
    WithSums(vars, vars[BlockingInbound] + (if vars[BlockingLevel] >= n then Val(vars, InboundScore(n)) else 0),
             vars[DetectionInbound] + (if vars[DetectionLevel] >= n then Val(vars, InboundScore(n)) else 0))
  }

  /** The two rules of one level. */
  lemma SumPair(s: Tx, b: Item, d: Item, n: nat, phase: nat, verdicts: Verdicts)
    requires Open(s) && Ready(s.vars)
    requires b.Rule? && b.phase == phase && b.test == AtLeast(BlockingLevel, Number(n)) && b.flow == Pass
    requires b.actions == [Add(BlockingInbound, Macro(InboundScore(n)))]
    requires d.Rule? && d.phase == phase && d.test == AtLeast(DetectionLevel, Number(n)) && d.flow == Pass
    requires d.actions == [Add(DetectionInbound, Macro(InboundScore(n)))]
    ensures var t := Run(s, [b, d], phase, verdicts);
            t == s.(tried := t.tried, vars := OneMore(s.vars, n))
  {
    assert [b, d][..1] == [b];
    RunOne(s, b, phase, verdicts);
    SumStep(s, b, BlockingLevel, BlockingInbound, n, phase, verdicts);
    SumStep(Step(s, b, phase, verdicts), d, DetectionLevel, DetectionInbound, n, phase, verdicts);
  }

  lemma TotalUpTo(vars: Vars, level: int, n: nat)
    requires n > 0
    ensures Total(vars, Reached(level, n)) == Total(vars, Reached(level, n - 1)) + if level >= n then Val(vars, InboundScore(n)) else 0
  {}

  /** What the rules up to `levels` add to the two sums. */
  function Summed(vars: Vars, levels: nat): Vars
    requires Ready(vars)
  {
    WithSums(vars, vars[BlockingInbound] + Total(vars, Reached(vars[BlockingLevel], levels)),
             vars[DetectionInbound] + Total(vars, Reached(vars[DetectionLevel], levels)))
  }

  lemma SummedNext(vars: Vars, n: nat, before: Vars)
    requires n > 0 && Ready(vars) && before == Summed(vars, n - 1)
    ensures Ready(before) && OneMore(before, n) == Summed(vars, n)
  {
    TotalUpTo(vars, vars[BlockingLevel], n);
    TotalUpTo(vars, vars[DetectionLevel], n);
  }

  /** Each sum grows by the scores up to its level. */
  lemma {:induction false} SumsAddUp(s: Tx, phase: nat, base: nat, levels: nat, verdicts: Verdicts)
    requires Open(s) && Ready(s.vars)
    ensures var t := Run(s, SumRules(phase, base, levels), phase, verdicts);
            t == s.(tried := t.tried, vars := Summed(s.vars, levels))
  {
    if levels == 0 {
      assert Summed(s.vars, 0) == s.vars;
    } else {
      SumsAddUp(s, phase, base, levels - 1, verdicts);
      var b, d := BlockingRule(phase, base, levels), DetectionRule(phase, base, levels);
      RunConcat(s, SumRules(phase, base, levels - 1), [b, d], phase, verdicts);
      var t := Run(s, SumRules(phase, base, levels - 1), phase, verdicts);
      SummedNext(s.vars, levels, t.vars);
      SumPair(t, b, d, levels, phase, verdicts);
    }
  }

  lemma {:induction false} SumRulesPhase(phase: nat, base: nat, levels: nat)
    ensures forall i :: 0 <= i < |SumRules(phase, base, levels)| ==>
              SumRules(phase, base, levels)[i].Rule? && SumRules(phase, base, levels)[i].phase == phase
  {
    if levels > 0 {
      SumRulesPhase(phase, base, levels - 1);
    }
  }

  lemma ResetClears(s: Tx, verdicts: Verdicts)
    requires Open(s)
    ensures var t := Run(s, [RESET_BLOCKING, RESET_DETECTION], 2, verdicts);
            t == s.(tried := t.tried, vars := WithSums(s.vars, 0, 0))
  {
    assert [RESET_BLOCKING, RESET_DETECTION][..1] == [RESET_BLOCKING];
    RunOne(s, RESET_BLOCKING, 2, verdicts);
    OneHit(s.vars, RESET_BLOCKING.actions, PLAIN);
    OneAction(s.vars, RESET_BLOCKING.actions[0], PLAIN);
    var t := Step(s, RESET_BLOCKING, 2, verdicts);
    OneHit(t.vars, RESET_DETECTION.actions, PLAIN);
    OneAction(t.vars, RESET_DETECTION.actions[0], PLAIN);
  }

  /** The parts of the summing rules one after the other. */
  lemma SumsInParts(s: Tx, phase: nat, verdicts: Verdicts)
    ensures Run(s, Sums(), phase, verdicts)
         == Run(Run(Run(Run(s, SumRules(1, 949051, 4), phase, verdicts), [RESET_BLOCKING, RESET_DETECTION], phase, verdicts),
                    SumRules(2, 949059, 4), phase, verdicts), [Mark(BeginBlockingEval)], phase, verdicts)
  {
    var a, b, c, d := SumRules(1, 949051, 4), [RESET_BLOCKING, RESET_DETECTION], SumRules(2, 949059, 4), [Mark(BeginBlockingEval)];
    RunConcat(s, a + b + c, d, phase, verdicts);
    RunConcat(s, a + b, c, phase, verdicts);
    RunConcat(s, a, b, phase, verdicts);
  }

  /** Phase 1 adds the per-level scores to whatever the sums were. */
  lemma SumsInPhaseOne(s: Tx, verdicts: Verdicts)
    requires Open(s) && Ready(s.vars)
    ensures var t := Run(s, Sums(), 1, verdicts); t == s.(tried := t.tried, vars := Summed(s.vars, 4))
  {
    hide Run, SumRules, Total, Reached, Gated;
    SumsInParts(s, 1, verdicts);
    SumsAddUp(s, 1, 949051, 4, verdicts);
    var t := Run(s, SumRules(1, 949051, 4), 1, verdicts);
    assert Open(t);
    OtherPhase(t, [RESET_BLOCKING, RESET_DETECTION], 1, verdicts);
    SumRulesPhase(2, 949059, 4);
    OtherPhase(t, SumRules(2, 949059, 4), 1, verdicts);
    OtherPhase(t, [Mark(BeginBlockingEval)], 1, verdicts);
  }

  lemma SummedFromZero(vars: Vars)
    requires Ready(vars) && vars[BlockingInbound] == 0 && vars[DetectionInbound] == 0
    ensures Summed(vars, 4) == WithSums(vars, BlockingTotal(vars), DetectionTotal(vars))
  {}

  lemma SumsFromZero(s: Tx, verdicts: Verdicts)
    requires Open(s) && Ready(s.vars) && s.vars[BlockingInbound] == 0 && s.vars[DetectionInbound] == 0
    ensures var t := Run(s, Sums(), 1, verdicts);
            t == s.(tried := t.tried, vars := WithSums(s.vars, BlockingTotal(s.vars), DetectionTotal(s.vars)))
  {
    hide Run, Sums;
    SumsInPhaseOne(s, verdicts);
    SummedFromZero(s.vars);
  }

  lemma TotalsIgnoreSums(vars: Vars, blocking: int, detection: int)
    requires Ready(vars)
    ensures Ready(WithSums(vars, blocking, detection))
    ensures BlockingTotal(WithSums(vars, blocking, detection)) == BlockingTotal(vars)
    ensures DetectionTotal(WithSums(vars, blocking, detection)) == DetectionTotal(vars)
  {
    TotalIgnoresSums(vars, blocking, detection, Reached(vars[BlockingLevel], 4));
    TotalIgnoresSums(vars, blocking, detection, Reached(vars[DetectionLevel], 4));
  }

  /** Phase 2 starts over, so nothing counted in phase 1 is counted twice and nothing is lost. */
  lemma SumsInPhaseTwo(s: Tx, verdicts: Verdicts)
    requires Open(s) && Ready(s.vars)
    ensures var t := Run(s, Sums(), 2, verdicts);
            t == s.(tried := t.tried, vars := WithSums(s.vars, BlockingTotal(s.vars), DetectionTotal(s.vars)))
  {
    hide Run, SumRules, Reached, Gated;
    SumsInParts(s, 2, verdicts);
    SumRulesPhase(1, 949051, 4);
    OtherPhase(s, SumRules(1, 949051, 4), 2, verdicts);
    ResetClears(s, verdicts);
    var t := Run(s, [RESET_BLOCKING, RESET_DETECTION], 2, verdicts);
    TotalsIgnoreSums(s.vars, 0, 0);
    SumsAddUp(t, 2, 949059, 4, verdicts);
    var u := Run(t, SumRules(2, 949059, 4), 2, verdicts);
    WithSumsTwice(s.vars, 0, 0, BlockingTotal(s.vars), DetectionTotal(s.vars));
    OtherPhase(u, [Mark(BeginBlockingEval)], 2, verdicts);
  }

  // ---- blocking ----

  lemma EmptyLevels()
    ensures AllLevelRules(949, [[], [], [], []])
  {}

  lemma {:induction false} NothingUnlocked(n: nat, bodies: seq<seq<Item>>, detection: int)
    requires forall i :: 0 <= i < |bodies| ==> bodies[i] == []
    ensures Unlocked(n, bodies, detection) == []
    decreases |bodies|
  {
    if bodies != [] {
      NothingUnlocked(n + 1, bodies[1..], detection);
    }
  }

  /** The tail of the file has gates and no rules. */
  lemma TailDoesNothing(s: Tx, phase: nat, verdicts: Verdicts)
    requires s.denied.Some? || (Open(s) && DetectionLevel in s.vars)
    requires phase == 1 || phase == 2
    ensures Run(s, Gated(949, [[], [], [], []]), phase, verdicts) == s
  {
    if s.denied.Some? {
      DeniedStays(s, Gated(949, [[], [], [], []]), phase, verdicts);
    } else {
      EmptyLevels();
      GatingRefines(s, 949, [[], [], [], []], phase, verdicts);
      NothingUnlocked(1, [[], [], [], []], s.vars[DetectionLevel]);
    }
  }

  lemma VerdictInParts(s: Tx, phase: nat, verdicts: Verdicts)
    requires Open(s) && Ready(s.vars) && (phase == 1 || phase == 2)
    ensures Run(s, Verdict(), phase, verdicts)
         == Run(Step(Step(s, EARLY_BLOCK, phase, verdicts), FINAL_BLOCK, phase, verdicts), Gated(949, [[], [], [], []]), phase, verdicts)
  {
    RunConcat(s, [EARLY_BLOCK, FINAL_BLOCK], Gated(949, [[], [], [], []]), phase, verdicts);
    assert [EARLY_BLOCK, FINAL_BLOCK][..1] == [EARLY_BLOCK];
    RunOne(s, EARLY_BLOCK, phase, verdicts);
  }

  /** Whether the score reaches the threshold. */
  predicate Exceeds(vars: Vars, score: int)
    requires Ready(vars)
  {
    score >= vars[InboundThreshold]
  }

  function EarlyVerdict(vars: Vars, score: int): Option<nat>
    requires Ready(vars)
  {
    if vars[EarlyBlocking] == 1 && Exceeds(vars, score) then Some(949111) else None
  }

  function FinalVerdict(vars: Vars, score: int): Option<nat>
    requires Ready(vars)
  {
    if Exceeds(vars, score) then Some(949110) else None
  }

  lemma VerdictsIgnoreSums(vars: Vars, blocking: int, detection: int, score: int)
    requires Ready(vars)
    ensures var w := WithSums(vars, blocking, detection);
            && Ready(w) && w[BlockingInbound] == blocking
            && EarlyVerdict(w, score) == EarlyVerdict(vars, score) && FinalVerdict(w, score) == FinalVerdict(vars, score)
  {}

  lemma VerdictInPhaseOne(s: Tx, verdicts: Verdicts)
    requires Open(s) && Ready(s.vars)
    ensures var t := Run(s, Verdict(), 1, verdicts);
            t == s.(tried := t.tried,
                    denied := EarlyVerdict(s.vars, s.vars[BlockingInbound]))
  {
    hide Run, Gated, Sums;
    VerdictInParts(s, 1, verdicts);
    NoActions(s.vars, [PLAIN]);
    var t := Step(Step(s, EARLY_BLOCK, 1, verdicts), FINAL_BLOCK, 1, verdicts);
    TailDoesNothing(t, 1, verdicts);
  }

  lemma VerdictInPhaseTwo(s: Tx, verdicts: Verdicts)
    requires Open(s) && Ready(s.vars)
    ensures var t := Run(s, Verdict(), 2, verdicts);
            t == s.(tried := t.tried,
                    denied := FinalVerdict(s.vars, s.vars[BlockingInbound]))
  {
    hide Run, Gated, Sums;
    VerdictInParts(s, 2, verdicts);
    NoActions(s.vars, [PLAIN]);
    var t := Step(Step(s, EARLY_BLOCK, 2, verdicts), FINAL_BLOCK, 2, verdicts);
    TailDoesNothing(t, 2, verdicts);
  }

  /**
   After phase 1 the sums are the per-level scores up to the two levels (they start at zero), and the
   request is denied exactly when early blocking is on and the blocking sum reaches the threshold.
   */
  lemma PhaseOneJudges(s: Tx, verdicts: Verdicts)
    requires Open(s) && Ready(s.vars) && s.vars[BlockingInbound] == 0 && s.vars[DetectionInbound] == 0
    ensures var t := Run(s, BlockingEvaluation(), 1, verdicts);
            t == s.(tried := t.tried, vars := WithSums(s.vars, BlockingTotal(s.vars), DetectionTotal(s.vars)),
                    denied := EarlyVerdict(s.vars, BlockingTotal(s.vars)))
  {
    hide Run, Sums, Verdict, Total;
    RunConcat(s, Sums(), Verdict(), 1, verdicts);
    SumsFromZero(s, verdicts);
    VerdictsIgnoreSums(s.vars, BlockingTotal(s.vars), DetectionTotal(s.vars), BlockingTotal(s.vars));
    VerdictInPhaseOne(Run(s, Sums(), 1, verdicts), verdicts);
  }

  /** After phase 2 likewise, whatever phase 1 left in the sums, and early blocking does not matter. */
  lemma PhaseTwoJudges(s: Tx, verdicts: Verdicts)
    requires Open(s) && Ready(s.vars)
    ensures var t := Run(s, BlockingEvaluation(), 2, verdicts);
            t == s.(tried := t.tried, vars := WithSums(s.vars, BlockingTotal(s.vars), DetectionTotal(s.vars)),
                    denied := FinalVerdict(s.vars, BlockingTotal(s.vars)))
  {
    hide Run, Sums, Verdict, Total;
    RunConcat(s, Sums(), Verdict(), 2, verdicts);
    SumsInPhaseTwo(s, verdicts);
    VerdictsIgnoreSums(s.vars, BlockingTotal(s.vars), DetectionTotal(s.vars), BlockingTotal(s.vars));
    VerdictInPhaseTwo(Run(s, Sums(), 2, verdicts), verdicts);
  }

  /** Scores that grow cannot lower the total. */
  lemma {:induction false} TotalGrows(before: Vars, after: Vars, levels: nat)
    requires forall n: nat :: Val(before, InboundScore(n)) <= Val(after, InboundScore(n))
    ensures Total(before, levels) <= Total(after, levels)
  {
    if levels > 0 {
      TotalGrows(before, after, levels - 1);
    }
  }
}

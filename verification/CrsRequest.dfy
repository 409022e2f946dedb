/**
 A whole request: initialization, any detection files, and the blocking evaluation, in phase 1 and then in
 phase 2. A detection file may begin with rules that no gate guards, or consist of nothing else, as
 REQUEST-905-COMMON-EXCEPTIONS.conf and REQUEST-922-MULTIPART-ATTACK.conf do.
 */
module CrsRequest {
  import opened Prelude
  import opened Crs
  import opened CrsGating
  import opened CrsBlocking
  import opened CrsInit

  /** A file without levels has no end marker. */
  datatype RuleFile = RuleFile(number: nat, ungated: seq<Item>, bodies: seq<seq<Item>>)

  function GatedPart(f: RuleFile): seq<Item> {
    if f.bodies == [] then [] else Gated(f.number, f.bodies)
  }

  function FileItems(f: RuleFile): seq<Item> {
    f.ungated + GatedPart(f)
  }

  function FileRules(files: seq<RuleFile>): seq<Item> {
    if files == [] then [] else FileRules(files[..|files| - 1]) + FileItems(files[|files| - 1])
  }

  function Program(files: seq<RuleFile>): seq<Item> {
    Initialization() + FileRules(files) + BlockingEvaluation()
  }

  function Start(configured: Vars): Tx {
    Tx(configured, None, None, false, [])
  }

  /** The rule that denies the request, if one does. */
  function Judge(configured: Vars, files: seq<RuleFile>, first: Verdicts, second: Verdicts): Option<nat> {
    Run(Run(Start(configured), Program(files), 1, first), Program(files), 2, second).denied
  }

  // ---- what detection rules may do ----

  /** The variables that detection rules write. */
  predicate Working(v: Var) {
    v.InboundScore? || v.AttackScore? || v.ParamCounter? || v.Named?
  }

  /** Scores are only raised, by one of the four weights. */
  predicate DetectingAction(a: Action) {
    match a
    case Add(v, o) => (v.InboundScore? || v.AttackScore?) && o.Macro? && o.variable.Anomaly?
    case Put(v, o) => v.Named? && o != Macro(EarlyBlocking)
    case PutHit(v) => v.Named?
    case CountHit => true
  }

  predicate DetectingTest(t: Test) {
    match t
    case AtLeast(v, o) => v != EarlyBlocking && o != Macro(EarlyBlocking)
    case Below(v, o) => v != EarlyBlocking && o != Macro(EarlyBlocking)
    case Equal(v, o) => v != EarlyBlocking && o != Macro(EarlyBlocking)
    case _ => true
  }

  /**
   Detection rules score and never deny, as `block` does under the default actions of the setup. In phase 1
   they may excuse the request from all further rules.
   */
  predicate Detecting(item: Item) {
    item.Rule? ==>
      && (item.flow.Pass? || item.flow.SkipAfter? || (item.flow.RemoveCrs? && item.phase == 1))
      && DetectingTest(item.test)
      && forall i :: 0 <= i < |item.actions| ==> DetectingAction(item.actions[i])
  }

  predicate AllDetecting(items: seq<Item>) {
    forall i :: 0 <= i < |items| ==> Detecting(items[i])
  }

  /** Rules before the first gate; without gates there is no end of file to jump to. */
  predicate UngatedRules(f: RuleFile) {
    && Homebound(f.number, f.ungated)
    && (f.bodies == [] ==>
          forall i :: 0 <= i < |f.ungated| && f.ungated[i].Rule? ==> f.ungated[i].flow != SkipAfter(EndOf(f.number)))
  }

  predicate DetectionFile(f: RuleFile) {
    && UngatedRules(f) && AllDetecting(f.ungated)
    && AllLevelRules(f.number, f.bodies) && forall k :: 0 <= k < |f.bodies| ==> AllDetecting(f.bodies[k])
  }

  predicate DetectionFiles(files: seq<RuleFile>) {
    forall i :: 0 <= i < |files| ==> DetectionFile(files[i])
  }

  lemma {:induction false} SectionDetects(file: nat, n: nat, bodies: seq<seq<Item>>)
    requires forall k :: 0 <= k < |bodies| ==> AllDetecting(bodies[k])
    ensures AllDetecting(Section(file, n, bodies))
    decreases |bodies|
  {
    if bodies != [] {
      SectionDetects(file, n + 1, bodies[1..]);
      assert AllDetecting(Gates(file, n));
    }
  }

  lemma FileDetects(f: RuleFile)
    requires DetectionFile(f)
    ensures AllDetecting(GatedPart(f)) && AllDetecting(FileItems(f))
  {
    SectionDetects(f.number, 1, f.bodies);
  }

  lemma {:induction false} FilesDetect(files: seq<RuleFile>)
    requires DetectionFiles(files)
    ensures AllDetecting(FileRules(files))
  {
    if files != [] {
      FilesDetect(files[..|files| - 1]);
      FileDetects(files[|files| - 1]);
    }
  }

  lemma {:induction false} NeverDenies(s: Tx, items: seq<Item>, phase: nat, verdicts: Verdicts)
    requires AllDetecting(items) && s.denied.None?
    ensures Run(s, items, phase, verdicts).denied.None?
  {
    if items != [] {
      NeverDenies(s, items[..|items| - 1], phase, verdicts);
      assert Detecting(items[|items| - 1]);
    }
  }

  lemma DetectingKeeps(s: Tx, items: seq<Item>, phase: nat, verdicts: Verdicts, v: Var)
    requires AllDetecting(items) && !Working(v)
    ensures Same(Run(s, items, phase, verdicts).vars, s.vars, v)
  {
    forall i | 0 <= i < |items| && items[i].Rule? ensures !Writes(items[i], v) {
      assert Detecting(items[i]);
      forall j | 0 <= j < |items[i].actions| ensures !ActionWrites(items[i].actions[j], v) {
        assert DetectingAction(items[i].actions[j]);
      }
    }
    RunKeeps(s, items, phase, verdicts, v);
  }

  lemma {:induction false} RemovedStays(s: Tx, items: seq<Item>, phase: nat, verdicts: Verdicts)
    requires s.removed && s.skip.None?
    ensures Run(s, items, phase, verdicts) == s
  {
    if items != [] {
      RemovedStays(s, items[..|items| - 1], phase, verdicts);
    }
  }

  /** Not denied and not on a jump; perhaps excused. */
  predicate Undecided(s: Tx) {
    s.denied.None? && s.skip.None?
  }

  /** In phase 2 nothing excuses a request any more. */
  lemma {:induction false} ExcusedInPhaseOne(s: Tx, items: seq<Item>, verdicts: Verdicts)
    requires AllDetecting(items)
    ensures Run(s, items, 2, verdicts).removed == s.removed
  {
    if items != [] {
      ExcusedInPhaseOne(s, items[..|items| - 1], verdicts);
      assert Detecting(items[|items| - 1]);
    }
  }

  /** Without a jump to the end of the file, none is ever under way to it. */
  lemma {:induction false} NoJumpToEnd(s: Tx, items: seq<Item>, target: MarkerName, phase: nat, verdicts: Verdicts)
    requires s.skip != Some(target)
    requires forall i :: 0 <= i < |items| && items[i].Rule? ==> items[i].flow != SkipAfter(target)
    ensures Run(s, items, phase, verdicts).skip != Some(target)
  {
    if items != [] {
      NoJumpToEnd(s, items[..|items| - 1], target, phase, verdicts);
    }
  }

  /** The ungated part ends undecided, or on its way to the end of the file. */
  lemma UngatedEnds(s: Tx, f: RuleFile, phase: nat, verdicts: Verdicts)
    requires Undecided(s) && DetectionFile(f)
    ensures var t := Run(s, f.ungated, phase, verdicts);
            && t.denied.None? && Same(t.vars, s.vars, DetectionLevel)
            && (t.skip.None? || (t.skip == Some(EndOf(f.number)) && f.bodies != []))
  {
    LevelJumps(s, f.number, f.ungated, |f.ungated|, phase, verdicts);
    assert f.ungated[..|f.ungated|] == f.ungated;
    NeverDenies(s, f.ungated, phase, verdicts);
    DetectingKeeps(s, f.ungated, phase, verdicts, DetectionLevel);
    if f.bodies == [] {
      NoJumpToEnd(s, f.ungated, EndOf(f.number), phase, verdicts);
    }
  }

  /** The gated part ends undecided, even if it begins on a jump to its end. */
  lemma GatedEnds(t: Tx, f: RuleFile, phase: nat, verdicts: Verdicts)
    requires t.denied.None? && DetectionLevel in t.vars && DetectionFile(f) && (phase == 1 || phase == 2)
    requires t.skip.None? || (t.skip == Some(EndOf(f.number)) && f.bodies != [])
    ensures Undecided(Run(t, GatedPart(f), phase, verdicts))
  {
    FileDetects(f);
    NeverDenies(t, GatedPart(f), phase, verdicts);
    if f.bodies != [] {
      if t.skip.Some? {
        RunConcat(t, Section(f.number, 1, f.bodies), [Mark(EndOf(f.number))], phase, verdicts);
        RestPassed(t, f.number, 1, f.bodies, 0, phase, verdicts);
        RunOne(t, Mark(EndOf(f.number)), phase, verdicts);
      } else if t.removed {
        RemovedStays(t, GatedPart(f), phase, verdicts);
      } else {
        GatingRefines(t, f.number, f.bodies, phase, verdicts);
      }
    }
  }

  /** Detection files leave the request undecided, whatever they match. */
  lemma {:induction false} FilesStayUndecided(s: Tx, files: seq<RuleFile>, phase: nat, verdicts: Verdicts)
    requires Undecided(s) && DetectionLevel in s.vars && DetectionFiles(files) && (phase == 1 || phase == 2)
    ensures Undecided(Run(s, FileRules(files), phase, verdicts))
  {
    if files != [] {
      var front, f := files[..|files| - 1], files[|files| - 1];
      FilesStayUndecided(s, front, phase, verdicts);
      RunConcat(s, FileRules(front), FileItems(f), phase, verdicts);
      var t := Run(s, FileRules(front), phase, verdicts);
      RunConcat(t, f.ungated, GatedPart(f), phase, verdicts);
      FilesDetect(front);
      DetectingKeeps(s, FileRules(front), phase, verdicts, DetectionLevel);
      UngatedEnds(t, f, phase, verdicts);
      GatedEnds(Run(t, f.ungated, phase, verdicts), f, phase, verdicts);
    }
  }

  // ---- scores only grow ----

  predicate NonNegativeWeights(vars: Vars) {
    forall w: Weight :: Val(vars, Anomaly(w)) >= 0
  }

  ghost predicate Grown(before: Vars, after: Vars) {
    && (forall w: Weight :: Val(after, Anomaly(w)) == Val(before, Anomaly(w)))
    && (forall n: nat :: Val(before, InboundScore(n)) <= Val(after, InboundScore(n)))
  }

  lemma ActionGrows(vars: Vars, a: Action, hit: Hit)
    requires NonNegativeWeights(vars) && DetectingAction(a)
    ensures Grown(vars, Apply(vars, a, hit))
  {
    if a.Add? {
      assert Val(vars, Anomaly(a.value.variable.weight)) >= 0;
    }
  }

  lemma {:induction false} ActionsGrow(vars: Vars, actions: seq<Action>, hit: Hit)
    requires NonNegativeWeights(vars) && forall i :: 0 <= i < |actions| ==> DetectingAction(actions[i])
    ensures Grown(vars, ApplyAll(vars, actions, hit))
  {
    if actions != [] {
      ActionsGrow(vars, actions[..|actions| - 1], hit);
      ActionGrows(ApplyAll(vars, actions[..|actions| - 1], hit), actions[|actions| - 1], hit);
    }
  }

  lemma {:induction false} HitsGrow(vars: Vars, actions: seq<Action>, hits: seq<Hit>)
    requires NonNegativeWeights(vars) && forall i :: 0 <= i < |actions| ==> DetectingAction(actions[i])
    ensures Grown(vars, ApplyHits(vars, actions, hits))
  {
    if hits != [] {
      HitsGrow(vars, actions, hits[..|hits| - 1]);
      ActionsGrow(ApplyHits(vars, actions, hits[..|hits| - 1]), actions, hits[|hits| - 1]);
    }
  }

  lemma StepGrows(s: Tx, item: Item, phase: nat, verdicts: Verdicts)
    requires NonNegativeWeights(s.vars) && Detecting(item)
    ensures Grown(s.vars, Step(s, item, phase, verdicts).vars)
  {
    if item.Rule? {
      HitsGrow(s.vars, item.actions, Hits(item.test, s.vars, verdicts(item.id)));
    }
  }

  /** No detection rule lowers a level's score. */
  lemma {:induction false} ScoresOnlyGrow(s: Tx, items: seq<Item>, phase: nat, verdicts: Verdicts)
    requires NonNegativeWeights(s.vars) && AllDetecting(items)
    ensures Grown(s.vars, Run(s, items, phase, verdicts).vars)
  {
    if items != [] {
      ScoresOnlyGrow(s, items[..|items| - 1], phase, verdicts);
      assert Detecting(items[|items| - 1]);
      StepGrows(Run(s, items[..|items| - 1], phase, verdicts), items[|items| - 1], phase, verdicts);
    }
  }

  // ---- two requests that differ in early blocking only ----

  predicate TwinVars(a: Vars, b: Vars) {
    EarlyBlocking in a && EarlyBlocking in b && b == a[EarlyBlocking := b[EarlyBlocking]]
  }

  predicate Twins(a: Tx, b: Tx) {
    a.skip == b.skip && a.denied == b.denied && a.removed == b.removed && TwinVars(a.vars, b.vars)
  }

  /** A rule that does not depend on the value of `early_blocking` once it is set. */
  predicate Blind(item: Item) {
    item.Rule? ==>
      && DetectingTest(item.test)
      && (item.flow.DenyIf? ==> DetectingTest(item.flow.chained))
      && (item.test != Missing(EarlyBlocking) ==> forall i :: 0 <= i < |item.actions| ==> BlindAction(item.actions[i]))
  }

  predicate BlindAction(a: Action) {
    match a
    case Put(v, o) => v != EarlyBlocking && o != Macro(EarlyBlocking)
    case Add(v, o) => v != EarlyBlocking && o != Macro(EarlyBlocking)
    case PutHit(v) => v != EarlyBlocking
    case CountHit => true
  }

  lemma TwinHits(a: Vars, b: Vars, t: Test, inspected: seq<Hit>)
    requires TwinVars(a, b) && DetectingTest(t)
    ensures Hits(t, a, inspected) == Hits(t, b, inspected)
  {
    if t.CountersAbove? {
      assert CountersOver(a, t.limit) == CountersOver(b, t.limit);
    }
  }

  lemma {:induction false} TwinActions(a: Vars, b: Vars, actions: seq<Action>, hit: Hit)
    requires TwinVars(a, b) && forall i :: 0 <= i < |actions| ==> BlindAction(actions[i])
    ensures TwinVars(ApplyAll(a, actions, hit), ApplyAll(b, actions, hit))
  {
    if actions != [] {
      TwinActions(a, b, actions[..|actions| - 1], hit);
      assert BlindAction(actions[|actions| - 1]);
    }
  }

  lemma {:induction false} TwinHitsApply(a: Vars, b: Vars, actions: seq<Action>, hits: seq<Hit>)
    requires TwinVars(a, b) && forall i :: 0 <= i < |actions| ==> BlindAction(actions[i])
    ensures TwinVars(ApplyHits(a, actions, hits), ApplyHits(b, actions, hits))
  {
    if hits != [] {
      var front := hits[..|hits| - 1];
      TwinHitsApply(a, b, actions, front);
      TwinActions(ApplyHits(a, actions, front), ApplyHits(b, actions, front), actions, hits[|hits| - 1]);
    }
  }

  lemma TwinStep(a: Tx, b: Tx, item: Item, phase: nat, verdicts: Verdicts)
    requires Twins(a, b) && (item.Rule? && item.phase == phase ==> Blind(item))
    ensures Twins(Step(a, item, phase, verdicts), Step(b, item, phase, verdicts))
  {
    if item.Rule? && Live(a, item, phase) {
      TwinHits(a.vars, b.vars, item.test, verdicts(item.id));
      var hits := Hits(item.test, a.vars, verdicts(item.id));
      if hits != [] {
        TwinHitsApply(a.vars, b.vars, item.actions, hits);
        if item.flow.DenyIf? {
          TwinHits(ApplyHits(a.vars, item.actions, hits), ApplyHits(b.vars, item.actions, hits), item.flow.chained, verdicts(item.id));
        }
      }
    }
  }

  predicate BlindIn(items: seq<Item>, phase: nat) {
    forall i :: 0 <= i < |items| && items[i].Rule? && items[i].phase == phase ==> Blind(items[i])
  }

  lemma {:induction false} TwinRun(a: Tx, b: Tx, items: seq<Item>, phase: nat, verdicts: Verdicts)
    requires Twins(a, b) && BlindIn(items, phase)
    ensures Twins(Run(a, items, phase, verdicts), Run(b, items, phase, verdicts))
  {
    if items != [] {
      var front := items[..|items| - 1];
      TwinRun(a, b, front, phase, verdicts);
      TwinStep(Run(a, front, phase, verdicts), Run(b, front, phase, verdicts), items[|items| - 1], phase, verdicts);
    }
  }

  lemma {:induction false} DefaultRulesBlind(ds: seq<Default>)
    requires forall i :: 0 <= i < |ds| ==> ds[i].value != Macro(EarlyBlocking)
    ensures forall i :: 0 <= i < |DefaultRules(ds)| ==> Blind(DefaultRules(ds)[i])
  {
    if ds != [] {
      DefaultRulesBlind(ds[..|ds| - 1]);
      assert Blind(DefaultRule(ds[|ds| - 1]));
    }
  }

  lemma {:induction false} ZeroesBlind(vs: seq<Var>)
    requires EarlyBlocking !in vs
    ensures forall i :: 0 <= i < |Zeroes(vs)| ==> BlindAction(Zeroes(vs)[i])
  {
    if vs != [] {
      ZeroesBlind(vs[..|vs| - 1]);
      assert vs[|vs| - 1] in vs;
    }
  }

  lemma InitializationBlind()
    ensures forall i :: 0 <= i < |Initialization()| ==> Blind(Initialization()[i])
  {
    DefaultRulesBlind(Defaults());
    ZeroesBlind(ZeroVars());
  }

  lemma DetectingIsBlind(items: seq<Item>, phase: nat)
    requires AllDetecting(items)
    ensures BlindIn(items, phase)
  {
    forall i | 0 <= i < |items| && items[i].Rule? ensures Blind(items[i]) {
      assert Detecting(items[i]);
      forall j | 0 <= j < |items[i].actions| ensures BlindAction(items[i].actions[j]) {
        assert DetectingAction(items[i].actions[j]);
      }
    }
  }

  // ---- the phases of a request ----

  lemma {:induction false} DefaultRulesPhase(ds: seq<Default>)
    ensures forall i :: 0 <= i < |DefaultRules(ds)| ==> DefaultRules(ds)[i].Rule? && DefaultRules(ds)[i].phase == 1
  {
    if ds != [] {
      DefaultRulesPhase(ds[..|ds| - 1]);
    }
  }

  lemma InitializationIsPhaseOne(s: Tx, verdicts: Verdicts)
    requires s.skip.None?
    ensures Run(s, Initialization(), 2, verdicts) == s
  {
    DefaultRulesPhase(Defaults());
    OtherPhase(s, Initialization(), 2, verdicts);
  }

  lemma ProgramInParts(s: Tx, files: seq<RuleFile>, phase: nat, verdicts: Verdicts)
    ensures Run(s, Program(files), phase, verdicts)
         == Run(Run(Run(s, Initialization(), phase, verdicts), FileRules(files), phase, verdicts), BlockingEvaluation(), phase, verdicts)
  {
    RunConcat(s, Initialization() + FileRules(files), BlockingEvaluation(), phase, verdicts);
    RunConcat(s, Initialization(), FileRules(files), phase, verdicts);
  }

  /** The state in which a request comes out of the initialization when it is to be checked. */
  predicate Checked(s: Tx) {
    && Open(s) && Ready(s.vars)
    && s.vars[BlockingInbound] == 0 && s.vars[DetectionInbound] == 0
    && s.vars[BlockingLevel] <= s.vars[DetectionLevel]
  }

  /** After the initialization a request is denied, excused from all further rules, or ready to be checked. */
  lemma InitializationSorts(configured: Vars, verdicts: Verdicts)
    ensures var t := Run(Start(configured), Initialization(), 1, verdicts);
            && t.skip.None? && (t.denied.Some? || t.removed || Checked(t))
            && (t.denied.Some? ==> t.denied == Some(901001) || t.denied == Some(901500))
            && (SetupVersion in configured ==> SameButRnd(t.vars, Prepared(configured)))
  {
    InitializationOutcome(Start(configured), verdicts);
    var t := Run(Start(configured), Initialization(), 1, verdicts);
    if t.denied.None? {
      SettledVars(configured, t.vars);
    }
  }

  lemma SettledVars(configured: Vars, vars: Vars)
    requires SameButRnd(vars, Prepared(configured))
    ensures Ready(vars) && vars[BlockingInbound] == 0 && vars[DetectionInbound] == 0
    ensures vars[BlockingLevel] == Setting(configured, BlockingLevel) && vars[DetectionLevel] == Setting(configured, DetectionLevel)
  {
    forall v | v in {BlockingLevel, DetectionLevel, InboundThreshold, EarlyBlocking, BlockingInbound, DetectionInbound}
      ensures Same(vars, Prepared(configured), v) && v in vars
    {
      RndAside(vars, Prepared(configured), v);
      PreparedVars(configured, v);
    }
    PreparedVars(configured, BlockingLevel);
    PreparedVars(configured, DetectionLevel);
    PreparedVars(configured, BlockingInbound);
    PreparedVars(configured, DetectionInbound);
  }

  /** Detection files keep a request ready to be judged. */
  lemma FilesKeepReady(s: Tx, files: seq<RuleFile>, phase: nat, verdicts: Verdicts)
    requires Open(s) && Ready(s.vars) && DetectionFiles(files) && (phase == 1 || phase == 2)
    ensures var t := Run(s, FileRules(files), phase, verdicts);
            && Undecided(t) && Ready(t.vars) && (phase == 2 ==> Open(t))
            && Same(t.vars, s.vars, BlockingLevel) && Same(t.vars, s.vars, DetectionLevel)
            && Same(t.vars, s.vars, InboundThreshold) && Same(t.vars, s.vars, EarlyBlocking)
            && Same(t.vars, s.vars, BlockingInbound) && Same(t.vars, s.vars, DetectionInbound)
  {
    hide Run, FileRules, DetectionFiles, AllDetecting;
    FilesStayUndecided(s, files, phase, verdicts);
    FilesDetect(files);
    if phase == 2 {
      ExcusedInPhaseOne(s, FileRules(files), verdicts);
    }
    DetectingKeeps(s, FileRules(files), phase, verdicts, BlockingLevel);
    DetectingKeeps(s, FileRules(files), phase, verdicts, DetectionLevel);
    DetectingKeeps(s, FileRules(files), phase, verdicts, InboundThreshold);
    DetectingKeeps(s, FileRules(files), phase, verdicts, EarlyBlocking);
    DetectingKeeps(s, FileRules(files), phase, verdicts, BlockingInbound);
    DetectingKeeps(s, FileRules(files), phase, verdicts, DetectionInbound);
  }

  /** The request when the detection files of a phase have inspected it and it is about to be judged. */
  function Inspection(s: Tx, files: seq<RuleFile>, phase: nat, verdicts: Verdicts): Tx {
    Run(s, FileRules(files), phase, verdicts)
  }

  function Inspected(s: Tx, files: seq<RuleFile>, phase: nat, verdicts: Verdicts): Vars {
    Inspection(s, files, phase, verdicts).vars
  }

  /**
   No double counting. For a request that the initialization and the files let through, the sums after each phase are
   exactly the per-level scores up to the blocking level and up to the detection level, phase 1 denies
   exactly when early blocking is on and the blocking sum reaches the threshold, and the detection sum
   covers at least the levels of the blocking sum.
   */
  lemma PhaseOneOutcome(configured: Vars, files: seq<RuleFile>, verdicts: Verdicts)
    requires DetectionFiles(files)
    ensures var s := Run(Start(configured), Initialization(), 1, verdicts);
            var t := Run(Start(configured), Program(files), 1, verdicts);
            if !Checked(s) then t == s
            else if Inspection(s, files, 1, verdicts).removed then t == Inspection(s, files, 1, verdicts) && Undecided(t)
            else
              var w := Inspected(s, files, 1, verdicts);
              && Ready(w) && w[BlockingLevel] <= w[DetectionLevel]
              && t.vars == WithSums(w, BlockingTotal(w), DetectionTotal(w))
              && t.denied == EarlyVerdict(w, BlockingTotal(w))
              && t.skip.None? && !t.removed
  {
    ProgramInParts(Start(configured), files, 1, verdicts);
    InitializationSorts(configured, verdicts);
    var s := Run(Start(configured), Initialization(), 1, verdicts);
    if !Checked(s) {
      Stays(s, FileRules(files), 1, verdicts);
      Stays(s, BlockingEvaluation(), 1, verdicts);
    } else {
      FilesKeepReady(s, files, 1, verdicts);
      var u := Inspection(s, files, 1, verdicts);
      if u.removed {
        Stays(u, BlockingEvaluation(), 1, verdicts);
      } else {
        PhaseOneJudges(u, verdicts);
      }
    }
  }

  lemma Stays(s: Tx, items: seq<Item>, phase: nat, verdicts: Verdicts)
    requires s.denied.Some? || (s.removed && s.skip.None?)
    ensures Run(s, items, phase, verdicts) == s
  {
    if s.denied.Some? {
      DeniedStays(s, items, phase, verdicts);
    } else {
      RemovedStays(s, items, phase, verdicts);
    }
  }

  lemma PhaseTwoOutcome(s: Tx, files: seq<RuleFile>, verdicts: Verdicts)
    requires DetectionFiles(files) && Open(s) && Ready(s.vars)
    ensures var t := Run(s, Program(files), 2, verdicts);
            var w := Inspected(s, files, 2, verdicts);
            && Ready(w)
            && t.vars == WithSums(w, BlockingTotal(w), DetectionTotal(w))
            && t.denied == FinalVerdict(w, BlockingTotal(w))
  {
    ProgramInParts(s, files, 2, verdicts);
    InitializationIsPhaseOne(s, verdicts);
    FilesKeepReady(s, files, 2, verdicts);
    PhaseTwoJudges(Run(s, FileRules(files), 2, verdicts), verdicts);
  }

  // ---- early blocking ----

  lemma TwinTotals(a: Vars, b: Vars)
    requires TwinVars(a, b) && Ready(a)
    ensures Ready(b) && BlockingTotal(a) == BlockingTotal(b) && DetectionTotal(a) == DetectionTotal(b)
    ensures TwinVars(WithSums(a, BlockingTotal(a), DetectionTotal(a)), WithSums(b, BlockingTotal(b), DetectionTotal(b)))
    ensures Exceeds(a, BlockingTotal(a)) <==> Exceeds(b, BlockingTotal(b))
  {
    TotalSame(a, b, Reached(a[BlockingLevel], 4));
    TotalSame(a, b, Reached(a[DetectionLevel], 4));
  }

  lemma {:induction false} TotalSame(a: Vars, b: Vars, levels: nat)
    requires TwinVars(a, b)
    ensures Total(a, levels) == Total(b, levels)
  {
    if levels > 0 {
      TotalSame(a, b, levels - 1);
    }
  }

  /** Two requests that differ in early blocking only stay so until they are judged in phase 1. */
  lemma TwinsInspected(a: Vars, b: Vars, files: seq<RuleFile>, verdicts: Verdicts)
    requires TwinVars(a, b) && DetectionFiles(files)
    ensures var s := Run(Start(a), Initialization(), 1, verdicts);
            var t := Run(Start(b), Initialization(), 1, verdicts);
            && Twins(s, t) && (Checked(s) <==> Checked(t))
            && Twins(Inspection(s, files, 1, verdicts), Inspection(t, files, 1, verdicts))
  {
    InitializationBlind();
    TwinRun(Start(a), Start(b), Initialization(), 1, verdicts);
    FilesDetect(files);
    DetectingIsBlind(FileRules(files), 1);
    TwinRun(Run(Start(a), Initialization(), 1, verdicts), Run(Start(b), Initialization(), 1, verdicts), FileRules(files), 1, verdicts);
  }

  /** In phase 2 early blocking does not matter. */
  lemma TwinsInPhaseTwo(s: Tx, t: Tx, files: seq<RuleFile>, verdicts: Verdicts)
    requires Twins(s, t) && Open(s) && Ready(s.vars) && DetectionFiles(files)
    ensures Run(s, Program(files), 2, verdicts).denied == Run(t, Program(files), 2, verdicts).denied
  {
    PhaseTwoOutcome(s, files, verdicts);
    PhaseTwoOutcome(t, files, verdicts);
    FilesDetect(files);
    DetectingIsBlind(FileRules(files), 2);
    TwinRun(s, t, FileRules(files), 2, verdicts);
    TwinTotals(Inspected(s, files, 2, verdicts), Inspected(t, files, 2, verdicts));
  }

  /** What phase 1 would deny, phase 2 denies whatever it finds. */
  lemma EarlyMeansFinal(s: Tx, files: seq<RuleFile>, verdicts: Verdicts)
    requires Open(s) && Ready(s.vars) && DetectionFiles(files) && NonNegativeWeights(s.vars)
    requires Exceeds(s.vars, BlockingTotal(s.vars))
    ensures Run(s, Program(files), 2, verdicts).denied == Some(949110)
  {
    PhaseTwoOutcome(s, files, verdicts);
    FilesDetect(files);
    FilesKeepReady(s, files, 2, verdicts);
    ScoresOnlyGrow(s, FileRules(files), 2, verdicts);
    TotalGrows(s.vars, Inspected(s, files, 2, verdicts), Reached(s.vars[BlockingLevel], 4));
  }

  lemma WeightsAfterInit(configured: Vars, verdicts: Verdicts)
    requires forall w: Weight :: Anomaly(w) in configured ==> configured[Anomaly(w)] >= 0
    requires SetupVersion in configured
    ensures NonNegativeWeights(Run(Start(configured), Initialization(), 1, verdicts).vars)
  {
    InitializationSorts(configured, verdicts);
    var t := Run(Start(configured), Initialization(), 1, verdicts);
    forall w: Weight ensures Val(t.vars, Anomaly(w)) >= 0 {
      PreparedVars(configured, Anomaly(w));
      RndAside(t.vars, Prepared(configured), Anomaly(w));
    }
  }

  /** A request that phase 1 has inspected, with early blocking off, and what phase 2 makes of it. */
  lemma LateVerdict(a: Vars, files: seq<RuleFile>, first: Verdicts, second: Verdicts)
    requires DetectionFiles(files) && SetupVersion in a && EarlyBlocking in a && a[EarlyBlocking] != 1
    requires forall w: Weight :: Anomaly(w) in a ==> a[Anomaly(w)] >= 0
    requires var s := Run(Start(a), Initialization(), 1, first); Checked(s) && !Inspection(s, files, 1, first).removed
    ensures var s := Run(Start(a), Initialization(), 1, first);
            var w := Inspected(s, files, 1, first);
            && Ready(w) && w[EarlyBlocking] == a[EarlyBlocking]
            && Open(Run(Start(a), Program(files), 1, first))
            && (Exceeds(w, BlockingTotal(w)) ==> Judge(a, files, first, second) == Some(949110))
  {
    hide Run, Program, DetectionFiles, Prepared, BlockingTotal, DetectionTotal;
    var s := Run(Start(a), Initialization(), 1, first);
    PhaseOneOutcome(a, files, first);
    InitializationSorts(a, first);
    RndAside(s.vars, Prepared(a), EarlyBlocking);
    PreparedVars(a, EarlyBlocking);
    FilesKeepReady(s, files, 1, first);
    var w := Inspected(s, files, 1, first);
    var t := Run(Start(a), Program(files), 1, first);
    TotalsIgnoreSums(w, BlockingTotal(w), DetectionTotal(w));
    if Exceeds(w, BlockingTotal(w)) {
      WeightsAfterInit(a, first);
      FilesDetect(files);
      ScoresOnlyGrow(s, FileRules(files), 1, first);
      assert NonNegativeWeights(t.vars);
      EarlyMeansFinal(t, files, second);
    }
  }

  /**
   Early blocking is sound and complete: turning it on makes a request be denied sooner, by rule 949111
   instead of 949110, but whatever the phases find, the denied requests are the same.
   */
  lemma EarlyBlockingOnlySooner(configured: Vars, files: seq<RuleFile>, first: Verdicts, second: Verdicts)
    requires DetectionFiles(files)
    requires forall w: Weight :: Anomaly(w) in configured ==> configured[Anomaly(w)] >= 0
    ensures var on := Judge(configured[EarlyBlocking := 1], files, first, second);
            var off := Judge(configured[EarlyBlocking := 0], files, first, second);
            && (on.Some? <==> off.Some?)
            && (on == off || (on == Some(949111) && off == Some(949110)))
  {
    hide Program, DetectionFiles, Prepared, BlockingTotal, DetectionTotal, FileRules, Initialization;
    var a, b := configured[EarlyBlocking := 0], configured[EarlyBlocking := 1];
    TwinsInspected(a, b, files, first);
    PhaseOneOutcome(a, files, first);
    PhaseOneOutcome(b, files, first);
    var s, t := Run(Start(a), Initialization(), 1, first), Run(Start(b), Initialization(), 1, first);
    if !Checked(s) {
      InitializationSorts(a, first);
      InitializationSorts(b, first);
      Stays(s, Program(files), 2, second);
      Stays(t, Program(files), 2, second);
    } else {
      InitializationOutcome(Start(a), first);
      CheckedOnlySooner(a, b, files, first, second);
    }
  }

  lemma CheckedOnlySooner(a: Vars, b: Vars, files: seq<RuleFile>, first: Verdicts, second: Verdicts)
    requires DetectionFiles(files) && TwinVars(a, b) && a[EarlyBlocking] == 0 && SetupVersion in a
    requires forall w: Weight :: Anomaly(w) in a ==> a[Anomaly(w)] >= 0
    requires Checked(Run(Start(a), Initialization(), 1, first))
    ensures var on, off := Judge(b, files, first, second), Judge(a, files, first, second);
            on == off || (on == Some(949111) && off == Some(949110))
  {
    hide Program, DetectionFiles, Prepared, FileRules, Initialization;
    TwinsInspected(a, b, files, first);
    PhaseOneOutcome(a, files, first);
    PhaseOneOutcome(b, files, first);
    var s0 := Run(Start(a), Initialization(), 1, first);
    if Inspection(s0, files, 1, first).removed {
      Stays(Inspection(s0, files, 1, first), Program(files), 2, second);
      Stays(Inspection(Run(Start(b), Initialization(), 1, first), files, 1, first), Program(files), 2, second);
      return;
    }
    LateVerdict(a, files, first, second);
    var s, t := Run(Start(a), Initialization(), 1, first), Run(Start(b), Initialization(), 1, first);
    var v, w := Inspected(s, files, 1, first), Inspected(t, files, 1, first);
    TwinTotals(v, w);
    var s1, t1 := Run(Start(a), Program(files), 1, first), Run(Start(b), Program(files), 1, first);
    if t1.denied.Some? {
      DeniedStays(t1, Program(files), 2, second);
    } else {
      TotalsIgnoreSums(v, BlockingTotal(v), DetectionTotal(v));
      TwinsInPhaseTwo(s1, t1, files, second);
    }
  }
}

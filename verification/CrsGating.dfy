/**
 Paranoia gating: the layout of the detection files with levels. Level by level, two rules (one for each
 request phase) jump to the end of the file when the detection level is too low, then come the level's rules.
 */
module CrsGating {
  import opened Prelude
  import opened Crs

  /** The two jumps before level `n` of file `file`; their ids end in 11 to 18. */
  function Gates(file: nat, n: nat): seq<Item> {
    [Rule(1000 * file + 9 + 2 * n, 1, Below(DetectionLevel, Number(n)), [], SkipAfter(EndOf(file))),
     Rule(1000 * file + 10 + 2 * n, 2, Below(DetectionLevel, Number(n)), [], SkipAfter(EndOf(file)))]
  }

  /** Levels `n`, `n + 1`, … with their gates. */
  function Section(file: nat, n: nat, bodies: seq<seq<Item>>): seq<Item>
    decreases |bodies|
  {
    if bodies == [] then [] else Gates(file, n) + bodies[0] + Section(file, n + 1, bodies[1..])
  }

  function Gated(file: nat, bodies: seq<seq<Item>>): seq<Item> {
    Section(file, 1, bodies) + [Mark(EndOf(file))]
  }

  /** The rules of the levels up to `detection`, without any gate. */
  function Unlocked(n: nat, bodies: seq<seq<Item>>, detection: int): seq<Item>
    decreases |bodies|
  {
    if bodies == [] || detection < n then [] else bodies[0] + Unlocked(n + 1, bodies[1..], detection)
  }

  /** Whether a jump stays inside the level's rules or goes to the end of the file. */
  predicate JumpsHome(file: nat, body: seq<Item>, i: nat)
    requires i < |body|
  {
    body[i].Rule? && body[i].flow.SkipAfter? ==>
      body[i].flow.target == EndOf(file) || Mark(body[i].flow.target) in body[i + 1..]
  }

  /** Rules without the end marker, a change of level, or a jump elsewhere. */
  predicate Homebound(file: nat, body: seq<Item>) {
    && Mark(EndOf(file)) !in body
    && (forall i :: 0 <= i < |body| ==> JumpsHome(file, body, i))
    && (forall i :: 0 <= i < |body| ==> !Writes(body[i], DetectionLevel))
  }

  predicate RemovesNothing(items: seq<Item>) {
    forall i :: 0 <= i < |items| && items[i].Rule? ==> !items[i].flow.RemoveCrs?
  }

  /** What a level may contain. */
  predicate LevelRules(file: nat, body: seq<Item>) {
    Homebound(file, body) && RemovesNothing(body)
  }

  predicate AllLevelRules(file: nat, bodies: seq<seq<Item>>) {
    forall i :: 0 <= i < |bodies| ==> LevelRules(file, bodies[i])
  }

  /** Nothing has been decided about the transaction, and no marker is being looked for. */
  predicate Open(s: Tx) {
    s.skip.None? && s.denied.None? && !s.removed
  }

  /** The end marker of the file. */
  function Closed(s: Tx, file: nat): Tx {
    if s.denied.None? && s.skip == Some(EndOf(file)) then s.(skip := None) else s
  }

  /** At any point of a level, an unfinished jump goes to the end of the file or to a marker still ahead. */
  predicate JumpAhead(s: Tx, file: nat, ahead: seq<Item>) {
    s.skip.Some? ==> s.skip.value == EndOf(file) || Mark(s.skip.value) in ahead
  }

  lemma {:induction false} LevelJumps(s: Tx, file: nat, body: seq<Item>, k: nat, phase: nat, verdicts: Verdicts)
    requires s.skip.None? && Homebound(file, body) && k <= |body|
    ensures var t := Run(s, body[..k], phase, verdicts); t.denied.None? ==> JumpAhead(t, file, body[k..])
  {
    if k > 0 {
      LevelJumps(s, file, body, k - 1, phase, verdicts);
      assert body[..k][..k - 1] == body[..k - 1];
      assert body[k - 1..] == [body[k - 1]] + body[k..];
      assert JumpsHome(file, body, k - 1);
    }
  }

  lemma {:induction false} NeverRemoved(s: Tx, items: seq<Item>, phase: nat, verdicts: Verdicts)
    requires RemovesNothing(items)
    ensures Run(s, items, phase, verdicts).removed == s.removed
  {
    if items != [] {
      NeverRemoved(s, items[..|items| - 1], phase, verdicts);
    }
  }

  /** A level ends open, denied, or on its way to the end of the file. */
  lemma LevelEnds(s: Tx, file: nat, body: seq<Item>, phase: nat, verdicts: Verdicts)
    requires Open(s) && LevelRules(file, body)
    ensures var t := Run(s, body, phase, verdicts);
            && !t.removed && Same(t.vars, s.vars, DetectionLevel)
            && (t.denied.Some? || t.skip.None? || t.skip == Some(EndOf(file)))
  {
    LevelJumps(s, file, body, |body|, phase, verdicts);
    assert body[..|body|] == body;
    NeverRemoved(s, body, phase, verdicts);
    RunKeeps(s, body, phase, verdicts, DetectionLevel);
  }

  lemma {:induction false} NoEndInside(file: nat, n: nat, bodies: seq<seq<Item>>, detection: int)
    requires AllLevelRules(file, bodies)
    ensures Mark(EndOf(file)) !in Section(file, n, bodies)
    ensures Mark(EndOf(file)) !in Unlocked(n, bodies, detection)
    decreases |bodies|
  {
    if bodies != [] {
      NoEndInside(file, n + 1, bodies[1..], detection);
      assert LevelRules(file, bodies[0]);
      assert forall item :: item in Gates(file, n) ==> item.Rule?;
      assert Mark(EndOf(file)) !in Gates(file, n) + bodies[0];
    }
  }

  lemma {:induction false} GatesDecide(s: Tx, file: nat, n: nat, phase: nat, verdicts: Verdicts)
    requires Open(s) && DetectionLevel in s.vars && (phase == 1 || phase == 2)
    ensures Run(s, Gates(file, n), phase, verdicts)
         == if s.vars[DetectionLevel] < n then s.(skip := Some(EndOf(file))) else s
  {
    var g := Gates(file, n);
    assert g[..1] == [g[0]];
    RunOne(s, g[0], phase, verdicts);
    NoActions(s.vars, [PLAIN]);
    assert Run(s, g, phase, verdicts) == Step(Step(s, g[0], phase, verdicts), g[1], phase, verdicts);
  }

  /** A state in which the rest of the file is passed over. */
  lemma RestPassed(t: Tx, file: nat, n: nat, bodies: seq<seq<Item>>, detection: int, phase: nat, verdicts: Verdicts)
    requires AllLevelRules(file, bodies) && (t.denied.Some? || t.skip == Some(EndOf(file)))
    ensures Run(t, Section(file, n, bodies), phase, verdicts) == t
    ensures Run(t, Unlocked(n, bodies, detection), phase, verdicts) == t
  {
    NoEndInside(file, n, bodies, detection);
    if t.denied.Some? {
      DeniedStays(t, Section(file, n, bodies), phase, verdicts);
      DeniedStays(t, Unlocked(n, bodies, detection), phase, verdicts);
    } else {
      SkippingStays(t, Section(file, n, bodies), phase, verdicts);
      SkippingStays(t, Unlocked(n, bodies, detection), phase, verdicts);
    }
  }

  lemma {:induction false} SectionRefines(s: Tx, file: nat, n: nat, bodies: seq<seq<Item>>, phase: nat, verdicts: Verdicts)
    requires Open(s) && DetectionLevel in s.vars && (phase == 1 || phase == 2) && AllLevelRules(file, bodies)
    ensures var t := Run(s, Section(file, n, bodies), phase, verdicts);
            && Closed(t, file) == Closed(Run(s, Unlocked(n, bodies, s.vars[DetectionLevel]), phase, verdicts), file)
            && !t.removed && (t.denied.Some? || t.skip.None? || t.skip == Some(EndOf(file)))
    decreases |bodies|
  {
    var d := s.vars[DetectionLevel];
    if bodies != [] {
      var rest := bodies[1..];
      RunConcat(s, Gates(file, n) + bodies[0], Section(file, n + 1, rest), phase, verdicts);
      RunConcat(s, Gates(file, n), bodies[0], phase, verdicts);
      GatesDecide(s, file, n, phase, verdicts);
      if d < n {
        var t := s.(skip := Some(EndOf(file)));
        SkippingStays(t, bodies[0], phase, verdicts);
        RestPassed(t, file, n + 1, rest, d, phase, verdicts);
      } else {
        var t := Run(s, bodies[0], phase, verdicts);
        LevelEnds(s, file, bodies[0], phase, verdicts);
        RunConcat(s, bodies[0], Unlocked(n + 1, rest, d), phase, verdicts);
        if Open(t) {
          SectionRefines(t, file, n + 1, rest, phase, verdicts);
        } else {
          RestPassed(t, file, n + 1, rest, d, phase, verdicts);
        }
      }
    }
  }

  /**
   Running a gated file does exactly what running the unlocked levels alone does: whatever the verdicts,
   a rule of a level above the detection level has no effect and no rule of a lower level is lost. Unless
   a rule denies, the file ends with no jump left over.
   */
  lemma GatingRefines(s: Tx, file: nat, bodies: seq<seq<Item>>, phase: nat, verdicts: Verdicts)
    requires Open(s) && DetectionLevel in s.vars && (phase == 1 || phase == 2) && AllLevelRules(file, bodies)
    ensures var t := Run(s, Gated(file, bodies), phase, verdicts);
            && t == Closed(Run(s, Unlocked(1, bodies, s.vars[DetectionLevel]), phase, verdicts), file)
            && (t.denied.None? ==> Open(t))
  {
    RunConcat(s, Section(file, 1, bodies), [Mark(EndOf(file))], phase, verdicts);
    SectionRefines(s, file, 1, bodies, phase, verdicts);
    var t := Run(s, Section(file, 1, bodies), phase, verdicts);
    RunOne(t, Mark(EndOf(file)), phase, verdicts);
  }

  // ---- what is tried, and what is left alone ----

  /** The ids of the rules of a phase, in order. */
  function PhaseIds(items: seq<Item>, phase: nat): seq<nat> {
    if items == [] then []
    else
      var last := items[|items| - 1];
      PhaseIds(items[..|items| - 1], phase) + if last.Rule? && last.phase == phase then [last.id] else []
  }

  /** Plain rules neither jump nor deny. */
  predicate Plain(items: seq<Item>) {
    forall i :: 0 <= i < |items| ==> items[i].Rule? && items[i].flow.Pass?
  }

  lemma {:induction false} PlainTriesAll(s: Tx, items: seq<Item>, phase: nat, verdicts: Verdicts)
    requires Open(s) && Plain(items)
    ensures var t := Run(s, items, phase, verdicts); Open(t) && t.tried == s.tried + PhaseIds(items, phase)
  {
    if items != [] {
      PlainTriesAll(s, items[..|items| - 1], phase, verdicts);
    }
  }

  lemma {:induction false} TriedComeFrom(s: Tx, items: seq<Item>, phase: nat, verdicts: Verdicts, id: nat)
    requires id in Run(s, items, phase, verdicts).tried && id !in s.tried
    ensures exists i :: 0 <= i < |items| && items[i].Rule? && items[i].id == id && items[i].phase == phase
  {
    if items != [] {
      var front, last := items[..|items| - 1], items[|items| - 1];
      if id in Run(s, front, phase, verdicts).tried {
        TriedComeFrom(s, front, phase, verdicts, id);
        var i :| 0 <= i < |front| && front[i].Rule? && front[i].id == id && front[i].phase == phase;
        assert items[i] == front[i];
      } else {
        assert items[|items| - 1].id == id;
      }
    }
  }

  lemma {:induction false} UnlockedIsLow(n: nat, bodies: seq<seq<Item>>, detection: int, item: Item)
    requires item in Unlocked(n, bodies, detection)
    ensures exists k :: 0 <= k < |bodies| && n + k <= detection && item in bodies[k]
    decreases |bodies|
  {
    if item in bodies[0] {
      assert n + 0 <= detection;
    } else {
      UnlockedIsLow(n + 1, bodies[1..], detection, item);
      var k :| 0 <= k < |bodies[1..]| && n + 1 + k <= detection && item in bodies[1..][k];
      assert bodies[k + 1] == bodies[1..][k] && n + (k + 1) <= detection;
    }
  }

  /** Every rule a file tries belongs to a level that the detection level reaches. */
  lemma LockedNeverTried(s: Tx, file: nat, bodies: seq<seq<Item>>, phase: nat, verdicts: Verdicts, id: nat)
    requires Open(s) && DetectionLevel in s.vars && (phase == 1 || phase == 2) && AllLevelRules(file, bodies)
    requires id in Run(s, Gated(file, bodies), phase, verdicts).tried && id !in s.tried
    ensures exists k, r :: 0 <= k < |bodies| && k + 1 <= s.vars[DetectionLevel] && r in bodies[k] && r.Rule? && r.id == id
  {
    var d := s.vars[DetectionLevel];
    GatingRefines(s, file, bodies, phase, verdicts);
    var open := Unlocked(1, bodies, d);
    TriedComeFrom(s, open, phase, verdicts, id);
    var i :| 0 <= i < |open| && open[i].Rule? && open[i].id == id && open[i].phase == phase;
    UnlockedIsLow(1, bodies, d, open[i]);
    var k :| 0 <= k < |bodies| && 1 + k <= d && open[i] in bodies[k];
    assert k + 1 <= d;
  }

  /** When no rule of the file jumps or denies, exactly the unlocked rules of the phase are tried, in order. */
  lemma UnlockedAllTried(s: Tx, file: nat, bodies: seq<seq<Item>>, phase: nat, verdicts: Verdicts)
    requires Open(s) && DetectionLevel in s.vars && (phase == 1 || phase == 2) && AllLevelRules(file, bodies)
    requires forall i :: 0 <= i < |bodies| ==> Plain(bodies[i])
    ensures Run(s, Gated(file, bodies), phase, verdicts).tried
         == s.tried + PhaseIds(Unlocked(1, bodies, s.vars[DetectionLevel]), phase)
  {
    GatingRefines(s, file, bodies, phase, verdicts);
    UnlockedPlain(1, bodies, s.vars[DetectionLevel]);
    PlainTriesAll(s, Unlocked(1, bodies, s.vars[DetectionLevel]), phase, verdicts);
  }

  lemma {:induction false} UnlockedPlain(n: nat, bodies: seq<seq<Item>>, detection: int)
    requires forall i :: 0 <= i < |bodies| ==> Plain(bodies[i])
    ensures Plain(Unlocked(n, bodies, detection))
    decreases |bodies|
  {
    if bodies != [] {
      UnlockedPlain(n + 1, bodies[1..], detection);
    }
  }

  ghost predicate AddsOnlyTo(body: seq<Item>, level: nat) {
    forall i, n: nat :: 0 <= i < |body| && Writes(body[i], InboundScore(n)) ==> n == level
  }

  /** Each level adds only to its own score. */
  ghost predicate OwnScoreOnly(bodies: seq<seq<Item>>) {
    forall k :: 0 <= k < |bodies| ==> AddsOnlyTo(bodies[k], k + 1)
  }

  /** The scores of the levels above the detection level do not move, whatever the verdicts. */
  lemma LockedScoresStay(s: Tx, file: nat, bodies: seq<seq<Item>>, phase: nat, verdicts: Verdicts, level: nat)
    requires Open(s) && DetectionLevel in s.vars && (phase == 1 || phase == 2)
    requires AllLevelRules(file, bodies) && OwnScoreOnly(bodies) && level > s.vars[DetectionLevel]
    ensures Same(Run(s, Gated(file, bodies), phase, verdicts).vars, s.vars, InboundScore(level))
  {
    var d := s.vars[DetectionLevel];
    GatingRefines(s, file, bodies, phase, verdicts);
    var open := Unlocked(1, bodies, d);
    forall i | 0 <= i < |open| ensures !Writes(open[i], InboundScore(level)) {
      UnlockedIsLow(1, bodies, d, open[i]);
      var k :| 0 <= k < |bodies| && 1 + k <= d && open[i] in bodies[k];
      var j :| 0 <= j < |bodies[k]| && bodies[k][j] == open[i];
      assert AddsOnlyTo(bodies[k], k + 1);
    }
    RunKeeps(s, open, phase, verdicts, InboundScore(level));
  }
}

/**
 The part of the rule language that the anomaly-scoring rules of wasmplugin/rules/crs use: phases,
 `setvar`, `skipAfter`, `SecMarker`, `deny` and `ctl:ruleRemoveByTag`, over arbitrary verdicts of the
 operators that inspect the request.
 */
module Crs {
  import opened Prelude

  datatype Attack = HttpViolation | SqlInjection | Xss | Rfi | Lfi | Rce | PhpInjection | SessionFixation

  datatype Weight = Critical | Error | Warning | Notice

  /** The `tx` variables; names are not case sensitive in the rules. */
  datatype Var =
    | SetupVersion | ReportingLevel | EarlyBlocking | InboundThreshold | OutboundThreshold
    | BlockingLevel | DetectionLevel | SamplingPercentage | SamplingRnd
    | EnforceUrlencoded | ValidateUtf8 | SkipResponseAnalysis
    | Anomaly(weight: Weight)
    | InboundScore(level: nat) | OutboundScore(level: nat)
    | BlockingInbound | DetectionInbound | BlockingOutbound | DetectionOutbound | AnomalyScore
    | AttackScore(attack: Attack)
    | ParamCounter(name: string)
    | Named(name: string)

  type Vars = map<Var, int>

  /** One match of an operator: the name of the variable it matched and the number it captured. */
  datatype Hit = Hit(name: string, number: int)

  /** What the operators of the rules that inspect the request match in one phase, by rule id. */
  type Verdicts = nat -> seq<Hit>

  datatype Operand = Number(value: int) | Macro(variable: Var)

  datatype Test =
    | Always
    | Missing(variable: Var)
    | AtLeast(variable: Var, bound: Operand)
    | Below(variable: Var, bound: Operand)
    | Equal(variable: Var, bound: Operand)
    | CountersAbove(limit: int)   // TX:/paramcounter_.*/
    | Inspects                    // anything that looks at the request

  datatype Action =
    | Put(variable: Var, value: Operand)
    | Add(variable: Var, value: Operand)
    | PutHit(variable: Var)       // the captured number
    | CountHit                    // TX.paramcounter_%{MATCHED_VAR_NAME}=+1

  datatype MarkerName = EndOf(file: nat) | EndSampling | BeginBlockingEval | OtherMarker(text: string)

  datatype Flow = Pass | Deny | DenyIf(chained: Test) | SkipAfter(target: MarkerName) | RemoveCrs

  datatype Item =
    | Rule(id: nat, phase: nat, test: Test, actions: seq<Action>, flow: Flow)
    | Mark(name: MarkerName)

  /** `tried` lists the rules evaluated so far, the rules that only jump aside. */
  datatype Tx = Tx(vars: Vars, skip: Option<MarkerName>, denied: Option<nat>, removed: bool, tried: seq<nat>)

  function Val(vars: Vars, v: Var): int {
    if v in vars then vars[v] else 0
  }

  function Eval(vars: Vars, o: Operand): int {
    match o
    case Number(n) => n
    case Macro(v) => Val(vars, v)
  }

  function CountersOver(vars: Vars, limit: int): set<Var> {
    set v | v in vars && v.ParamCounter? && vars[v] > limit
  }

  const PLAIN := Hit([], 0)

  /** The matches of a rule's operator; a variable that is not set matches nothing. */
  function Hits(t: Test, vars: Vars, inspected: seq<Hit>): seq<Hit> {
    match t
    case Always => [PLAIN]
    case Missing(v) => if v in vars then [] else [PLAIN]
    case AtLeast(v, o) => if v in vars && vars[v] >= Eval(vars, o) then [PLAIN] else []
    case Below(v, o) => if v in vars && vars[v] < Eval(vars, o) then [PLAIN] else []
    case Equal(v, o) => if v in vars && vars[v] == Eval(vars, o) then [PLAIN] else []
    case CountersAbove(n) => seq(|CountersOver(vars, n)|, i => PLAIN)
    case Inspects => inspected
  }

  function Apply(vars: Vars, a: Action, hit: Hit): Vars {
    match a
    case Put(v, o) => vars[v := Eval(vars, o)]
    case Add(v, o) => vars[v := Val(vars, v) + Eval(vars, o)]
    case PutHit(v) => vars[v := hit.number]
    case CountHit => vars[ParamCounter(hit.name) := Val(vars, ParamCounter(hit.name)) + 1]
  }

  function ApplyAll(vars: Vars, actions: seq<Action>, hit: Hit): Vars {
    if actions == [] then vars
    else Apply(ApplyAll(vars, actions[..|actions| - 1], hit), actions[|actions| - 1], hit)
  }

  /** The actions run once for every match. */
  function ApplyHits(vars: Vars, actions: seq<Action>, hits: seq<Hit>): Vars {
    if hits == [] then vars
    else ApplyAll(ApplyHits(vars, actions, hits[..|hits| - 1]), actions, hits[|hits| - 1])
  }

  function Divert(s: Tx, id: nat, flow: Flow, inspected: seq<Hit>): Tx {
    match flow
    case Pass => s
    case Deny => s.(denied := Some(id))
    case DenyIf(t) => if Hits(t, s.vars, inspected) != [] then s.(denied := Some(id)) else s
    case SkipAfter(m) => s.(skip := Some(m))
    case RemoveCrs => s.(removed := true)
  }

  /** Whether the rule is looked at at all. */
  predicate Live(s: Tx, r: Item, phase: nat)
    requires r.Rule?
  {
    s.denied.None? && s.skip.None? && !s.removed && r.phase == phase
  }

  function Step(s: Tx, item: Item, phase: nat, verdicts: Verdicts): Tx {
    match item
    case Mark(m) => if s.denied.None? && s.skip == Some(m) then s.(skip := None) else s
    case Rule(id, _, test, actions, flow) =>
      if !Live(s, item, phase) then s
      else
        var t := if flow.SkipAfter? then s else s.(tried := s.tried + [id]);
        var hits := Hits(test, s.vars, verdicts(id));
        if hits == [] then t
        else Divert(t.(vars := ApplyHits(s.vars, actions, hits)), id, flow, verdicts(id))
  }

  /** One phase over a list of rules, as a function. */
  function Run(s: Tx, items: seq<Item>, phase: nat, verdicts: Verdicts): Tx {
    if items == [] then s
    else Step(Run(s, items[..|items| - 1], phase, verdicts), items[|items| - 1], phase, verdicts)
  }

  /** A transaction as the engine keeps it. */
  class Transaction {
    var vars: Vars
    var skip: Option<MarkerName>
    var denied: Option<nat>
    var removed: bool
    var tried: seq<nat>

    function State(): Tx
      reads this
    {
      Tx(vars, skip, denied, removed, tried)
    }

    constructor (configured: Vars)
      ensures State() == Tx(configured, None, None, false, [])
    {
      vars, skip, denied, removed, tried := configured, None, None, false, [];
    }

    method RunActions(actions: seq<Action>, hits: seq<Hit>)
      modifies `vars
      ensures vars == ApplyHits(old(vars), actions, hits)
    {
      var h := 0;
      while h < |hits|
        invariant 0 <= h <= |hits|
        invariant vars == ApplyHits(old(vars), actions, hits[..h])
      {
        ghost var before := vars;
        var a := 0;
        while a < |actions|
          invariant 0 <= a <= |actions|
          invariant vars == ApplyAll(before, actions[..a], hits[h])
        {
          vars := Apply(vars, actions[a], hits[h]);
          assert actions[..a + 1][..a] == actions[..a];
          a := a + 1;
        }
        assert actions[..|actions|] == actions;
        assert hits[..h + 1][..h] == hits[..h];
        h := h + 1;
      }
      assert hits[..|hits|] == hits;
    }

    method EvalItem(item: Item, phase: nat, verdicts: Verdicts)
      modifies this
      ensures State() == Step(old(State()), item, phase, verdicts)
    {
      match item
      case Mark(m) =>
        if denied.None? && skip == Some(m) {
          skip := None;
        }
      case Rule(id, _, test, actions, flow) =>
        if denied.Some? || skip.Some? || removed || item.phase != phase {
          return;
        }
        if !flow.SkipAfter? {
          tried := tried + [id];
        }
        var hits := Hits(test, vars, verdicts(id));
        if hits == [] {
          return;
        }
        RunActions(actions, hits);
        match flow
        case Pass =>
        case Deny => denied := Some(id);
        case DenyIf(t) => if Hits(t, vars, verdicts(id)) != [] { denied := Some(id); }
        case SkipAfter(m) => skip := Some(m);
        case RemoveCrs => removed := true;
    }

    /** A phase stops at the first rule that denies. */
    method EvalPhase(items: seq<Item>, phase: nat, verdicts: Verdicts)
      modifies this
      ensures State() == Run(old(State()), items, phase, verdicts)
    {
      var i := 0;
      while i < |items| && denied.None?
        invariant 0 <= i <= |items|
        invariant State() == Run(old(State()), items[..i], phase, verdicts)
      {
        EvalItem(items[i], phase, verdicts);
        assert items[..i + 1][..i] == items[..i];
        i := i + 1;
      }
      RunConcat(old(State()), items[..i], items[i..], phase, verdicts);
      assert items[..i] + items[i..] == items;
      if i < |items| {
        DeniedStays(State(), items[i..], phase, verdicts);
      }
    }
  }

  // ---- running lists ----

  lemma {:induction false} RunConcat(s: Tx, a: seq<Item>, b: seq<Item>, phase: nat, verdicts: Verdicts)
    ensures Run(s, a + b, phase, verdicts) == Run(Run(s, a, phase, verdicts), b, phase, verdicts)
  {
    if b == [] {
      assert a + b == a;
    } else {
      RunConcat(s, a, b[..|b| - 1], phase, verdicts);
      assert (a + b)[..|a + b| - 1] == a + b[..|b| - 1];
    }
  }

  lemma {:induction false} DeniedStays(s: Tx, items: seq<Item>, phase: nat, verdicts: Verdicts)
    requires s.denied.Some?
    ensures Run(s, items, phase, verdicts) == s
  {
    if items != [] {
      DeniedStays(s, items[..|items| - 1], phase, verdicts);
    }
  }

  /** While a marker is being looked for, nothing else happens. */
  lemma {:induction false} SkippingStays(s: Tx, items: seq<Item>, phase: nat, verdicts: Verdicts)
    requires s.skip.Some? && Mark(s.skip.value) !in items
    ensures Run(s, items, phase, verdicts) == s
  {
    if items != [] {
      SkippingStays(s, items[..|items| - 1], phase, verdicts);
      assert items[|items| - 1] in items;
    }
  }

  /** Rules of another phase do nothing. */
  lemma {:induction false} OtherPhase(s: Tx, items: seq<Item>, phase: nat, verdicts: Verdicts)
    requires s.skip.None?
    requires forall i :: 0 <= i < |items| ==> items[i].Mark? || items[i].phase != phase
    ensures Run(s, items, phase, verdicts) == s
  {
    if items != [] {
      OtherPhase(s, items[..|items| - 1], phase, verdicts);
    }
  }

  lemma RunOne(s: Tx, item: Item, phase: nat, verdicts: Verdicts)
    ensures Run(s, [item], phase, verdicts) == Step(s, item, phase, verdicts)
  {
    assert [item][..0] == [];
  }

  lemma FourSteps(s: Tx, a: Item, b: Item, c: Item, d: Item, phase: nat, verdicts: Verdicts)
    ensures Run(s, [a, b, c, d], phase, verdicts)
         == Step(Step(Step(Step(s, a, phase, verdicts), b, phase, verdicts), c, phase, verdicts), d, phase, verdicts)
  {
    assert [a, b, c, d] == [a] + [b] + [c] + [d];
    RunConcat(s, [a] + [b] + [c], [d], phase, verdicts);
    RunConcat(s, [a] + [b], [c], phase, verdicts);
    RunConcat(s, [a], [b], phase, verdicts);
    RunOne(s, a, phase, verdicts);
    RunOne(Step(s, a, phase, verdicts), b, phase, verdicts);
    RunOne(Step(Step(s, a, phase, verdicts), b, phase, verdicts), c, phase, verdicts);
    RunOne(Step(Step(Step(s, a, phase, verdicts), b, phase, verdicts), c, phase, verdicts), d, phase, verdicts);
  }

  lemma {:induction false} NoActions(vars: Vars, hits: seq<Hit>)
    ensures ApplyHits(vars, [], hits) == vars
  {
    if hits != [] {
      NoActions(vars, hits[..|hits| - 1]);
    }
  }

  lemma OneHit(vars: Vars, actions: seq<Action>, hit: Hit)
    ensures ApplyHits(vars, actions, [hit]) == ApplyAll(vars, actions, hit)
  {
    assert [hit][..0] == [];
  }

  lemma OneAction(vars: Vars, a: Action, hit: Hit)
    ensures ApplyAll(vars, [a], hit) == Apply(vars, a, hit)
  {
    assert [a][..0] == [];
  }

  // ---- which variables a rule can change ----

  predicate ActionWrites(a: Action, v: Var) {
    match a
    case CountHit => v.ParamCounter?
    case _ => a.variable == v
  }

  predicate Writes(item: Item, v: Var) {
    item.Rule? && exists i | 0 <= i < |item.actions| :: ActionWrites(item.actions[i], v)
  }

  /** The variable has the same value, or is missing, in both. */
  predicate Same(a: Vars, b: Vars, v: Var) {
    (v in a <==> v in b) && (v in a ==> a[v] == b[v])
  }

  lemma {:induction false} ApplyAllKeeps(vars: Vars, actions: seq<Action>, hit: Hit, v: Var)
    requires forall i :: 0 <= i < |actions| ==> !ActionWrites(actions[i], v)
    ensures Same(ApplyAll(vars, actions, hit), vars, v)
  {
    if actions != [] {
      ApplyAllKeeps(vars, actions[..|actions| - 1], hit, v);
    }
  }

  lemma {:induction false} ApplyHitsKeeps(vars: Vars, actions: seq<Action>, hits: seq<Hit>, v: Var)
    requires forall i :: 0 <= i < |actions| ==> !ActionWrites(actions[i], v)
    ensures Same(ApplyHits(vars, actions, hits), vars, v)
  {
    if hits != [] {
      ApplyHitsKeeps(vars, actions, hits[..|hits| - 1], v);
      ApplyAllKeeps(ApplyHits(vars, actions, hits[..|hits| - 1]), actions, hits[|hits| - 1], v);
    }
  }

  lemma StepKeeps(s: Tx, item: Item, phase: nat, verdicts: Verdicts, v: Var)
    requires item.Rule? && item.phase == phase ==> !Writes(item, v)
    ensures Same(Step(s, item, phase, verdicts).vars, s.vars, v)
  {
    if item.Rule? && Live(s, item, phase) {
      ApplyHitsKeeps(s.vars, item.actions, Hits(item.test, s.vars, verdicts(item.id)), v);
    }
  }

  /** A variable that no rule of the phase writes keeps its value. */
  lemma {:induction false} RunKeeps(s: Tx, items: seq<Item>, phase: nat, verdicts: Verdicts, v: Var)
    requires forall i :: 0 <= i < |items| && items[i].Rule? && items[i].phase == phase ==> !Writes(items[i], v)
    ensures Same(Run(s, items, phase, verdicts).vars, s.vars, v)
  {
    if items != [] {
      RunKeeps(s, items[..|items| - 1], phase, verdicts, v);
      StepKeeps(Run(s, items[..|items| - 1], phase, verdicts), items[|items| - 1], phase, verdicts, v);
    }
  }
}

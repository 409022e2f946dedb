/** The names under which the counters of wasmplugin/metrics.go are defined. */
module MetricNames {

  const TOTAL := "waf_filter.tx.total"
  const PHASE := "_phase="
  const INTERRUPTIONS := "waf_filter.tx.interruptions_ruleid="

  function Digit(d: int): char
    requires 0 <= d < 10
  {
    "0123456789"[d]
  }

  function DecimalNat(n: nat): string {
    if n < 10 then [Digit(n)] else DecimalNat(n / 10) + [Digit(n % 10)]
  }

  /** The `%d` verb. */
  function Decimal(n: int): string {
    if n < 0 then "-" + DecimalNat(-n) else DecimalNat(n)
  }

  function LabelPair(key: string, value: string): string {
    "_" + key + "=" + value
  }

  /** What the label loop appends: `_key=value` for every pair, in order. */
  function LabelSuffix(labels: seq<string>): string {
    if |labels| < 2 then ""
    else LabelPair(labels[0], labels[1]) + LabelSuffix(labels[2..])
  }

  lemma NextPair(labels: seq<string>, i: nat, sb: string)
    requires i + 1 < |labels|
    ensures sb + LabelSuffix(labels[i..]) == sb + LabelPair(labels[i], labels[i + 1]) + LabelSuffix(labels[i + 2..])
  {
    assert labels[i..][2..] == labels[i + 2..];
  }

  function InterruptionName(phase: string, ruleID: int, labels: seq<string>): string {
    INTERRUPTIONS + Decimal(ruleID) + PHASE + phase + LabelSuffix(labels)
  }

  // ---- two interruptions share a counter only if they agree in rule and phase ----

  function DigitValue(c: char): nat {
    if '0' <= c <= '9' then (c - '0') as nat else 0
  }

  function ParseNat(s: string): nat {
    if s == [] then 0 else 10 * ParseNat(s[..|s| - 1]) + DigitValue(s[|s| - 1])
  }

  function ParseInt(s: string): int {
    if s != [] && s[0] == '-' then 0 - ParseNat(s[1..]) else ParseNat(s)
  }

  lemma {:induction false} ParseDecimalNat(n: nat)
    ensures DecimalNat(n) != [] && ParseNat(DecimalNat(n)) == n
    ensures forall c :: c in DecimalNat(n) ==> '0' <= c <= '9'
    ensures n > 0 ==> DecimalNat(n)[0] != '0'
    ensures n < 10 ==> |DecimalNat(n)| == 1
  {
    if n >= 10 {
      ParseDecimalNat(n / 10);
      var s := DecimalNat(n);
      assert s[..|s| - 1] == DecimalNat(n / 10);
    } else {
      var s := DecimalNat(n);
      assert s[..|s| - 1] == [];
    }
  }

  /** Reading back the digits gives the number, so different rules are written differently. */
  lemma ParseDecimal(n: int)
    ensures ParseInt(Decimal(n)) == n && '_' !in Decimal(n)
    ensures n > 0 ==> Decimal(n)[0] != '0'
    ensures n < 0 ==> Decimal(n)[0] == '-' && Decimal(n)[1] != '0'
    ensures Decimal(0) == "0"
  {
    ParseDecimalNat(if n < 0 then -n else n);
    if n < 0 {
      assert Decimal(n)[1..] == DecimalNat(-n);
    } else {
      assert Decimal(n)[0] in DecimalNat(n);
    }
  }

  /** The part of a text before its first separator. */
  function Before(s: string, sep: char): string {
    if s == [] || s[0] == sep then [] else [s[0]] + Before(s[1..], sep)
  }

  lemma {:induction false} BeforeSeparator(a: string, x: string, sep: char)
    requires sep !in a && x != [] && x[0] == sep
    ensures Before(a + x, sep) == a
  {
    if a == [] {
      assert a + x == x;
    } else {
      assert (a + x)[1..] == a[1..] + x;
      BeforeSeparator(a[1..], x, sep);
    }
  }

  lemma CancelPrefix(p: string, x: string, y: string)
    requires p + x == p + y
    ensures x == y
  {
    assert x == (p + x)[|p|..] && y == (p + y)[|p|..];
  }

  lemma CancelSuffix(x: string, y: string, z: string)
    requires x + z == y + z
    ensures x == y
  {
    assert x == (x + z)[..|x + z| - |z|] && y == (y + z)[..|y + z| - |z|];
  }

  /** What follows the rule number in a name. */
  function Rest(phase: string, labels: seq<string>): (r: string)
    ensures r != [] && r[0] == '_'
  {
    PHASE + (phase + LabelSuffix(labels))
  }

  lemma NameShape(phase: string, ruleID: int, labels: seq<string>)
    ensures InterruptionName(phase, ruleID, labels) == INTERRUPTIONS + (Decimal(ruleID) + Rest(phase, labels))
  {
    var d, l := Decimal(ruleID), LabelSuffix(labels);
    assert INTERRUPTIONS + d + PHASE + phase + l == INTERRUPTIONS + (d + (PHASE + (phase + l)));
  }

  /** Equal names have the same rule, and the same text after `_phase=`. */
  lemma SameName(p: string, r: int, labels: seq<string>, p': string, r': int, labels': seq<string>)
    requires InterruptionName(p, r, labels) == InterruptionName(p', r', labels')
    ensures r == r' && p + LabelSuffix(labels) == p' + LabelSuffix(labels')
  {
    NameShape(p, r, labels);
    NameShape(p', r', labels');
    CancelPrefix(INTERRUPTIONS, Decimal(r) + Rest(p, labels), Decimal(r') + Rest(p', labels'));
    ParseDecimal(r);
    ParseDecimal(r');
    BeforeSeparator(Decimal(r), Rest(p, labels), '_');
    BeforeSeparator(Decimal(r'), Rest(p', labels'), '_');
    CancelPrefix(Decimal(r), Rest(p, labels), Rest(p', labels'));
    CancelPrefix(PHASE, p + LabelSuffix(labels), p' + LabelSuffix(labels'));
  }

  /** For one label list, different (rule, phase) pairs have different counters. */
  lemma InterruptionNameInjective(p: string, r: int, p': string, r': int, labels: seq<string>)
    requires InterruptionName(p, r, labels) == InterruptionName(p', r', labels)
    ensures r == r' && p == p'
  {
    SameName(p, r, labels, p', r', labels);
    CancelSuffix(p, p', LabelSuffix(labels));
  }

  lemma InterruptionIsNotTotal(p: string, r: int, labels: seq<string>)
    ensures InterruptionName(p, r, labels) != TOTAL
  {
    assert InterruptionName(p, r, labels)[14] == 'i' && TOTAL[14] == 't';
  }

  /** The suffix of a list with one more pair. */
  lemma {:induction false} SuffixAppends(labels: seq<string>, key: string, value: string)
    requires |labels| % 2 == 0
    ensures LabelSuffix(labels + [key, value]) == LabelSuffix(labels) + LabelPair(key, value)
  {
    if labels == [] {
      assert labels + [key, value] == [key, value] && [key, value][2..] == [];
      assert LabelPair(key, value) + "" == LabelPair(key, value);
    } else {
      var all := labels + [key, value];
      assert all[2..] == labels[2..] + [key, value];
      SuffixAppends(labels[2..], key, value);
      assert LabelSuffix(all) == LabelPair(labels[0], labels[1]) + (LabelSuffix(labels[2..]) + LabelPair(key, value));
    }
  }

  /**
   Labels are written without escaping, so two different lists can look alike. Within one plugin all
   lists share their beginning (see SameCounterOfPlugin in Metrics); a clash needs two configurations.
   */
  lemma LabelsCanClash()
    ensures exists a: seq<string>, b: seq<string> ::
              a != b && |a| % 2 == |b| % 2 == 0 && LabelSuffix(a) == LabelSuffix(b)
  {
    var a, b := ["k", "v", "l", "w"], ["k", "v_l=w"];
    assert a[2..] == ["l", "w"] && a[2..][2..] == [] && b[2..] == [];
    assert LabelSuffix(a) == "_k=v_l=w" == LabelSuffix(b);
  }
}

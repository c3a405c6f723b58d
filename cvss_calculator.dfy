/**
 * components/tools/cvss-calculator-modal.tsx: the CVSS v3.1 base-score calculator. The metric
 * weight table, `calculateCvssScore` (over exact reals), `getSeverity`, `handleMetricChange`
 * and `formatResults`.
 *
 * The calculator departs from section 7.1 of the CVSS v3.1 specification in two ways that are
 * modelled as written: the Privileges Required weight does not depend on Scope, and there is no
 * rule that an impact of at most 0 gives a score of 0.
 */
module CvssCalculator {
  import opened Strings

  datatype Metric = AV | AC | PR | UI | S | C | I | A

  /** The order the metrics are listed in by `formatResults`. */
  const MetricOrder: seq<Metric> := [AV, AC, PR, UI, S, C, I, A]

  /** `MetricValues` */
  function Weights(metric: Metric): map<char, real> {
    match metric
    case AV => map['N' := 0.85, 'A' := 0.62, 'L' := 0.55, 'P' := 0.20]
    case AC => map['L' := 0.77, 'H' := 0.44]
    case PR => map['N' := 0.85, 'L' := 0.62, 'H' := 0.27]
    case UI => map['N' := 0.85, 'R' := 0.62]
    case S => map['U' := 0.0, 'C' := 1.0]
    case C => map['H' := 0.56, 'L' := 0.22, 'N' := 0.00]
    case I => map['H' := 0.56, 'L' := 0.22, 'N' := 0.00]
    case A => map['H' := 0.56, 'L' := 0.22, 'N' := 0.00]
  }

  /** `MetricDescriptions` */
  function Descriptions(metric: Metric): map<char, string> {
    match metric
    case AV => map['N' := "Network (N)", 'A' := "Adjacent (A)", 'L' := "Local (L)", 'P' := "Physical (P)"]
    case AC => map['L' := "Low (L)", 'H' := "High (H)"]
    case PR => map['N' := "None (N)", 'L' := "Low (L)", 'H' := "High (H)"]
    case UI => map['N' := "None (N)", 'R' := "Required (R)"]
    case S => map['U' := "Unchanged (U)", 'C' := "Changed (C)"]
    case C => map['H' := "High (H)", 'L' := "Low (L)", 'N' := "None (N)"]
    case I => map['H' := "High (H)", 'L' := "Low (L)", 'N' := "None (N)"]
    case A => map['H' := "High (H)", 'L' := "Low (L)", 'N' := "None (N)"]
  }

  /** Every weight lies in [0, 1], the impact weights for None are 0, and the descriptions offer
      exactly the letters the weight table knows. */
  lemma WeightTable(metric: Metric, v: char)
    ensures v in Weights(metric) ==> 0.0 <= Weights(metric)[v] <= 1.0
    ensures metric in {C, I, A} ==> 'N' in Weights(metric) && Weights(metric)['N'] == 0.0
    ensures v in Weights(metric) <==> v in Descriptions(metric)
  {
  }

  /** The selected letters, one per metric; the buttons only offer letters of the table. */
  type Metrics = map<Metric, char>

  predicate Selected(m: Metrics, metric: Metric) {
    metric in m && m[metric] in Weights(metric)
  }

  predicate ValidMetrics(m: Metrics) {
    Selected(m, AV) && Selected(m, AC) && Selected(m, PR) && Selected(m, UI) &&
    Selected(m, S) && Selected(m, C) && Selected(m, I) && Selected(m, A)
  }

  /** Every metric of a valid selection is selected. */
  lemma SelectedMetric(m: Metrics, metric: Metric)
    requires ValidMetrics(m)
    ensures Selected(m, metric)
  {
  }

  /** The description of the letter selected for `metric`. */
  function Describe(m: Metrics, metric: Metric): string
    requires Selected(m, metric)
  {
    WeightTable(metric, m[metric]);
    Descriptions(metric)[m[metric]]
  }

  /** The initial selection AV:N/AC:L/PR:N/UI:N/S:U/C:H/I:H/A:H. */
  const DefaultMetrics: Metrics :=
    map[AV := 'N', AC := 'L', PR := 'N', UI := 'N', S := 'U', C := 'H', I := 'H', A := 'H']

  function W(m: Metrics, metric: Metric): real
    requires Selected(m, metric)
  {
    Weights(metric)[m[metric]]
  }

  // ---------------------------------------------------------------------------------------------
  // Arithmetic

  /** `Math.pow(x, n)` for a natural exponent. */
  function Pow(x: real, n: nat): real {
    if n == 0 then 1.0 else x * Pow(x, n - 1)
  }

  /** `Math.ceil` */
  function Ceil(x: real): (r: int)
    ensures x <= r as real < x + 1.0
  {
    -((-x).Floor)
  }

  /** `Math.ceil(x * 10) / 10`: rounding up to one decimal. */
  function RoundUpTenth(x: real): (r: real)
    ensures x <= r < x + 0.1
  {
    Ceil(x * 10.0) as real / 10.0
  }

  function Min(x: real, y: real): real { if x <= y then x else y }

  // ---------------------------------------------------------------------------------------------
  // The score

  function Exploitability(m: Metrics): real
    requires ValidMetrics(m)
  {
    8.22 * W(m, AV) * W(m, AC) * W(m, PR) * W(m, UI)
  }

  /** The impact sub-score base, `1 - (1 - c)(1 - i)(1 - a)`. */
  function Iss(m: Metrics): real
    requires ValidMetrics(m)
  {
    1.0 - ((1.0 - W(m, C)) * (1.0 - W(m, I)) * (1.0 - W(m, A)))
  }

  function Impact(m: Metrics): real
    requires ValidMetrics(m)
  {
    if m[S] == 'C' then 7.52 * (Iss(m) - 0.029) - 3.25 * Pow(Iss(m) - 0.02, 15)
    else 6.42 * Iss(m)
  }

  /** The score before rounding. */
  function RawScore(m: Metrics): real
    requires ValidMetrics(m)
  {
    if m[S] == 'C' then Min(1.08 * (Impact(m) + Exploitability(m)), 10.0)
    else Impact(m) + Exploitability(m)
  }

  /** The base score `calculateCvssScore` stores. */
  function BaseScore(m: Metrics): real
    requires ValidMetrics(m)
  {
    var rounded := RoundUpTenth(RawScore(m));
    if rounded > 10.0 then 10.0 else rounded
  }

  /** A whole number of tenths. */
  predicate IsTenths(x: real) { (x * 10.0).Floor as real == x * 10.0 }

  /** The score is a whole number of tenths, is never above 10, and is the raw score rounded up
      to the next tenth unless that would pass 10. */
  lemma BaseScoreShape(m: Metrics)
    requires ValidMetrics(m)
    ensures IsTenths(BaseScore(m))
    ensures BaseScore(m) <= 10.0
    ensures RawScore(m) <= 9.9 ==> RawScore(m) <= BaseScore(m) < RawScore(m) + 0.1
  {
    var k := Ceil(RawScore(m) * 10.0);
    var rounded := k as real / 10.0;
    assert rounded * 10.0 == k as real;
    if rounded > 10.0 {
      assert 10.0 * 10.0 == 100 as real;
    }
  }

  /** With Scope Changed, the score before rounding is `min(1.08 × (impact + exploitability), 10)`;
      with Scope Unchanged it is the plain sum. */
  lemma ScopeChangedScore(m: Metrics)
    requires ValidMetrics(m)
    ensures m[S] == 'C' ==> RawScore(m) == Min(1.08 * (Impact(m) + Exploitability(m)), 10.0)
    ensures m[S] == 'C' ==> RawScore(m) <= 10.0
    ensures m[S] != 'C' ==> RawScore(m) == Impact(m) + Exploitability(m)
  {
  }

  /** The Privileges Required weight is the same under both scopes (section 7.4 of CVSS v3.1
      raises PR:L to 0.68 and PR:H to 0.50 when Scope is Changed). */
  lemma PrivilegesIgnoreScope(m: Metrics)
    requires ValidMetrics(m)
    ensures ValidMetrics(m[S := 'U']) && ValidMetrics(m[S := 'C'])
    ensures Exploitability(m[S := 'U']) == Exploitability(m[S := 'C'])
  {
  }

  function Abs(x: real): real { if x < 0.0 then -x else x }

  /** |x^n| <= x^2 for |x| <= 1 and n >= 2. */
  lemma {:induction false} PowSmall(x: real, n: nat)
    requires Abs(x) <= 1.0 && n >= 2
    ensures Abs(Pow(x, n)) <= x * x
  {
    if n == 2 {
      assert Pow(x, 1) == x;
    } else {
      PowSmall(x, n - 1);
      var p := Pow(x, n - 1);
      AbsProduct(x, p);
      assert Abs(x) * Abs(p) <= Abs(p);
    }
  }

  lemma AbsProduct(x: real, y: real)
    ensures Abs(x * y) == Abs(x) * Abs(y)
  {
    if x < 0.0 && y < 0.0 {
      assert x * y == (-x) * (-y);
    } else if x < 0.0 {
      assert -(x * y) == (-x) * y;
    } else if y < 0.0 {
      assert -(x * y) == x * (-y);
    }
  }

  /** AV:N/AC:L/PR:N/UI:N/S:C/C:N/I:N/A:N: no impact at all, yet a Medium score of 4.0, where the
      CVSS v3.1 rule gives 0. */
  lemma ChangedScopeWithoutImpact()
    ensures var m := map[AV := 'N', AC := 'L', PR := 'N', UI := 'N', S := 'C', C := 'N', I := 'N', A := 'N'];
      ValidMetrics(m) && BaseScore(m) == 4.0 && Severity(BaseScore(m)) == "Medium"
  {
    var m := map[AV := 'N', AC := 'L', PR := 'N', UI := 'N', S := 'C', C := 'N', I := 'N', A := 'N'];
    assert ValidMetrics(m);
    assert Iss(m) == 0.0;
    PowSmall(-0.02, 15);
    var p := Pow(-0.02, 15);
    assert -0.0004 <= p <= 0.0004;
    assert Impact(m) == 7.52 * (0.0 - 0.029) - 3.25 * p;
    assert Exploitability(m) == 8.22 * 0.85 * 0.77 * 0.85 * 0.85;
    assert 396.0 < RawScore(m) * 100.0 < 397.0;
    assert Ceil(RawScore(m) * 10.0) == 40;
  }

  /** AV:P/AC:H/PR:H/UI:R/S:C/C:N/I:N/A:N: the score is negative, -0.1. */
  lemma NegativeScore()
    ensures var m := map[AV := 'P', AC := 'H', PR := 'H', UI := 'R', S := 'C', C := 'N', I := 'N', A := 'N'];
      ValidMetrics(m) && BaseScore(m) == -0.1 && Severity(BaseScore(m)) == "None"
  {
    var m := map[AV := 'P', AC := 'H', PR := 'H', UI := 'R', S := 'C', C := 'N', I := 'N', A := 'N'];
    assert ValidMetrics(m);
    assert Iss(m) == 0.0;
    PowSmall(-0.02, 15);
    var p := Pow(-0.02, 15);
    assert -0.0004 <= p <= 0.0004;
    assert Impact(m) == 7.52 * (0.0 - 0.029) - 3.25 * p;
    assert Exploitability(m) == 8.22 * 0.20 * 0.44 * 0.27 * 0.62;
    assert -11.0 < RawScore(m) * 100.0 < -10.0;
    assert Ceil(RawScore(m) * 10.0) == -1;
  }

  // ---------------------------------------------------------------------------------------------
  // Severity

  /** `getSeverity(score)`: the qualitative rating bands of section 5 of CVSS v3.1. */
  function Severity(score: real): (r: string)
    ensures score >= 9.0 <==> r == "Critical"
    ensures 7.0 <= score < 9.0 <==> r == "High"
    ensures 4.0 <= score < 7.0 <==> r == "Medium"
    ensures 0.0 < score < 4.0 <==> r == "Low"
    ensures score <= 0.0 <==> r == "None"
  {
    if score >= 9.0 then "Critical"
    else if score >= 7.0 then "High"
    else if score >= 4.0 then "Medium"
    else if score > 0.0 then "Low"
    else "None"
  }

  function SeverityRank(severity: string): nat {
    match severity
    case "Critical" => 4
    case "High" => 3
    case "Medium" => 2
    case "Low" => 1
    case _ => 0
  }

  /** A higher score never gets a lower rating. */
  lemma SeverityMonotone(x: real, y: real)
    requires x <= y
    ensures SeverityRank(Severity(x)) <= SeverityRank(Severity(y))
  {
  }

  // ---------------------------------------------------------------------------------------------
  // Rendering

  /** `${score}` for a whole number of tenths `k / 10`: JavaScript prints the shortest decimal,
      so no fractional digit when `k` is a multiple of 10, else one. */
  function TenthsToString(k: int): (r: string)
    ensures |r| >= 1
  {
    var sign := if k < 0 then "-" else "";
    var n: nat := if k < 0 then -k else k;
    sign + NatToString(n / 10) + (if n % 10 == 0 then "" else "." + [DigitChar(n % 10)])
  }

  function ScoreToString(score: real): string {
    TenthsToString((score * 10.0).Floor)
  }

  lemma ScoreRenderings()
    ensures ScoreToString(9.8) == "9.8"
    ensures ScoreToString(10.0) == "10"
    ensures ScoreToString(0.0) == "0"
    ensures ScoreToString(-0.1) == "-0.1"
  {
    assert (9.8 * 10.0).Floor == 98;
    assert (10.0 * 10.0).Floor == 100;
    assert (-0.1 * 10.0).Floor == -1;
  }

  /** One bullet of the report: `• <title>: <description>\n`. */
  function MetricLine(metric: Metric, m: Metrics): string
    requires ValidMetrics(m)
  {
    SelectedMetric(m, metric);
    "• " + Title(metric) + ": " + Describe(m, metric) + "\n"
  }

  function Title(metric: Metric): string {
    match metric
    case AV => "Attack Vector"
    case AC => "Attack Complexity"
    case PR => "Privileges Required"
    case UI => "User Interaction"
    case S => "Scope"
    case C => "Confidentiality Impact"
    case I => "Integrity Impact"
    case A => "Availability Impact"
  }

  /** The bullets of the first `k` metrics of `order`, in that order. */
  function MetricLines(order: seq<Metric>, k: nat, m: Metrics): string
    requires ValidMetrics(m) && k <= |order|
  {
    if k == 0 then "" else MetricLines(order, k - 1, m) + MetricLine(order[k - 1], m)
  }

  // ---------------------------------------------------------------------------------------------
  // The modal's state

  class CvssCalculatorModal {
    var metrics: Metrics
    var baseScore: real
    var severity: string

    predicate Valid()
      reads this
    {
      ValidMetrics(metrics) && IsTenths(baseScore)
    }

    /** The initial state: the default selection, score 0 and no severity until the effect runs. */
    constructor ()
      ensures metrics == DefaultMetrics && baseScore == 0.0 && severity == ""
      ensures Valid()
    {
      metrics := DefaultMetrics;
      baseScore := 0.0;
      severity := "";
    }

    /** `calculateCvssScore()`, run by the effect whenever `metrics` changes. */
    method CalculateCvssScore()
      requires ValidMetrics(metrics)
      modifies this
      ensures metrics == old(metrics)
      ensures baseScore == BaseScore(metrics) && severity == Severity(baseScore)
      ensures Valid()
    {
      var score := BaseScore(metrics);
      BaseScoreShape(metrics);
      baseScore := score;
      severity := Severity(score);
    }

    /** `handleMetricChange(metric, value)`: `{...prev, [metric]: value}`, after which the effect
        recomputes the score. */
    method HandleMetricChange(metric: Metric, value: char)
      requires ValidMetrics(metrics) && value in Weights(metric)
      modifies this
      ensures metrics == old(metrics)[metric := value]
      ensures forall other :: other != metric ==> metrics[other] == old(metrics)[other]
      ensures baseScore == BaseScore(metrics) && severity == Severity(baseScore)
      ensures Valid()
    {
      metrics := metrics[metric := value];
      CalculateCvssScore();
    }

    /** `formatResults()` */
    function FormatResults(): (r: string)
      reads this
      requires Valid()
      ensures r == "CVSS v3.1 Calculator Results\n\n" + MetricLines(MetricOrder, 8, metrics) + "\n"
        + "Base Score: " + ScoreToString(baseScore) + " (" + severity + ")"
    {
      FormatUnfold(metrics);
      "CVSS v3.1 Calculator Results\n\n" +
      (MetricLine(AV, metrics) + MetricLine(AC, metrics) + MetricLine(PR, metrics) +
       MetricLine(UI, metrics) + MetricLine(S, metrics) + MetricLine(C, metrics) +
       MetricLine(I, metrics) + MetricLine(A, metrics)) + "\n" +
      "Base Score: " + ScoreToString(baseScore) + " (" + severity + ")"
    }
  }

  lemma FormatUnfold(m: Metrics)
    requires ValidMetrics(m)
    ensures MetricLines(MetricOrder, 8, m) ==
      MetricLine(AV, m) + MetricLine(AC, m) + MetricLine(PR, m) + MetricLine(UI, m) +
      MetricLine(S, m) + MetricLine(C, m) + MetricLine(I, m) + MetricLine(A, m)
  {
    EightLines(MetricOrder, m);
  }

  lemma EightLines(o: seq<Metric>, m: Metrics)
    requires ValidMetrics(m) && |o| == 8
    ensures MetricLines(o, 8, m) ==
      MetricLine(o[0], m) + MetricLine(o[1], m) + MetricLine(o[2], m) + MetricLine(o[3], m) +
      MetricLine(o[4], m) + MetricLine(o[5], m) + MetricLine(o[6], m) + MetricLine(o[7], m)
  {
    assert MetricLines(o, 1, m) == MetricLine(o[0], m);
    assert MetricLines(o, 2, m) == MetricLines(o, 1, m) + MetricLine(o[1], m);
    assert MetricLines(o, 3, m) == MetricLines(o, 2, m) + MetricLine(o[2], m);
    assert MetricLines(o, 4, m) == MetricLines(o, 3, m) + MetricLine(o[3], m);
    assert MetricLines(o, 5, m) == MetricLines(o, 4, m) + MetricLine(o[4], m);
    assert MetricLines(o, 6, m) == MetricLines(o, 5, m) + MetricLine(o[5], m);
    assert MetricLines(o, 7, m) == MetricLines(o, 6, m) + MetricLine(o[6], m);
  }
}

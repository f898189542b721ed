/**
 * The compliance engine: runs every rule of its catalogue over one billboard
 * and aggregates the violations into a verdict, a score, a fine total and a
 * risk tier.
 *
 * The pure functions below are the specification of one evaluation;
 * `ComplianceEngine.CheckCompliance` computes the same report with the
 * source's accumulator loop and is proved equal to `Evaluate`.
 */
module Engine {
  import opened ComplianceTypes
  import opened Selection
  import ComplianceRules

  /** A violated rule together with the outcome it produced. */
  datatype Violation = Violation(rule: ComplianceRule, result: ComplianceResult)

  /** The compliance score; `NaN` is what `0 / 0` gives for an empty catalogue. */
  datatype Score = Rounded(percent: int) | NaN

  datatype RiskLevel = Low | Medium | High | Critical

  datatype ComplianceReport = ComplianceReport(
    overallCompliance: bool,
    violations: seq<Violation>,
    complianceScore: Score,
    totalFines: real,
    riskLevel: RiskLevel)

  /** The rules whose outcome on `b` is a violation. */
  function ViolatedBy(b: BillboardData): ComplianceRule -> bool {
    (rule: ComplianceRule) => !rule.checkFunction(b).isCompliant
  }

  function InCategory(category: Category): ComplianceRule -> bool {
    (rule: ComplianceRule) => rule.category == category
  }

  function HasId(id: string): ComplianceRule -> bool {
    (rule: ComplianceRule) => rule.id == id
  }

  /** The violation `rule` raises on `b`: none, or one. */
  function ViolationOf(rule: ComplianceRule, b: BillboardData): seq<Violation> {
    var result := rule.checkFunction(b);
    if result.isCompliant then [] else [Violation(rule, result)]
  }

  /** The violations of `rules` on `b`, in catalogue order. */
  function Violations(rules: seq<ComplianceRule>, b: BillboardData): seq<Violation>
    decreases |rules|
  {
    if rules == [] then []
    else
      Violations(rules[..|rules| - 1], b) + ViolationOf(rules[|rules| - 1], b)
  }

  /** `fineAmount || 0`: a missing fine counts as zero. */
  function FineOrZero(r: ComplianceResult): real {
    match r.fineAmount
    case Some(f) => f
    case None => 0.0
  }

  /** The sum of the fines of `vs`. */
  function FineTotal(vs: seq<Violation>): real
    decreases |vs|
  {
    if vs == [] then 0.0 else FineTotal(vs[..|vs| - 1]) + FineOrZero(vs[|vs| - 1].result)
  }

  /** How many of `vs` were raised by a rule of severity `s`. */
  function CountSeverity(vs: seq<Violation>, s: Severity): nat
    decreases |vs|
  {
    if vs == [] then 0
    else CountSeverity(vs[..|vs| - 1], s) + (if vs[|vs| - 1].rule.severity == s then 1 else 0)
  }

  /**
   * `Math.round(num / den)`: the nearest integer, halves rounded up, so that
   * `num / den` lies in `[r - 1/2, r + 1/2)`.
   */
  function RoundHalfUp(num: int, den: int): (r: int)
    requires den > 0
    ensures den * (2 * r - 1) <= 2 * num < den * (2 * r + 1)
  {
    var q := (2 * num + den) / (2 * den);
    var m := (2 * num + den) % (2 * den);
    assert 2 * num + den == 2 * den * q + m && 0 <= m < 2 * den;
    q
  }

  /** `round((n - v) / n * 100)` for `n` rules of which `v` are violated. */
  function ScoreOf(n: nat, v: nat): Score {
    if n == 0 then NaN else Rounded(RoundHalfUp(100 * (n - v), n))
  }

  /** The risk tier; the first matching row of the decision table wins. */
  function RiskOf(vs: seq<Violation>): RiskLevel {
    var critical := CountSeverity(vs, Severity.Critical);
    var high := CountSeverity(vs, Severity.High);
    if critical > 0 then RiskLevel.Critical
    else if high > 2 then RiskLevel.High
    else if high > 0 || |vs| > 3 then RiskLevel.Medium
    else RiskLevel.Low
  }

  /** The report one evaluation of `rules` on `b` produces. */
  function Evaluate(rules: seq<ComplianceRule>, b: BillboardData): ComplianceReport {
    var vs := Violations(rules, b);
    ComplianceReport(|vs| == 0, vs, ScoreOf(|rules|, |vs|), FineTotal(vs), RiskOf(vs))
  }

  lemma ViolationsStep(rules: seq<ComplianceRule>, b: BillboardData, i: nat)
    requires i < |rules|
    ensures Violations(rules[..i + 1], b) == Violations(rules[..i], b) + ViolationOf(rules[i], b)
  {
    assert rules[..i + 1][..i] == rules[..i];
  }

  lemma AccumulatorsStep(vs: seq<Violation>, v: Violation)
    ensures FineTotal(vs + [v]) == FineTotal(vs) + FineOrZero(v.result)
    ensures CountSeverity(vs + [v], Severity.Critical)
            == CountSeverity(vs, Severity.Critical) + (if v.rule.severity == Severity.Critical then 1 else 0)
    ensures CountSeverity(vs + [v], Severity.High)
            == CountSeverity(vs, Severity.High) + (if v.rule.severity == Severity.High then 1 else 0)
  {
    assert (vs + [v])[..|vs|] == vs;
  }

  /**
   * The violations are exactly the (rule, outcome) pairs of the rules that
   * `b` violates, in catalogue order: violation `k` comes from rule
   * `Indices(rules, ViolatedBy(b))[k]`, and those indices increase and cover
   * every violated rule.
   */
  lemma {:induction false} ViolationsAreViolatedRules(rules: seq<ComplianceRule>, b: BillboardData)
    ensures |Violations(rules, b)| == |Indices(rules, ViolatedBy(b))|
    ensures forall k :: 0 <= k < |Violations(rules, b)| ==>
      var i := Indices(rules, ViolatedBy(b))[k];
      Violations(rules, b)[k] == Violation(rules[i], rules[i].checkFunction(b))
    decreases |rules|
  {
    if rules != [] {
      ViolationsAreViolatedRules(rules[..|rules| - 1], b);
    }
  }

  /** At most one violation per rule, and every one of them a failed outcome. */
  lemma {:induction false} ViolationsBounded(rules: seq<ComplianceRule>, b: BillboardData)
    ensures |Violations(rules, b)| <= |rules|
    ensures forall k :: 0 <= k < |Violations(rules, b)| ==> !Violations(rules, b)[k].result.isCompliant
    decreases |rules|
  {
    if rules != [] {
      ViolationsBounded(rules[..|rules| - 1], b);
    }
  }

  /** No violations exactly when every rule is satisfied. */
  lemma {:induction false} NoViolationsIffAllCompliant(rules: seq<ComplianceRule>, b: BillboardData)
    ensures |Violations(rules, b)| == 0 <==>
      forall j :: 0 <= j < |rules| ==> rules[j].checkFunction(b).isCompliant
  {
    ViolationsAreViolatedRules(rules, b);
    IndicesEmpty(rules, ViolatedBy(b));
  }

  /** A rule that complies is never reported, whatever else fires. */
  lemma {:induction false} ComplyingRuleNotReported(rules: seq<ComplianceRule>, b: BillboardData, id: string)
    requires forall j :: 0 <= j < |rules| && rules[j].id == id ==> rules[j].checkFunction(b).isCompliant
    ensures forall k :: 0 <= k < |Violations(rules, b)| ==> Violations(rules, b)[k].rule.id != id
  {
    ViolationsAreViolatedRules(rules, b);
  }

  /** With no negative fine among them, the fines add up to at least zero. */
  lemma {:induction false} FineTotalNonNegative(vs: seq<Violation>)
    requires forall k :: 0 <= k < |vs| ==> FineOrZero(vs[k].result) >= 0.0
    ensures FineTotal(vs) >= 0.0
    decreases |vs|
  {
    if vs != [] {
      FineTotalNonNegative(vs[..|vs| - 1]);
    }
  }

  /** When every violation carries a positive fine, the total is zero exactly when there are none. */
  lemma {:induction false} FineTotalZeroIffNone(vs: seq<Violation>)
    requires forall k :: 0 <= k < |vs| ==> FineOrZero(vs[k].result) > 0.0
    ensures FineTotal(vs) == 0.0 <==> |vs| == 0
    decreases |vs|
  {
    if vs != [] {
      FineTotalNonNegative(vs[..|vs| - 1]);
    }
  }

  /** Fines add up across a concatenation. */
  lemma {:induction false} FineTotalAppend(vs: seq<Violation>, ws: seq<Violation>)
    ensures FineTotal(vs + ws) == FineTotal(vs) + FineTotal(ws)
    decreases |ws|
  {
    if ws != [] {
      var last := |ws| - 1;
      assert (vs + ws)[..|vs| + last] == vs + ws[..last];
      FineTotalAppend(vs, ws[..last]);
    } else {
      assert vs + ws == vs;
    }
  }

  /** Severity counters add up across a concatenation. */
  lemma {:induction false} CountSeverityAppend(vs: seq<Violation>, ws: seq<Violation>, s: Severity)
    ensures CountSeverity(vs + ws, s) == CountSeverity(vs, s) + CountSeverity(ws, s)
    decreases |ws|
  {
    if ws != [] {
      var last := |ws| - 1;
      assert (vs + ws)[..|vs| + last] == vs + ws[..last];
      CountSeverityAppend(vs, ws[..last], s);
    } else {
      assert vs + ws == vs;
    }
  }

  /** A severity's counter is zero exactly when no violation has that severity. */
  lemma {:induction false} CountSeverityZero(vs: seq<Violation>, s: Severity)
    ensures CountSeverity(vs, s) == 0 <==> forall k :: 0 <= k < |vs| ==> vs[k].rule.severity != s
    decreases |vs|
  {
    if vs != [] {
      CountSeverityZero(vs[..|vs| - 1], s);
    }
  }

  /** The critical and high counters never count the same violation twice. */
  lemma {:induction false} CriticalAndHighExclusive(vs: seq<Violation>)
    ensures CountSeverity(vs, Severity.Critical) + CountSeverity(vs, Severity.High) <= |vs|
    decreases |vs|
  {
    if vs != [] {
      CriticalAndHighExclusive(vs[..|vs| - 1]);
    }
  }

  /** The risk tier in terms of the violations themselves. */
  lemma {:induction false} RiskTiers(vs: seq<Violation>)
    ensures RiskOf(vs) == RiskLevel.Critical <==>
      exists k :: 0 <= k < |vs| && vs[k].rule.severity == Severity.Critical
    ensures RiskOf(vs) == RiskLevel.High <==>
      (forall k :: 0 <= k < |vs| ==> vs[k].rule.severity != Severity.Critical)
      && CountSeverity(vs, Severity.High) > 2
    ensures RiskOf(vs) == RiskLevel.Low <==>
      (forall k :: 0 <= k < |vs| ==> vs[k].rule.severity !in {Severity.Critical, Severity.High})
      && |vs| <= 3
  {
    CountSeverityZero(vs, Severity.Critical);
    CountSeverityZero(vs, Severity.High);
  }

  /**
   * The score of `n > 0` rules with `v` violated lies in [0, 100]. It is 100
   * exactly when nothing is violated provided there are fewer than 200
   * rules, and 0 exactly when every rule is violated provided there are at
   * most 200 (see `ScoreSaturates` for what happens beyond).
   */
  lemma ScoreBounds(n: nat, v: nat)
    requires 0 < n && v <= n
    ensures ScoreOf(n, v).Rounded?
    ensures 0 <= ScoreOf(n, v).percent <= 100
    ensures n < 200 ==> (ScoreOf(n, v).percent == 100 <==> v == 0)
    ensures n <= 200 ==> (ScoreOf(n, v).percent == 0 <==> v == n)
  {
    var p := ScoreOf(n, v).percent;
    assert n * (2 * p - 1) <= 200 * (n - v) < n * (2 * p + 1);
    assert 200 * (n - v) <= n * 200;
    CancelFactor(n, 2 * p - 1, 200);
    CancelFactor(n, 0, 2 * p + 1);
    if v == 0 {
      CancelFactor(n, 200, 2 * p + 1);
    }
    if n < 200 && v > 0 {
      assert 200 * (n - v) < n * 199;
      CancelFactor(n, 2 * p - 1, 199);
    }
    if v == n {
      CancelFactor(n, 2 * p - 1, 0);
    }
    if n <= 200 && v < n {
      assert n * 1 <= 200 * (n - v);
      CancelFactor(n, 1, 2 * p + 1);
    }
  }

  /** Comparing two multiples of the same positive factor compares the cofactors. */
  lemma CancelFactor(n: int, a: int, b: int)
    requires n > 0
    ensures n * a <= n * b <==> a <= b
    ensures n * a < n * b <==> a < b
  {
    assert n * b - n * a == n * (b - a);
  }

  /**
   * For a non-empty catalogue the report's score is a percentage, and below
   * 200 rules it is 100 exactly when the billboard is compliant.
   */
  lemma ReportScore(rules: seq<ComplianceRule>, b: BillboardData)
    requires |rules| > 0
    ensures Evaluate(rules, b).complianceScore.Rounded?
    ensures 0 <= Evaluate(rules, b).complianceScore.percent <= 100
    ensures |rules| < 200 ==>
      (Evaluate(rules, b).complianceScore.percent == 100 <==> Evaluate(rules, b).overallCompliance)
  {
    ViolationsBounded(rules, b);
    ScoreBounds(|rules|, |Violations(rules, b)|);
  }

  /** The bounds in `ScoreBounds` are tight: larger catalogues round a violation away. */
  lemma ScoreSaturates()
    ensures ScoreOf(200, 1) == Rounded(100)
    ensures ScoreOf(201, 200) == Rounded(0)
  {
  }

  /** An empty catalogue divides zero by zero. */
  lemma EmptyCatalogueScore(b: BillboardData)
    ensures Evaluate([], b).complianceScore == NaN
    ensures Evaluate([], b).overallCompliance
  {
  }

  class ComplianceEngine {
    /** Set once by the constructor and never changed. */
    const rules: seq<ComplianceRule>

    constructor (rules: seq<ComplianceRule>)
      ensures this.rules == rules
    {
      this.rules := rules;
    }

    /** `new ComplianceEngine()`: the default catalogue. */
    constructor WithDefaultRules()
      ensures rules == ComplianceRules.DefaultRules()
    {
      rules := ComplianceRules.DefaultRules();
    }

    /** Runs every rule in order and aggregates the violations. */
    method CheckCompliance(billboard: BillboardData) returns (report: ComplianceReport)
      ensures report == Evaluate(rules, billboard)
      ensures report.overallCompliance <==> |report.violations| == 0
      ensures report.totalFines == FineTotal(report.violations)
    {
      var violations: seq<Violation> := [];
      var totalFines := 0.0;
      var criticalViolations := 0;
      var highViolations := 0;

      for i := 0 to |rules|
        invariant violations == Violations(rules[..i], billboard)
        invariant totalFines == FineTotal(violations)
        invariant criticalViolations == CountSeverity(violations, Severity.Critical)
        invariant highViolations == CountSeverity(violations, Severity.High)
      {
        var rule := rules[i];
        var result := rule.checkFunction(billboard);
        ViolationsStep(rules, billboard, i);
        if result.isCompliant {
          assert ViolationOf(rule, billboard) == [];
        } else {
          assert ViolationOf(rule, billboard) == [Violation(rule, result)];
          AccumulatorsStep(violations, Violation(rule, result));
          violations := violations + [Violation(rule, result)];
          totalFines := totalFines + FineOrZero(result);
          if rule.severity == Severity.Critical {
            criticalViolations := criticalViolations + 1;
          } else if rule.severity == Severity.High {
            highViolations := highViolations + 1;
          }
        }
      }
      assert rules[..|rules|] == rules;
      assert violations == Violations(rules, billboard);

      var complianceScore := ScoreOf(|rules|, |violations|);

      var riskLevel := RiskLevel.Low;
      if criticalViolations > 0 {
        riskLevel := RiskLevel.Critical;
      } else if highViolations > 2 {
        riskLevel := RiskLevel.High;
      } else if highViolations > 0 || |violations| > 3 {
        riskLevel := RiskLevel.Medium;
      }
      assert riskLevel == RiskOf(violations);

      report := ComplianceReport(|violations| == 0, violations, complianceScore, totalFines, riskLevel);
    }

    /** `filter`: the rules of one category, in catalogue order. */
    function RulesByCategory(category: Category): (r: seq<ComplianceRule>)
      ensures forall k :: 0 <= k < |r| ==> r[k].category == category
      ensures |r| == |Indices(rules, InCategory(category))|
      ensures forall k :: 0 <= k < |r| ==> r[k] == rules[Indices(rules, InCategory(category))[k]]
    {
      Filter(rules, InCategory(category))
    }

    /** `find`: the first rule with identifier `id`, if there is one. */
    function RuleById(id: string): (r: Option<ComplianceRule>)
      ensures r.None? <==> forall k :: 0 <= k < |rules| ==> rules[k].id != id
      ensures r.Some? ==> exists k :: 0 <= k < |rules| && rules[k] == r.value && rules[k].id == id
                                      && forall j :: 0 <= j < k ==> rules[j].id != id
    {
      var i := FirstIndex(rules, HasId(id));
      if i < |rules| then Some(rules[i]) else None
    }

    /** With unique identifiers, looking up a rule's identifier finds that very rule. */
    lemma RuleByIdFindsEachRule(k: nat)
      requires k < |rules|
      requires forall i, j :: 0 <= i < j < |rules| ==> rules[i].id != rules[j].id
      ensures RuleById(rules[k].id) == Some(rules[k])
    {
    }
  }
}

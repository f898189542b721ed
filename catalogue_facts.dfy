/**
 * What the engine reports when it runs the default catalogue, stated against
 * the catalogue's fine table: which conditions fire which rule, what they
 * cost, and which risk tier they lead to.
 */
module CatalogueFacts {
  import opened ComplianceTypes
  import opened ComplianceRules
  import opened Selection
  import opened Engine

  // The trigger column of the fine table, one predicate per rule.

  predicate OverSize(b: BillboardData) {
    b.dimensions.area > (if b.location.zoneType == Highway then 200.0 else 120.0)
  }

  predicate NearIntersection(b: BillboardData) {
    b.location.distanceFromIntersection.Some? && b.location.distanceFromIntersection.value < 300.0
  }

  predicate NearSchool(b: BillboardData) {
    b.location.distanceFromSchool.Some? && b.location.distanceFromSchool.value < 500.0
  }

  predicate PermitMissingOrHidden(b: BillboardData) {
    !b.permit.hasPermit || !b.permit.isVisible
  }

  predicate StructurallyUnsafe(b: BillboardData) {
    b.structural.hasStructuralIssues || b.structural.supportCondition in {SupportCondition.Poor, SupportCondition.Critical}
  }

  // The fine column of the table: what each rule costs when it fires.

  function SizeFine(b: BillboardData): real { if OverSize(b) then 500.0 else 0.0 }

  function IntersectionFine(b: BillboardData): real { if NearIntersection(b) then 750.0 else 0.0 }

  function SchoolFine(b: BillboardData): real { if NearSchool(b) then 1500.0 else 0.0 }

  /** A missing permit costs 1000 and only a present but hidden one costs 250. */
  function PermitFine(b: BillboardData): real {
    if !b.permit.hasPermit then 1000.0 else if !b.permit.isVisible then 250.0 else 0.0
  }

  function StructuralFine(b: BillboardData): real { if StructurallyUnsafe(b) then 2000.0 else 0.0 }

  function ProhibitedContentFine(b: BillboardData): real {
    if b.content.hasProhibitedContent then 300.0 else 0.0
  }

  function FlashingLightsFine(b: BillboardData): real { if b.content.flashingLights then 400.0 else 0.0 }

  /** The table's fines, summed over the rules. */
  function ScheduledFines(b: BillboardData): real {
    SizeFine(b) + IntersectionFine(b) + SchoolFine(b) + PermitFine(b)
    + StructuralFine(b) + ProhibitedContentFine(b) + FlashingLightsFine(b)
  }

  /** The violations of any seven rules, rule by rule. */
  lemma ViolationsOfSeven(rules: seq<ComplianceRule>, b: BillboardData)
    requires |rules| == 7
    ensures Violations(rules, b)
      == ViolationOf(rules[0], b) + ViolationOf(rules[1], b) + ViolationOf(rules[2], b)
         + ViolationOf(rules[3], b) + ViolationOf(rules[4], b) + ViolationOf(rules[5], b)
         + ViolationOf(rules[6], b)
  {
    assert rules[..0] == [];
    ViolationsStep(rules, b, 0);
    ViolationsStep(rules, b, 1);
    ViolationsStep(rules, b, 2);
    ViolationsStep(rules, b, 3);
    ViolationsStep(rules, b, 4);
    ViolationsStep(rules, b, 5);
    ViolationsStep(rules, b, 6);
    assert rules[..7] == rules;
  }

  /** The default catalogue's violations, rule by rule in catalogue order. */
  lemma DefaultViolations(b: BillboardData)
    ensures Violations(DefaultRules(), b)
      == ViolationOf(SizeLimitRule, b) + ViolationOf(IntersectionDistanceRule, b)
         + ViolationOf(SchoolDistanceRule, b) + ViolationOf(PermitRule, b)
         + ViolationOf(StructuralSafetyRule, b) + ViolationOf(ProhibitedContentRule, b)
         + ViolationOf(FlashingLightsRule, b)
  {
    ViolationsOfSeven(DefaultRules(), b);
  }

  /** The fine one rule adds to the total. */
  function RuleFine(rule: ComplianceRule, b: BillboardData): real {
    if rule.checkFunction(b).isCompliant then 0.0 else FineOrZero(rule.checkFunction(b))
  }

  /** The count one rule adds to the counter of severity `s`. */
  function RuleCount(rule: ComplianceRule, b: BillboardData, s: Severity): nat {
    if !rule.checkFunction(b).isCompliant && rule.severity == s then 1 else 0
  }

  lemma FineTotalOfRule(rule: ComplianceRule, b: BillboardData)
    ensures FineTotal(ViolationOf(rule, b)) == RuleFine(rule, b)
  {
    var vs := ViolationOf(rule, b);
    if vs != [] {
      assert vs[..0] == [];
    }
  }

  lemma CountSeverityOfRule(rule: ComplianceRule, b: BillboardData, s: Severity)
    ensures CountSeverity(ViolationOf(rule, b), s) == RuleCount(rule, b, s)
  {
    var vs := ViolationOf(rule, b);
    if vs != [] {
      assert vs[..0] == [];
    }
  }

  /** The fine total of any seven rules, rule by rule. */
  lemma FinesOfSeven(rules: seq<ComplianceRule>, b: BillboardData)
    requires |rules| == 7
    ensures FineTotal(Violations(rules, b))
      == RuleFine(rules[0], b) + RuleFine(rules[1], b) + RuleFine(rules[2], b) + RuleFine(rules[3], b)
         + RuleFine(rules[4], b) + RuleFine(rules[5], b) + RuleFine(rules[6], b)
  {
    ViolationsOfSeven(rules, b);
    var v0, v1, v2, v3 := ViolationOf(rules[0], b), ViolationOf(rules[1], b),
                          ViolationOf(rules[2], b), ViolationOf(rules[3], b);
    var v4, v5, v6 := ViolationOf(rules[4], b), ViolationOf(rules[5], b), ViolationOf(rules[6], b);
    FineTotalAppend(v0, v1);
    FineTotalAppend(v0 + v1, v2);
    FineTotalAppend(v0 + v1 + v2, v3);
    FineTotalAppend(v0 + v1 + v2 + v3, v4);
    FineTotalAppend(v0 + v1 + v2 + v3 + v4, v5);
    FineTotalAppend(v0 + v1 + v2 + v3 + v4 + v5, v6);
    FineTotalOfRule(rules[0], b);
    FineTotalOfRule(rules[1], b);
    FineTotalOfRule(rules[2], b);
    FineTotalOfRule(rules[3], b);
    FineTotalOfRule(rules[4], b);
    FineTotalOfRule(rules[5], b);
    FineTotalOfRule(rules[6], b);
  }

  /** The severity counter of any seven rules, rule by rule. */
  lemma CountsOfSeven(rules: seq<ComplianceRule>, b: BillboardData, s: Severity)
    requires |rules| == 7
    ensures CountSeverity(Violations(rules, b), s)
      == RuleCount(rules[0], b, s) + RuleCount(rules[1], b, s) + RuleCount(rules[2], b, s)
         + RuleCount(rules[3], b, s) + RuleCount(rules[4], b, s) + RuleCount(rules[5], b, s)
         + RuleCount(rules[6], b, s)
  {
    ViolationsOfSeven(rules, b);
    var v0, v1, v2, v3 := ViolationOf(rules[0], b), ViolationOf(rules[1], b),
                          ViolationOf(rules[2], b), ViolationOf(rules[3], b);
    var v4, v5, v6 := ViolationOf(rules[4], b), ViolationOf(rules[5], b), ViolationOf(rules[6], b);
    CountSeverityAppend(v0, v1, s);
    CountSeverityAppend(v0 + v1, v2, s);
    CountSeverityAppend(v0 + v1 + v2, v3, s);
    CountSeverityAppend(v0 + v1 + v2 + v3, v4, s);
    CountSeverityAppend(v0 + v1 + v2 + v3 + v4, v5, s);
    CountSeverityAppend(v0 + v1 + v2 + v3 + v4 + v5, v6, s);
    CountSeverityOfRule(rules[0], b, s);
    CountSeverityOfRule(rules[1], b, s);
    CountSeverityOfRule(rules[2], b, s);
    CountSeverityOfRule(rules[3], b, s);
    CountSeverityOfRule(rules[4], b, s);
    CountSeverityOfRule(rules[5], b, s);
    CountSeverityOfRule(rules[6], b, s);
  }

  /** The default catalogue passes exactly when no row of the table fires. */
  lemma DefaultCompliance(b: BillboardData)
    ensures Evaluate(DefaultRules(), b).overallCompliance <==>
      && !OverSize(b) && !NearIntersection(b) && !NearSchool(b)
      && !PermitMissingOrHidden(b) && !StructurallyUnsafe(b)
      && !b.content.hasProhibitedContent && !b.content.flashingLights
  {
    DefaultViolations(b);
  }

  /** With seven rules the score is 100 exactly when the billboard passes. */
  lemma DefaultScore(b: BillboardData)
    ensures Evaluate(DefaultRules(), b).complianceScore.Rounded?
    ensures 0 <= Evaluate(DefaultRules(), b).complianceScore.percent <= 100
    ensures Evaluate(DefaultRules(), b).complianceScore == Rounded(100)
            <==> Evaluate(DefaultRules(), b).overallCompliance
  {
    ReportScore(DefaultRules(), b);
  }

  /** Each default rule contributes the fine the table gives it. */
  lemma DefaultRuleFines(b: BillboardData)
    ensures RuleFine(SizeLimitRule, b) == SizeFine(b)
    ensures RuleFine(IntersectionDistanceRule, b) == IntersectionFine(b)
    ensures RuleFine(SchoolDistanceRule, b) == SchoolFine(b)
    ensures RuleFine(PermitRule, b) == PermitFine(b)
    ensures RuleFine(StructuralSafetyRule, b) == StructuralFine(b)
    ensures RuleFine(ProhibitedContentRule, b) == ProhibitedContentFine(b)
    ensures RuleFine(FlashingLightsRule, b) == FlashingLightsFine(b)
  {
  }

  /**
   * The fine total is the table's fine of every rule that fires; it is zero
   * exactly when the billboard passes.
   */
  lemma DefaultTotalFines(b: BillboardData)
    ensures Evaluate(DefaultRules(), b).totalFines == ScheduledFines(b)
    ensures Evaluate(DefaultRules(), b).totalFines >= 0.0
    ensures Evaluate(DefaultRules(), b).totalFines == 0.0 <==> Evaluate(DefaultRules(), b).overallCompliance
  {
    FinesOfSeven(DefaultRules(), b);
    DefaultRuleFines(b);
    DefaultCompliance(b);
  }

  /** How many violations of severity `s` the default catalogue raises, rule by rule. */
  lemma DefaultSeverityCount(b: BillboardData, s: Severity)
    ensures CountSeverity(Violations(DefaultRules(), b), s)
      == (if OverSize(b) && s == Severity.High then 1 else 0)
         + (if NearIntersection(b) && s == Severity.High then 1 else 0)
         + (if NearSchool(b) && s == Severity.Critical then 1 else 0)
         + (if PermitMissingOrHidden(b) && s == Severity.High then 1 else 0)
         + (if StructurallyUnsafe(b) && s == Severity.Critical then 1 else 0)
         + (if b.content.hasProhibitedContent && s == Severity.Medium then 1 else 0)
         + (if b.content.flashingLights && s == Severity.Medium then 1 else 0)
  {
    CountsOfSeven(DefaultRules(), b, s);
  }

  /**
   * The risk tier of the default catalogue: critical when a school is near or
   * the structure is unsafe; otherwise high only when all three high-severity
   * rules fire; low exactly when at most the two content rules fire.
   */
  lemma DefaultRiskTable(b: BillboardData)
    ensures Evaluate(DefaultRules(), b).riskLevel == RiskLevel.Critical
            <==> NearSchool(b) || StructurallyUnsafe(b)
    ensures Evaluate(DefaultRules(), b).riskLevel == RiskLevel.High
            <==> !NearSchool(b) && !StructurallyUnsafe(b)
                 && OverSize(b) && NearIntersection(b) && PermitMissingOrHidden(b)
    ensures Evaluate(DefaultRules(), b).riskLevel == RiskLevel.Low
            <==> !NearSchool(b) && !StructurallyUnsafe(b)
                 && !OverSize(b) && !NearIntersection(b) && !PermitMissingOrHidden(b)
  {
    DefaultSeverityCount(b, Severity.Critical);
    DefaultSeverityCount(b, Severity.High);
    DefaultViolations(b);
  }

  /** A billboard with known structural issues is always critical risk. */
  lemma StructuralIssuesMeanCriticalRisk(b: BillboardData)
    requires b.structural.hasStructuralIssues
    ensures Evaluate(DefaultRules(), b).riskLevel == RiskLevel.Critical
  {
    DefaultRiskTable(b);
  }

  /** Without a school distance, the school rule is never among the violations. */
  lemma NoSchoolDistanceNoSchoolViolation(b: BillboardData)
    requires b.location.distanceFromSchool.None?
    ensures forall k :: 0 <= k < |Evaluate(DefaultRules(), b).violations| ==>
      Evaluate(DefaultRules(), b).violations[k].rule.id != "PLACEMENT_002"
  {
    var rules := DefaultRules();
    DefaultCatalogueWellFormed();
    forall j | 0 <= j < |rules| && rules[j].id == "PLACEMENT_002"
      ensures rules[j].checkFunction(b).isCompliant
    {
      assert rules[2].id == "PLACEMENT_002";
      assert j == 2;
    }
    ComplyingRuleNotReported(rules, b, "PLACEMENT_002");
  }

  /**
   * 150 sq ft in a commercial zone with no permit: the size and permit rules
   * fire (the permit rule once, with the missing-permit fine), seven rules
   * give round(500 / 7) = 71, and two high-severity violations mean medium risk.
   */
  lemma OversizedWithoutPermitExample()
    ensures var report := Evaluate(DefaultRules(), BillboardData(
        Dimensions(12.5, 12.0, 150.0),
        Location(None, None, None, Commercial),
        PermitStatus(false, None, None, false),
        StructuralStatus(false, None, Good),
        ContentStatus(false, false, false)));
      && |report.violations| == 2
      && report.violations[0].rule.id == "SIZE_001"
      && report.violations[1].rule.id == "PERMIT_001"
      && report.violations[1].result.fineAmount == Some(1000.0)
      && !report.overallCompliance
      && report.totalFines == 1500.0
      && report.complianceScore == Rounded(71)
      && report.riskLevel == RiskLevel.Medium
  {
    var b := BillboardData(
      Dimensions(12.5, 12.0, 150.0),
      Location(None, None, None, Commercial),
      PermitStatus(false, None, None, false),
      StructuralStatus(false, None, Good),
      ContentStatus(false, false, false));
    DefaultViolations(b);
    DefaultTotalFines(b);
    DefaultRiskTable(b);
    assert Violations(DefaultRules(), b)
      == [Violation(SizeLimitRule, CheckSizeLimit(b)), Violation(PermitRule, CheckPermit(b))];
  }

  /** The default catalogue has a single permit rule. */
  lemma PermitCategoryHoldsOneRule(e: ComplianceEngine)
    requires e.rules == DefaultRules()
    ensures |e.RulesByCategory(Permit)| == 1
    ensures e.RulesByCategory(Permit)[0].id == "PERMIT_001"
  {
    var rules := e.rules;
    var idx := Indices(rules, InCategory(Permit));
    forall k | 0 <= k < |idx| ensures idx[k] == 3 {
      assert rules[idx[k]].category == Permit;
    }
    assert rules[3].category == Permit;
    assert 3 in idx;
    IncreasingSpread(idx);
  }

  /** Every default rule is found by its identifier; an unknown identifier finds nothing. */
  lemma DefaultLookups(e: ComplianceEngine)
    requires e.rules == DefaultRules()
    ensures forall k :: 0 <= k < 7 ==> e.RuleById(e.rules[k].id) == Some(e.rules[k])
    ensures forall id :: id !in {"SIZE_001", "PLACEMENT_001", "PLACEMENT_002", "PERMIT_001", "STRUCTURAL_001", "CONTENT_001", "CONTENT_002"} ==> e.RuleById(id) == None
  {
    DefaultCatalogueWellFormed();
    forall k | 0 <= k < 7 ensures e.RuleById(e.rules[k].id) == Some(e.rules[k]) {
      e.RuleByIdFindsEachRule(k);
    }
  }
}

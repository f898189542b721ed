/**
 * The built-in rule catalogue: seven rules, each a threshold check over one
 * part of the billboard record, in the order the engine evaluates them.
 */
module ComplianceRules {
  import opened ComplianceTypes

  /** SIZE_001: the area limit is 200 sq ft on a highway and 120 elsewhere. */
  function CheckSizeLimit(b: BillboardData): (r: ComplianceResult)
    ensures WellFormedResult(r)
    ensures b.location.zoneType == Highway ==> (!r.isCompliant <==> b.dimensions.area > 200.0)
    ensures b.location.zoneType != Highway ==> (!r.isCompliant <==> b.dimensions.area > 120.0)
    ensures !r.isCompliant ==> r.fineAmount == Some(500.0)
  {
    var maxArea := if b.location.zoneType == Highway then 200.0 else 120.0;
    if b.dimensions.area > maxArea then
      Violated(ExceedsMaximumSize(b.dimensions.area, maxArea),
               "Reduce billboard size or relocate to appropriate zone", 500.0)
    else
      Compliant
  }

  /** PLACEMENT_001: at least 300 ft from an intersection, when the distance is known. */
  function CheckIntersectionDistance(b: BillboardData): (r: ComplianceResult)
    ensures WellFormedResult(r)
    ensures b.location.distanceFromIntersection.None? ==> r.isCompliant
    ensures b.location.distanceFromIntersection.Some? ==>
      (!r.isCompliant <==> b.location.distanceFromIntersection.value < 300.0)
    ensures !r.isCompliant ==> r.fineAmount == Some(750.0)
  {
    match b.location.distanceFromIntersection
    case Some(d) =>
      if d < 300.0 then
        Violated(TooCloseToIntersection(d),
                 "Relocate billboard to maintain 300ft minimum distance", 750.0)
      else Compliant
    case None => Compliant
  }

  /** PLACEMENT_002: at least 500 ft from a school, when the distance is known. */
  function CheckSchoolDistance(b: BillboardData): (r: ComplianceResult)
    ensures WellFormedResult(r)
    ensures b.location.distanceFromSchool.None? ==> r.isCompliant
    ensures b.location.distanceFromSchool.Some? ==>
      (!r.isCompliant <==> b.location.distanceFromSchool.value < 500.0)
    ensures !r.isCompliant ==> r.fineAmount == Some(1500.0)
  {
    match b.location.distanceFromSchool
    case Some(d) =>
      if d < 500.0 then
        Violated(TooCloseToSchool(d), "Immediate relocation required", 1500.0)
      else Compliant
    case None => Compliant
  }

  /**
   * PERMIT_001: a missing permit is fined 1000 whatever its visibility; a
   * permit that is present but not visible is fined 250.
   */
  function CheckPermit(b: BillboardData): (r: ComplianceResult)
    ensures WellFormedResult(r)
    ensures r.isCompliant <==> b.permit.hasPermit && b.permit.isVisible
    ensures !b.permit.hasPermit ==> r.fineAmount == Some(1000.0)
    ensures b.permit.hasPermit && !b.permit.isVisible ==> r.fineAmount == Some(250.0)
  {
    if !b.permit.hasPermit then
      Violated(NoValidPermit, "Obtain proper permits or remove billboard", 1000.0)
    else if !b.permit.isVisible then
      Violated(PermitNotVisible, "Display permit number prominently", 250.0)
    else
      Compliant
  }

  /** STRUCTURAL_001: known issues, or a poor or critical support condition. */
  function CheckStructuralSafety(b: BillboardData): (r: ComplianceResult)
    ensures WellFormedResult(r)
    ensures !r.isCompliant <==>
      b.structural.hasStructuralIssues || b.structural.supportCondition in {SupportCondition.Poor, SupportCondition.Critical}
    ensures !r.isCompliant ==> r.fineAmount == Some(2000.0)
  {
    if b.structural.hasStructuralIssues
       || b.structural.supportCondition == SupportCondition.Critical
       || b.structural.supportCondition == Poor
    then
      Violated(StructuralSafetyConcerns(b.structural.supportCondition),
               "Immediate structural repairs or removal required", 2000.0)
    else
      Compliant
  }

  /** CONTENT_001: no prohibited content. */
  function CheckProhibitedContent(b: BillboardData): (r: ComplianceResult)
    ensures WellFormedResult(r)
    ensures !r.isCompliant <==> b.content.hasProhibitedContent
    ensures !r.isCompliant ==> r.fineAmount == Some(300.0)
  {
    if b.content.hasProhibitedContent then
      Violated(ProhibitedContent, "Remove or modify prohibited content", 300.0)
    else
      Compliant
  }

  /** CONTENT_002: no flashing lights. */
  function CheckFlashingLights(b: BillboardData): (r: ComplianceResult)
    ensures WellFormedResult(r)
    ensures !r.isCompliant <==> b.content.flashingLights
    ensures !r.isCompliant ==> r.fineAmount == Some(400.0)
  {
    if b.content.flashingLights then
      Violated(ProhibitedFlashingLights, "Remove flashing lights, static illumination only", 400.0)
    else
      Compliant
  }

  const SizeLimitRule := ComplianceRule(
    "SIZE_001", Size, "Maximum Size Limit",
    "Billboard must not exceed 120 square feet in commercial zones",
    High, CheckSizeLimit)

  const IntersectionDistanceRule := ComplianceRule(
    "PLACEMENT_001", Placement, "Intersection Distance",
    "Billboard must be at least 300 feet from intersections",
    High, CheckIntersectionDistance)

  const SchoolDistanceRule := ComplianceRule(
    "PLACEMENT_002", Placement, "School Distance",
    "Billboard must be at least 500 feet from schools",
    Severity.Critical, CheckSchoolDistance)

  const PermitRule := ComplianceRule(
    "PERMIT_001", Permit, "Valid Permit Required",
    "Billboard must have a valid, visible permit",
    High, CheckPermit)

  const StructuralSafetyRule := ComplianceRule(
    "STRUCTURAL_001", Structural, "Structural Safety",
    "Billboard structure must be in safe condition",
    Severity.Critical, CheckStructuralSafety)

  const ProhibitedContentRule := ComplianceRule(
    "CONTENT_001", Content, "Prohibited Content",
    "Billboard must not contain prohibited content",
    Medium, CheckProhibitedContent)

  const FlashingLightsRule := ComplianceRule(
    "CONTENT_002", Content, "Flashing Lights Prohibited",
    "Billboard cannot have flashing or moving lights",
    Medium, CheckFlashingLights)

  /** The default catalogue, in evaluation order. */
  function DefaultRules(): seq<ComplianceRule> {
    [SizeLimitRule, IntersectionDistanceRule, SchoolDistanceRule, PermitRule,
     StructuralSafetyRule, ProhibitedContentRule, FlashingLightsRule]
  }

  /**
   * The default catalogue holds seven rules with unique identifiers, and
   * every outcome of every one of them is well formed.
   */
  lemma DefaultCatalogueWellFormed()
    ensures |DefaultRules()| == 7
    ensures forall i, j :: 0 <= i < j < |DefaultRules()| ==> DefaultRules()[i].id != DefaultRules()[j].id
    ensures forall k, b :: 0 <= k < |DefaultRules()| ==> WellFormedResult(DefaultRules()[k].checkFunction(b))
  {
  }
}

/**
 * The data model of the billboard compliance engine: the billboard record a
 * caller hands in, the outcome of one rule, and the rule itself.
 *
 * Dimensions, distances and fines are `real`s: the engine only compares them
 * with `<` / `>` and adds fines up, so exact arithmetic stands in for the
 * source's floating-point numbers. An optional field is an `Option`.
 */
module ComplianceTypes {

  datatype Option<+T> = None | Some(value: T)

  datatype ZoneType = Commercial | Industrial | Residential | Highway

  /** Condition tier of the supporting structure, best first. */
  datatype SupportCondition = Good | Fair | Poor | Critical

  datatype Category = Size | Placement | Permit | Structural | Content

  datatype Severity = Low | Medium | High | Critical

  datatype Dimensions = Dimensions(width: real, height: real, area: real)

  /** An absent distance means "not known"; no rule may fire on it. */
  datatype Location = Location(
    distanceFromIntersection: Option<real>,
    distanceFromSchool: Option<real>,
    distanceFromResidential: Option<real>,
    zoneType: ZoneType)

  datatype PermitStatus = PermitStatus(
    hasPermit: bool,
    permitNumber: Option<string>,
    expirationDate: Option<string>,
    isVisible: bool)

  datatype StructuralStatus = StructuralStatus(
    hasStructuralIssues: bool,
    lastInspectionDate: Option<string>,
    supportCondition: SupportCondition)

  datatype ContentStatus = ContentStatus(
    hasProhibitedContent: bool,
    isIlluminated: bool,
    flashingLights: bool)

  /** The one input of an evaluation. */
  datatype BillboardData = BillboardData(
    dimensions: Dimensions,
    location: Location,
    permit: PermitStatus,
    structural: StructuralStatus,
    content: ContentStatus)

  /**
   * The text of a violation message, as a tag carrying the values the
   * message quotes; rendering the numbers as text is not modelled.
   */
  datatype ViolationMessage =
    | ExceedsMaximumSize(area: real, maxArea: real)
    | TooCloseToIntersection(distance: real)
    | TooCloseToSchool(distance: real)
    | NoValidPermit
    | PermitNotVisible
    | StructuralSafetyConcerns(condition: SupportCondition)
    | ProhibitedContent
    | ProhibitedFlashingLights

  /** The outcome of one rule on one billboard. */
  datatype ComplianceResult = ComplianceResult(
    isCompliant: bool,
    violationMessage: Option<ViolationMessage>,
    recommendedAction: Option<string>,
    fineAmount: Option<real>)

  /** The outcome `{ isCompliant: true }`: nothing but the flag is set. */
  const Compliant := ComplianceResult(true, None, None, None)

  /** A violation outcome, with all three optional fields set. */
  function Violated(message: ViolationMessage, action: string, fine: real): ComplianceResult
  {
    ComplianceResult(false, Some(message), Some(action), Some(fine))
  }

  /**
   * The shape every outcome of the built-in rules has: a compliant outcome
   * carries the flag only; a violation carries a message, an action and a
   * positive fine.
   */
  predicate WellFormedResult(r: ComplianceResult) {
    if r.isCompliant then r == Compliant
    else
      && r.violationMessage.Some?
      && r.recommendedAction.Some?
      && r.fineAmount.Some?
      && r.fineAmount.value > 0.0
  }

  /**
   * A catalogue entry: metadata plus a pure, total check. Rules are values;
   * the check is a first-class function, as in the source.
   */
  datatype ComplianceRule = ComplianceRule(
    id: string,
    category: Category,
    name: string,
    description: string,
    severity: Severity,
    checkFunction: BillboardData -> ComplianceResult)
}

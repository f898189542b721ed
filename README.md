# Billboard compliance engine — a verified model

This project models the compliance engine of a billboard-inspection application. The engine has two parts:

- The **rule catalogue**. It is an ordered list of seven rules. Each rule has an id, a category, a name, a description, a severity and a check function. The check function maps a billboard record to a result: compliant, or a violation with a message, a recommended action and a fine.
- The **`ComplianceEngine`** class. It holds a rule list that is fixed at construction. `checkCompliance` runs every rule in order and collects the violations. It sums their fines, counts the critical and high severities, computes a rounded percentage score and picks a risk tier. `getRulesByCategory` and `getRuleById` look rules up.

Layout:

- `types.dfy` (`ComplianceTypes`) holds the data model:
  - the billboard record, with optional fields as `Option`;
  - the rule outcome, and the well-formedness every built-in outcome has;
  - the rule itself, whose check is a total function value.
- `selection.dfy` (`Selection`) holds order-preserving `filter` and `find` over sequences. Both are specified by the indices they select.
- `rules.dfy` (`ComplianceRules`) holds the seven check functions and the default catalogue. Each check's contract states when it fires and what it fines.
- `engine.dfy` (`Engine`) holds the specification of one evaluation (`Evaluate`: violations, fine total, severity counters, score, risk tier) and the lemmas about it. It also holds the class `ComplianceEngine`. Its `CheckCompliance` is the source's accumulator loop, proved equal to `Evaluate`.
- `catalogue_facts.dfy` (`CatalogueFacts`) states what the engine reports for the default catalogue: the compliance verdict, fine total, severity counts and risk tier as functions of the billboard's fields, plus a worked example and the lookups.

Some definitions model source text but carry no contract of their own, so they have no row in the table below. Their meaning is stated by the rows that cite the same lines:

- `ComplianceRules.DefaultRules`, with the seven rule constants that carry the ids, categories, names, descriptions and severities, is the `complianceRules` array (lib/compliance-engine.ts:48-191). See `DefaultCatalogueWellFormed` and the `CatalogueFacts` rows.
- `Engine.Evaluate` is the report `checkCompliance` returns (lib/compliance-engine.ts:200-245). See `CheckCompliance`.
- `Engine.ScoreOf` is the score computation (lib/compliance-engine.ts:228-230). See `ScoreBounds`.
- `Engine.RiskOf` is the risk decision chain (lib/compliance-engine.ts:233-236). See `RiskTiers`.

Modelling choices:

- Dimensions, distances and fines are exact `real`s. The engine only compares them and adds fines.
- `Math.round(((n - v) / n) * 100)` is the integer `RoundHalfUp(100 * (n - v), n)`, i.e. round half up of the exact ratio.
- An empty rule list makes the source divide zero by zero. The model gives `Score.NaN` for it and does not substitute any other value.
- A violation message is a tag carrying the values the message quotes. Recommended actions are the source's constant strings.

## Model

| member | source | states |
|---|---|---|
| ComplianceRules.CheckSizeLimit | lib/compliance-engine.ts:55-65 | Fires exactly when the area exceeds 200 sq ft in a highway zone or 120 sq ft in any other zone; a violation carries message, action and fine 500; a pass carries nothing but the flag |
| ComplianceRules.CheckIntersectionDistance | lib/compliance-engine.ts:74-87 | An unknown intersection distance always passes; a known one fires exactly when it is below 300 ft; fine 750 |
| ComplianceRules.CheckSchoolDistance | lib/compliance-engine.ts:95-105 | An unknown school distance always passes; a known one fires exactly when it is below 500 ft; fine 1500 |
| ComplianceRules.CheckPermit | lib/compliance-engine.ts:113-131 | Passes exactly when a permit exists and is visible; a missing permit is fined 1000 whatever its visibility; a present but hidden one is fined 250 |
| ComplianceRules.CheckStructuralSafety | lib/compliance-engine.ts:140-153 | Fires exactly when structural issues are reported or the support condition is poor or critical; fine 2000 |
| ComplianceRules.CheckProhibitedContent | lib/compliance-engine.ts:161-171 | Fires exactly when the content is prohibited; fine 300 |
| ComplianceRules.CheckFlashingLights | lib/compliance-engine.ts:179-189 | Fires exactly when the lights flash; fine 400 |
| ComplianceRules.DefaultCatalogueWellFormed | lib/compliance-engine.ts:48-191 | The default catalogue has seven rules with pairwise distinct ids, and every outcome of every rule is well formed: a violation always has a message, an action and a positive fine |
| Engine.ComplianceEngine.constructor | lib/compliance-engine.ts:196-198 | The engine holds exactly the rule list it was given |
| Engine.ComplianceEngine.WithDefaultRules | lib/compliance-engine.ts:196 | Without an argument the engine holds the default catalogue |
| Engine.ComplianceEngine.CheckCompliance | lib/compliance-engine.ts:200-245 | The accumulator loop returns exactly the report `Evaluate` specifies: its violations, fine sum, critical and high counters, score and risk tier agree with the specification; the verdict holds exactly when there are no violations, and the total is the sum of the violations' fines |
| Engine.RoundHalfUp | lib/compliance-engine.ts:230 | The result is the integer nearest to `num / den`, halves rounded up: `num / den` lies in `[r - 1/2, r + 1/2)` |
| Engine.ViolationsAreViolatedRules | lib/compliance-engine.ts:216-225 | The violations are exactly the (rule, outcome) pairs of the rules the billboard violates, one per violated rule, in catalogue order |
| Engine.ViolationsBounded | lib/compliance-engine.ts:216-225 | There are never more violations than rules, and every reported outcome is non-compliant |
| Engine.NoViolationsIffAllCompliant | lib/compliance-engine.ts:216-239 | The violation list is empty exactly when every rule's outcome is compliant |
| Engine.ComplyingRuleNotReported | lib/compliance-engine.ts:216-225 | A rule id whose rules all pass never appears among the violations, whatever the other rules do |
| Engine.FineTotalNonNegative | lib/compliance-engine.ts:211-220 | With no negative fine among the violations, the total is at least zero |
| Engine.FineTotalZeroIffNone | lib/compliance-engine.ts:211-220 | When every violation carries a positive fine, the total is zero exactly when there are no violations |
| Engine.FineTotalAppend | lib/compliance-engine.ts:220 | The fine total of two consecutive runs of violations is the sum of their totals |
| Engine.CountSeverityAppend | lib/compliance-engine.ts:222-223 | A severity counter over two consecutive runs of violations is the sum of the two counts |
| Engine.CountSeverityZero | lib/compliance-engine.ts:222-223 | A severity counter is zero exactly when no violation has that severity |
| Engine.CriticalAndHighExclusive | lib/compliance-engine.ts:222-223 | The critical and high counters together never exceed the number of violations, so no violation is counted twice |
| Engine.RiskTiers | lib/compliance-engine.ts:233-236 | Critical exactly when some violated rule is critical; high exactly when none is critical and more than two are high; low exactly when none is critical or high and there are at most three violations |
| Engine.ScoreBounds | lib/compliance-engine.ts:228-230 | For a non-empty catalogue the score is a percentage in [0, 100]; it is 100 exactly when nothing is violated (below 200 rules) and 0 exactly when every rule is violated (up to 200 rules) |
| Engine.ReportScore | lib/compliance-engine.ts:228-239 | For a non-empty catalogue the report's score lies in [0, 100], and below 200 rules it is 100 exactly when the billboard is compliant |
| Engine.ScoreSaturates | lib/compliance-engine.ts:230 | The bounds of `ScoreBounds` are tight: 200 rules with one violated still score 100, and 201 rules with 200 violated score 0 |
| Engine.EmptyCatalogueScore | lib/compliance-engine.ts:228-230 | With no rules the score is 0 / 0, not a number, and the verdict is compliant |
| Engine.ComplianceEngine.RulesByCategory | lib/compliance-engine.ts:247-249 | Returns the rules of the category and only them, in catalogue order: element `k` is the catalogue rule at the `k`-th selected position |
| Engine.ComplianceEngine.RuleById | lib/compliance-engine.ts:251-253 | Returns nothing exactly when no rule has the id; otherwise a rule of the catalogue with that id, with no earlier rule sharing it |
| Engine.ComplianceEngine.RuleByIdFindsEachRule | lib/compliance-engine.ts:251-253 | With unique ids, looking up any rule's own id finds that very rule |
| Selection.Indices | lib/compliance-engine.ts:248 | The selected positions are in range, satisfy the predicate, strictly increase, and include every position that satisfies it |
| Selection.Filter | lib/compliance-engine.ts:248 | The result has one element per selected position, and element `k` is the input's element at the `k`-th selected position |
| Selection.FirstIndex | lib/compliance-engine.ts:252 | The position found satisfies the predicate and no earlier one does; the length of the input means that none does |
| CatalogueFacts.DefaultViolations | lib/compliance-engine.ts:48-225 | With the default catalogue the violations are those of the seven rules in catalogue order |
| CatalogueFacts.DefaultCompliance | lib/compliance-engine.ts:48-239 | The default catalogue passes a billboard exactly when it is not oversized, not near an intersection or school, has a visible permit, is structurally sound, and has neither prohibited content nor flashing lights |
| CatalogueFacts.DefaultScore | lib/compliance-engine.ts:228-230 | With the seven default rules the score lies in [0, 100] and is 100 exactly when the billboard passes |
| CatalogueFacts.DefaultRuleFines | lib/compliance-engine.ts:48-191 | Each default rule adds the fine of its row of the fine table: 500, 750, 1500, 1000 or 250, 2000, 300 and 400 |
| CatalogueFacts.DefaultTotalFines | lib/compliance-engine.ts:211-220 | The default catalogue's fine total is the table fine of every rule that fires; it is non-negative and zero exactly when the billboard passes |
| CatalogueFacts.DefaultSeverityCount | lib/compliance-engine.ts:222-223 | How many violations of each severity the default catalogue raises: size, intersection and permit are high; school and structural are critical; both content rules are medium |
| CatalogueFacts.DefaultRiskTable | lib/compliance-engine.ts:233-236 | With the default catalogue the risk is critical exactly when a school is near or the structure is unsafe; high exactly when neither holds and the size, intersection and permit rules all fire; low exactly when none of the five non-content rules fires |
| CatalogueFacts.StructuralIssuesMeanCriticalRisk | lib/compliance-engine.ts:139-153 | With the default catalogue, reported structural issues always give critical risk |
| CatalogueFacts.NoSchoolDistanceNoSchoolViolation | lib/compliance-engine.ts:95-105 | Without a known school distance, the school rule never appears among the default catalogue's violations |
| CatalogueFacts.OversizedWithoutPermitExample | lib/compliance-engine.ts:200-245 | A 150 sq ft commercial billboard with no permit violates exactly SIZE_001 and PERMIT_001 (fine 1000), owes 1500, scores round(500 / 7) = 71 and is medium risk |
| CatalogueFacts.PermitCategoryHoldsOneRule | lib/compliance-engine.ts:247-249 | The permit category of the default catalogue holds the single rule PERMIT_001 |
| CatalogueFacts.DefaultLookups | lib/compliance-engine.ts:251-253 | Every default rule is found by its id, and an id outside the catalogue finds nothing |

## Left out

- `enhanceAnalysisWithCompliance` (lib/compliance-engine.ts:257-305) is not modelled. It builds the billboard record from `Math.random()` and untyped inputs. Its one deterministic step is `area = width * height`. The model does not impose that step: `area` is taken as given, as `checkCompliance` does, and keeping it equal to `width * height` is the caller's duty.
- The text of violation messages is not modelled. The messages interpolate numbers with JavaScript's number-to-string conversion. The model keeps the quoted values in a tag instead (`ViolationMessage`).
- Floating point is not modelled. Distances, areas and fines are exact reals, and NaN or infinite inputs are not considered. The score is computed from the exact ratio. The source rounds the floating-point value of `((n - v) / n) * 100`, which could differ where that ratio lies exactly on a half.
- Engine.ScoreBounds: the "100 exactly when nothing is violated" half is proved only below 200 rules, and the "0 exactly when everything is violated" half only up to 200 rules. Beyond those sizes rounding hides a single violation, or a single passing rule (`Engine.ScoreSaturates`). The default catalogue has seven rules.
- The record fields `permitNumber`, `expirationDate`, `lastInspectionDate`, `isIlluminated`, `distanceFromResidential`, `width` and `height` are carried but read by no rule, so no contract mentions them.
- The engine's `rules` field is private and never reassigned in the source. The model makes it a `const`, so aliasing of the caller's array is not modelled.
- The pages and components of the application (dashboards, admin and compliance pages, report section, header, hero) are not part of this model. They are user interface over fixed mock data.

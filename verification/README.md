# SSVC triage evaluator in Dafny

This project models the core of a small SSVC (Stakeholder-Specific
Vulnerability Categorization) triage library. A caller describes a
vulnerability by a few categorical attributes. The evaluator normalises
the raw strings to enum members, validates them fail-fast for the chosen
methodology, and looks the tuple up in a decision matrix. The result is a
remediation action and a priority. There are two methodologies:

- CISA: exploitation, automatable, technical impact and mission and
  well-being, mapped to `Track`, `Track*`, `Attend` or `Act`.
- FIRST: exploitation, utility, technical impact and safety impact, mapped
  to `scheduled`, `out-of-band` or `immediate`.

Two revisions of the evaluator are modelled:

- `src/decision.ts`, the current revision, handles both methodologies and
  takes an options record.
- `src/index.ts`, the earlier revision, handles CISA only and takes
  positional arguments.

Modules, one per concern of the source:

- `Options`: `T | undefined` as `Option<T>`, with `??` as `GetOr`.
- `Categories`: the string enums, each with its `Label` (the wire string),
  the ordered ones also with a `Rank` (severity order), and the exact-label
  normaliser `toEnum`.
- `Priorities`: the shared action-to-priority map and the two outcome records.
- `CisaTable` and `FirstTable`: the two decision matrices and their fallbacks.
- `Evaluator`: the current `Decision`, that is, construction, validation
  and `evaluate`.
- `LegacyEvaluator`: the legacy `Decision` and its agreement with the
  current revision.
- `Scenarios`: the concrete cases of `src/decision.test.ts`, restated on the
  model.

A thrown `Error` becomes a `Raised` (or `LegacyRaised`) result. A missing
outcome becomes `NoOutcome`. The class's fields become an immutable record
that is passed to pure functions, which is faithful because no method
writes a field after construction.

Facts about the code that the model makes explicit:

- **FIRST validation order.** The current revision checks exploitation,
  technical impact, utility, safety impact. Technical impact comes before
  utility because `validateCommon` runs first.
- **No methodology default.** In the current revision the methodology has
  no effective default: the initialiser `= Methodology.CISA` is overwritten
  by `toEnum`, which gives `undefined` for an absent or unknown string. Only
  the legacy revision defaults to CISA.
- **Utility label.** The label of utility's third member is
  `"super effective"`, with a space.
- **FIRST monotonicity.** The FIRST matrix is monotone in safety impact
  only. The three counterexample lemmas in `FirstTable` name cells where
  raising utility, technical impact or exploitation lowers the action.
- **Test calling convention.** The test file calls the constructor with
  seven positional arguments. The current constructor takes one options
  record. The scenarios use the record form with the tests' values.

## Model

| member | source | states |
|---|---|---|
| Categories.FindByLabel | src/decision.ts:132-133 | `Object.entries(e).find(val === s)`: the result is a member whose label is `s`, and the first such member in declaration order; it is absent exactly when no member carries that label |
| Categories.ToEnum | src/decision.ts:124-135 | `toEnum`: an absent value stays absent; a present string gives a member whose label equals it, and gives absent only when no member's label equals it |
| Options.Option.GetOr | src/decision.ts:207 | TypeScript's `x ?? d`, used at src/decision.ts:207 and 367 and src/index.ts:77 and 170: the wrapped value when present, `d` when absent |
| Categories.ToEnumIff | src/decision.ts:124-135 | for an enum whose member list is complete and whose labels are distinct, `toEnum` yields member `x` if and only if the input is exactly `x`'s label |
| Categories.ToEnumExact | src/decision.ts:124-135 | when the labels are pairwise distinct, `toEnum` yields member `x` if and only if the input is exactly `x`'s label |
| Categories.ToExploitation | src/decision.ts:1-5 | normalising exploitation gives member `e` if and only if the raw string is exactly `e`'s label |
| Categories.ToAutomatable | src/decision.ts:7-10 | normalising automatable gives `a` if and only if the raw string is exactly `a`'s label |
| Categories.ToTechnicalImpact | src/decision.ts:12-15 | normalising technical impact gives `t` if and only if the raw string is exactly `t`'s label |
| Categories.ToMissionWellbeing | src/decision.ts:17-21 | normalising mission and well-being gives `m` if and only if the raw string is exactly `m`'s label |
| Categories.ToUtility | src/decision.ts:30-34 | normalising utility gives `u` if and only if the raw string is exactly `u`'s label ("super effective" with a space) |
| Categories.ToSafetyImpact | src/decision.ts:36-42 | normalising safety impact gives `s` if and only if the raw string is exactly `s`'s label |
| Categories.ToMethodology | src/decision.ts:57-60 | normalising the methodology gives `FIRST`/`CISA` if and only if the raw string is exactly that label; there is no default |
| Categories.LabelRoundTrip | src/decision.ts:124-135 | for every member of every attribute enum, normalising its label gives the member back |
| Categories.NearMissesAreAbsent | src/decision.ts:132-133 | matching is exact and case-sensitive: "Active", "ACTIVE", "super_effective" and "cisa" normalise to absent |
| Priorities.PriorityOf | src/decision.ts:62-70 | `priorityMap[action]`, with the object literal transcribed as the constant `Priorities.PriorityMap`: every action has an entry; the lowest action of a methodology maps to low, its highest to immediate, the others to medium; high is never produced |
| Priorities.EveryActionHasEntry | src/decision.ts:62-70 | the shared map has an entry for each of the seven actions |
| Priorities.ActionLabelsDistinct | src/decision.ts:44-55 | two actions share a label only if they are the same action, so the string-keyed shared map never conflates a CISA action with a FIRST one |
| Priorities.PriorityMonotone | src/decision.ts:62-70 | within one methodology, a more severe action never gets a lower priority |
| Priorities.NewOutcomeCisa | src/decision.ts:72-80 | a CISA outcome keeps its action and carries that action's priority from the shared map |
| Priorities.NewOutcomeFirst | src/decision.ts:81-89 | a FIRST outcome keeps its action and carries that action's priority from the shared map |
| CisaTable.CisaEntry | src/decision.ts:149-205 | the CISA matrix literal, cell for cell (17 entries); every other tuple is undefined |
| CisaTable.NoExplicitTrack | src/decision.ts:149-206 | no cell of the CISA matrix holds `Track` |
| CisaTable.CisaLookup | src/decision.ts:207 | the action is the cell's entry when there is one; it is `Track` exactly for the tuples without an entry; `Act` needs active exploitation |
| CisaTable.FallbackCount | src/decision.ts:149-207 | 19 of the 36 tuples have no entry and fall back to `Track` |
| CisaTable.MonotoneInExploitation | src/decision.ts:149-206 | raising exploitation, other attributes fixed, never lowers the CISA action |
| CisaTable.MonotoneInAutomatable | src/decision.ts:149-206 | changing automatable from no to yes never lowers the CISA action |
| CisaTable.MonotoneInTechnicalImpact | src/decision.ts:149-206 | changing technical impact from partial to total never lowers the CISA action |
| CisaTable.MonotoneInMissionWellbeing | src/decision.ts:149-206 | raising mission and well-being never lowers the CISA action |
| CisaTable.CisaMonotone | src/decision.ts:149-207 | a tuple that is componentwise at least as severe never gets a less severe CISA action |
| FirstTable.FirstEntry | src/decision.ts:214-365 | the FIRST matrix literal, cell for cell (90 entries) |
| FirstTable.FirstMatrixDense | src/decision.ts:214-366 | every one of the 90 FIRST tuples has an entry |
| FirstTable.FirstLookup | src/decision.ts:367 | the action is always the matrix entry, so the `scheduled` fallback is unreachable; active exploitation or catastrophic safety impact is never `scheduled`; without active exploitation, no safety impact is always `scheduled` |
| FirstTable.MonotoneInSafetyImpact | src/decision.ts:214-366 | within each row, raising safety impact never lowers the FIRST action |
| FirstTable.NotMonotoneInUtility | src/decision.ts:240-262 | at (poc, total, hazardous), efficient gives immediate but super effective gives out-of-band |
| FirstTable.NotMonotoneInTechnicalImpact | src/decision.ts:249-262 | at (poc, super effective, hazardous), partial gives immediate but total gives out-of-band |
| FirstTable.NotMonotoneInExploitation | src/decision.ts:214-310 | at (super effective, total, minor), no exploitation gives out-of-band but poc gives scheduled |
| Evaluator.NewDecision | src/decision.ts:110-122 | the constructor never fails; methodology, exploitation and technical impact are normalised from their strings; the CISA pair is normalised only under CISA and the FIRST pair only under FIRST, and otherwise stays absent |
| Evaluator.ValidateCommon | src/decision.ts:371-378 | fails on an exploitation that is no member, else on a technical impact that is no member; passes exactly when both are members |
| Evaluator.ValidateCisa | src/decision.ts:380-388 | the first missing attribute, in the order exploitation, technical impact, automatable, mission and well-being, is the one error; passes exactly when all four are present |
| Evaluator.ValidateFirst | src/decision.ts:390-398 | the first missing attribute, in the order exploitation, technical impact, utility, safety impact, is the one error; passes exactly when all four are present |
| Evaluator.EvaluateCisa | src/decision.ts:146-209 | raises exactly when CISA validation fails, with its error; otherwise the action is the matrix lookup and the priority is that action's |
| Evaluator.EvaluateFirst | src/decision.ts:211-369 | raises exactly when FIRST validation fails, with its error; otherwise the action is the matrix entry and the priority is that action's |
| Evaluator.Evaluate | src/decision.ts:137-144 | no outcome exactly when the methodology is absent; otherwise the methodology's own path; priority high never occurs |
| Evaluator.OtherMethodologyIgnored | src/decision.ts:114-121 | options that agree on the resolved methodology's attributes build the same decision and evaluate alike, whatever the other methodology's attributes are |
| Evaluator.UnresolvedMethodologyGivesNoOutcome | src/decision.ts:108-111 | a methodology string that is no label leaves the methodology and all four methodology-specific fields absent, and evaluation yields no outcome without raising |
| Evaluator.CisaFromOptions | src/decision.ts:371-388 | under "CISA", from raw strings: the first of exploitation, technical impact, automatable, mission and well-being that is no label decides the error |
| Evaluator.CisaOutcomeFromLabels | src/decision.ts:146-209 | under "CISA" with four valid labels: the outcome is the lookup's action with its priority |
| Evaluator.CisaDecisionFromLabels | src/decision.ts:110-117 | under "CISA", four valid labels build exactly the record of those four members, with utility and safety impact absent |
| Evaluator.FirstDecisionFromLabels | src/decision.ts:110-121 | under "FIRST", four valid labels build exactly the record of those four members, with automatable and mission and well-being absent |
| Evaluator.FirstFromOptions | src/decision.ts:371-398 | under "FIRST", from raw strings: the first of exploitation, technical impact, utility, safety impact that is no label decides the error |
| Evaluator.FirstOutcomeFromLabels | src/decision.ts:211-369 | under "FIRST" with four valid labels: the action is the matrix entry itself, with its priority |
| Scenarios.CisaActScenario | src/decision.test.ts:52-68 | (active, yes, total, high) under CISA gives `Act` with priority immediate |
| Scenarios.CisaTrackStarScenario | src/decision.test.ts:70-86 | (poc, no, partial, high) under CISA gives `Track*` with priority medium |
| Scenarios.CisaTrackScenario | src/decision.test.ts:88-104 | (none, no, partial, low) under CISA falls back to `Track` with priority low |
| Scenarios.CisaMissingFieldScenarios | src/decision.test.ts:106-130 | under CISA, a missing exploitation raises the exploitation error and a missing automatable the automatable error |
| Scenarios.CisaIgnoresFirstFields | src/decision.test.ts:132-149 | under CISA, utility and safety impact strings are dropped and the CISA path still decides |
| Scenarios.FirstIgnoresCisaFields | src/decision.test.ts:266-282 | under FIRST, automatable and mission strings are dropped and the FIRST path still decides |
| Scenarios.FirstActiveSuperEffectiveTotalCatastrophic | src/decision.test.ts:186-202 | (active, super effective, total, catastrophic) gives immediate with priority immediate |
| Scenarios.FirstPocEfficientPartialMajor | src/decision.test.ts:204-220 | (poc, efficient, partial, major) gives out-of-band with priority medium |
| Scenarios.FirstPocEfficientPartialHazardous | src/decision.test.ts:320-336 | (poc, efficient, partial, hazardous) gives immediate with priority immediate |
| Scenarios.FirstNoneLaboriousPartialNone | src/decision.test.ts:284-300 | (none, laborious, partial, none) gives scheduled with priority low |
| Scenarios.FirstNoneLaboriousPartialMinor | src/decision.test.ts:222-238 | (none, laborious, partial, minor) gives scheduled with priority low |
| Scenarios.FirstMissingFieldScenarios | src/decision.test.ts:240-264 | under FIRST, a missing exploitation raises the exploitation error and a missing utility the utility error |
| Scenarios.FirstInvalidExploitationScenario | src/decision.test.ts:338-351 | an exploitation field that holds no member raises the exploitation error |
| Scenarios.UnknownMethodologyScenario | src/decision.ts:137-144 | a lower-case "cisa" or an absent methodology gives no outcome, even with valid CISA attributes |
| LegacyEvaluator.NewLegacyDecision | src/index.ts:66-78 | the methodology is FIRST only for the exact label "FIRST", otherwise CISA, including when absent; all four attributes are normalised whatever the methodology |
| LegacyEvaluator.LegacyValidate | src/index.ts:174-187 | the first absent attribute, in the order exploitation, automatable, technical impact, mission and well-being, is the one error; passes exactly when all four are present |
| LegacyEvaluator.LegacyCisaEntry | src/index.ts:112-168 | the legacy matrix literal, cell for cell (17 entries); every other tuple is undefined |
| LegacyEvaluator.LegacyTableAgrees | src/index.ts:112-168 | the legacy matrix is the current revision's matrix, cell for cell |
| LegacyEvaluator.LegacyLookup | src/index.ts:170 | the legacy lookup with its `Track` fallback resolves every tuple to the current revision's action |
| LegacyEvaluator.LegacyPriorityOf | src/index.ts:42-47 | the legacy `priorityMap` literal, transcribed as the constant `LegacyEvaluator.LegacyPriorityMap`, gives every CISA action the same priority as the shared map |
| LegacyEvaluator.LegacyCisa | src/index.ts:109-172 | raises exactly when presence validation fails, with its error; otherwise the outcome is the current revision's outcome for that tuple |
| LegacyEvaluator.LegacyEvaluate | src/index.ts:103-108 | no outcome exactly under FIRST; the CISA path otherwise; priority high never occurs |
| LegacyEvaluator.ConstructionNeverRaises | src/index.ts:79-86 | the evaluation triggered by the constructor, which happens only once all four attributes resolved, never raises |
| LegacyEvaluator.RevisionsAgree | src/index.ts:103-172 | for every tuple of valid labels under "CISA", the legacy and the current revision produce the same action and priority |
| LegacyEvaluator.AbsentMethodologyDiffers | src/index.ts:71-77 | without a methodology, the legacy revision defaults to CISA and decides, while the current one gives no outcome |
| LegacyEvaluator.ValidationOrderDiffers | src/index.ts:178-183 | with automatable and technical impact both missing, the legacy revision reports automatable and the current one technical impact |

## Left out

- The non-string branch of `toEnum` is not modelled. It returns `undefined`
  at src/decision.ts:131-135 and passes the value through at
  src/index.ts:100. Every argument is a string or absent, because every
  enum value is a string, so the branch is unreachable.
- The `outcome` field is never assigned by either revision, so it is not
  part of the decision records.
- The legacy constructor's eager `evaluate` call is modelled only by the
  fact that it cannot raise (`ConstructionNeverRaises`), because its
  result is discarded.
- Idempotence of `evaluate` has no separate lemma. Evaluating twice gives
  the same result because `Evaluate` is a pure function of an immutable
  record, and `evaluate` writes no field.
- `Object.entries` iteration order is modelled as declaration order. Labels
  are distinct within each enum (`ToEnumExact`), so the order never
  changes the result.
- Error messages are kept as `Message()` strings on the error kinds. No
  contract speaks of the text itself.
- The `as any` overwrite of a field after construction is modelled as an
  absent field. The membership checks of `validateCommon` treat a
  non-member exactly like `undefined`.
- Conformance to the published SSVC decision trees is not checked. The
  matrices in the source are the authority.
- jest.config.js is test-runner configuration with no logic.

# EU AI Act readiness assessment: a Dafny model

This project models the core of a browser questionnaire. It asks a company about one of its
AI systems and rates it against the EU AI Act (Regulation (EU) 2024/1689). The modelled parts are:

- **The question catalog** (`Catalog`, `catalog.dfy`). There are six sections and 32 questions
  with ids Q1 to Q32. For each question the model keeps its input type, its `required` flag and
  its ordered `{value, label}` options. Lemmas prove that the ids are consecutive and distinct,
  which questions are optional, and that every choice question offers distinct values.
- **The compliance scorer** (`ComplianceCalculator`, `compliance.dfy`).
  - The scorer maps the answers to a risk class (Prohibited, High, Limited or Minimal), an
    overall score, an ordered list of critical gaps and an ordered list of recommendations.
  - `Assess` is the specification, written one function per stage.
  - `CalculateComplianceScore` is the step-by-step computation with its loops. Its contract
    proves that it returns `Assess`.
  - `compliance_order.dfy` gives each gap and recommendation an independent "due" condition.
    It proves that every assessment lists exactly the due messages, in the scorer's fixed order.
  - `compliance_properties.dfy` states the gates, the tier rules, the score formulas and ranges,
    and the counts, plus a few complete scenarios.
- **Scorer against catalog** (`CatalogConsistency`). Every id the scorer reads is a catalog
  question. Lemmas state which values those questions offer. Two consequences of the catalog
  as written are proved:
  - Q22 offers no "partial" option, so it earns either 0 or 20 points.
  - Q9, a transparency trigger, is a free-text field, so it counts only when the user types
    exactly `yes`.
- **The wizard** (`AssessmentWizard`). This is the page's step state machine: the company form,
  one step per section, the review page and the results page. It has per-step validation,
  forward and backward moves, submission, per-field error clearing and help toggles. The page
  state is a class whose fields the event handlers update.
- **The assessment hook** (`UseAssessment`). This is a second, laxer copy of that state machine.
  It proves that the hook accepts every company form the wizard accepts. It also accepts
  exactly the forms whose only fault is a malformed email.
- **The checkbox group's toggle** (`CheckboxGroup`), and **the review page's answer
  formatting** (`ReviewPage`).

Shared vocabulary lives in four more modules:

- `Wrappers`: `Option`.
- `Answers`: the stored answer values and JavaScript truthiness.
- `FormState`: `trim`, the email regular expression `\S+@\S+\.\S+`, and the error dictionary.
- `Sequences`: conditional pushes and an order-preserving filter.

Modelling choices that follow the code closely:

- **Fractional scores.** Scores are exact `real` numbers, because the governance bonus
  (`12.5`/`6.25` points times `0.3` or `0.15`) makes them fractional. The results dashboard
  prints the raw, possibly fractional, value
  (src/components/organisms/ResultsDashboard.jsx:208).
- **Empty selections pass.** A required checkbox question whose selection is the empty
  list passes the wizard's check, because an empty JavaScript array is truthy. `Truthy` keeps
  that behaviour.
- **`Wizard.Next` is only called before the results page.** The navigation buttons that call
  it are rendered only before the results page.

## Model

| member | source | states |
|---|---|---|
| ComplianceCalculator.CalculateComplianceScore | src/utils/complianceCalculator.js:1-112 | the record built stage by stage, with the prohibited early return, equals the specification `Assess` of the answers, dated `now` |
| ComplianceCalculator.ClassifyRisk | src/utils/complianceCalculator.js:23-73 | the tier is High, Limited or Minimal by the trigger questions; the base score is max(20, requirement points) for High, 75 for Limited, 85 for Minimal; the requirement gaps are appended only for High |
| ComplianceCalculator.SumRequirementPoints | src/utils/complianceCalculator.js:31-40 | the loop over Q20–Q24 returns the requirement total (20 per "yes", 10 per "partial") |
| ComplianceCalculator.SumGovernancePoints | src/utils/complianceCalculator.js:76-85 | the loop over Q25–Q32 returns the governance total (12.5 per "yes"/"complete", 6.25 per "partial"/"planned"/"progress") |
| ComplianceCalculator.AddRequirementGaps | src/utils/complianceCalculator.js:44-59 | appends, in order, the gap of each of Q20–Q24 not answered exactly "yes", after the gaps already present |
| ComplianceCalculator.AddGovernanceGaps | src/utils/complianceCalculator.js:94-106 | appends the documentation, quality-management (high risk only), log-retention and monitoring gaps, each when its control is not in place |
| ComplianceCalculator.GenerateRecommendations | src/utils/complianceCalculator.js:114-154 | the list is the high-risk block (if high risk), the remediation pair (if score < 60), the follow-ups and the three standing recommendations |
| ComplianceCalculator.AddFollowUps | src/utils/complianceCalculator.js:132-146 | appends literacy training, supplier contracts, documentation and monitoring plan, each when Q29, Q30, Q25 or Q28 is not in place |
| ComplianceCalculator.Assess | src/utils/complianceCalculator.js:1-112 | the class is Prohibited exactly when a prohibited practice is answered "yes"; the score lies in [0, 100]; the date is the given clock value |
| ComplianceCalculator.MissingRequirements | src/utils/complianceCalculator.js:44-59 | at most one gap per requirement question |
| ComplianceCalculator.GovernanceGaps | src/utils/complianceCalculator.js:94-106 | at most four governance gaps for high risk and three otherwise |
| ComplianceCalculator.FollowUps | src/utils/complianceCalculator.js:132-146 | at most four control-specific recommendations |
| ComplianceCalculator.Recommendations | src/utils/complianceCalculator.js:114-154 | between 3 and 14 recommendations, always ending with the three standing ones |
| ComplianceCalculator.RequirementGapsInOrder | src/utils/complianceCalculator.js:44-59 | the requirement gaps are exactly those of Q20, Q21, Q22, Q23, Q24 not answered "yes", in that order |
| ComplianceCalculator.RequirementTotalBounds | src/utils/complianceCalculator.js:31-40 | requirement points lie between 0 and 20 per question |
| ComplianceCalculator.GovernanceTotalBounds | src/utils/complianceCalculator.js:76-85 | governance points lie between 0 and 12.5 per question |
| ComplianceCalculator.ScoreBounds | src/utils/complianceCalculator.js:87-92 | governance total in [0, 100]; after the capped bonus the score is in [20, 100] for High, [75, 90] for Limited, [85, 100] for Minimal |
| ComplianceOrder.DueRequirementGaps | src/utils/complianceCalculator.js:44-59 | filtering the requirement gaps by their due condition gives the requirement gaps of a non-prohibited high-risk assessment and nothing otherwise |
| ComplianceOrder.DueGovernanceGaps | src/utils/complianceCalculator.js:94-106 | filtering the governance gaps by their due condition gives the scorer's governance gaps, or nothing when prohibited |
| ComplianceOrder.AssessLists | src/utils/complianceCalculator.js:14-21 | a prohibited assessment carries only the prohibited gap and the cease/counsel pair; otherwise the staged gap and recommendation lists |
| ComplianceOrder.GapsInCanonicalOrder | src/utils/complianceCalculator.js:10-106 | the critical gaps are exactly the due gaps, in the scorer's fixed order |
| ComplianceOrder.DueProhibitedRecommendations | src/utils/complianceCalculator.js:17-19 | cease and counsel are due exactly for a prohibited system |
| ComplianceOrder.DueHighRiskRecommendations | src/utils/complianceCalculator.js:118-124 | the five high-risk recommendations are due exactly for a non-prohibited high-risk system |
| ComplianceOrder.DueRemediationRecommendations | src/utils/complianceCalculator.js:127-130 | the gap analysis and governance team are due exactly when not prohibited and the score is below 60 |
| ComplianceOrder.DueStandingRecommendations | src/utils/complianceCalculator.js:148-151 | the three standing recommendations are due for every non-prohibited system |
| ComplianceOrder.DueFollowUps | src/utils/complianceCalculator.js:132-146 | the control-specific recommendations due are the scorer's follow-ups, none when prohibited |
| ComplianceOrder.DueRecommendationsSplit | src/utils/complianceCalculator.js:114-154 | the due recommendations in canonical order are the four blocks in the scorer's order |
| ComplianceOrder.RecommendationsInCanonicalOrder | src/utils/complianceCalculator.js:14-154 | the recommendations are exactly the due ones, in the scorer's fixed order |
| ComplianceProperties.ProhibitedGate | src/utils/complianceCalculator.js:11-12 | the prohibited gate fires iff one of Q16–Q19 is exactly "yes" |
| ComplianceProperties.HighRiskTrigger | src/utils/complianceCalculator.js:24-25 | high risk iff one of Q11–Q14 is exactly "yes" |
| ComplianceProperties.TransparencyTrigger | src/utils/complianceCalculator.js:63-64 | transparency needs iff Q1 or Q9 is exactly "yes" |
| ComplianceProperties.ProhibitedOverride | src/utils/complianceCalculator.js:14-21 | any prohibited "yes" yields score 0, class Prohibited, one gap and two recommendations, whatever else is answered |
| ComplianceProperties.TierCharacterization | src/utils/complianceCalculator.js:23-73 | without a prohibited practice: High iff a high-risk trigger, Limited iff none but a transparency trigger, Minimal iff neither; never Prohibited |
| ComplianceProperties.RequirementTotalCounts | src/utils/complianceCalculator.js:31-40 | requirement points are 20 times the "yes" count plus 10 times the "partial" count |
| ComplianceProperties.GovernanceTotalCounts | src/utils/complianceCalculator.js:76-85 | governance points are 12.5 per "yes"/"complete" plus 6.25 per "partial"/"planned"/"progress" |
| ComplianceProperties.HighScoreFormula | src/utils/complianceCalculator.js:27-92 | high-risk score = min(100, max(20, 20·yes + 10·partial) + 0.3·governance subtotal) |
| ComplianceProperties.LimitedScoreFormula | src/utils/complianceCalculator.js:61-92 | limited-risk score = min(100, 75 + 0.15·governance subtotal) |
| ComplianceProperties.MinimalScoreFormula | src/utils/complianceCalculator.js:61-92 | minimal-risk score = min(100, 85 + 0.15·governance subtotal) |
| ComplianceProperties.ScoreRanges | src/utils/complianceCalculator.js:14-92 | Prohibited scores 0; High in [20, 100]; Limited in [75, 90]; Minimal in [85, 100] |
| ComplianceProperties.GapMembership | src/utils/complianceCalculator.js:10-106 | a gap is listed iff its due condition holds |
| ComplianceProperties.RecommendationMembership | src/utils/complianceCalculator.js:114-154 | a recommendation is listed iff its due condition holds for the final score |
| ComplianceProperties.PartialStillGap | src/utils/complianceCalculator.js:34-47 | a "partial" risk-management answer earns 10 points and still reports the risk-management gap |
| ComplianceProperties.GapCounts | src/utils/complianceCalculator.js:44-106 | at most 9 gaps for high risk and at most 3 otherwise |
| ComplianceProperties.RemediationOnlyForHighRisk | src/utils/complianceCalculator.js:127-130 | the remediation pair appears only for a high-risk system scoring below 60 |
| ComplianceProperties.RecommendationCounts | src/utils/complianceCalculator.js:114-154 | 8 to 14 recommendations for high risk and 3 to 7 for the other non-prohibited classes |
| ComplianceProperties.NoGapsIff | src/utils/complianceCalculator.js:44-106 | no gaps iff Q25 complete, Q27 and Q28 yes, and, for high risk, Q20–Q24 and Q26 yes |
| ComplianceProperties.UnansweredAssessment | src/utils/complianceCalculator.js:61-154 | with no answers: Minimal, 85, three governance gaps, four follow-ups and the three standing recommendations |
| ComplianceProperties.FullyCompliantHighRisk | src/utils/complianceCalculator.js:27-154 | a high-risk system with every control in place (Q31 and Q32 may be "yes" or "complete") scores 100, has no gaps and gets only the high-risk and standing recommendations |
| Catalog.CatalogIds | src/services/mockData/assessmentData.js:1-438 | six sections and 32 questions with ids Q1…Q32 in catalog order |
| Catalog.IdsDistinct | src/services/mockData/assessmentData.js:1-438 | no two questions share an id |
| Catalog.QuestionByNumber | src/services/mockData/assessmentData.js:1-438 | looking up `Qn` finds the n-th question |
| Catalog.QuestionByIdOf | src/services/mockData/assessmentData.js:1-438 | every catalog question is found by its own id |
| Catalog.CatalogRequiredFlags | src/services/mockData/assessmentData.js:1-438 | exactly Q4, Q5, Q7, Q8 and Q15 are optional |
| Catalog.CatalogChoices | src/services/mockData/assessmentData.js:1-438 | no select question; every radio/checkbox question has a non-empty option list with distinct values |
| CatalogConsistency.ProhibitedQuestionsInCatalog | src/services/mockData/assessmentData.js:197-252 | the four ids of the prohibited gate are the catalog's prohibited-practice questions |
| CatalogConsistency.HighRiskQuestionsInCatalog | src/services/mockData/assessmentData.js:134-181 | the four high-risk trigger ids are catalog questions Q11–Q14 |
| CatalogConsistency.TransparencyQuestionsInCatalog | src/services/mockData/assessmentData.js:9-113 | the transparency trigger ids are catalog questions Q1 and Q9 |
| CatalogConsistency.RequirementQuestionsInCatalog | src/services/mockData/assessmentData.js:253-325 | the five requirement ids are the catalog's high-risk requirement questions |
| CatalogConsistency.GovernanceQuestionsInCatalog | src/services/mockData/assessmentData.js:326-437 | the eight governance ids are the catalog's governance questions |
| CatalogConsistency.RequirementOptions | src/services/mockData/assessmentData.js:264-321 | the values the requirement questions offer; Q22 offers no "partial" |
| CatalogConsistency.Q22PointsFromCatalog | src/services/mockData/assessmentData.js:290-294 | an answer Q22 offers earns 0 or 20 points, 20 iff it is "yes" |
| CatalogConsistency.Q9IsFreeText | src/services/mockData/assessmentData.js:105-113 | the transparency trigger Q9 is a free-text area with no options |
| CatalogConsistency.Q25Options | src/services/mockData/assessmentData.js:337-341 | Q25 offers complete, partial and missing |
| CatalogConsistency.Q25PointsFromCatalog | src/services/mockData/assessmentData.js:333-344 | complete earns 12.5, partial 6.25, missing 0; the documentation gap is reported iff Q25 is not complete |
| CatalogConsistency.TriggersOfferYesNo | src/services/mockData/assessmentData.js:9-250 | the prohibited, high-risk and Q1 triggers offer exactly yes and no |
| AssessmentWizard.StepLayout | src/components/organisms/AssessmentWizard.jsx:24-25 | nine steps: review is step 7 and results step 8 |
| AssessmentWizard.CollectCompanyErrors | src/components/organisms/AssessmentWizard.jsx:79-91 | the company checks produce exactly the company errors |
| AssessmentWizard.CollectRequiredErrors | src/components/organisms/AssessmentWizard.jsx:92-104 | the loop over a section produces one error per required question with a falsy answer |
| AssessmentWizard.RequiredMissingKeys | src/components/organisms/AssessmentWizard.jsx:97-103 | an id has an error iff it names a required question of the list with a falsy answer; every message is "This question is required" |
| AssessmentWizard.CompanyStepErrors | src/components/organisms/AssessmentWizard.jsx:79-91 | company errors only for name, industry and email; name iff missing or blank; industry iff missing or empty |
| AssessmentWizard.CompanyEmailError | src/components/organisms/AssessmentWizard.jsx:87-91 | an email error iff blank or malformed; a non-blank email gets the "valid email" message |
| AssessmentWizard.EmailStepError | src/components/organisms/AssessmentWizard.jsx:87-91 | an email error iff missing, blank or not matching `\S+@\S+\.\S+` |
| AssessmentWizard.CompanyStepValid | src/components/organisms/AssessmentWizard.jsx:76-108 | the company step validates iff the name is non-blank, the industry non-empty and the email non-blank and well-formed |
| AssessmentWizard.QuestionStepErrors | src/components/organisms/AssessmentWizard.jsx:92-104 | on a section step the errors are exactly the required questions of that section with falsy answers |
| AssessmentWizard.AnsweringClearsStepError | src/components/organisms/AssessmentWizard.jsx:92-104 | giving a question a truthy answer removes its error and changes no other question's |
| AssessmentWizard.LaterStepsValid | src/components/organisms/AssessmentWizard.jsx:92-107 | the review and results steps always validate |
| AssessmentWizard.ButtonTextNamesTransition | src/components/organisms/AssessmentWizard.jsx:258-262 | "Review Assessment" iff Next leads to review, "Submit Assessment" iff it leads to results, "Next" otherwise |
| AssessmentWizard.Toggled | src/components/organisms/AssessmentWizard.jsx:184-189 | the toggled question's help visibility flips and every other entry stays |
| AssessmentWizard.ToggleTwice | src/components/organisms/AssessmentWizard.jsx:184-189 | toggling twice restores every question's visibility |
| AssessmentWizard.Wizard.constructor | src/components/organisms/AssessmentWizard.jsx:15-21 | the wizard starts at step 0 with empty company info, answers, errors and help map and no results |
| AssessmentWizard.Wizard.ValidateCurrentStep | src/components/organisms/AssessmentWizard.jsx:76-108 | replaces the errors with those of the current step, and returns true iff there are none |
| AssessmentWizard.Wizard.Submit | src/components/organisms/AssessmentWizard.jsx:131-152 | stores the assessment of the current answers and moves to the results page |
| AssessmentWizard.Wizard.Next | src/components/organisms/AssessmentWizard.jsx:110-125 | an invalid step stays put; a valid step advances one, and from the review page it submits and lands on results; the form data is unchanged |
| AssessmentWizard.Wizard.Previous | src/components/organisms/AssessmentWizard.jsx:127-129 | one step back, never below 0 |
| AssessmentWizard.Wizard.EditStep | src/components/organisms/AssessmentWizard.jsx:216-216 | the review page's edit link jumps straight to the chosen step without validating, keeping the step within the wizard |
| AssessmentWizard.Wizard.AnswerChange | src/components/organisms/AssessmentWizard.jsx:154-167 | stores the answer and clears that question's error, if any |
| AssessmentWizard.Wizard.CompanyInfoChange | src/components/organisms/AssessmentWizard.jsx:169-182 | stores the field and clears its error, if any |
| AssessmentWizard.Wizard.ToggleHelp | src/components/organisms/AssessmentWizard.jsx:184-189 | flips one question's help visibility |
| FormState.TrimEmptyIffBlank | src/components/organisms/AssessmentWizard.jsx:81-81 | `trim()` is empty iff the string is all whitespace |
| FormState.LooksLikeEmailIsRegexTest | src/components/organisms/AssessmentWizard.jsx:89-89 | the executable email check agrees with the unanchored regular expression `\S+@\S+\.\S+` |
| FormState.ClearError | src/components/organisms/AssessmentWizard.jsx:160-166 | a present error becomes undefined with its key kept; other keys and an absent error are untouched |
| Answers.AnyYesCons | src/utils/complianceCalculator.js:12-12 | `some(id => answers[id] === 'yes')` over a list is the first id's test or the rest's |
| UseAssessment.LaterStepsAlwaysValid | src/hooks/useAssessment.js:43-61 | the hook finds no error at any step after the company form |
| UseAssessment.HookErrorKeys | src/hooks/useAssessment.js:47-57 | step-0 errors only for name, email and industry, each iff its field check fails |
| UseAssessment.HookCompanyErrors | src/hooks/useAssessment.js:47-57 | name and email errors iff missing or blank, industry iff missing or empty; the email's format is not checked |
| UseAssessment.HookLaxerThanWizard | src/hooks/useAssessment.js:43-61 | whatever the wizard accepts the hook accepts; the hook alone accepts exactly the forms whose present email fails the regular expression |
| UseAssessment.AssessmentHook.constructor | src/hooks/useAssessment.js:5-9 | the hook starts at step 0 with empty state |
| UseAssessment.AssessmentHook.ValidateStep | src/hooks/useAssessment.js:43-61 | replaces the errors with those of the step, and returns true iff there are none |
| UseAssessment.AssessmentHook.NextStep | src/hooks/useAssessment.js:63-67 | advances one step iff the current step validates, with no upper bound |
| UseAssessment.AssessmentHook.PreviousStep | src/hooks/useAssessment.js:69-71 | one step back, never below 0 |
| UseAssessment.AssessmentHook.UpdateCompanyInfo | src/hooks/useAssessment.js:73-85 | stores the field and clears its error, if any |
| UseAssessment.AssessmentHook.UpdateAnswer | src/hooks/useAssessment.js:87-99 | stores the answer and clears its error, if any |
| CheckboxGroup.Without | src/components/atoms/CheckboxGroup.jsx:15-15 | filtering never lengthens the selection |
| CheckboxGroup.WithoutAppend | src/components/atoms/CheckboxGroup.jsx:15-15 | the filter keeps the remaining values in their order |
| CheckboxGroup.WithoutCounts | src/components/atoms/CheckboxGroup.jsx:15-15 | every occurrence of the value goes and every other value keeps its count |
| CheckboxGroup.WithoutAbsent | src/components/atoms/CheckboxGroup.jsx:15-15 | filtering out an absent value changes nothing |
| CheckboxGroup.ToggleAbsent | src/components/atoms/CheckboxGroup.jsx:13-18 | an unselected option is appended at the end |
| CheckboxGroup.TogglePresent | src/components/atoms/CheckboxGroup.jsx:13-18 | a selected option is removed everywhere; other values keep their counts |
| CheckboxGroup.ToggleFlipsMembership | src/components/atoms/CheckboxGroup.jsx:13-18 | after a click the option is selected iff it was not |
| CheckboxGroup.ToggleKeepsOthers | src/components/atoms/CheckboxGroup.jsx:13-18 | a click never changes how often another value occurs |
| CheckboxGroup.ToggleTwiceFromAbsent | src/components/atoms/CheckboxGroup.jsx:13-18 | two clicks on an unselected option restore the selection |
| CheckboxGroup.ToggleTwiceFromPresent | src/components/atoms/CheckboxGroup.jsx:13-18 | two clicks on a selected option remove all its copies and append one at the end |
| ReviewPage.JoinLength | src/components/organisms/ReviewPage.jsx:10-12 | a joined list has every item's characters and one separator between neighbours |
| ReviewPage.JoinSnoc | src/components/organisms/ReviewPage.jsx:10-12 | joining one more item appends the separator and the item |
| ReviewPage.FindOption | src/components/organisms/ReviewPage.jsx:14-14 | finds nothing iff no option has the value, otherwise the first option that has it |
| ReviewPage.BooleanFirst | src/components/organisms/ReviewPage.jsx:7-9 | a boolean shows as "Yes" or "No" for every question type |
| ReviewPage.ListJoined | src/components/organisms/ReviewPage.jsx:10-12 | a list shows comma-joined: empty for no values, the value itself for one, and one more value appends ", " and that value; the length is every value plus one separator between neighbours |
| ReviewPage.SelectShowsCaption | src/components/organisms/ReviewPage.jsx:13-16 | a select answer shows the first matching option's label when non-empty, and the raw value when no option matches or that label is empty; no answer is `undefined` |
| ReviewPage.OtherShowsRawValue | src/components/organisms/ReviewPage.jsx:17-17 | other text answers show verbatim when truthy and as "Not answered" when falsy |
| ReviewPage.NonSelectShowsString | src/components/organisms/ReviewPage.jsx:6-18 | a non-select question always shows a string: non-empty text verbatim, missing or empty text as "Not answered" |
| ReviewPage.CatalogAnswersShowRaw | src/components/organisms/ReviewPage.jsx:6-18 | every catalog question shows each answer as a string, and radio answers as their stored value, not their label |

## Left out

- The assessment date. `new Date().toISOString()` is the clock; it becomes the parameter `now`
  of `Assess`, `CalculateComplianceScore`, `Wizard.Submit` and `Wizard.Next`.
- Persistence and effects. The model leaves out saving to and restoring from `localStorage`,
  the auto-save timers, toasts and console logging, in both the wizard and the hook.
- The simulated two-second delay. The model also leaves out the submitting/loading flags
  around it; `Wizard.Submit` is modelled as completing at once.
- The hook's `submitAssessment` (src/hooks/useAssessment.js:101-119). It only waits, clears
  storage and shows a toast, so it has no state of the model to change.
- Floating point. Scores are exact rationals, and no rounding of `0.3` or `0.15` products is
  modelled.
- Progress figures. The wizard's `calculateProgress` and the review page's completion
  statistics and percentages are left out.
- Display-only components. The results dashboard and the rendering of every component are
  left out. The review page's "edit" links are modelled only as the step jump they trigger,
  `Wizard.EditStep`.
- Display text of the catalog. Question titles, help texts, placeholders and article
  references are not kept; option labels are kept.
- Gap and recommendation texts. They are kept as fixed messages named by constructors;
  `GapMessage` and `RecommendationMessage` give their exact text.
- The company profile. The scorer receives it and reads nothing from it, as in the code.
- AssessmentWizard.Wizard.Next: requires the current step to be before the results page. The
  navigation buttons that call `handleNext` render only then
  (src/components/organisms/AssessmentWizard.jsx:307).
- Answer values. The input components store strings (src/components/molecules/QuestionCard.jsx:22,
  src/components/atoms/RadioGroup.jsx:34), and the checkbox group stores string lists
  (src/components/atoms/CheckboxGroup.jsx:17). No component stores a boolean. The boolean case
  `Flag` exists only because `formatAnswer` tests for one (src/components/organisms/ReviewPage.jsx:7).
  Other JavaScript values are not modelled.

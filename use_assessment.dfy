/** The assessment hook: a second, simpler copy of the wizard's state
    machine. It validates only the company form, without checking the
    email's format, and moves forward without an upper bound. */
module UseAssessment {
  import opened Wrappers
  import opened Answers
  import opened FormState
  import opened ComplianceCalculator
  import AssessmentWizard

  const CompanyNameRequired := "Company name is required"
  const EmailRequired := "Contact email is required"
  const IndustryRequired := "Industry is required"

  /** The errors `validateStep(step)` finds: the three required company
      fields at step 0, nothing at any other step. */
  function HookErrors(step: nat, info: CompanyInfo): map<string, string>
  {
    if step != 0 then map[]
    else
      var e1 := if BlankField(info, "companyName") then map["companyName" := CompanyNameRequired] else map[];
      var e2 := if BlankField(info, "contactEmail") then e1["contactEmail" := EmailRequired] else e1;
      if MissingField(info, "industry") then e2["industry" := IndustryRequired] else e2
  }

  /** Every step after the company form validates, whatever the answers. */
  lemma LaterStepsAlwaysValid(step: nat, info: CompanyInfo)
    requires step != 0
    ensures HookErrors(step, info) == map[]
  {
  }

  /** Which field checks put which keys into the step 0 errors. */
  lemma HookErrorKeys(info: CompanyInfo)
    ensures var e := HookErrors(0, info);
      && e.Keys <= {"companyName", "industry", "contactEmail"}
      && ("companyName" in e <==> BlankField(info, "companyName"))
      && ("contactEmail" in e <==> BlankField(info, "contactEmail"))
      && ("industry" in e <==> MissingField(info, "industry"))
  {
    assert |"companyName"| == 11 && |"contactEmail"| == 12 && |"industry"| == 8;
  }

  /** Step 0 reports an error for the name and for the email exactly when
      it is missing or blank, and for the industry exactly when it is
      missing or empty; the email's format is not checked. */
  lemma HookCompanyErrors(info: CompanyInfo)
    ensures var e := HookErrors(0, info);
      && e.Keys <= {"companyName", "industry", "contactEmail"}
      && ("companyName" in e <==> "companyName" !in info || AllWhitespace(info["companyName"]))
      && ("contactEmail" in e <==> "contactEmail" !in info || AllWhitespace(info["contactEmail"]))
      && ("industry" in e <==> "industry" !in info || info["industry"] == "")
  {
    HookErrorKeys(info);
    if "companyName" in info { TrimEmptyIffBlank(info["companyName"]); }
    if "contactEmail" in info { TrimEmptyIffBlank(info["contactEmail"]); }
  }

  /** The hook accepts every company form the wizard accepts, and in
      addition exactly the forms whose only fault is a non-blank email that
      does not match `\S+@\S+\.\S+`. */
  lemma HookLaxerThanWizard(info: CompanyInfo, answers: AnswerMap)
    ensures AssessmentWizard.StepErrors(0, info, answers) == map[] ==> HookErrors(0, info) == map[]
    ensures (HookErrors(0, info) == map[] && AssessmentWizard.StepErrors(0, info, answers) != map[]) <==>
      (HookErrors(0, info) == map[] && "contactEmail" in info && !RegexTest(info["contactEmail"]))
  {
    HookCompanyErrors(info);
    AssessmentWizard.CompanyStepValid(info, answers);
    var e := HookErrors(0, info);
    if e != map[] {
      var k :| k in e;
    }
  }

  class AssessmentHook {
    var currentStep: nat
    var companyInfo: CompanyInfo
    var answers: AnswerMap
    var errors: ErrorMap

    constructor ()
      ensures currentStep == 0 && companyInfo == map[] && answers == map[] && errors == map[]
    {
      currentStep := 0;
      companyInfo := map[];
      answers := map[];
      errors := map[];
    }

    /** `validateStep`: replaces the error dictionary with the errors of
        `step` and reports whether there were none. */
    method ValidateStep(step: nat) returns (valid: bool)
      modifies this`errors
      ensures errors == AsErrors(HookErrors(step, companyInfo))
      ensures valid <==> HookErrors(step, companyInfo) == map[]
    {
      var newErrors: map<string, string> := map[];
      if step == 0 {
        if BlankField(companyInfo, "companyName") {
          newErrors := newErrors["companyName" := CompanyNameRequired];
        }
        if BlankField(companyInfo, "contactEmail") {
          newErrors := newErrors["contactEmail" := EmailRequired];
        }
        if MissingField(companyInfo, "industry") {
          newErrors := newErrors["industry" := IndustryRequired];
        }
      }
      errors := AsErrors(newErrors);
      valid := |newErrors| == 0;
    }

    /** `nextStep`: one step on exactly when the current step validates. */
    method NextStep()
      modifies this`errors, this`currentStep
      ensures errors == AsErrors(HookErrors(old(currentStep), companyInfo))
      ensures currentStep == if HookErrors(old(currentStep), companyInfo) == map[] then old(currentStep) + 1
                             else old(currentStep)
    {
      var valid := ValidateStep(currentStep);
      if valid {
        currentStep := currentStep + 1;
      }
    }

    /** `previousStep` */
    method PreviousStep()
      modifies this`currentStep
      ensures currentStep == Max(0, old(currentStep) - 1)
    {
      if currentStep > 0 {
        currentStep := currentStep - 1;
      }
    }

    /** `updateCompanyInfo`: sets one field and clears its error if it had
        one. */
    method UpdateCompanyInfo(field: string, value: string)
      modifies this`companyInfo, this`errors
      ensures companyInfo == old(companyInfo)[field := value]
      ensures errors == ClearError(old(errors), field)
    {
      companyInfo := companyInfo[field := value];
      if HasError(errors, field) {
        errors := errors[field := None];
      }
    }

    /** `updateAnswer`: sets one answer and clears its error if it had one. */
    method UpdateAnswer(questionId: string, value: Answer)
      modifies this`answers, this`errors
      ensures answers == old(answers)[questionId := value]
      ensures errors == ClearError(old(errors), questionId)
    {
      answers := answers[questionId := value];
      if HasError(errors, questionId) {
        errors := errors[questionId := None];
      }
    }
  }
}

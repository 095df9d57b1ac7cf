/** The assessment wizard's step state machine. The steps are the company
    form (step 0), one step per catalog section, the review page and the
    results page. "Next" validates the current step; on the review page it
    also computes the results. The page state is one record, updated a
    field at a time by the event handlers. */
module AssessmentWizard {
  import opened Wrappers
  import opened Answers
  import opened FormState
  import opened Catalog
  import opened ComplianceCalculator

  /** `allSteps.length`: the company step, one step per section, review and
      results. */
  const TotalSteps: nat := 1 + |Sections| + 2

  /** The review page, the last step that shows the navigation buttons. */
  const ReviewStep: nat := TotalSteps - 2

  const ResultsStep: nat := TotalSteps - 1

  lemma StepLayout()
    ensures TotalSteps == 9 && ReviewStep == 7 && ResultsStep == 8
  {
  }

  const CompanyNameRequired := "Company name is required"
  const IndustryRequired := "Industry selection is required"
  const EmailRequired := "Contact email is required"
  const EmailInvalid := "Please enter a valid email address"
  const QuestionRequired := "This question is required"

  // ---------------------------------------------------------------------
  // Validation, as functions of the state

  /** The errors of the company form. */
  function CompanyErrors(info: CompanyInfo): map<string, string>
  {
    var e1 := if BlankField(info, "companyName") then map["companyName" := CompanyNameRequired] else map[];
    var e2 := if MissingField(info, "industry") then e1["industry" := IndustryRequired] else e1;
    if BlankField(info, "contactEmail") then e2["contactEmail" := EmailRequired]
    else if !LooksLikeEmail(info["contactEmail"]) then e2["contactEmail" := EmailInvalid]
    else e2
  }

  /** One error per question of `qs` that is required and has a falsy
      answer, added in order. */
  function RequiredMissing(qs: seq<Question>, answers: AnswerMap): map<string, string>
  {
    if qs == [] then map[]
    else
      var e := RequiredMissing(qs[..|qs| - 1], answers);
      var q := qs[|qs| - 1];
      if q.required && !Truthy(Lookup(answers, q.id)) then e[q.id := QuestionRequired] else e
  }

  /** The errors `validateCurrentStep` finds at `step`: the company form at
      step 0, the questions of section `step - 1` up to the last section,
      and none on the review and results pages. */
  function StepErrors(step: nat, info: CompanyInfo, answers: AnswerMap): map<string, string>
  {
    if step == 0 then CompanyErrors(info)
    else if step < ReviewStep then RequiredMissing(Sections[step - 1].questions, answers)
    else map[]
  }

  /** The company-form checks of `validateCurrentStep`. */
  method CollectCompanyErrors(companyInfo: CompanyInfo) returns (newErrors: map<string, string>)
    ensures newErrors == CompanyErrors(companyInfo)
  {
    newErrors := map[];
    if BlankField(companyInfo, "companyName") {
      newErrors := newErrors["companyName" := CompanyNameRequired];
    }
    if MissingField(companyInfo, "industry") {
      newErrors := newErrors["industry" := IndustryRequired];
    }
    if BlankField(companyInfo, "contactEmail") {
      newErrors := newErrors["contactEmail" := EmailRequired];
    } else if !LooksLikeEmail(companyInfo["contactEmail"]) {
      newErrors := newErrors["contactEmail" := EmailInvalid];
    }
  }

  /** The `section.questions.forEach` loop of `validateCurrentStep`. */
  method CollectRequiredErrors(questions: seq<Question>, answers: AnswerMap) returns (newErrors: map<string, string>)
    ensures newErrors == RequiredMissing(questions, answers)
  {
    newErrors := map[];
    for i := 0 to |questions|
      invariant newErrors == RequiredMissing(questions[..i], answers)
    {
      var question := questions[i];
      if question.required && !Truthy(Lookup(answers, question.id)) {
        newErrors := newErrors[question.id := QuestionRequired];
      }
      assert questions[..i + 1][..i] == questions[..i];
    }
    assert questions[..|questions|] == questions;
  }

  lemma {:induction false} RequiredMissingKeys(qs: seq<Question>, answers: AnswerMap)
    ensures forall id :: id in RequiredMissing(qs, answers) <==>
      exists q :: q in qs && q.id == id && q.required && !Truthy(Lookup(answers, id))
    ensures forall id :: id in RequiredMissing(qs, answers) ==> RequiredMissing(qs, answers)[id] == QuestionRequired
  {
    if qs != [] {
      var init := qs[..|qs| - 1];
      RequiredMissingKeys(init, answers);
      assert qs == init + [qs[|qs| - 1]];
      forall id | id in RequiredMissing(qs, answers)
        ensures exists q :: q in qs && q.id == id && q.required && !Truthy(Lookup(answers, id))
      {
        if id !in RequiredMissing(init, answers) {
          assert qs[|qs| - 1] in qs;
        } else {
          var q :| q in init && q.id == id && q.required && !Truthy(Lookup(answers, id));
          assert q in qs;
        }
      }
      forall id | exists q :: q in qs && q.id == id && q.required && !Truthy(Lookup(answers, id))
        ensures id in RequiredMissing(qs, answers)
      {
        var q :| q in qs && q.id == id && q.required && !Truthy(Lookup(answers, id));
        if q != qs[|qs| - 1] {
          assert q in init;
        }
      }
    }
  }

  /** Step 0 reports errors for the company name, the industry and the
      contact email only: for the name exactly when it is missing or blank,
      for the industry exactly when it is missing or empty. */
  lemma CompanyStepErrors(info: CompanyInfo, answers: AnswerMap)
    ensures var e := StepErrors(0, info, answers);
      && e.Keys <= {"companyName", "industry", "contactEmail"}
      && ("companyName" in e <==> "companyName" !in info || AllWhitespace(info["companyName"]))
      && ("industry" in e <==> "industry" !in info || info["industry"] == "")
  {
    CompanyErrorKeys(info);
    if "companyName" in info { TrimEmptyIffBlank(info["companyName"]); }
  }

  /** Which field check puts which key into the company errors. */
  lemma CompanyErrorKeys(info: CompanyInfo)
    ensures var e := CompanyErrors(info);
      && e.Keys <= {"companyName", "industry", "contactEmail"}
      && ("companyName" in e <==> BlankField(info, "companyName"))
      && ("industry" in e <==> MissingField(info, "industry"))
  {
    assert "contactEmail"[2] != "companyName"[2] && |"contactEmail"| != |"industry"|;
    assert |"companyName"| != |"industry"|;
  }

  /** Where the email error of the company form comes from. */
  lemma CompanyEmailError(info: CompanyInfo)
    ensures "contactEmail" in CompanyErrors(info) <==>
      BlankField(info, "contactEmail") || !LooksLikeEmail(info["contactEmail"])
    ensures !BlankField(info, "contactEmail") && "contactEmail" in CompanyErrors(info) ==>
      CompanyErrors(info)["contactEmail"] == EmailInvalid
  {
    assert "contactEmail"[2] != "companyName"[2] && |"contactEmail"| != |"industry"|;
  }

  /** Step 0 reports an error for the contact email exactly when it is
      missing, blank or not matched by `\S+@\S+\.\S+`; a non-blank
      address gets the format message. */
  lemma EmailStepError(info: CompanyInfo, answers: AnswerMap)
    ensures var e := StepErrors(0, info, answers);
      && ("contactEmail" in e <==>
            ("contactEmail" !in info || AllWhitespace(info["contactEmail"]) || !RegexTest(info["contactEmail"])))
      && (("contactEmail" in e && "contactEmail" in info && !AllWhitespace(info["contactEmail"]))
            ==> e["contactEmail"] == EmailInvalid)
  {
    CompanyEmailError(info);
    if "contactEmail" in info {
      TrimEmptyIffBlank(info["contactEmail"]);
      LooksLikeEmailIsRegexTest(info["contactEmail"]);
    }
  }

  /** Step 0 passes exactly when the name is not blank, the industry is
      chosen and the email is not blank and matches the pattern. */
  lemma CompanyStepValid(info: CompanyInfo, answers: AnswerMap)
    ensures StepErrors(0, info, answers) == map[] <==>
      && "companyName" in info && !AllWhitespace(info["companyName"])
      && "industry" in info && info["industry"] != ""
      && "contactEmail" in info && !AllWhitespace(info["contactEmail"]) && RegexTest(info["contactEmail"])
  {
    CompanyStepErrors(info, answers);
    EmailStepError(info, answers);
    var e := StepErrors(0, info, answers);
    if e != map[] {
      var k :| k in e;
    }
  }

  /** At a question step the errors are keyed by exactly the required
      questions of that section whose answer is falsy. */
  lemma QuestionStepErrors(step: nat, info: CompanyInfo, answers: AnswerMap)
    requires 1 <= step < ReviewStep
    ensures forall id :: id in StepErrors(step, info, answers) <==>
      exists q :: q in Sections[step - 1].questions && q.id == id && q.required && !Truthy(Lookup(answers, id))
    ensures forall id :: id in StepErrors(step, info, answers) ==> StepErrors(step, info, answers)[id] == QuestionRequired
  {
    RequiredMissingKeys(Sections[step - 1].questions, answers);
  }

  /** Answering a question with a truthy value removes it from its step's
      errors and leaves every other question's error as it was. An empty
      checkbox selection is truthy, so it satisfies a required question. */
  lemma AnsweringClearsStepError(step: nat, info: CompanyInfo, answers: AnswerMap, id: string, v: Answer)
    requires 1 <= step < ReviewStep && Truthy(Some(v))
    ensures id !in StepErrors(step, info, answers[id := v])
    ensures forall other :: other != id ==>
      (other in StepErrors(step, info, answers[id := v]) <==> other in StepErrors(step, info, answers))
  {
    QuestionStepErrors(step, info, answers);
    QuestionStepErrors(step, info, answers[id := v]);
    forall other | other != id
      ensures Lookup(answers[id := v], other) == Lookup(answers, other)
    {
    }
  }

  /** The review and results pages always validate. */
  lemma LaterStepsValid(step: nat, info: CompanyInfo, answers: AnswerMap)
    requires step >= ReviewStep
    ensures StepErrors(step, info, answers) == map[]
  {
  }

  /** Where "Next" leads from `step` once validation passes. */
  function NextStep(step: nat): nat
  {
    if step == ReviewStep then ResultsStep else step + 1
  }

  /** `getNextButtonText` */
  function NextButtonText(step: nat): string
  {
    if step == ReviewStep - 1 then "Review Assessment"
    else if step == ReviewStep then "Submit Assessment"
    else "Next"
  }

  /** The button announces the transition: "Review Assessment" exactly when
      Next leads to the review page, "Submit Assessment" exactly when Next
      computes the results. */
  lemma ButtonTextNamesTransition(step: nat)
    requires step < ResultsStep
    ensures NextButtonText(step) == "Review Assessment" <==> NextStep(step) == ReviewStep
    ensures NextButtonText(step) == "Submit Assessment" <==> NextStep(step) == ResultsStep
    ensures NextButtonText(step) == "Next" <==> NextStep(step) < ReviewStep
  {
  }

  /** Whether the help text of `id` shows: `helpVisibility[id]` is truthy. */
  predicate Shown(help: map<string, bool>, id: string)
  {
    id in help && help[id]
  }

  /** `{...prev, [id]: !prev[id]}` */
  function Toggled(help: map<string, bool>, id: string): (r: map<string, bool>)
    ensures Shown(r, id) <==> !Shown(help, id)
    ensures r.Keys == help.Keys + {id}
    ensures forall other :: other in help && other != id ==> r[other] == help[other]
  {
    help[id := !Shown(help, id)]
  }

  lemma ToggleTwice(help: map<string, bool>, id: string)
    ensures Shown(Toggled(Toggled(help, id), id), id) == Shown(help, id)
    ensures forall other :: other != id ==> (Shown(Toggled(Toggled(help, id), id), other) <==> Shown(help, other))
  {
  }

  // ---------------------------------------------------------------------
  // The page state and its event handlers

  class Wizard {
    var currentStep: nat
    var companyInfo: CompanyInfo
    var answers: AnswerMap
    var errors: ErrorMap
    var helpVisibility: map<string, bool>
    var results: Option<Assessment>

    /** The navigation buttons are shown up to the review page; the results
        page has none. */
    predicate Valid()
      reads this
    {
      currentStep <= ResultsStep
    }

    constructor ()
      ensures Valid()
      ensures currentStep == 0 && companyInfo == map[] && answers == map[]
      ensures errors == map[] && helpVisibility == map[] && results == None
    {
      currentStep := 0;
      companyInfo := map[];
      answers := map[];
      errors := map[];
      helpVisibility := map[];
      results := None;
    }

    /** `validateCurrentStep`: replaces the error dictionary with the errors
        of the current step and reports whether there were none. */
    method ValidateCurrentStep() returns (valid: bool)
      requires Valid()
      modifies this`errors
      ensures Valid()
      ensures errors == AsErrors(StepErrors(currentStep, companyInfo, answers))
      ensures valid <==> StepErrors(currentStep, companyInfo, answers) == map[]
    {
      var newErrors: map<string, string> := map[];
      if currentStep == 0 {
        newErrors := CollectCompanyErrors(companyInfo);
      } else if currentStep < TotalSteps - 2 {
        newErrors := CollectRequiredErrors(Sections[currentStep - 1].questions, answers);
      }
      errors := AsErrors(newErrors);
      valid := |newErrors| == 0;
    }

    /** `handleSubmit`, without its simulated delay: computes the results
        and moves to the results page. */
    method Submit(now: string)
      requires Valid()
      modifies this`results, this`currentStep
      ensures Valid()
      ensures results == Some(Assess(answers, now))
      ensures currentStep == ResultsStep
    {
      var complianceResults := CalculateComplianceScore(companyInfo, answers, now);
      results := Some(complianceResults);
      currentStep := TotalSteps - 1;
    }

    /** `handleNext`: validates; on success moves one step on, or submits
        from the review page. A failed validation keeps the step. */
    method Next(now: string)
      requires Valid() && currentStep < ResultsStep
      modifies this
      ensures Valid()
      ensures errors == AsErrors(StepErrors(old(currentStep), old(companyInfo), old(answers)))
      ensures companyInfo == old(companyInfo) && answers == old(answers) && helpVisibility == old(helpVisibility)
      ensures StepErrors(old(currentStep), companyInfo, answers) != map[] ==>
        currentStep == old(currentStep) && results == old(results)
      ensures StepErrors(old(currentStep), companyInfo, answers) == map[] ==>
        currentStep == NextStep(old(currentStep))
      ensures StepErrors(old(currentStep), companyInfo, answers) == map[] && old(currentStep) < ReviewStep ==>
        results == old(results)
      ensures StepErrors(old(currentStep), companyInfo, answers) == map[] && old(currentStep) == ReviewStep ==>
        results == Some(Assess(answers, now))
    {
      var valid := ValidateCurrentStep();
      if valid {
        if currentStep == TotalSteps - 3 {
          currentStep := currentStep + 1;
        } else if currentStep == TotalSteps - 2 {
          Submit(now);
        } else {
          currentStep := currentStep + 1;
        }
      }
    }

    /** `handlePrevious` */
    method Previous()
      requires Valid()
      modifies this`currentStep
      ensures Valid()
      ensures currentStep == Max(0, old(currentStep) - 1)
    {
      if currentStep > 0 {
        currentStep := currentStep - 1;
      }
    }

    /** The review page's `onEdit(step)`: jumps straight to `step` (the
        company form or a section) without validating anything. */
    method EditStep(step: nat)
      requires Valid() && step <= ResultsStep
      modifies this`currentStep
      ensures Valid()
      ensures currentStep == step
    {
      currentStep := step;
    }

    /** `handleAnswerChange`: sets one answer and clears that question's
        error if it had one. */
    method AnswerChange(questionId: string, value: Answer)
      requires Valid()
      modifies this`answers, this`errors
      ensures Valid()
      ensures answers == old(answers)[questionId := value]
      ensures errors == ClearError(old(errors), questionId)
    {
      answers := answers[questionId := value];
      if HasError(errors, questionId) {
        errors := errors[questionId := None];
      }
    }

    /** `handleCompanyInfoChange`: sets one field and clears its error if it
        had one. */
    method CompanyInfoChange(field: string, value: string)
      requires Valid()
      modifies this`companyInfo, this`errors
      ensures Valid()
      ensures companyInfo == old(companyInfo)[field := value]
      ensures errors == ClearError(old(errors), field)
    {
      companyInfo := companyInfo[field := value];
      if HasError(errors, field) {
        errors := errors[field := None];
      }
    }

    /** `toggleHelp` */
    method ToggleHelp(questionId: string)
      requires Valid()
      modifies this`helpVisibility
      ensures Valid()
      ensures helpVisibility == Toggled(old(helpVisibility), questionId)
    {
      helpVisibility := helpVisibility[questionId := !(questionId in helpVisibility && helpVisibility[questionId])];
    }
  }
}

/** The catalog and the scorer are versioned together: the scorer reads
    answers by literal question id and compares them with literal option
    values. These lemmas state that each id the scorer reads finds its
    catalog question, and which values those questions offer. */
module CatalogConsistency {
  import opened Wrappers
  import opened Answers
  import opened Catalog
  import opened ComplianceCalculator

  /** The four prohibited-practice questions the scorer reads (`ProhibitedQuestions`) are catalog questions. */
  lemma ProhibitedQuestionsInCatalog()
    ensures ProhibitedQuestions == ["Q16", "Q17", "Q18", "Q19"]
    ensures QuestionById("Q16") == Some(Q16)
    ensures QuestionById("Q17") == Some(Q17)
    ensures QuestionById("Q18") == Some(Q18)
    ensures QuestionById("Q19") == Some(Q19)
  {
    SectionsInCatalog();
    QuestionByIdOf(Q16);
    QuestionByIdOf(Q17);
    QuestionByIdOf(Q18);
    QuestionByIdOf(Q19);
  }

  /** The four Annex III questions the scorer reads (`HighRiskQuestions`) are catalog questions. */
  lemma HighRiskQuestionsInCatalog()
    ensures HighRiskQuestions == ["Q11", "Q12", "Q13", "Q14"]
    ensures QuestionById("Q11") == Some(Q11)
    ensures QuestionById("Q12") == Some(Q12)
    ensures QuestionById("Q13") == Some(Q13)
    ensures QuestionById("Q14") == Some(Q14)
  {
    SectionsInCatalog();
    QuestionByIdOf(Q11);
    QuestionByIdOf(Q12);
    QuestionByIdOf(Q13);
    QuestionByIdOf(Q14);
  }

  /** The two transparency triggers the scorer reads (`TransparencyQuestions`) are catalog questions. */
  lemma TransparencyQuestionsInCatalog()
    ensures TransparencyQuestions == ["Q1", "Q9"]
    ensures QuestionById("Q1") == Some(Q1)
    ensures QuestionById("Q9") == Some(Q9)
  {
    SectionsInCatalog();
    QuestionByIdOf(Q1);
    QuestionByIdOf(Q9);
  }

  /** The five requirement questions the scorer reads (`HighRiskRequirements`) are catalog questions. */
  lemma RequirementQuestionsInCatalog()
    ensures HighRiskRequirements == ["Q20", "Q21", "Q22", "Q23", "Q24"]
    ensures QuestionById("Q20") == Some(Q20)
    ensures QuestionById("Q21") == Some(Q21)
    ensures QuestionById("Q22") == Some(Q22)
    ensures QuestionById("Q23") == Some(Q23)
    ensures QuestionById("Q24") == Some(Q24)
  {
    SectionsInCatalog();
    QuestionByIdOf(Q20);
    QuestionByIdOf(Q21);
    QuestionByIdOf(Q22);
    QuestionByIdOf(Q23);
    QuestionByIdOf(Q24);
  }

  /** The eight governance questions the scorer reads (`GovernanceQuestions`) are catalog questions. */
  lemma GovernanceQuestionsInCatalog()
    ensures GovernanceQuestions == ["Q25", "Q26", "Q27", "Q28", "Q29", "Q30", "Q31", "Q32"]
    ensures QuestionById("Q25") == Some(Q25)
    ensures QuestionById("Q26") == Some(Q26)
    ensures QuestionById("Q27") == Some(Q27)
    ensures QuestionById("Q28") == Some(Q28)
    ensures QuestionById("Q29") == Some(Q29)
    ensures QuestionById("Q30") == Some(Q30)
    ensures QuestionById("Q31") == Some(Q31)
    ensures QuestionById("Q32") == Some(Q32)
  {
    SectionsInCatalog();
    QuestionByIdOf(Q25);
    QuestionByIdOf(Q26);
    QuestionByIdOf(Q27);
    QuestionByIdOf(Q28);
    QuestionByIdOf(Q29);
    QuestionByIdOf(Q30);
    QuestionByIdOf(Q31);
    QuestionByIdOf(Q32);
  }

  /** Q20, Q21, Q23 and Q24 offer "partial"; Q22 offers "unknown" in its
      place. */
  lemma RequirementOptions()
    ensures Values(Q20.options) == ["yes", "no", "partial"]
    ensures Values(Q21.options) == ["yes", "no", "partial"]
    ensures Values(Q22.options) == ["yes", "no", "unknown"]
    ensures Values(Q23.options) == ["yes", "no", "partial"]
    ensures Values(Q24.options) == ["yes", "no", "partial"]
    ensures "partial" !in Values(Q22.options)
  {
  }

  /** An answer to Q22 picked from its catalog options earns 0 or 20
      points, never the 10 of "partial": 20 exactly for "yes". */
  lemma Q22PointsFromCatalog(answers: AnswerMap)
    requires "Q22" in answers && answers["Q22"].Text? && answers["Q22"].s in Values(Q22.options)
    ensures RequirementPoints(answers, "Q22") in {0, 20}
    ensures RequirementPoints(answers, "Q22") == 20 <==> answers["Q22"] == Answer.Text("yes")
  {
    RequirementOptions();
  }

  /** Q9 is a free-text question with no options, so the Limited trigger
      through Q9 fires only when the typed text is exactly "yes". */
  lemma Q9IsFreeText()
    ensures QuestionById("Q9") == Some(Q9)
    ensures Q9.qtype == Textarea && Q9.options == []
  {
    TransparencyQuestionsInCatalog();
  }

  /** Q25 offers "complete", the value the scorer checks for, and not "yes". */
  lemma Q25Options()
    ensures Values(Q25.options) == ["complete", "partial", "missing"]
  {
  }

  /** Every catalog answer to Q25 earns its governance points and raises
      the documentation gap as its caption suggests: "complete" earns 12.5
      and no gap, "partial" 6.25, "missing" nothing. */
  lemma Q25PointsFromCatalog(answers: AnswerMap)
    requires "Q25" in answers && answers["Q25"].Text? && answers["Q25"].s in Values(Q25.options)
    ensures answers["Q25"].s == "complete" ==> GovernancePoints(answers, "Q25") == 12.5
    ensures answers["Q25"].s == "partial" ==> GovernancePoints(answers, "Q25") == 6.25
    ensures answers["Q25"].s == "missing" ==> GovernancePoints(answers, "Q25") == 0.0
    ensures Documentation in GovernanceGaps(answers, IsHighRisk(answers)) <==> answers["Q25"].s != "complete"
  {
    Q25Options();
  }

  /** Each trigger question offers exactly "yes" and "no": the prohibited
      practices Q16-Q19, the Annex III questions Q11-Q14 and the
      transparency question Q1. */
  lemma TriggersOfferYesNo()
    ensures Values(Q16.options) == ["yes", "no"] && Values(Q17.options) == ["yes", "no"]
    ensures Values(Q18.options) == ["yes", "no"] && Values(Q19.options) == ["yes", "no"]
    ensures Values(Q11.options) == ["yes", "no"] && Values(Q12.options) == ["yes", "no"]
    ensures Values(Q13.options) == ["yes", "no"] && Values(Q14.options) == ["yes", "no"]
    ensures Values(Q1.options) == ["yes", "no"]
  {
  }
}

/** Properties of the scorer stated in terms of the questions themselves:
    the prohibited gate, the tier rules, the scoring formula as counts of
    answers, and the shape of the two message lists. */
module ComplianceProperties {
  import opened Answers
  import opened Sequences
  import opened ComplianceCalculator
  import opened ComplianceOrder

  // ---------------------------------------------------------------------
  // Triggers

  /** The prohibited gate fires exactly when one of Q16, ..., Q19 is "yes". */
  lemma ProhibitedGate(answers: AnswerMap)
    ensures IsProhibited(answers)
      <==> (Is(answers, "Q16", "yes") || Is(answers, "Q17", "yes")
         || Is(answers, "Q18", "yes") || Is(answers, "Q19", "yes"))
  {
    AnyYesCons(answers, "Q16", ["Q17", "Q18", "Q19"]);
    AnyYesCons(answers, "Q17", ["Q18", "Q19"]);
    AnyYesCons(answers, "Q18", ["Q19"]);
    AnyYesCons(answers, "Q19", []);
    assert ProhibitedQuestions == ["Q16"] + ["Q17", "Q18", "Q19"];
    assert ["Q17", "Q18", "Q19"] == ["Q17"] + ["Q18", "Q19"];
    assert ["Q18", "Q19"] == ["Q18"] + ["Q19"];
    assert ["Q19"] == ["Q19"] + [];
  }

  /** The high-risk trigger fires exactly when one of Q11, ..., Q14 is "yes". */
  lemma HighRiskTrigger(answers: AnswerMap)
    ensures IsHighRisk(answers)
      <==> (Is(answers, "Q11", "yes") || Is(answers, "Q12", "yes")
         || Is(answers, "Q13", "yes") || Is(answers, "Q14", "yes"))
  {
    AnyYesCons(answers, "Q11", ["Q12", "Q13", "Q14"]);
    AnyYesCons(answers, "Q12", ["Q13", "Q14"]);
    AnyYesCons(answers, "Q13", ["Q14"]);
    AnyYesCons(answers, "Q14", []);
    assert HighRiskQuestions == ["Q11"] + ["Q12", "Q13", "Q14"];
    assert ["Q12", "Q13", "Q14"] == ["Q12"] + ["Q13", "Q14"];
    assert ["Q13", "Q14"] == ["Q13"] + ["Q14"];
    assert ["Q14"] == ["Q14"] + [];
  }

  /** The transparency trigger fires exactly when Q1 or Q9 is "yes". */
  lemma TransparencyTrigger(answers: AnswerMap)
    ensures AnyYes(answers, TransparencyQuestions) <==> Is(answers, "Q1", "yes") || Is(answers, "Q9", "yes")
  {
    AnyYesCons(answers, "Q1", ["Q9"]);
    AnyYesCons(answers, "Q9", []);
    assert TransparencyQuestions == ["Q1"] + ["Q9"];
    assert ["Q9"] == ["Q9"] + [];
  }

  // ---------------------------------------------------------------------
  // Classification

  /** A "yes" to any prohibited-practice question decides the whole
      assessment, whatever the other answers are: class Prohibited, score 0,
      the cessation gap alone and the two legal recommendations in order. */
  lemma ProhibitedOverride(answers: AnswerMap, now: string)
    requires Is(answers, "Q16", "yes") || Is(answers, "Q17", "yes")
          || Is(answers, "Q18", "yes") || Is(answers, "Q19", "yes")
    ensures Assess(answers, now) == Assessment(0.0, Prohibited, [ProhibitedPractice], [Cease, Counsel], now)
  {
    ProhibitedGate(answers);
  }

  /** Past the gate, the class is High exactly when one of Q11, ..., Q14 is
      "yes"; otherwise Limited exactly when Q1 or Q9 is "yes"; otherwise
      Minimal. The four classes are distinct values, so exactly one holds. */
  lemma TierCharacterization(answers: AnswerMap, now: string)
    requires !(Is(answers, "Q16", "yes") || Is(answers, "Q17", "yes")
            || Is(answers, "Q18", "yes") || Is(answers, "Q19", "yes"))
    ensures var c := Assess(answers, now).riskClassification;
      var high := Is(answers, "Q11", "yes") || Is(answers, "Q12", "yes")
               || Is(answers, "Q13", "yes") || Is(answers, "Q14", "yes");
      var transparent := Is(answers, "Q1", "yes") || Is(answers, "Q9", "yes");
      && (c == High <==> high)
      && (c == Limited <==> !high && transparent)
      && (c == Minimal <==> !high && !transparent)
      && c != Prohibited
  {
    ProhibitedGate(answers);
    HighRiskTrigger(answers);
    TransparencyTrigger(answers);
  }

  // ---------------------------------------------------------------------
  // Scoring as counts of answers

  /** The questions of an id list answered with one of `values`. */
  function AnsweredIn(answers: AnswerMap, values: set<string>): string -> bool
  {
    id => id in answers && answers[id].Text? && answers[id].s in values
  }

  /** How many of `ids` are answered with one of `values`. */
  function CountAnswered(answers: AnswerMap, ids: seq<string>, values: set<string>): (n: nat)
    ensures n <= |ids|
  {
    |Filter(ids, AnsweredIn(answers, values))|
  }

  lemma {:induction false} CountAnsweredSnoc(answers: AnswerMap, ids: seq<string>, id: string, values: set<string>)
    ensures CountAnswered(answers, ids + [id], values)
      == CountAnswered(answers, ids, values) + (if AnsweredIn(answers, values)(id) then 1 else 0)
  {
    FilterAppend(ids, [id], AnsweredIn(answers, values));
    FilterOfOne(id, AnsweredIn(answers, values));
  }

  /** The requirement points are 20 per "yes" and 10 per "partial". */
  lemma {:induction false} RequirementTotalCounts(answers: AnswerMap, ids: seq<string>)
    ensures RequirementTotal(answers, ids)
      == 20 * CountAnswered(answers, ids, {"yes"}) + 10 * CountAnswered(answers, ids, {"partial"})
  {
    if ids != [] {
      var init, last := ids[..|ids| - 1], ids[|ids| - 1];
      RequirementTotalCounts(answers, init);
      assert ids == init + [last];
      CountAnsweredSnoc(answers, init, last, {"yes"});
      CountAnsweredSnoc(answers, init, last, {"partial"});
    }
  }

  /** The governance subtotal is 12.5 per "yes" or "complete" and 6.25 per
      "partial", "planned" or "progress". */
  lemma {:induction false} GovernanceTotalCounts(answers: AnswerMap, ids: seq<string>)
    ensures GovernanceTotal(answers, ids)
      == 12.5 * CountAnswered(answers, ids, {"yes", "complete"}) as real
       + 6.25 * CountAnswered(answers, ids, {"partial", "planned", "progress"}) as real
  {
    if ids != [] {
      var init, last := ids[..|ids| - 1], ids[|ids| - 1];
      GovernanceTotalCounts(answers, init);
      assert ids == init + [last];
      CountAnsweredSnoc(answers, init, last, {"yes", "complete"});
      CountAnsweredSnoc(answers, init, last, {"partial", "planned", "progress"});
    }
  }

  /** The governance subtotal over Q25, ..., Q32: 12.5 per "yes" or
      "complete" and 6.25 per "partial", "planned" or "progress". */
  function GovernanceSubtotal(answers: AnswerMap): real
  {
    12.5 * CountAnswered(answers, GovernanceQuestions, {"yes", "complete"}) as real
    + 6.25 * CountAnswered(answers, GovernanceQuestions, {"partial", "planned", "progress"}) as real
  }

  /** A High score: the larger of 20 and 20 per "yes" plus 10 per "partial"
      over Q20, ..., Q24, plus 0.3 of the governance subtotal, capped at 100. */
  lemma HighScoreFormula(answers: AnswerMap, now: string)
    requires !IsProhibited(answers) && IsHighRisk(answers)
    ensures Assess(answers, now).overallScore
      == Min(100.0, Max(20, 20 * CountAnswered(answers, HighRiskRequirements, {"yes"})
                          + 10 * CountAnswered(answers, HighRiskRequirements, {"partial"})) as real
                    + GovernanceSubtotal(answers) * 0.3)
  {
    RequirementTotalCounts(answers, HighRiskRequirements);
    GovernanceTotalCounts(answers, GovernanceQuestions);
  }

  /** A Limited score: 75 plus 0.15 of the governance subtotal, capped at 100. */
  lemma LimitedScoreFormula(answers: AnswerMap, now: string)
    requires !IsProhibited(answers) && !IsHighRisk(answers) && AnyYes(answers, TransparencyQuestions)
    ensures Assess(answers, now).overallScore == Min(100.0, 75.0 + GovernanceSubtotal(answers) * 0.15)
  {
    GovernanceTotalCounts(answers, GovernanceQuestions);
  }

  /** A Minimal score: 85 plus 0.15 of the governance subtotal, capped at 100. */
  lemma MinimalScoreFormula(answers: AnswerMap, now: string)
    requires !IsProhibited(answers) && !IsHighRisk(answers) && !AnyYes(answers, TransparencyQuestions)
    ensures Assess(answers, now).overallScore == Min(100.0, 85.0 + GovernanceSubtotal(answers) * 0.15)
  {
    GovernanceTotalCounts(answers, GovernanceQuestions);
  }

  /** The score lies in [20, 100] for High, [75, 90] for Limited and
      [85, 100] for Minimal, and is 0 for Prohibited. */
  lemma ScoreRanges(answers: AnswerMap, now: string)
    ensures var a := Assess(answers, now);
      && (a.riskClassification == Prohibited ==> a.overallScore == 0.0)
      && (a.riskClassification == High ==> 20.0 <= a.overallScore <= 100.0)
      && (a.riskClassification == Limited ==> 75.0 <= a.overallScore <= 90.0)
      && (a.riskClassification == Minimal ==> 85.0 <= a.overallScore <= 100.0)
  {
    if !IsProhibited(answers) {
      ScoreBounds(answers);
    }
  }

  // ---------------------------------------------------------------------
  // The message lists

  lemma EveryGapListed(g: Gap)
    ensures g in GapOrder
  {
    assert GapOrder == [ProhibitedPractice, RiskManagement, DataGovernance, Accuracy, HumanOversight,
                        EventLogging, Documentation, QualityManagement, LogRetention, Monitoring];
  }

  lemma EveryRecommendationListed(r: Recommendation)
    ensures r in RecommendationOrder
  {
    assert RecommendationOrder == [Cease, Counsel, RiskManagementSystem, DataGovernanceFramework,
      OversightByDesign, AutomaticLogging, ConformityAssessment, GapAnalysis, GovernanceTeam,
      LiteracyTraining, SupplierContracts, TechnicalDocumentation, MonitoringPlan,
      RegularMonitoring, FollowGuidance, EngageSpecialists];
  }

  /** A gap is reported exactly when its condition holds. */
  lemma GapMembership(answers: AnswerMap, now: string, g: Gap)
    ensures g in Assess(answers, now).criticalGaps <==> GapDue(answers, g)
  {
    GapsInCanonicalOrder(answers, now);
    EveryGapListed(g);
    FilterMembership(GapOrder, GapDueFor(answers), g);
  }

  /** A recommendation is made exactly when its condition holds at the
      reported score. */
  lemma RecommendationMembership(answers: AnswerMap, now: string, r: Recommendation)
    ensures r in Assess(answers, now).recommendations
      <==> RecommendationDue(answers, Assess(answers, now).overallScore, r)
  {
    RecommendationsInCanonicalOrder(answers, now);
    EveryRecommendationListed(r);
    FilterMembership(RecommendationOrder, RecommendationDueFor(answers, Assess(answers, now).overallScore), r);
  }

  /** A "partial" high-risk requirement earns its 10 points and still
      yields its gap. */
  lemma PartialStillGap(answers: AnswerMap, now: string)
    requires !IsProhibited(answers) && IsHighRisk(answers) && Is(answers, "Q20", "partial")
    ensures RequirementPoints(answers, "Q20") == 10
    ensures RiskManagement in Assess(answers, now).criticalGaps
  {
    GapMembership(answers, now, RiskManagement);
  }

  /** At most 3 gaps outside High (the prohibited verdict has 1) and at
      most 9 for High. */
  lemma GapCounts(answers: AnswerMap, now: string)
    ensures var a := Assess(answers, now);
      |a.criticalGaps| <= if a.riskClassification == High then 9 else 3
  {
  }

  /** Outside High the score is at least 75, so the two remediation
      recommendations are made only for High results. */
  lemma RemediationOnlyForHighRisk(answers: AnswerMap, now: string)
    ensures var a := Assess(answers, now);
      GapAnalysis in a.recommendations || GovernanceTeam in a.recommendations
      ==> a.riskClassification == High && a.overallScore < 60.0
  {
    RecommendationMembership(answers, now, GapAnalysis);
    RecommendationMembership(answers, now, GovernanceTeam);
    ScoreRanges(answers, now);
  }

  /** Outside Prohibited there are 3 to 7 recommendations, and 8 to 14 for High. */
  lemma RecommendationCounts(answers: AnswerMap, now: string)
    requires !IsProhibited(answers)
    ensures var a := Assess(answers, now);
      && (a.riskClassification == High ==> 8 <= |a.recommendations| <= 14)
      && (a.riskClassification != High ==> 3 <= |a.recommendations| <= 7)
  {
    ScoreBounds(answers);
  }

  /** Past the gate, no gap is reported exactly when technical
      documentation is complete, log retention and post-market monitoring
      are in place, and, for High, all five requirements and the quality
      management system are in place too. */
  lemma NoGapsIff(answers: AnswerMap, now: string)
    requires !IsProhibited(answers)
    ensures Assess(answers, now).criticalGaps == []
      <==> (&& Is(answers, "Q25", "complete") && Is(answers, "Q27", "yes") && Is(answers, "Q28", "yes")
            && (IsHighRisk(answers) ==>
                  && Is(answers, "Q20", "yes") && Is(answers, "Q21", "yes") && Is(answers, "Q22", "yes")
                  && Is(answers, "Q23", "yes") && Is(answers, "Q24", "yes") && Is(answers, "Q26", "yes")))
  {
    assert Assess(answers, now).criticalGaps == Gaps(answers);
    RequirementGapsInOrder(answers);
  }

  lemma {:induction false} GovernanceTotalUnanswered(answers: AnswerMap, ids: seq<string>)
    requires forall i :: 0 <= i < |ids| ==> ids[i] !in answers
    ensures GovernanceTotal(answers, ids) == 0.0
  {
    if ids != [] {
      GovernanceTotalUnanswered(answers, ids[..|ids| - 1]);
    }
  }

  /** Before any question is answered the system is Minimal at 85, with the
      documentation, log-retention and monitoring gaps and seven
      recommendations. */
  lemma UnansweredAssessment(now: string)
    ensures Assess(map[], now) == Assessment(85.0, Minimal, [Documentation, LogRetention, Monitoring],
      [LiteracyTraining, SupplierContracts, TechnicalDocumentation, MonitoringPlan,
       RegularMonitoring, FollowGuidance, EngageSpecialists], now)
  {
    var none: AnswerMap := map[];
    assert !IsProhibited(none) && !IsHighRisk(none) && !AnyYes(none, TransparencyQuestions);
    GovernanceTotalUnanswered(none, GovernanceQuestions);
    assert Score(none) == 85.0;
    assert Gaps(none) == [Documentation] + [] + [LogRetention] + [Monitoring];
    assert FollowUps(none) == [LiteracyTraining] + [SupplierContracts] + [TechnicalDocumentation] + [MonitoringPlan];
  }

  lemma {:induction false} RequirementTotalAllYes(answers: AnswerMap, ids: seq<string>)
    requires forall i :: 0 <= i < |ids| ==> Is(answers, ids[i], "yes")
    ensures RequirementTotal(answers, ids) == 20 * |ids|
  {
    if ids != [] {
      RequirementTotalAllYes(answers, ids[..|ids| - 1]);
    }
  }

  lemma {:induction false} GovernanceTotalAllInPlace(answers: AnswerMap, ids: seq<string>)
    requires forall i :: 0 <= i < |ids| ==> Is(answers, ids[i], "yes") || Is(answers, ids[i], "complete")
    ensures GovernanceTotal(answers, ids) == 12.5 * |ids| as real
  {
    if ids != [] {
      GovernanceTotalAllInPlace(answers, ids[..|ids| - 1]);
    }
  }

  /** A High system with every requirement and every governance control in
      place (Q25 complete, Q26 to Q30 yes, Q31 and Q32 yes or complete)
      scores 100, has no gap, and gets only the five high-risk and the three
      standing recommendations. */
  lemma FullyCompliantHighRisk(answers: AnswerMap, now: string)
    requires !IsProhibited(answers) && IsHighRisk(answers)
    requires forall i :: 0 <= i < |HighRiskRequirements| ==> Is(answers, HighRiskRequirements[i], "yes")
    requires Is(answers, "Q25", "complete")
    requires forall i :: 1 <= i < 6 ==> Is(answers, GovernanceQuestions[i], "yes")
    requires Is(answers, "Q31", "yes") || Is(answers, "Q31", "complete")
    requires Is(answers, "Q32", "yes") || Is(answers, "Q32", "complete")
    ensures Assess(answers, now)
      == Assessment(100.0, High, [], HighRiskRecommendations + StandingRecommendations, now)
  {
    RequirementTotalAllYes(answers, HighRiskRequirements);
    assert GovernanceQuestions[6] == "Q31" && GovernanceQuestions[7] == "Q32";
    GovernanceTotalAllInPlace(answers, GovernanceQuestions);
    assert Score(answers) == 100.0;
    assert Is(answers, HighRiskRequirements[0], "yes") && Is(answers, HighRiskRequirements[1], "yes")
      && Is(answers, HighRiskRequirements[2], "yes") && Is(answers, HighRiskRequirements[3], "yes")
      && Is(answers, HighRiskRequirements[4], "yes");
    assert Is(answers, GovernanceQuestions[1], "yes") && Is(answers, GovernanceQuestions[2], "yes")
      && Is(answers, GovernanceQuestions[3], "yes") && Is(answers, GovernanceQuestions[4], "yes")
      && Is(answers, GovernanceQuestions[5], "yes");
    NoGapsIff(answers, now);
    assert FollowUps(answers) == [];
  }
}

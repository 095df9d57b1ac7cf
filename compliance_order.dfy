/** What the scorer promises about its two message lists, stated against an
    independent reference: for each gap and each recommendation, the
    condition under which it is due, and one fixed order for all of them.
    The lemmas show that every assessment lists exactly the due messages in
    that order, and derive the per-message, per-tier and count properties. */
module ComplianceOrder {
  import opened Answers
  import opened Sequences
  import opened ComplianceCalculator

  /** The governance gaps in the order the scorer checks them. */
  const GovernanceGapOrder: seq<Gap> := [Documentation, QualityManagement, LogRetention, Monitoring]

  /** Every gap in the order the scorer can emit them. */
  const GapOrder: seq<Gap> := [ProhibitedPractice] + RequirementGaps + GovernanceGapOrder

  /** The condition under which each gap is reported. */
  predicate GapDue(answers: AnswerMap, g: Gap)
  {
    match g
    case ProhibitedPractice => IsProhibited(answers)
    case RiskManagement => !IsProhibited(answers) && IsHighRisk(answers) && !Is(answers, "Q20", "yes")
    case DataGovernance => !IsProhibited(answers) && IsHighRisk(answers) && !Is(answers, "Q21", "yes")
    case Accuracy => !IsProhibited(answers) && IsHighRisk(answers) && !Is(answers, "Q22", "yes")
    case HumanOversight => !IsProhibited(answers) && IsHighRisk(answers) && !Is(answers, "Q23", "yes")
    case EventLogging => !IsProhibited(answers) && IsHighRisk(answers) && !Is(answers, "Q24", "yes")
    case Documentation => !IsProhibited(answers) && !Is(answers, "Q25", "complete")
    case QualityManagement => !IsProhibited(answers) && IsHighRisk(answers) && !Is(answers, "Q26", "yes")
    case LogRetention => !IsProhibited(answers) && !Is(answers, "Q27", "yes")
    case Monitoring => !IsProhibited(answers) && !Is(answers, "Q28", "yes")
  }

  /** The gaps of `gs` that are due, in the order of `gs`. */
  function DueGaps(answers: AnswerMap, gs: seq<Gap>): (r: seq<Gap>)
    ensures |r| <= |gs|
  {
    Filter(gs, GapDueFor(answers))
  }

  /** `GapDue` for one set of answers, as a filter condition. */
  function GapDueFor(answers: AnswerMap): Gap -> bool
  {
    g => GapDue(answers, g)
  }

  /** The follow-up recommendations in the order the scorer checks them. */
  const FollowUpOrder: seq<Recommendation> :=
    [LiteracyTraining, SupplierContracts, TechnicalDocumentation, MonitoringPlan]

  /** Every recommendation in the order the scorer can emit them. */
  const RecommendationOrder: seq<Recommendation> :=
    [Cease, Counsel]
    + (HighRiskRecommendations + (RemediationRecommendations + (FollowUpOrder + StandingRecommendations)))

  /** The condition under which each recommendation is made, given the
      score the assessment reports. */
  predicate RecommendationDue(answers: AnswerMap, score: real, r: Recommendation)
  {
    match r
    case Cease => IsProhibited(answers)
    case Counsel => IsProhibited(answers)
    case RiskManagementSystem => !IsProhibited(answers) && IsHighRisk(answers)
    case DataGovernanceFramework => !IsProhibited(answers) && IsHighRisk(answers)
    case OversightByDesign => !IsProhibited(answers) && IsHighRisk(answers)
    case AutomaticLogging => !IsProhibited(answers) && IsHighRisk(answers)
    case ConformityAssessment => !IsProhibited(answers) && IsHighRisk(answers)
    case GapAnalysis => !IsProhibited(answers) && score < 60.0
    case GovernanceTeam => !IsProhibited(answers) && score < 60.0
    case LiteracyTraining => !IsProhibited(answers) && !Is(answers, "Q29", "yes")
    case SupplierContracts => !IsProhibited(answers) && !Is(answers, "Q30", "yes")
    case TechnicalDocumentation => !IsProhibited(answers) && !Is(answers, "Q25", "complete")
    case MonitoringPlan => !IsProhibited(answers) && !Is(answers, "Q28", "yes")
    case RegularMonitoring => !IsProhibited(answers)
    case FollowGuidance => !IsProhibited(answers)
    case EngageSpecialists => !IsProhibited(answers)
  }

  /** The recommendations of `rs` that are due, in the order of `rs`. */
  function DueRecommendations(answers: AnswerMap, score: real, rs: seq<Recommendation>): (r: seq<Recommendation>)
    ensures |r| <= |rs|
  {
    Filter(rs, RecommendationDueFor(answers, score))
  }

  /** `RecommendationDue` for one set of answers and score, as a filter condition. */
  function RecommendationDueFor(answers: AnswerMap, score: real): Recommendation -> bool
  {
    x => RecommendationDue(answers, score, x)
  }

  // ---------------------------------------------------------------------
  // The gap list

  lemma DueRequirementGaps(answers: AnswerMap)
    ensures DueGaps(answers, RequirementGaps)
      == if !IsProhibited(answers) && IsHighRisk(answers)
         then MissingRequirements(answers, HighRiskRequirements, RequirementGaps) else []
  {
    var keep := GapDueFor(answers);
    var tier := !IsProhibited(answers) && IsHighRisk(answers);
    assert keep(RiskManagement) == (tier && !Is(answers, "Q20", "yes"));
    assert keep(DataGovernance) == (tier && !Is(answers, "Q21", "yes"));
    assert keep(Accuracy) == (tier && !Is(answers, "Q22", "yes"));
    assert keep(HumanOversight) == (tier && !Is(answers, "Q23", "yes"));
    assert keep(EventLogging) == (tier && !Is(answers, "Q24", "yes"));
    FilterOfFive(RiskManagement, DataGovernance, Accuracy, HumanOversight, EventLogging, keep);
    RequirementGapsInOrder(answers);
  }

  lemma DueGovernanceGaps(answers: AnswerMap)
    ensures DueGaps(answers, GovernanceGapOrder)
      == if IsProhibited(answers) then [] else GovernanceGaps(answers, IsHighRisk(answers))
  {
    var keep := GapDueFor(answers);
    assert keep(Documentation) == (!IsProhibited(answers) && !Is(answers, "Q25", "complete"));
    assert keep(QualityManagement) == (!IsProhibited(answers) && IsHighRisk(answers) && !Is(answers, "Q26", "yes"));
    assert keep(LogRetention) == (!IsProhibited(answers) && !Is(answers, "Q27", "yes"));
    assert keep(Monitoring) == (!IsProhibited(answers) && !Is(answers, "Q28", "yes"));
    FilterOfFour(Documentation, QualityManagement, LogRetention, Monitoring, keep);
    AppendNests4(Unless(Is(answers, "Q25", "complete"), Documentation),
      Unless(Is(answers, "Q26", "yes") || !IsHighRisk(answers), QualityManagement),
      Unless(Is(answers, "Q27", "yes"), LogRetention), Unless(Is(answers, "Q28", "yes"), Monitoring));
  }

  lemma DueGapsSplit(answers: AnswerMap)
    ensures DueGaps(answers, GapOrder)
      == Unless(!IsProhibited(answers), ProhibitedPractice)
       + DueGaps(answers, RequirementGaps) + DueGaps(answers, GovernanceGapOrder)
  {
    var keep := GapDueFor(answers);
    FilterAppend([ProhibitedPractice] + RequirementGaps, GovernanceGapOrder, keep);
    FilterAppend([ProhibitedPractice], RequirementGaps, keep);
    assert keep(ProhibitedPractice) == IsProhibited(answers);
    FilterOfOne(ProhibitedPractice, keep);
  }

  /** How the three blocks of `GapOrder` combine, whatever their contents. */
  lemma CombineGapBlocks(head: seq<Gap>, requirements: seq<Gap>, governance: seq<Gap>,
                         missing: seq<Gap>, emitted: seq<Gap>, prohibited: bool, highRisk: bool)
    requires head == Unless(!prohibited, ProhibitedPractice)
    requires requirements == if !prohibited && highRisk then missing else []
    requires governance == if prohibited then [] else emitted
    ensures head + requirements + governance
      == if prohibited then [ProhibitedPractice] else (if highRisk then missing else []) + emitted
  {
  }

  /** The lists of an assessment, stage by stage. */
  lemma AssessLists(answers: AnswerMap, now: string)
    ensures Assess(answers, now).criticalGaps
      == if IsProhibited(answers) then [ProhibitedPractice] else Gaps(answers)
    ensures Assess(answers, now).recommendations
      == if IsProhibited(answers) then [Cease, Counsel]
         else Recommendations(Assess(answers, now).overallScore, answers, IsHighRisk(answers))
  {
  }

  /** The critical gaps of every assessment are exactly the gaps that are
      due, in the fixed order of `GapOrder`. */
  lemma GapsInCanonicalOrder(answers: AnswerMap, now: string)
    ensures Assess(answers, now).criticalGaps == DueGaps(answers, GapOrder)
  {
    DueGapsSplit(answers);
    DueRequirementGaps(answers);
    DueGovernanceGaps(answers);
    CombineGapBlocks(Unless(!IsProhibited(answers), ProhibitedPractice),
      DueGaps(answers, RequirementGaps), DueGaps(answers, GovernanceGapOrder),
      MissingRequirements(answers, HighRiskRequirements, RequirementGaps),
      GovernanceGaps(answers, IsHighRisk(answers)), IsProhibited(answers), IsHighRisk(answers));
    AssessLists(answers, now);
  }

  // ---------------------------------------------------------------------
  // The recommendation list

  lemma DueProhibitedRecommendations(answers: AnswerMap, score: real)
    ensures DueRecommendations(answers, score, [Cease, Counsel])
      == if IsProhibited(answers) then [Cease, Counsel] else []
  {
    var keep := RecommendationDueFor(answers, score);
    assert keep(Cease) == keep(Counsel) == IsProhibited(answers);
    FilterUniform([Cease, Counsel], keep, IsProhibited(answers));
  }

  lemma DueHighRiskRecommendations(answers: AnswerMap, score: real)
    ensures DueRecommendations(answers, score, HighRiskRecommendations)
      == if !IsProhibited(answers) && IsHighRisk(answers) then HighRiskRecommendations else []
  {
    var keep := RecommendationDueFor(answers, score);
    var due := !IsProhibited(answers) && IsHighRisk(answers);
    assert keep(RiskManagementSystem) == keep(DataGovernanceFramework) == keep(OversightByDesign)
      == keep(AutomaticLogging) == keep(ConformityAssessment) == due;
    FilterUniform(HighRiskRecommendations, keep, due);
  }

  lemma DueRemediationRecommendations(answers: AnswerMap, score: real)
    ensures DueRecommendations(answers, score, RemediationRecommendations)
      == if !IsProhibited(answers) && score < 60.0 then RemediationRecommendations else []
  {
    var keep := RecommendationDueFor(answers, score);
    assert keep(GapAnalysis) == keep(GovernanceTeam) == (!IsProhibited(answers) && score < 60.0);
    FilterUniform(RemediationRecommendations, keep, !IsProhibited(answers) && score < 60.0);
  }

  lemma DueStandingRecommendations(answers: AnswerMap, score: real)
    ensures DueRecommendations(answers, score, StandingRecommendations)
      == if IsProhibited(answers) then [] else StandingRecommendations
  {
    var keep := RecommendationDueFor(answers, score);
    assert keep(RegularMonitoring) == keep(FollowGuidance) == keep(EngageSpecialists) == !IsProhibited(answers);
    FilterUniform(StandingRecommendations, keep, !IsProhibited(answers));
  }

  lemma DueFollowUps(answers: AnswerMap, score: real)
    ensures DueRecommendations(answers, score, FollowUpOrder)
      == if IsProhibited(answers) then [] else FollowUps(answers)
  {
    var keep := RecommendationDueFor(answers, score);
    assert keep(LiteracyTraining) == (!IsProhibited(answers) && !Is(answers, "Q29", "yes"));
    assert keep(SupplierContracts) == (!IsProhibited(answers) && !Is(answers, "Q30", "yes"));
    assert keep(TechnicalDocumentation) == (!IsProhibited(answers) && !Is(answers, "Q25", "complete"));
    assert keep(MonitoringPlan) == (!IsProhibited(answers) && !Is(answers, "Q28", "yes"));
    FilterOfFour(LiteracyTraining, SupplierContracts, TechnicalDocumentation, MonitoringPlan, keep);
    AppendNests4(Unless(Is(answers, "Q29", "yes"), LiteracyTraining),
      Unless(Is(answers, "Q30", "yes"), SupplierContracts),
      Unless(Is(answers, "Q25", "complete"), TechnicalDocumentation),
      Unless(Is(answers, "Q28", "yes"), MonitoringPlan));
  }

  /** How the five blocks of `RecommendationOrder` combine, whatever their contents. */
  lemma CombineRecommendationBlocks(head: seq<Recommendation>, highRiskBlock: seq<Recommendation>,
                                    remediation: seq<Recommendation>, followUps: seq<Recommendation>,
                                    standing: seq<Recommendation>, emitted: seq<Recommendation>,
                                    prohibited: bool, highRisk: bool, lowScore: bool)
    requires head == if prohibited then [Cease, Counsel] else []
    requires highRiskBlock == if !prohibited && highRisk then HighRiskRecommendations else []
    requires remediation == if !prohibited && lowScore then RemediationRecommendations else []
    requires followUps == if prohibited then [] else emitted
    requires standing == if prohibited then [] else StandingRecommendations
    ensures head + (highRiskBlock + (remediation + (followUps + standing)))
      == if prohibited then [Cease, Counsel]
         else ((if highRisk then HighRiskRecommendations else [])
            + (if lowScore then RemediationRecommendations else [])
            + emitted + StandingRecommendations)
  {
  }

  lemma DueRecommendationsSplit(answers: AnswerMap, score: real)
    ensures DueRecommendations(answers, score, RecommendationOrder)
      == if IsProhibited(answers) then [Cease, Counsel]
         else ((if IsHighRisk(answers) then HighRiskRecommendations else [])
            + (if score < 60.0 then RemediationRecommendations else [])
            + FollowUps(answers) + StandingRecommendations)
  {
    FilterOfFiveBlocks([Cease, Counsel], HighRiskRecommendations, RemediationRecommendations,
      FollowUpOrder, StandingRecommendations, RecommendationDueFor(answers, score));
    DueProhibitedRecommendations(answers, score);
    DueHighRiskRecommendations(answers, score);
    DueRemediationRecommendations(answers, score);
    DueFollowUps(answers, score);
    DueStandingRecommendations(answers, score);
    CombineRecommendationBlocks(DueRecommendations(answers, score, [Cease, Counsel]),
      DueRecommendations(answers, score, HighRiskRecommendations),
      DueRecommendations(answers, score, RemediationRecommendations),
      DueRecommendations(answers, score, FollowUpOrder),
      DueRecommendations(answers, score, StandingRecommendations),
      FollowUps(answers), IsProhibited(answers), IsHighRisk(answers), score < 60.0);
  }

  /** The recommendations of every assessment are exactly those that are
      due at its score, in the fixed order of `RecommendationOrder`. */
  lemma RecommendationsInCanonicalOrder(answers: AnswerMap, now: string)
    ensures Assess(answers, now).recommendations
      == DueRecommendations(answers, Assess(answers, now).overallScore, RecommendationOrder)
  {
    DueRecommendationsSplit(answers, Assess(answers, now).overallScore);
    AssessLists(answers, now);
  }
}

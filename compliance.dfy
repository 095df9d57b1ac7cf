/** The rule-based compliance scorer. From a map of questionnaire answers it
    derives a risk class, a score, an ordered list of critical gaps and an
    ordered list of recommendations, in fixed stages: the prohibited-practice
    gate, the risk tier, the base score, the governance bonus, the gaps and
    the recommendations.

    Gaps and recommendations are fixed messages; the model names each one by
    a constructor and `GapMessage` / `RecommendationMessage` give its text,
    which is distinct for distinct constructors.

    `Assess` is the specification of the whole computation, built from one
    function per stage; `CalculateComplianceScore` is the step-by-step
    computation the application runs, proved to return `Assess`. The lemmas
    after it state what the stages promise. */
module ComplianceCalculator {
  import opened Answers
  import opened Sequences

  datatype RiskClass = Prohibited | High | Limited | Minimal

  datatype Gap =
    | ProhibitedPractice
    | RiskManagement | DataGovernance | Accuracy | HumanOversight | EventLogging
    | Documentation | QualityManagement | LogRetention | Monitoring

  datatype Recommendation =
    | Cease | Counsel
    | RiskManagementSystem | DataGovernanceFramework | OversightByDesign | AutomaticLogging
    | ConformityAssessment
    | GapAnalysis | GovernanceTeam
    | LiteracyTraining | SupplierContracts | TechnicalDocumentation | MonitoringPlan
    | RegularMonitoring | FollowGuidance | EngageSpecialists

  datatype Assessment = Assessment(
    overallScore: real,
    riskClassification: RiskClass,
    criticalGaps: seq<Gap>,
    recommendations: seq<Recommendation>,
    assessmentDate: string)

  /** The company profile. The scorer receives it but reads none of it. */
  type CompanyInfo = map<string, string>

  function GapMessage(g: Gap): string
  {
    match g
    case ProhibitedPractice => "System engages in prohibited AI practices - immediate cessation required"
    case RiskManagement => "Risk management system not fully implemented"
    case DataGovernance => "Data governance measures insufficient for bias detection"
    case Accuracy => "Accuracy and robustness thresholds not met or measured"
    case HumanOversight => "Human oversight controls not properly integrated"
    case EventLogging => "Automatic event logging not comprehensive"
    case Documentation => "Technical documentation (Annex IV) incomplete"
    case QualityManagement => "Quality management system not certified"
    case LogRetention => "Log retention and risk event linking inadequate"
    case Monitoring => "Post-market monitoring plan not established"
  }

  function RecommendationMessage(r: Recommendation): string
  {
    match r
    case Cease => "Immediately cease prohibited practices and redesign system"
    case Counsel => "Consult with legal counsel regarding AI Act compliance"
    case RiskManagementSystem => "Implement comprehensive risk management system with regular reviews"
    case DataGovernanceFramework => "Establish data governance framework with bias detection capabilities"
    case OversightByDesign => "Design human oversight controls into user interface"
    case AutomaticLogging => "Implement automatic logging for all system events"
    case ConformityAssessment => "Prepare for third-party conformity assessment"
    case GapAnalysis => "Conduct immediate AI Act compliance gap analysis"
    case GovernanceTeam => "Establish AI governance team with defined roles and responsibilities"
    case LiteracyTraining => "Implement comprehensive AI literacy training program for all staff"
    case SupplierContracts => "Update supplier contracts to include AI Act compliance obligations"
    case TechnicalDocumentation => "Complete technical documentation following Annex IV requirements"
    case MonitoringPlan => "Develop post-market monitoring plan and implementation procedures"
    case RegularMonitoring => "Regular compliance monitoring and assessment updates"
    case FollowGuidance => "Stay updated with AI Act implementation guidance and standards"
    case EngageSpecialists => "Consider engaging AI Act compliance specialists for detailed review"
  }

  // The question ids each stage reads.
  const ProhibitedQuestions: seq<string> := ["Q16", "Q17", "Q18", "Q19"]
  const HighRiskQuestions: seq<string> := ["Q11", "Q12", "Q13", "Q14"]
  const TransparencyQuestions: seq<string> := ["Q1", "Q9"]
  const HighRiskRequirements: seq<string> := ["Q20", "Q21", "Q22", "Q23", "Q24"]
  const GovernanceQuestions: seq<string> := ["Q25", "Q26", "Q27", "Q28", "Q29", "Q30", "Q31", "Q32"]

  /** The gap reported for each of `HighRiskRequirements`, position by position. */
  const RequirementGaps: seq<Gap> := [RiskManagement, DataGovernance, Accuracy, HumanOversight, EventLogging]

  const HighRiskRecommendations: seq<Recommendation> :=
    [RiskManagementSystem, DataGovernanceFramework, OversightByDesign, AutomaticLogging, ConformityAssessment]
  const RemediationRecommendations: seq<Recommendation> := [GapAnalysis, GovernanceTeam]
  const StandingRecommendations: seq<Recommendation> := [RegularMonitoring, FollowGuidance, EngageSpecialists]

  function Max(a: int, b: int): int { if a < b then b else a }
  function Min(a: real, b: real): real { if a < b then a else b }

  // ---------------------------------------------------------------------
  // Specification, stage by stage

  /** Stage 1: some prohibited-practice question is answered "yes". */
  predicate IsProhibited(answers: AnswerMap)
  {
    AnyYes(answers, ProhibitedQuestions)
  }

  /** Stage 2: some high-risk trigger is answered "yes". */
  predicate IsHighRisk(answers: AnswerMap)
  {
    AnyYes(answers, HighRiskQuestions)
  }

  /** The tier of an answer set that passed the prohibited gate. */
  function Tier(answers: AnswerMap): RiskClass
  {
    if IsHighRisk(answers) then High
    else if AnyYes(answers, TransparencyQuestions) then Limited
    else Minimal
  }

  /** Points for one high-risk requirement: 20 for "yes", 10 for "partial". */
  function RequirementPoints(answers: AnswerMap, id: string): int
  {
    if Is(answers, id, "yes") then 20 else if Is(answers, id, "partial") then 10 else 0
  }

  /** The points of `ids`, summed from the first id on. */
  function RequirementTotal(answers: AnswerMap, ids: seq<string>): int
  {
    if ids == [] then 0
    else RequirementTotal(answers, ids[..|ids| - 1]) + RequirementPoints(answers, ids[|ids| - 1])
  }

  /** Points for one governance question: 12.5 for "yes" or "complete",
      6.25 for "partial", "planned" or "progress". */
  function GovernancePoints(answers: AnswerMap, id: string): real
  {
    if Is(answers, id, "yes") || Is(answers, id, "complete") then 12.5
    else if Is(answers, id, "partial") || Is(answers, id, "planned") || Is(answers, id, "progress") then 6.25
    else 0.0
  }

  function GovernanceTotal(answers: AnswerMap, ids: seq<string>): real
  {
    if ids == [] then 0.0
    else GovernanceTotal(answers, ids[..|ids| - 1]) + GovernancePoints(answers, ids[|ids| - 1])
  }

  /** Stage 3: the score before the governance bonus. */
  function BaseScore(answers: AnswerMap): real
  {
    match Tier(answers)
    case High => Max(20, RequirementTotal(answers, HighRiskRequirements)) as real
    case Limited => 75.0
    case _ => 85.0
  }

  /** Stage 4: the share of the governance subtotal added to the base. */
  function GovernanceWeight(tier: RiskClass): real
  {
    if tier == High then 0.3 else 0.15
  }

  function Score(answers: AnswerMap): real
  {
    Min(100.0, BaseScore(answers)
      + GovernanceTotal(answers, GovernanceQuestions) * GovernanceWeight(Tier(answers)))
  }

  /** The gap of each requirement in `ids` not answered exactly "yes", in order. */
  function MissingRequirements(answers: AnswerMap, ids: seq<string>, gaps: seq<Gap>): (r: seq<Gap>)
    requires |ids| == |gaps|
    ensures |r| <= |ids|
  {
    if ids == [] then []
    else
      Unless(Is(answers, ids[0], "yes"), gaps[0])
      + MissingRequirements(answers, ids[1..], gaps[1..])
  }

  /** The governance gaps; the quality-management gap only for high risk. */
  function GovernanceGaps(answers: AnswerMap, highRisk: bool): (r: seq<Gap>)
    ensures |r| <= if highRisk then 4 else 3
  {
    Unless(Is(answers, "Q25", "complete"), Documentation)
    + Unless(Is(answers, "Q26", "yes") || !highRisk, QualityManagement)
    + Unless(Is(answers, "Q27", "yes"), LogRetention)
    + Unless(Is(answers, "Q28", "yes"), Monitoring)
  }

  /** Stage 5: the gaps of a non-prohibited answer set, requirement gaps first. */
  function Gaps(answers: AnswerMap): seq<Gap>
  {
    (if IsHighRisk(answers) then MissingRequirements(answers, HighRiskRequirements, RequirementGaps) else [])
    + GovernanceGaps(answers, IsHighRisk(answers))
  }

  /** The recommendations tied to one governance control each. */
  function FollowUps(answers: AnswerMap): (r: seq<Recommendation>)
    ensures |r| <= 4
  {
    Unless(Is(answers, "Q29", "yes"), LiteracyTraining)
    + Unless(Is(answers, "Q30", "yes"), SupplierContracts)
    + Unless(Is(answers, "Q25", "complete"), TechnicalDocumentation)
    + Unless(Is(answers, "Q28", "yes"), MonitoringPlan)
  }

  /** Stage 6: the recommendations for a score and an answer set. */
  function Recommendations(score: real, answers: AnswerMap, highRisk: bool): (r: seq<Recommendation>)
    ensures 3 <= |r| <= 14
    ensures r[|r| - 3..] == StandingRecommendations
  {
    (if highRisk then HighRiskRecommendations else [])
    + (if score < 60.0 then RemediationRecommendations else [])
    + FollowUps(answers)
    + StandingRecommendations
  }

  /** The whole assessment of `answers`, dated `now`. */
  function Assess(answers: AnswerMap, now: string): (a: Assessment)
    ensures a.riskClassification == Prohibited <==> IsProhibited(answers)
    ensures 0.0 <= a.overallScore <= 100.0
    ensures a.assessmentDate == now
  {
    if IsProhibited(answers) then
      Assessment(0.0, Prohibited, [ProhibitedPractice], [Cease, Counsel], now)
    else
      (ScoreBounds(answers);
       Assessment(Score(answers), Tier(answers), Gaps(answers),
                  Recommendations(Score(answers), answers, IsHighRisk(answers)), now))
  }

  // ---------------------------------------------------------------------
  // The computation

  /** `calculateComplianceScore`: fills in the result record stage by stage. */
  method CalculateComplianceScore(companyInfo: CompanyInfo, answers: AnswerMap, now: string)
    returns (results: Assessment)
    ensures results == Assess(answers, now)
  {
    results := Assessment(0.0, Minimal, [], [], now);

    var hasProhibitedPractices := AnyYes(answers, ProhibitedQuestions);
    if hasProhibitedPractices {
      results := results.(riskClassification := Prohibited);
      results := results.(overallScore := 0.0);
      results := results.(criticalGaps := results.criticalGaps + [ProhibitedPractice]);
      results := results.(recommendations := results.recommendations + [Cease]);
      results := results.(recommendations := results.recommendations + [Counsel]);
      assert results == Assessment(0.0, Prohibited, [ProhibitedPractice], [Cease, Counsel], now);
      return;
    }

    var isHighRisk := AnyYes(answers, HighRiskQuestions);
    results := ClassifyRisk(results, answers, isHighRisk);

    var governanceScore := SumGovernancePoints(answers);
    if results.riskClassification == High {
      results := results.(overallScore := Min(100.0, results.overallScore + governanceScore * 0.3));
    } else {
      results := results.(overallScore := Min(100.0, results.overallScore + governanceScore * 0.15));
    }

    assert results.overallScore == Score(answers);
    var gaps := AddGovernanceGaps(results.criticalGaps, answers, isHighRisk);
    results := results.(criticalGaps := gaps);
    assert results.criticalGaps == Gaps(answers);

    var recommendations := GenerateRecommendations(results, answers, isHighRisk);
    results := results.(recommendations := recommendations);
    assert results == Assessment(Score(answers), Tier(answers), Gaps(answers),
                                 Recommendations(Score(answers), answers, IsHighRisk(answers)), now);
  }

  /** Stages 2 and 3 of `calculateComplianceScore`: the tier, the base
      score and, for high risk, the requirement gaps. */
  method ClassifyRisk(results: Assessment, answers: AnswerMap, isHighRisk: bool) returns (r: Assessment)
    requires isHighRisk == IsHighRisk(answers)
    ensures r == results.(riskClassification := Tier(answers), overallScore := BaseScore(answers),
      criticalGaps := results.criticalGaps
        + if isHighRisk then MissingRequirements(answers, HighRiskRequirements, RequirementGaps) else [])
  {
    r := results;
    if isHighRisk {
      r := r.(riskClassification := High);
      var highRiskScore := SumRequirementPoints(answers);
      r := r.(overallScore := Max(20, highRiskScore) as real);
      var gaps := AddRequirementGaps(r.criticalGaps, answers);
      r := r.(criticalGaps := gaps);
    } else {
      var hasTransparencyNeeds := AnyYes(answers, TransparencyQuestions);
      if hasTransparencyNeeds {
        r := r.(riskClassification := Limited);
        r := r.(overallScore := 75.0);
      } else {
        r := r.(riskClassification := Minimal);
        r := r.(overallScore := 85.0);
      }
      assert results.criticalGaps + [] == results.criticalGaps;
    }
  }

  /** The `forEach` over the high-risk requirements. */
  method SumRequirementPoints(answers: AnswerMap) returns (highRiskScore: int)
    ensures highRiskScore == RequirementTotal(answers, HighRiskRequirements)
  {
    highRiskScore := 0;
    for i := 0 to |HighRiskRequirements|
      invariant highRiskScore == RequirementTotal(answers, HighRiskRequirements[..i])
    {
      var qId := HighRiskRequirements[i];
      if Is(answers, qId, "yes") {
        highRiskScore := highRiskScore + 20;
      } else if Is(answers, qId, "partial") {
        highRiskScore := highRiskScore + 10;
      }
      assert HighRiskRequirements[..i + 1][..i] == HighRiskRequirements[..i];
    }
    assert HighRiskRequirements[..|HighRiskRequirements|] == HighRiskRequirements;
  }

  /** The `forEach` over the governance questions. */
  method SumGovernancePoints(answers: AnswerMap) returns (governanceScore: real)
    ensures governanceScore == GovernanceTotal(answers, GovernanceQuestions)
  {
    governanceScore := 0.0;
    for i := 0 to |GovernanceQuestions|
      invariant governanceScore == GovernanceTotal(answers, GovernanceQuestions[..i])
    {
      var qId := GovernanceQuestions[i];
      if Is(answers, qId, "yes") || Is(answers, qId, "complete") {
        governanceScore := governanceScore + 12.5;
      } else if Is(answers, qId, "partial") || Is(answers, qId, "planned") || Is(answers, qId, "progress") {
        governanceScore := governanceScore + 6.25;
      }
      assert GovernanceQuestions[..i + 1][..i] == GovernanceQuestions[..i];
    }
    assert GovernanceQuestions[..|GovernanceQuestions|] == GovernanceQuestions;
  }

  /** The five `if`s of the high-risk branch that push a requirement gap. */
  method AddRequirementGaps(criticalGaps: seq<Gap>, answers: AnswerMap) returns (r: seq<Gap>)
    ensures r == criticalGaps + MissingRequirements(answers, HighRiskRequirements, RequirementGaps)
  {
    r := criticalGaps;
    if !Is(answers, "Q20", "yes") {
      r := r + [RiskManagement];
    }
    ghost var expected := criticalGaps + Unless(Is(answers, "Q20", "yes"), RiskManagement);
    assert r == expected;
    if !Is(answers, "Q21", "yes") {
      r := r + [DataGovernance];
    }
    expected := expected + Unless(Is(answers, "Q21", "yes"), DataGovernance);
    assert r == expected;
    if !Is(answers, "Q22", "yes") {
      r := r + [Accuracy];
    }
    expected := expected + Unless(Is(answers, "Q22", "yes"), Accuracy);
    assert r == expected;
    if !Is(answers, "Q23", "yes") {
      r := r + [HumanOversight];
    }
    expected := expected + Unless(Is(answers, "Q23", "yes"), HumanOversight);
    assert r == expected;
    if !Is(answers, "Q24", "yes") {
      r := r + [EventLogging];
    }
    RequirementGapsInOrder(answers);
    AppendAssociates5(criticalGaps, Unless(Is(answers, "Q20", "yes"), RiskManagement),
      Unless(Is(answers, "Q21", "yes"), DataGovernance), Unless(Is(answers, "Q22", "yes"), Accuracy),
      Unless(Is(answers, "Q23", "yes"), HumanOversight), Unless(Is(answers, "Q24", "yes"), EventLogging));
  }

  /** The four `if`s that push a governance gap. */
  method AddGovernanceGaps(criticalGaps: seq<Gap>, answers: AnswerMap, isHighRisk: bool)
    returns (r: seq<Gap>)
    ensures r == criticalGaps + GovernanceGaps(answers, isHighRisk)
  {
    r := criticalGaps;
    if !Is(answers, "Q25", "complete") {
      r := r + [Documentation];
    }
    ghost var expected := criticalGaps + Unless(Is(answers, "Q25", "complete"), Documentation);
    assert r == expected;
    if !Is(answers, "Q26", "yes") && isHighRisk {
      r := r + [QualityManagement];
    }
    expected := expected + Unless(Is(answers, "Q26", "yes") || !isHighRisk, QualityManagement);
    assert r == expected;
    if !Is(answers, "Q27", "yes") {
      r := r + [LogRetention];
    }
    expected := expected + Unless(Is(answers, "Q27", "yes"), LogRetention);
    assert r == expected;
    if !Is(answers, "Q28", "yes") {
      r := r + [Monitoring];
    }
    AppendAssociates4(criticalGaps, Unless(Is(answers, "Q25", "complete"), Documentation),
      Unless(Is(answers, "Q26", "yes") || !isHighRisk, QualityManagement),
      Unless(Is(answers, "Q27", "yes"), LogRetention), Unless(Is(answers, "Q28", "yes"), Monitoring));
  }

  /** `generateRecommendations`: pushes the recommendation blocks in order. */
  method GenerateRecommendations(results: Assessment, answers: AnswerMap, isHighRisk: bool)
    returns (recommendations: seq<Recommendation>)
    ensures recommendations == Recommendations(results.overallScore, answers, isHighRisk)
  {
    recommendations := [];
    if isHighRisk {
      recommendations := recommendations + [RiskManagementSystem];
      recommendations := recommendations + [DataGovernanceFramework];
      recommendations := recommendations + [OversightByDesign];
      recommendations := recommendations + [AutomaticLogging];
      recommendations := recommendations + [ConformityAssessment];
      assert recommendations == HighRiskRecommendations;
    }
    ghost var expected := if isHighRisk then HighRiskRecommendations else [];
    assert recommendations == expected;
    if results.overallScore < 60.0 {
      recommendations := recommendations + [GapAnalysis];
      recommendations := recommendations + [GovernanceTeam];
      assert recommendations == expected + RemediationRecommendations;
    }
    expected := expected + if results.overallScore < 60.0 then RemediationRecommendations else [];
    assert recommendations == expected;
    recommendations := AddFollowUps(recommendations, answers);
    assert recommendations == expected + FollowUps(answers);
    ghost var beforeStanding := recommendations;
    recommendations := recommendations + [RegularMonitoring];
    recommendations := recommendations + [FollowGuidance];
    recommendations := recommendations + [EngageSpecialists];
    assert recommendations == beforeStanding + StandingRecommendations;
  }

  /** The four `if`s of `generateRecommendations` that push a follow-up. */
  method AddFollowUps(recommendations: seq<Recommendation>, answers: AnswerMap)
    returns (r: seq<Recommendation>)
    ensures r == recommendations + FollowUps(answers)
  {
    r := recommendations;
    if !Is(answers, "Q29", "yes") {
      r := r + [LiteracyTraining];
    }
    ghost var expected := recommendations + Unless(Is(answers, "Q29", "yes"), LiteracyTraining);
    assert r == expected;
    if !Is(answers, "Q30", "yes") {
      r := r + [SupplierContracts];
    }
    expected := expected + Unless(Is(answers, "Q30", "yes"), SupplierContracts);
    assert r == expected;
    if !Is(answers, "Q25", "complete") {
      r := r + [TechnicalDocumentation];
    }
    expected := expected + Unless(Is(answers, "Q25", "complete"), TechnicalDocumentation);
    assert r == expected;
    if !Is(answers, "Q28", "yes") {
      r := r + [MonitoringPlan];
    }
    AppendAssociates4(recommendations, Unless(Is(answers, "Q29", "yes"), LiteracyTraining),
      Unless(Is(answers, "Q30", "yes"), SupplierContracts),
      Unless(Is(answers, "Q25", "complete"), TechnicalDocumentation),
      Unless(Is(answers, "Q28", "yes"), MonitoringPlan));
  }

  // ---------------------------------------------------------------------
  // Properties

  /** The requirement gaps are those of Q20, ..., Q24, each when that
      question is not answered exactly "yes", in that order. */
  lemma RequirementGapsInOrder(answers: AnswerMap)
    ensures MissingRequirements(answers, HighRiskRequirements, RequirementGaps)
      == Unless(Is(answers, "Q20", "yes"), RiskManagement)
       + (Unless(Is(answers, "Q21", "yes"), DataGovernance)
       + (Unless(Is(answers, "Q22", "yes"), Accuracy)
       + (Unless(Is(answers, "Q23", "yes"), HumanOversight)
       + Unless(Is(answers, "Q24", "yes"), EventLogging))))
  {
    var ids, gaps := HighRiskRequirements, RequirementGaps;
    assert ids[4..][1..] == [] && gaps[4..][1..] == [];
    assert MissingRequirements(answers, ids[4..], gaps[4..]) == Unless(Is(answers, "Q24", "yes"), EventLogging);
    assert ids[3..][1..] == ids[4..] && gaps[3..][1..] == gaps[4..];
    assert MissingRequirements(answers, ids[3..], gaps[3..])
      == Unless(Is(answers, "Q23", "yes"), HumanOversight) + MissingRequirements(answers, ids[4..], gaps[4..]);
    assert ids[2..][1..] == ids[3..] && gaps[2..][1..] == gaps[3..];
    assert MissingRequirements(answers, ids[2..], gaps[2..])
      == Unless(Is(answers, "Q22", "yes"), Accuracy) + MissingRequirements(answers, ids[3..], gaps[3..]);
    assert ids[1..][1..] == ids[2..] && gaps[1..][1..] == gaps[2..];
    assert MissingRequirements(answers, ids[1..], gaps[1..])
      == Unless(Is(answers, "Q21", "yes"), DataGovernance) + MissingRequirements(answers, ids[2..], gaps[2..]);
  }

  lemma {:induction false} RequirementTotalBounds(answers: AnswerMap, ids: seq<string>)
    ensures 0 <= RequirementTotal(answers, ids) <= 20 * |ids|
  {
    if ids != [] {
      RequirementTotalBounds(answers, ids[..|ids| - 1]);
    }
  }

  lemma {:induction false} GovernanceTotalBounds(answers: AnswerMap, ids: seq<string>)
    ensures 0.0 <= GovernanceTotal(answers, ids) <= 12.5 * |ids| as real
  {
    if ids != [] {
      GovernanceTotalBounds(answers, ids[..|ids| - 1]);
    }
  }

  /** The governance subtotal lies in [0, 100]; the final score lies in
      [20, 100] for High, [75, 90] for Limited and [85, 100] for Minimal. */
  lemma ScoreBounds(answers: AnswerMap)
    ensures 0.0 <= GovernanceTotal(answers, GovernanceQuestions) <= 100.0
    ensures Tier(answers) == High ==> 20.0 <= Score(answers) <= 100.0
    ensures Tier(answers) == Limited ==> 75.0 <= Score(answers) <= 90.0
    ensures Tier(answers) == Minimal ==> 85.0 <= Score(answers) <= 100.0
  {
    GovernanceTotalBounds(answers, GovernanceQuestions);
    RequirementTotalBounds(answers, HighRiskRequirements);
  }
}

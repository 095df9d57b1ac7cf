/** The static question catalog: six sections of questions, each with its
    id, input type, `required` flag and ordered option list. The scorer and
    the wizard refer to these questions by their literal ids, so the two are
    versioned together. Question titles, help texts, placeholders and article
    references are display text and are not part of this model. */
module Catalog {
  import opened Wrappers

  datatype QuestionType = Text | Email | Number | Textarea | Select | Radio | Checkbox

  /** One `{value, label}` entry of a choice question (`label` is a Dafny
      keyword, so the field is called `caption`). */
  datatype Choice = Choice(value: string, caption: string)

  datatype Question = Question(id: string, qtype: QuestionType, required: bool, options: seq<Choice>)

  /** The section's `type` tag, used for display styling only. */
  datatype SectionType = General | Risk | Prohibited

  datatype Section = Section(id: int, title: string, stype: SectionType, questions: seq<Question>)

  /** The questions of the catalog, one constant each, in catalog order. */
  const Q1: Question := Question("Q1", Radio, true, [
      Choice("yes", "Yes"),
      Choice("no", "No")
    ])
  const Q2: Question := Question("Q2", Checkbox, true, [
      Choice("provider", "Provider (developing/training the AI system)"),
      Choice("deployer", "Deployer (using the AI system for intended purpose)"),
      Choice("importer", "Importer (placing third-country AI system on EU market)"),
      Choice("distributor", "Distributor (making AI system available on market)")
    ])
  const Q3: Question := Question("Q3", Radio, true, [
      Choice("yes", "Yes"),
      Choice("no", "No")
    ])
  const Q4: Question := Question("Q4", Radio, false, [
      Choice("yes", "Yes"),
      Choice("no", "No")
    ])
  const Q5: Question := Question("Q5", Radio, false, [
      Choice("yes", "Yes"),
      Choice("no", "No")
    ])
  const Q6: Question := Question("Q6", Text, true, [])
  const Q7: Question := Question("Q7", Textarea, false, [])
  const Q8: Question := Question("Q8", Textarea, false, [])
  const Q9: Question := Question("Q9", Textarea, true, [])
  const Q10: Question := Question("Q10", Radio, true, [
      Choice("yes", "Yes - continues learning from new data"),
      Choice("no", "No - static model after deployment")
    ])
  const Q11: Question := Question("Q11", Radio, true, [
      Choice("yes", "Yes"),
      Choice("no", "No")
    ])
  const Q12: Question := Question("Q12", Radio, true, [
      Choice("yes", "Yes"),
      Choice("no", "No")
    ])
  const Q13: Question := Question("Q13", Radio, true, [
      Choice("yes", "Yes"),
      Choice("no", "No")
    ])
  const Q14: Question := Question("Q14", Radio, true, [
      Choice("yes", "Yes"),
      Choice("no", "No")
    ])
  const Q15: Question := Question("Q15", Radio, false, [
      Choice("yes", "Yes"),
      Choice("no", "No"),
      Choice("na", "Not Applicable")
    ])
  const Q16: Question := Question("Q16", Radio, true, [
      Choice("yes", "Yes"),
      Choice("no", "No")
    ])
  const Q17: Question := Question("Q17", Radio, true, [
      Choice("yes", "Yes"),
      Choice("no", "No")
    ])
  const Q18: Question := Question("Q18", Radio, true, [
      Choice("yes", "Yes"),
      Choice("no", "No")
    ])
  const Q19: Question := Question("Q19", Radio, true, [
      Choice("yes", "Yes"),
      Choice("no", "No")
    ])
  const Q20: Question := Question("Q20", Radio, true, [
      Choice("yes", "Yes - fully documented and iterative"),
      Choice("no", "No - not implemented"),
      Choice("partial", "Partial - some documentation exists")
    ])
  const Q21: Question := Question("Q21", Radio, true, [
      Choice("yes", "Yes - comprehensive bias detection"),
      Choice("no", "No - no bias detection measures"),
      Choice("partial", "Partial - some measures in place")
    ])
  const Q22: Question := Question("Q22", Radio, true, [
      Choice("yes", "Yes - meets all thresholds"),
      Choice("no", "No - doesn't meet thresholds"),
      Choice("unknown", "Unknown - not measured")
    ])
  const Q23: Question := Question("Q23", Radio, true, [
      Choice("yes", "Yes - built into interface"),
      Choice("no", "No - no oversight controls"),
      Choice("partial", "Partial - some controls exist")
    ])
  const Q24: Question := Question("Q24", Radio, true, [
      Choice("yes", "Yes - comprehensive logging"),
      Choice("no", "No - no logging"),
      Choice("partial", "Partial - some logging")
    ])
  const Q25: Question := Question("Q25", Radio, true, [
      Choice("complete", "Complete - all sections documented"),
      Choice("partial", "Partial - some sections complete"),
      Choice("missing", "Missing - not started")
    ])
  const Q26: Question := Question("Q26", Radio, true, [
      Choice("yes", "Yes - certified QMS in place"),
      Choice("no", "No - no QMS"),
      Choice("planned", "Planned - QMS in development")
    ])
  const Q27: Question := Question("Q27", Radio, true, [
      Choice("yes", "Yes - proper retention and linking"),
      Choice("no", "No - inadequate retention"),
      Choice("partial", "Partial - some retention measures")
    ])
  const Q28: Question := Question("Q28", Radio, true, [
      Choice("yes", "Yes - comprehensive plan in place"),
      Choice("no", "No - no monitoring plan"),
      Choice("planned", "Planned - under development")
    ])
  const Q29: Question := Question("Q29", Radio, true, [
      Choice("yes", "Yes - all staff trained"),
      Choice("no", "No - no training completed"),
      Choice("progress", "In Progress - training underway")
    ])
  const Q30: Question := Question("Q30", Radio, true, [
      Choice("yes", "Yes - contracts updated"),
      Choice("no", "No - no contractual obligations"),
      Choice("unknown", "Unknown - needs review")
    ])
  const Q31: Question := Question("Q31", Radio, true, [
      Choice("yes", "Yes - tested and documented"),
      Choice("no", "No - no testing"),
      Choice("na", "Not Applicable - no serious incidents")
    ])
  const Q32: Question := Question("Q32", Radio, true, [
      Choice("yes", "Yes - budget allocated"),
      Choice("no", "No - no budget allocation"),
      Choice("review", "Under Review - budget planning")
    ])

  /** Section 1: scope and applicability (Q1-Q5). */
  const ScopeSection: Section :=
    Section(1, "Scope & Applicability", General, [Q1, Q2, Q3, Q4, Q5])

  /** Section 2: the AI system inventory (Q6-Q10). */
  const InventorySection: Section :=
    Section(2, "AI System Inventory", General, [Q6, Q7, Q8, Q9, Q10])

  /** Section 3: risk classification, with the high-risk triggers Q11-Q14 (Q11-Q15). */
  const RiskSection: Section :=
    Section(3, "Risk Classification", Risk, [Q11, Q12, Q13, Q14, Q15])

  /** Section 4: the prohibited practices of Article 5 (Q16-Q19). */
  const ProhibitedSection: Section :=
    Section(4, "Prohibited Practices", Prohibited, [Q16, Q17, Q18, Q19])

  /** Section 5: the high-risk requirements (Q20-Q24). */
  const HighRiskSection: Section :=
    Section(5, "High-Risk Evaluation", Risk, [Q20, Q21, Q22, Q23, Q24])

  /** Section 6: governance and current status (Q25-Q32). */
  const GovernanceSection: Section :=
    Section(6, "Governance & Current Status", General, [Q25, Q26, Q27, Q28, Q29, Q30, Q31, Q32])

  /** `assessmentSections` */
  const Sections: seq<Section> :=
    [ScopeSection, InventorySection, RiskSection, ProhibitedSection, HighRiskSection, GovernanceSection]

  /** The questions of the given sections, section by section, in order. */
  function Flatten(sections: seq<Section>): (qs: seq<Question>)
    ensures forall s, q :: s in sections && q in s.questions ==> q in qs
    ensures forall q :: q in qs ==> exists s :: s in sections && q in s.questions
  {
    if sections == [] then [] else sections[0].questions + Flatten(sections[1..])
  }

  /** Every question of the catalog, in catalog order. */
  function AllQuestions(): seq<Question>
  {
    Flatten(Sections)
  }

  function Digit(d: nat): (c: char)
    requires d < 10
  {
    "0123456789"[d]
  }

  /** The decimal numeral of `n`, without leading zeros. */
  function Decimal(n: nat): (s: string)
    ensures 1 <= |s|
    ensures |s| == 1 <==> n < 10
    ensures s[|s| - 1] == Digit(n % 10)
  {
    if n < 10 then [Digit(n)] else Decimal(n / 10) + [Digit(n % 10)]
  }

  /** The question id numbered `n`: "Q1", "Q2", ... */
  function QuestionId(n: nat): string
  {
    "Q" + Decimal(n)
  }

  lemma {:induction false} DecimalInjective(n: nat, m: nat)
    requires Decimal(n) == Decimal(m)
    ensures n == m
  {
    var s, t := Decimal(n), Decimal(m);
    assert Digit(n % 10) == Digit(m % 10);
    assert n % 10 == m % 10;
    if 10 <= n {
      assert 10 <= m;
      assert Decimal(n / 10) == s[..|s| - 1] == t[..|t| - 1] == Decimal(m / 10);
      DecimalInjective(n / 10, m / 10);
    }
  }

  /** The questions `qs` carry the ids `name(first)`, `name(first + 1)`, ... */
  ghost predicate NamedFrom(qs: seq<Question>, first: nat, name: nat -> string)
  {
    forall j :: 0 <= j < |qs| ==> qs[j].id == name(first + j)
  }

  lemma ConcatNamed(a: seq<Question>, b: seq<Question>, first: nat, name: nat -> string)
    requires NamedFrom(a, first, name) && NamedFrom(b, first + |a|, name)
    ensures NamedFrom(a + b, first, name)
  {
    forall j | 0 <= j < |a + b| ensures (a + b)[j].id == name(first + j) {
      if j >= |a| { assert (a + b)[j] == b[j - |a|]; }
    }
  }

  lemma NamedFour(a: Question, b: Question, c: Question, d: Question, first: nat, name: nat -> string)
    requires a.id == name(first) && b.id == name(first + 1)
    requires c.id == name(first + 2) && d.id == name(first + 3)
    ensures NamedFrom([a, b, c, d], first, name)
  {
  }

  lemma NamedFive(a: Question, b: Question, c: Question, d: Question, e: Question, first: nat, name: nat -> string)
    requires a.id == name(first) && b.id == name(first + 1) && c.id == name(first + 2)
    requires d.id == name(first + 3) && e.id == name(first + 4)
    ensures NamedFrom([a, b, c, d, e], first, name)
  {
  }

  /** Section by section, the ids continue the numbering of the previous
      section. */
  lemma ScopeNumbered()
    ensures NamedFrom(ScopeSection.questions, 1, QuestionId) && |ScopeSection.questions| == 5
  {
    assert Q1.id == QuestionId(1) && Q2.id == QuestionId(2) && Q3.id == QuestionId(3) && Q4.id == QuestionId(4) && Q5.id == QuestionId(5);
    NamedFive(Q1, Q2, Q3, Q4, Q5, 1, QuestionId);
  }

  lemma InventoryNumbered()
    ensures NamedFrom(InventorySection.questions, 6, QuestionId) && |InventorySection.questions| == 5
  {
    assert Q6.id == QuestionId(6) && Q7.id == QuestionId(7) && Q8.id == QuestionId(8) && Q9.id == QuestionId(9) && Q10.id == QuestionId(10);
    NamedFive(Q6, Q7, Q8, Q9, Q10, 6, QuestionId);
  }

  lemma RiskNumbered()
    ensures NamedFrom(RiskSection.questions, 11, QuestionId) && |RiskSection.questions| == 5
  {
    assert Q11.id == QuestionId(11) && Q12.id == QuestionId(12) && Q13.id == QuestionId(13) && Q14.id == QuestionId(14) && Q15.id == QuestionId(15);
    NamedFive(Q11, Q12, Q13, Q14, Q15, 11, QuestionId);
  }

  lemma ProhibitedNumbered()
    ensures NamedFrom(ProhibitedSection.questions, 16, QuestionId) && |ProhibitedSection.questions| == 4
  {
    assert Q16.id == QuestionId(16) && Q17.id == QuestionId(17) && Q18.id == QuestionId(18) && Q19.id == QuestionId(19);
    NamedFour(Q16, Q17, Q18, Q19, 16, QuestionId);
  }

  lemma HighRiskNumbered()
    ensures NamedFrom(HighRiskSection.questions, 20, QuestionId) && |HighRiskSection.questions| == 5
  {
    assert Q20.id == QuestionId(20) && Q21.id == QuestionId(21) && Q22.id == QuestionId(22) && Q23.id == QuestionId(23) && Q24.id == QuestionId(24);
    NamedFive(Q20, Q21, Q22, Q23, Q24, 20, QuestionId);
  }

  lemma GovernanceFirstHalfNumbered()
    ensures NamedFrom([Q25, Q26, Q27, Q28], 25, QuestionId)
  {
    assert Q25.id == QuestionId(25) && Q26.id == QuestionId(26) && Q27.id == QuestionId(27) && Q28.id == QuestionId(28);
    NamedFour(Q25, Q26, Q27, Q28, 25, QuestionId);
  }

  lemma GovernanceSecondHalfNumbered()
    ensures NamedFrom([Q29, Q30, Q31, Q32], 29, QuestionId)
  {
    assert Q29.id == QuestionId(29) && Q30.id == QuestionId(30) && Q31.id == QuestionId(31) && Q32.id == QuestionId(32);
    NamedFour(Q29, Q30, Q31, Q32, 29, QuestionId);
  }

  lemma GovernanceNumbered()
    ensures NamedFrom(GovernanceSection.questions, 25, QuestionId) && |GovernanceSection.questions| == 8
  {
    GovernanceFirstHalfNumbered();
    GovernanceSecondHalfNumbered();
    ConcatNamed([Q25, Q26, Q27, Q28], [Q29, Q30, Q31, Q32], 25, QuestionId);
    assert GovernanceSection.questions == [Q25, Q26, Q27, Q28] + [Q29, Q30, Q31, Q32];
  }


  lemma AllQuestionsBySection()
    ensures AllQuestions() == ScopeSection.questions + (InventorySection.questions + (RiskSection.questions
      + (ProhibitedSection.questions + (HighRiskSection.questions + GovernanceSection.questions))))
  {
    var s := Sections;
    assert Flatten(s[5..]) == s[5].questions + Flatten(s[6..]);
    assert Flatten(s[4..]) == s[4].questions + Flatten(s[5..]);
    assert Flatten(s[3..]) == s[3].questions + Flatten(s[4..]);
    assert Flatten(s[2..]) == s[2].questions + Flatten(s[3..]);
    assert Flatten(s[1..]) == s[1].questions + Flatten(s[2..]);
  }

  /** The catalog has six sections and 32 questions whose ids are Q1 to Q32
      in catalog order. */
  lemma CatalogIds()
    ensures |Sections| == 6
    ensures |AllQuestions()| == 32
    ensures forall i :: 0 <= i < 32 ==> AllQuestions()[i].id == QuestionId(i + 1)
  {
    ScopeNumbered();
    InventoryNumbered();
    RiskNumbered();
    ProhibitedNumbered();
    HighRiskNumbered();
    GovernanceNumbered();
    AllQuestionsBySection();
    var q0, q1, q2, q3, q4, q5 := ScopeSection.questions, InventorySection.questions, RiskSection.questions,
      ProhibitedSection.questions, HighRiskSection.questions, GovernanceSection.questions;
    ConcatNamed(q4, q5, 20, QuestionId);
    ConcatNamed(q3, q4 + q5, 16, QuestionId);
    ConcatNamed(q2, q3 + (q4 + q5), 11, QuestionId);
    ConcatNamed(q1, q2 + (q3 + (q4 + q5)), 6, QuestionId);
    ConcatNamed(q0, q1 + (q2 + (q3 + (q4 + q5))), 1, QuestionId);
    assert NamedFrom(AllQuestions(), 1, QuestionId);
  }

  /** No two questions share an id. */
  lemma IdsDistinct()
    ensures forall i, j :: 0 <= i < j < |AllQuestions()| ==> AllQuestions()[i].id != AllQuestions()[j].id
  {
    CatalogIds();
    forall i, j | 0 <= i < j < |AllQuestions()|
      ensures AllQuestions()[i].id != AllQuestions()[j].id
    {
      if AllQuestions()[i].id == AllQuestions()[j].id {
        assert Decimal(i + 1) == QuestionId(i + 1)[1..] == QuestionId(j + 1)[1..] == Decimal(j + 1);
        DecimalInjective(i + 1, j + 1);
      }
    }
  }

  /** `qs.find(q => q.Id === id)` */
  function Find(qs: seq<Question>, id: string): (r: Option<Question>)
    ensures r.Some? ==> r.value in qs && r.value.id == id
    ensures r.None? <==> forall q :: q in qs ==> q.id != id
  {
    if qs == [] then None else if qs[0].id == id then Some(qs[0]) else Find(qs[1..], id)
  }

  /** The catalog question with the given id, if any. */
  function QuestionById(id: string): Option<Question>
  {
    Find(AllQuestions(), id)
  }

  /** The question with id `Qn` is the n-th question of the catalog. */
  lemma QuestionByNumber(n: nat)
    requires 1 <= n <= 32
    ensures |AllQuestions()| == 32
    ensures QuestionById(QuestionId(n)) == Some(AllQuestions()[n - 1])
  {
    CatalogIds();
    IdsDistinct();
    var qs := AllQuestions();
    assert qs[n - 1].id == QuestionId(n);
    var r := Find(qs, QuestionId(n));
    assert r.Some? by { assert qs[n - 1] in qs; }
    var i :| 0 <= i < |qs| && qs[i] == r.value;
    assert qs[i].id == qs[n - 1].id;
  }

  /** Every question of the catalog is found by its own id. */
  lemma QuestionByIdOf(q: Question)
    requires q in AllQuestions()
    ensures QuestionById(q.id) == Some(q)
  {
    IdsDistinct();
    var qs := AllQuestions();
    var k :| 0 <= k < |qs| && qs[k] == q;
    var r := Find(qs, q.id);
    assert r.Some? by { assert qs[k] in qs; }
    var i :| 0 <= i < |qs| && qs[i] == r.value;
    assert qs[i].id == qs[k].id;
  }

  lemma SectionsInCatalog()
    ensures forall q :: q in ScopeSection.questions ==> q in AllQuestions()
    ensures forall q :: q in InventorySection.questions ==> q in AllQuestions()
    ensures forall q :: q in RiskSection.questions ==> q in AllQuestions()
    ensures forall q :: q in ProhibitedSection.questions ==> q in AllQuestions()
    ensures forall q :: q in HighRiskSection.questions ==> q in AllQuestions()
    ensures forall q :: q in GovernanceSection.questions ==> q in AllQuestions()
  {
    AllQuestionsBySection();
  }

  /** The numbers of the questions with `required: false`: Q4, Q5, Q7, Q8
      and Q15. */
  const OptionalNumbers: set<nat> := {4, 5, 7, 8, 15}

  /** The question numbered `first + j` is required unless its number is
      optional. */
  ghost predicate RequiredFrom(qs: seq<Question>, first: nat)
  {
    forall j :: 0 <= j < |qs| ==> (qs[j].required <==> first + j !in OptionalNumbers)
  }

  lemma ConcatRequired(a: seq<Question>, b: seq<Question>, first: nat)
    requires RequiredFrom(a, first) && RequiredFrom(b, first + |a|)
    ensures RequiredFrom(a + b, first)
  {
    forall j | 0 <= j < |a + b| ensures ((a + b)[j].required <==> first + j !in OptionalNumbers) {
      if j >= |a| { assert (a + b)[j] == b[j - |a|]; }
    }
  }

  lemma SectionsRequired()
    ensures RequiredFrom(ScopeSection.questions, 1)
    ensures RequiredFrom(InventorySection.questions, 6)
    ensures RequiredFrom(RiskSection.questions, 11)
    ensures RequiredFrom(ProhibitedSection.questions, 16)
    ensures RequiredFrom(HighRiskSection.questions, 20)
    ensures RequiredFrom(GovernanceSection.questions, 25)
  {
  }

  /** The only questions with `required: false` are Q4, Q5, Q7, Q8 and Q15. */
  lemma CatalogRequiredFlags()
    ensures |AllQuestions()| == 32
    ensures forall i :: 0 <= i < 32 ==> (!AllQuestions()[i].required <==> i + 1 in OptionalNumbers)
  {
    ScopeNumbered();
    InventoryNumbered();
    RiskNumbered();
    ProhibitedNumbered();
    HighRiskNumbered();
    GovernanceNumbered();
    SectionsRequired();
    AllQuestionsBySection();
    var q0, q1, q2, q3, q4, q5 := ScopeSection.questions, InventorySection.questions, RiskSection.questions,
      ProhibitedSection.questions, HighRiskSection.questions, GovernanceSection.questions;
    ConcatRequired(q4, q5, 20);
    ConcatRequired(q3, q4 + q5, 16);
    ConcatRequired(q2, q3 + (q4 + q5), 11);
    ConcatRequired(q1, q2 + (q3 + (q4 + q5)), 6);
    ConcatRequired(q0, q1 + (q2 + (q3 + (q4 + q5))), 1);
  }

  /** The `value`s of an option list, in order. */
  function Values(options: seq<Choice>): (vs: seq<string>)
    ensures |vs| == |options|
    ensures forall i :: 0 <= i < |options| ==> vs[i] == options[i].value
  {
    if options == [] then [] else [options[0].value] + Values(options[1..])
  }

  /** No option of `options` has the value `v`, checked one option at a time. */
  predicate NotOffered(v: string, options: seq<Choice>)
  {
    options == [] || (options[0].value != v && NotOffered(v, options[1..]))
  }

  lemma {:induction false} NotOfferedIndex(v: string, options: seq<Choice>, j: nat)
    requires NotOffered(v, options) && j < |options|
    ensures options[j].value != v
  {
    if j > 0 {
      NotOfferedIndex(v, options[1..], j - 1);
    }
  }

  /** No value is offered twice, checked one option at a time. */
  predicate DistinctValues(options: seq<Choice>)
  {
    options == [] || (NotOffered(options[0].value, options[1..]) && DistinctValues(options[1..]))
  }

  lemma {:induction false} DistinctValuesIndex(options: seq<Choice>, i: nat, j: nat)
    requires DistinctValues(options) && i < j < |options|
    ensures options[i].value != options[j].value
  {
    if i == 0 {
      NotOfferedIndex(options[0].value, options[1..], j - 1);
    } else {
      DistinctValuesIndex(options[1..], i - 1, j - 1);
    }
  }

  /** No question is a select question, and a radio or checkbox question
      offers at least one option and no value twice. */
  predicate ChoicesWellFormed(q: Question)
  {
    && q.qtype != Select
    && ((q.qtype == Radio || q.qtype == Checkbox) ==> q.options != [] && DistinctValues(q.options))
  }

  lemma FirstSectionsChoices()
    ensures forall q :: q in ScopeSection.questions ==> ChoicesWellFormed(q)
    ensures forall q :: q in InventorySection.questions ==> ChoicesWellFormed(q)
  {
  }

  lemma MiddleSectionsChoices()
    ensures forall q :: q in RiskSection.questions ==> ChoicesWellFormed(q)
    ensures forall q :: q in ProhibitedSection.questions ==> ChoicesWellFormed(q)
  {
  }

  lemma HighRiskChoices()
    ensures forall q :: q in HighRiskSection.questions ==> ChoicesWellFormed(q)
  {
  }

  lemma GovernanceChoicesFirstHalf()
    ensures forall q :: q in [Q25, Q26, Q27, Q28] ==> ChoicesWellFormed(q)
  {
  }

  lemma GovernanceChoicesSecondHalf()
    ensures forall q :: q in [Q29, Q30, Q31, Q32] ==> ChoicesWellFormed(q)
  {
  }

  lemma GovernanceChoices()
    ensures forall q :: q in GovernanceSection.questions ==> ChoicesWellFormed(q)
  {
    GovernanceChoicesFirstHalf();
    GovernanceChoicesSecondHalf();
    assert GovernanceSection.questions == [Q25, Q26, Q27, Q28] + [Q29, Q30, Q31, Q32];
  }

  /** Six blocks of well-formed questions make a well-formed whole. */
  lemma ConcatChoices(q0: seq<Question>, q1: seq<Question>, q2: seq<Question>, q3: seq<Question>,
                      q4: seq<Question>, q5: seq<Question>, all: seq<Question>)
    requires all == q0 + (q1 + (q2 + (q3 + (q4 + q5))))
    requires forall q :: q in q0 ==> ChoicesWellFormed(q)
    requires forall q :: q in q1 ==> ChoicesWellFormed(q)
    requires forall q :: q in q2 ==> ChoicesWellFormed(q)
    requires forall q :: q in q3 ==> ChoicesWellFormed(q)
    requires forall q :: q in q4 ==> ChoicesWellFormed(q)
    requires forall q :: q in q5 ==> ChoicesWellFormed(q)
    ensures forall q :: q in all ==> ChoicesWellFormed(q)
  {
  }

  lemma AllChoicesWellFormed()
    ensures forall q :: q in AllQuestions() ==> ChoicesWellFormed(q)
  {
    FirstSectionsChoices();
    MiddleSectionsChoices();
    HighRiskChoices();
    GovernanceChoices();
    AllQuestionsBySection();
    ConcatChoices(ScopeSection.questions, InventorySection.questions, RiskSection.questions,
      ProhibitedSection.questions, HighRiskSection.questions, GovernanceSection.questions, AllQuestions());
  }

  /** No question of the catalog is a select question, and every radio or
      checkbox question has a non-empty option list with distinct values. */
  lemma CatalogChoices()
    ensures forall q :: q in AllQuestions() ==> q.qtype != Select
    ensures forall q :: q in AllQuestions() && (q.qtype == Radio || q.qtype == Checkbox) ==>
      && q.options != []
      && forall i, j :: 0 <= i < j < |q.options| ==> q.options[i].value != q.options[j].value
  {
    AllChoicesWellFormed();
    forall q, i, j | q in AllQuestions() && (q.qtype == Radio || q.qtype == Checkbox) && 0 <= i < j < |q.options|
      ensures q.options[i].value != q.options[j].value
    {
      DistinctValuesIndex(q.options, i, j);
    }
  }
}

/** Answer values as the questionnaire stores them, and the two ways the
    code inspects them: strict equality with a string literal (`=== 'yes'`)
    and JavaScript truthiness (`!answers[id]`). */
module Answers {
  import opened Wrappers

  /** One stored answer: a string (text, textarea, radio, select), a list of
      option values (checkbox) or a boolean. */
  datatype Answer = Text(s: string) | Choices(items: seq<string>) | Flag(b: bool)

  /** Question id to answer; an id that is not a key is `undefined`. */
  type AnswerMap = map<string, Answer>

  /** `answers[id]`, with `undefined` as None. */
  function Lookup(answers: AnswerMap, id: string): (r: Option<Answer>)
    ensures r.Some? <==> id in answers
    ensures r.Some? ==> r.value == answers[id]
  {
    if id in answers then Some(answers[id]) else None
  }

  /** `answers[id] === lit`: only a string equal to the literal matches. */
  predicate Is(answers: AnswerMap, id: string, lit: string)
  {
    id in answers && answers[id] == Text(lit)
  }

  /** JavaScript truthiness of an answer: `undefined`, `''` and `false` are
      falsy; every array, even an empty one, is truthy. */
  predicate Truthy(a: Option<Answer>)
  {
    match a
    case None => false
    case Some(Text(s)) => s != ""
    case Some(Choices(_)) => true
    case Some(Flag(b)) => b
  }

  /** `ids.some(id => answers[id] === 'yes')` */
  predicate AnyYes(answers: AnswerMap, ids: seq<string>)
  {
    exists i :: 0 <= i < |ids| && Is(answers, ids[i], "yes")
  }

  lemma AnyYesCons(answers: AnswerMap, id: string, ids: seq<string>)
    ensures AnyYes(answers, [id] + ids) <==> Is(answers, id, "yes") || AnyYes(answers, ids)
  {
    if AnyYes(answers, ids) {
      var i :| 0 <= i < |ids| && Is(answers, ids[i], "yes");
      assert ([id] + ids)[i + 1] == ids[i];
    }
    if AnyYes(answers, [id] + ids) && !Is(answers, id, "yes") {
      var i :| 0 <= i < |[id] + ids| && Is(answers, ([id] + ids)[i], "yes");
      assert ([id] + ids)[0] == id;
      assert i != 0;
      assert ids[i - 1] == ([id] + ids)[i];
    }
  }
}

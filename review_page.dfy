/** How the review page shows one stored answer next to its question. */
module ReviewPage {
  import opened Wrappers
  import opened Answers
  import opened Catalog

  /** `items.join(sep)` */
  function Join(items: seq<string>, sep: string): string
  {
    if items == [] then ""
    else if |items| == 1 then items[0]
    else items[0] + sep + Join(items[1..], sep)
  }

  /** The total length of the strings in `items`. */
  function TotalLength(items: seq<string>): nat
  {
    if items == [] then 0 else |items[0]| + TotalLength(items[1..])
  }

  /** A joined list holds each item once and one separator between
      neighbours. */
  lemma {:induction false} JoinLength(items: seq<string>, sep: string)
    requires items != []
    ensures |Join(items, sep)| == TotalLength(items) + |sep| * (|items| - 1)
  {
    if |items| > 1 {
      JoinLength(items[1..], sep);
    }
  }

  /** Joining one more item appends a separator and the item. */
  lemma {:induction false} JoinSnoc(items: seq<string>, x: string, sep: string)
    requires items != []
    ensures Join(items + [x], sep) == Join(items, sep) + sep + x
  {
    if |items| == 1 {
      assert (items + [x])[1..] == [x];
    } else {
      assert (items + [x])[1..] == items[1..] + [x];
      JoinSnoc(items[1..], x, sep);
    }
  }

  /** `options.find(opt => opt.value === v)`: the first option with that
      value. */
  function FindOption(options: seq<Choice>, v: string): (r: Option<Choice>)
    ensures r.None? <==> forall i :: 0 <= i < |options| ==> options[i].value != v
    ensures r.Some? ==> exists i :: (0 <= i < |options| && options[i] == r.value && r.value.value == v
      && forall j :: 0 <= j < i ==> options[j].value != v)
  {
    if options == [] then None
    else if options[0].value == v then Some(options[0])
    else
      var r := FindOption(options[1..], v);
      assert forall i :: 0 < i < |options| ==> options[i] == options[1..][i - 1];
      r
  }

  /** `formatAnswer(answer, question)`. The result is a string, or None for
      the `undefined` that an unanswered select question shows. */
  function FormatAnswer(answer: Option<Answer>, q: Question): Option<string>
  {
    match answer
    case Some(Flag(b)) => Some(if b then "Yes" else "No")
    case Some(Choices(items)) => Some(Join(items, ", "))
    case Some(Text(s)) =>
      if q.qtype == Select then
        var option := FindOption(q.options, s);
        if option.Some? && option.value.caption != "" then Some(option.value.caption) else Some(s)
      else if s != "" then Some(s)
      else Some("Not answered")
    case None =>
      if q.qtype == Select then None else Some("Not answered")
  }

  /** A boolean shows as "Yes" or "No", whatever the question's type. */
  lemma BooleanFirst(b: bool, q: Question)
    ensures FormatAnswer(Some(Flag(b)), q) == Some(if b then "Yes" else "No")
  {
  }

  /** A list of values shows joined by ", ": nothing for an empty list, the
      value itself for one, and one more value adds ", " and that value at
      the end; the text holds every value and one separator between
      neighbours. */
  lemma ListJoined(items: seq<string>, x: string, q: Question)
    ensures items == [] ==> FormatAnswer(Some(Choices(items)), q) == Some("")
    ensures |items| == 1 ==> FormatAnswer(Some(Choices(items)), q) == Some(items[0])
    ensures items != [] ==>
      FormatAnswer(Some(Choices(items + [x])), q) == Some(FormatAnswer(Some(Choices(items)), q).value + ", " + x)
    ensures items != [] ==>
      |FormatAnswer(Some(Choices(items)), q).value| == TotalLength(items) + 2 * (|items| - 1)
  {
    if items != [] {
      JoinLength(items, ", ");
      JoinSnoc(items, x, ", ");
    }
  }

  /** For a select question, a text answer shows the caption of the first
      option with that value when it has one and the caption is not empty,
      and the raw answer otherwise; no answer at all shows as `undefined`,
      not as "Not answered". */
  lemma SelectShowsCaption(q: Question, s: string)
    requires q.qtype == Select
    ensures forall i :: 0 <= i < |q.options| ==>
      ((q.options[i].value == s && q.options[i].caption != "" && (forall j :: 0 <= j < i ==> q.options[j].value != s))
        ==> FormatAnswer(Some(Answer.Text(s)), q) == Some(q.options[i].caption))
    ensures (forall i :: 0 <= i < |q.options| ==> q.options[i].value != s) ==>
      FormatAnswer(Some(Answer.Text(s)), q) == Some(s)
    ensures FindOption(q.options, s).Some? && FindOption(q.options, s).value.caption == "" ==>
      FormatAnswer(Some(Answer.Text(s)), q) == Some(s)
    ensures FormatAnswer(None, q) == None
  {
    var r := FindOption(q.options, s);
    if r.Some? {
      var k :| 0 <= k < |q.options| && q.options[k] == r.value && r.value.value == s
        && forall j :: 0 <= j < k ==> q.options[j].value != s;
      forall i | 0 <= i < |q.options| && q.options[i].value == s && (forall j :: 0 <= j < i ==> q.options[j].value != s)
        ensures i == k
      {
      }
    }
  }

  /** Any other question shows a truthy answer verbatim and a falsy one as
      "Not answered". */
  lemma OtherShowsRawValue(q: Question, answer: Option<Answer>)
    requires q.qtype != Select && (answer.None? || answer.value.Text?)
    ensures Truthy(answer) ==> FormatAnswer(answer, q) == Some(answer.value.s)
    ensures !Truthy(answer) ==> FormatAnswer(answer, q) == Some("Not answered")
  {
  }

  /** A question that is not a select question shows every answer as a
      string: text verbatim when non-empty, "Not answered" when missing or
      empty. */
  lemma NonSelectShowsString(q: Question, answer: Option<Answer>)
    requires q.qtype != Select
    ensures FormatAnswer(answer, q).Some?
    ensures answer.Some? && answer.value.Text? && answer.value.s != "" ==>
      FormatAnswer(answer, q) == Some(answer.value.s)
    ensures !Truthy(answer) && (answer.None? || answer.value.Text?) ==> FormatAnswer(answer, q) == Some("Not answered")
  {
  }

  /** No catalog question is a select question, so every catalog answer
      shows as a string, and a radio answer shows its stored value ("yes"),
      not its caption. */
  lemma CatalogAnswersShowRaw(q: Question, answer: Option<Answer>)
    requires q in AllQuestions()
    ensures FormatAnswer(answer, q).Some?
    ensures answer.Some? && answer.value.Text? && answer.value.s != "" ==>
      FormatAnswer(answer, q) == Some(answer.value.s)
    ensures !Truthy(answer) && (answer.None? || answer.value.Text?) ==> FormatAnswer(answer, q) == Some("Not answered")
  {
    CatalogChoices();
    NonSelectShowsString(q, answer);
  }
}

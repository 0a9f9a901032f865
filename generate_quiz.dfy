/**
 * The quiz generation function: choosing the input the prompt is built from, reading the
 * gateway reply, and the validation pipeline that turns parsed entries into numbered questions.
 */
module GenerateQuiz {
  import opened Wrappers
  import opened Text
  import opened Lists
  import opened AiText

  const DefaultQuestionCount := 5
  const NoExplanation := "No explanation provided."

  /** The fields of the request body; `questionCount` falls back to 5 when absent. */
  datatype QuizRequest = QuizRequest(
    notes: Option<string>, imageBase64: Option<string>, topic: Option<string>, questionCount: Option<int>)

  /** The prompts of quiz generation, with the values their text interpolates. */
  datatype QuizPrompt =
    | QuizInstructions(questionCount: int)
    | QuizFromImage(questionCount: int)
    | QuizFromNotes(questionCount: int, notes: string)
    | QuizAboutTopic(questionCount: int, topic: string)

  const MissingInput := "Either notes, imageBase64, or topic is required"
  const MissingKey := "LOVABLE_API_KEY is not configured"
  const NoContent := "No content in AI response"
  const ParseFailure := "Failed to parse quiz questions from AI response"
  const NotQuestions := "Invalid question format"
  const RateLimited := "Rate limit exceeded. Please try again in a moment."
  const CreditsExhausted := "AI credits exhausted. Please add credits to continue."

  /** The chat messages: the instructions, then one user message from the image if there is
      one, else from the notes, else from the topic. */
  function QuizMessages(req: QuizRequest): (r: Result<seq<Message<QuizPrompt>>, string>)
    ensures var n := req.questionCount.GetOr(DefaultQuestionCount);
      && (r.Failure? <==> !Truthy(req.imageBase64) && !Truthy(req.notes) && !Truthy(req.topic))
      && (r.Failure? ==> r.error == MissingInput)
      && (r.Success? ==> |r.value| == 2 && r.value[0] == Message(System, QuizInstructions(n), None) && r.value[1].role == User)
      && (Truthy(req.imageBase64) ==> r.Success? && r.value[1] == Message(User, QuizFromImage(n), Some(ImageDataUrl(req.imageBase64.value))))
      && (!Truthy(req.imageBase64) && Truthy(req.notes) ==> r.Success? && r.value[1] == Message(User, QuizFromNotes(n, req.notes.value), None))
      && (!Truthy(req.imageBase64) && !Truthy(req.notes) && Truthy(req.topic) ==>
            r.Success? && r.value[1] == Message(User, QuizAboutTopic(n, req.topic.value), None))
  {
    var n := req.questionCount.GetOr(DefaultQuestionCount);
    var system := Message(System, QuizInstructions(n), None);
    if Truthy(req.imageBase64) then Success([system, Message(User, QuizFromImage(n), Some(ImageDataUrl(req.imageBase64.value)))])
    else if Truthy(req.notes) then Success([system, Message(User, QuizFromNotes(n, req.notes.value), None)])
    else if Truthy(req.topic) then Success([system, Message(User, QuizAboutTopic(n, req.topic.value), None)])
    else Failure(MissingInput)
  }

  /** Inputs of lower priority never change the messages. */
  lemma LowerPriorityInputsIgnored(req: QuizRequest, notes: Option<string>, topic: Option<string>)
    ensures Truthy(req.imageBase64) ==> QuizMessages(req.(notes := notes, topic := topic)) == QuizMessages(req)
    ensures Truthy(req.notes) ==> QuizMessages(req.(topic := topic)) == QuizMessages(req)
  {
  }

  /** A parsed entry: `null`, or the fields the pipeline reads, absent when missing or of the
      wrong type (`options` present only for an array, `correctAnswer` only for a number). Any
      other JSON value has no such fields and reads as an entry with all of them absent. */
  datatype RawQuestion =
    | NullEntry
    | RawQuestion(question: Option<string>, options: Option<seq<string>>, correctAnswer: Option<int>, explanation: Option<string>)

  /** The filter reads `q.question` of every entry; on a `null` entry that throws a TypeError,
      whose message, in the wording of the V8 engine, the handler returns. */
  const NullEntryRead := "Cannot read properties of null (reading 'question')"

  /** A question the function returns. */
  datatype GeneratedQuestion = GeneratedQuestion(
    id: string, question: string, options: seq<string>, correctAnswer: int, explanation: string)

  /** The filter: a truthy question, an array of options and a numeric correct answer. */
  predicate WellFormed(q: RawQuestion) {
    q.RawQuestion? && Truthy(q.question) && q.options.Some? && q.correctAnswer.Some?
  }

  /** `options.map(opt => String(opt).trim())` */
  function TrimAll(options: seq<string>): seq<string> {
    seq(|options|, i requires 0 <= i < |options| => Trim(options[i]))
  }

  /** The map step for the entry at output position `index`. */
  function Normalize(q: RawQuestion, index: nat): GeneratedQuestion
    requires WellFormed(q)
  {
    GeneratedQuestion(NatToString(index + 1), Trim(q.question.value), TrimAll(q.options.value), q.correctAnswer.value,
                      if Truthy(q.explanation) then Trim(q.explanation.value) else NoExplanation)
  }

  /** A generated question read back as an entry. */
  function AsEntry(g: GeneratedQuestion): RawQuestion {
    RawQuestion(Some(g.question), Some(g.options), Some(g.correctAnswer), Some(g.explanation))
  }

  /** Normalization numbers the question by its position, leaves no whitespace around any of
      its texts and passes the option count and the correct answer through unchecked. A missing
      explanation is replaced by the default, but a blank one, being truthy, comes out empty.
      Normalizing the result again at the same position changes nothing, unless its question
      or its explanation came out empty. */
  lemma NormalizeTrims(q: RawQuestion, index: nat)
    requires WellFormed(q)
    ensures var g := Normalize(q, index);
      && ParseDigits(g.id) == index + 1
      && Trim(g.question) == g.question
      && |g.options| == |q.options.value|
      && (forall i :: 0 <= i < |g.options| ==> Trim(g.options[i]) == g.options[i])
      && g.correctAnswer == q.correctAnswer.value
      && Trim(g.explanation) == g.explanation
      && (!Truthy(q.explanation) ==> g.explanation == NoExplanation)
      && (Truthy(q.explanation) && IsBlank(q.explanation.value) ==> g.explanation == [])
      && (g.question != [] && g.explanation != [] ==> Normalize(AsEntry(g), index) == g)
  {
    var g := Normalize(q, index);
    ParseNatToString(index + 1);
    TrimIdempotent(q.question.value);
    forall i | 0 <= i < |g.options|
      ensures Trim(g.options[i]) == g.options[i]
    {
      TrimIdempotent(q.options.value[i]);
    }
    assert TrimAll(g.options) == g.options;
    if Truthy(q.explanation) {
      TrimIdempotent(q.explanation.value);
    } else {
      TrimUnchanged(NoExplanation);
    }
  }

  /** The well-formed entries, in order, cut to `questionCount`. */
  function KeptQuestions(entries: seq<RawQuestion>, questionCount: int): (kept: seq<RawQuestion>)
    ensures kept <= Filter(entries, WellFormed)
    ensures |kept| == SliceEnd(|Filter(entries, WellFormed)|, questionCount)
    ensures forall i :: 0 <= i < |kept| ==> WellFormed(kept[i]) && kept[i] in entries
  {
    Slice0(Filter(entries, WellFormed), questionCount)
  }

  /** validQuestions: filter, cut to `questionCount`, then number and trim. */
  function ValidQuestions(entries: seq<RawQuestion>, questionCount: int): seq<GeneratedQuestion> {
    var kept := KeptQuestions(entries, questionCount);
    seq(|kept|, i requires 0 <= i < |kept| => Normalize(kept[i], i))
  }

  /** The output never exceeds the requested count or the number of entries, its ids are "1"
      to "n" and therefore distinct, and every question keeps its source's option count and
      correct answer, which are not checked against each other. */
  lemma ValidQuestionsShape(entries: seq<RawQuestion>, questionCount: int)
    ensures var r := ValidQuestions(entries, questionCount);
      && |r| <= |entries|
      && (questionCount >= 0 ==> |r| <= questionCount)
      && (forall i :: 0 <= i < |r| ==> r[i].id == NatToString(i + 1))
      && (forall i, j :: 0 <= i < j < |r| ==> r[i].id != r[j].id)
  {
    var r := ValidQuestions(entries, questionCount);
    forall i, j | 0 <= i < j < |r|
      ensures r[i].id != r[j].id
    {
      if r[i].id == r[j].id {
        NatToStringInjective(i + 1, j + 1);
      }
    }
  }

  /** When every entry is well formed and the count allows it, every entry comes out, in order. */
  lemma AllWellFormedKept(entries: seq<RawQuestion>, questionCount: int)
    requires forall i :: 0 <= i < |entries| ==> WellFormed(entries[i])
    requires questionCount >= |entries|
    ensures var r := ValidQuestions(entries, questionCount);
      |r| == |entries| && forall i :: 0 <= i < |r| ==> r[i] == Normalize(entries[i], i)
  {
    FilterAllPass(entries, WellFormed);
  }

  /** Entries that fail the filter can be inserted anywhere without changing the output. */
  lemma MalformedEntriesIgnored(a: seq<RawQuestion>, b: seq<RawQuestion>, bad: RawQuestion, questionCount: int)
    requires !WellFormed(bad)
    ensures ValidQuestions(a + [bad] + b, questionCount) == ValidQuestions(a + b, questionCount)
  {
    FilterAppend(a + [bad], b, WellFormed);
    FilterAppend(a, [bad], WellFormed);
    FilterAppend(a, b, WellFormed);
    assert Filter([bad], WellFormed) == [];
    assert Filter(a + [bad], WellFormed) == Filter(a, WellFormed);
    assert Filter(a + [bad] + b, WellFormed) == Filter(a + b, WellFormed);
    assert KeptQuestions(a + [bad] + b, questionCount) == KeptQuestions(a + b, questionCount);
  }

  /** The function's response for a request, given whether the gateway key is configured, the
      gateway's reply and what JSON.parse makes of a text. Every failure is a 500 carrying its
      message, except the gateway's own 429 and 402. */
  function HandleQuizRequest(req: QuizRequest, keyConfigured: bool, gateway: GatewayReply,
                             parse: string -> Parsed<RawQuestion>): (r: Reply<GeneratedQuestion>)
    ensures r.status in {200, 402, 429, 500}
    ensures !keyConfigured ==> r == Reply(500, ErrorBody(MissingKey))
    ensures keyConfigured && QuizMessages(req).Failure? ==> r == Reply(500, ErrorBody(MissingInput))
    ensures r.status == 429 <==> keyConfigured && QuizMessages(req).Success? && !gateway.Ok() && gateway.status == 429
    ensures r.status == 402 <==> keyConfigured && QuizMessages(req).Success? && !gateway.Ok() && gateway.status == 402
    ensures r.status == 200 <==>
      && keyConfigured && QuizMessages(req).Success? && gateway.Ok() && Truthy(gateway.content)
      && parse(ExtractArrayText(CleanContent(gateway.content.value))).Entries?
      && NullEntry !in parse(ExtractArrayText(CleanContent(gateway.content.value))).entries
    ensures keyConfigured && QuizMessages(req).Success? && gateway.Ok() && Truthy(gateway.content)
      && parse(ExtractArrayText(CleanContent(gateway.content.value))).Entries?
      && NullEntry in parse(ExtractArrayText(CleanContent(gateway.content.value))).entries
      ==> r == Reply(500, ErrorBody(NullEntryRead))
    ensures r.status == 200 ==>
      r.body == Payload(ValidQuestions(parse(ExtractArrayText(CleanContent(gateway.content.value))).entries,
                                       req.questionCount.GetOr(DefaultQuestionCount)))
  {
    if !keyConfigured then Reply(500, ErrorBody(MissingKey))
    else if QuizMessages(req).Failure? then Reply(500, ErrorBody(MissingInput))
    else if !gateway.Ok() then
      if gateway.status == 429 then Reply(429, ErrorBody(RateLimited))
      else if gateway.status == 402 then Reply(402, ErrorBody(CreditsExhausted))
      else Reply(500, ErrorBody("AI gateway error: " + IntToString(gateway.status)))
    else if !Truthy(gateway.content) then Reply(500, ErrorBody(NoContent))
    else match parse(ExtractArrayText(CleanContent(gateway.content.value)))
      case Unparseable => Reply(500, ErrorBody(ParseFailure))
      case NotAnArray => Reply(500, ErrorBody(NotQuestions))
      case Entries(entries) =>
        if NullEntry in entries then Reply(500, ErrorBody(NullEntryRead))
        else Reply(200, Payload(ValidQuestions(entries, req.questionCount.GetOr(DefaultQuestionCount))))
  }

  /** The closing fence is no "```json" marker and survives its removal. */
  lemma StripJsonFenceTail()
    ensures StripMarker("[1]\n```", JsonFence) == "[1]\n```"
  {
    assert StripMarker("```", JsonFence) == "```";
    assert StripMarker("\n```", JsonFence) == "\n```";
    assert StripMarker("]\n```", JsonFence) == "]\n```";
    assert StripMarker("1]\n```", JsonFence) == "1]\n```";
  }

  lemma StripJsonFenceExample()
    ensures StripMarker("```json\n[1]\n```", JsonFence) == "[1]\n```"
  {
    var content := "```json\n[1]\n```";
    assert content == JsonFence + "\n[1]\n```";
    assert content[|JsonFence|..] == "\n[1]\n```";
    assert "\n[1]\n```"[1..] == "[1]\n```";
    StripJsonFenceTail();
  }

  lemma StripFenceExample()
    ensures StripMarker("[1]\n```", Fence) == "[1]\n"
  {
    assert Fence <= "```" && "```"[3..] == [];
    assert StripMarker("```", Fence) == [];
    assert StripMarker("\n```", Fence) == "\n";
    assert StripMarker("]\n```", Fence) == "]\n";
    assert StripMarker("1]\n```", Fence) == "1]\n";
  }

  lemma TrimExample()
    ensures Trim("[1]\n") == "[1]"
  {
    var t := "[1]\n";
    assert LeadCount(t) == 0;
    assert t[0..] == t;
    assert t[..3] == "[1]";
    assert TrailCount("[1]") == 0;
    assert TrailCount(t) == 1;
  }

  /** A reply wrapped in a fenced code block is read as the array inside it. */
  lemma FencedReplyUnwrapped()
    ensures CleanContent("```json\n[1]\n```") == "[1]"
    ensures ExtractArrayText(CleanContent("```json\n[1]\n```")) == "[1]"
  {
    StripJsonFenceExample();
    StripFenceExample();
    TrimExample();
    assert HasBracketRegion("[1]") by { assert "[1]"[0] == '[' && "[1]"[2] == ']'; }
    var (a, b) := BracketRegion("[1]").value;
    assert a == 0 && b == 2;
    assert "[1]"[0..3] == "[1]";
  }
}

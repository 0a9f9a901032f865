/**
 * The flashcard generation function: choosing the image or the notes, reading the gateway
 * reply, and the pipeline that turns parsed entries into at most 20 fresh cards.
 */
module GenerateFlashcards {
  import opened Wrappers
  import opened Text
  import opened Lists
  import opened AiText
  import Store

  const MaxGeneratedCards := 20

  datatype FlashcardsRequest = FlashcardsRequest(notes: Option<string>, imageBase64: Option<string>)

  /** The prompts of flashcard generation; the notes prompt interpolates the notes. */
  datatype FlashcardPrompt = CardsFromImage | CardsInstructions | CardsFromNotes(notes: string)

  const MissingInput := "Either notes or imageBase64 is required"
  const GenericFailure := "Failed to generate flashcards"
  const RateLimited := "Rate limit exceeded. Please try again in a moment."
  const UsageLimited := "AI usage limit reached. Please try again later."

  /** The chat messages: a single user message with the image if there is one, else the
      instructions and a user message with the notes. */
  function FlashcardMessages(req: FlashcardsRequest): (r: Result<seq<Message<FlashcardPrompt>>, string>)
    ensures r.Failure? <==> !Truthy(req.imageBase64) && !Truthy(req.notes)
    ensures r.Failure? ==> r.error == MissingInput
    ensures Truthy(req.imageBase64) ==>
      r == Success([Message(User, CardsFromImage, Some(ImageDataUrl(req.imageBase64.value)))])
    ensures !Truthy(req.imageBase64) && Truthy(req.notes) ==>
      r == Success([Message(System, CardsInstructions, None), Message(User, CardsFromNotes(req.notes.value), None)])
  {
    if Truthy(req.imageBase64) then Success([Message(User, CardsFromImage, Some(ImageDataUrl(req.imageBase64.value)))])
    else if Truthy(req.notes) then Success([Message(System, CardsInstructions, None), Message(User, CardsFromNotes(req.notes.value), None)])
    else Failure(MissingInput)
  }

  /** Notes never change the messages of a request with an image. */
  lemma NotesIgnoredBesideImage(req: FlashcardsRequest, notes: Option<string>)
    requires Truthy(req.imageBase64)
    ensures FlashcardMessages(req.(notes := notes)) == FlashcardMessages(req)
  {
  }

  /** A parsed entry: `null`, or its `front` and `back` when they are strings. Reading
      `card.front` of a `null` entry throws, which the handler turns into its 500 response. */
  datatype RawCard = NullCard | RawCard(front: Option<string>, back: Option<string>)

  predicate BothSides(c: RawCard) {
    c.RawCard? && Truthy(c.front) && Truthy(c.back)
  }

  /** The id of the card at output position `index`; `now` stands for Date.now(). */
  function CardId(now: nat, index: nat): string {
    "card-" + NatToString(now) + "-" + NatToString(index)
  }

  /** validFlashcards: filter on both sides, cut to 20, then number, trim and unmaster. */
  function ValidFlashcards(entries: seq<RawCard>, now: nat): (r: seq<Store.Flashcard>)
    ensures var kept := Slice0(Filter(entries, BothSides), MaxGeneratedCards);
      && |r| == |kept| <= MaxGeneratedCards
      && forall i :: 0 <= i < |r| ==>
           && BothSides(kept[i]) && kept[i] in entries
           && r[i] == Store.Flashcard(CardId(now, i), Trim(kept[i].front.value), Trim(kept[i].back.value), false)
  {
    var kept := Slice0(Filter(entries, BothSides), MaxGeneratedCards);
    seq(|kept|, i requires 0 <= i < |kept| => Store.Flashcard(CardId(now, i), Trim(kept[i].front.value), Trim(kept[i].back.value), false))
  }

  /** Every entry with both sides is kept, in order, as long as there are at most 20 of them;
      no card is mastered, and ids are distinct because they differ in the position suffix. */
  lemma ValidFlashcardsShape(entries: seq<RawCard>, now: nat)
    ensures var r := ValidFlashcards(entries, now);
      && (|Filter(entries, BothSides)| <= MaxGeneratedCards ==> |r| == |Filter(entries, BothSides)|)
      && (forall i :: 0 <= i < |r| ==> !r[i].mastered)
      && (forall i, j :: 0 <= i < j < |r| ==> r[i].id != r[j].id)
  {
    var r := ValidFlashcards(entries, now);
    forall i, j | 0 <= i < j < |r|
      ensures r[i].id != r[j].id
    {
      var p := "card-" + NatToString(now) + "-";
      assert r[i].id == p + NatToString(i) && r[j].id == p + NatToString(j);
      if r[i].id == r[j].id {
        assert NatToString(i) == r[i].id[|p|..];
        assert NatToString(j) == r[j].id[|p|..];
        NatToStringInjective(i, j);
      }
    }
  }

  lemma TrimSidesExample()
    ensures Trim(" ") == "" && Trim("4") == "4"
  {
    assert AllWhitespace(" ");
    assert LeadCount("4") == 0 && "4"[0..] == "4" && TrailCount("4") == 0;
  }

  /** The filter looks at the untrimmed sides, so a side of spaces survives as an empty one. */
  lemma BlankSideSurvives()
    ensures ValidFlashcards([RawCard(Some(" "), Some("4"))], 7) == [Store.Flashcard("card-7-0", "", "4", false)]
  {
    var entries := [RawCard(Some(" "), Some("4"))];
    assert BothSides(entries[0]);
    assert Filter(entries, BothSides) == entries;
    assert entries[..1] == entries;
    assert CardId(7, 0) == "card-7-0" by {
      assert NatToString(7) == "7" && NatToString(0) == "0";
    }
    TrimSidesExample();
    var r := ValidFlashcards(entries, 7);
    assert |r| == 1;
  }

  /** The function's response; every failure other than the gateway's 429 and 402 becomes the
      same 500 response. */
  function HandleFlashcardsRequest(req: FlashcardsRequest, keyConfigured: bool, gateway: GatewayReply,
                                   parse: string -> Parsed<RawCard>, now: nat): (r: Reply<Store.Flashcard>)
    ensures r.status in {200, 402, 429, 500}
    ensures r.status == 500 ==> r.body == ErrorBody(GenericFailure)
    ensures r.status == 429 <==> keyConfigured && FlashcardMessages(req).Success? && !gateway.Ok() && gateway.status == 429
    ensures r.status == 402 <==> keyConfigured && FlashcardMessages(req).Success? && !gateway.Ok() && gateway.status == 402
    ensures r.status == 200 <==>
      && keyConfigured && FlashcardMessages(req).Success? && gateway.Ok() && Truthy(gateway.content)
      && parse(ExtractArrayText(gateway.content.value)).Entries?
      && NullCard !in parse(ExtractArrayText(gateway.content.value)).entries
    ensures r.status == 200 ==> r.body == Payload(ValidFlashcards(parse(ExtractArrayText(gateway.content.value)).entries, now))
  {
    if !keyConfigured || FlashcardMessages(req).Failure? then Reply(500, ErrorBody(GenericFailure))
    else if !gateway.Ok() then
      if gateway.status == 429 then Reply(429, ErrorBody(RateLimited))
      else if gateway.status == 402 then Reply(402, ErrorBody(UsageLimited))
      else Reply(500, ErrorBody(GenericFailure))
    else if !Truthy(gateway.content) then Reply(500, ErrorBody(GenericFailure))
    else match parse(ExtractArrayText(gateway.content.value))
      case Entries(entries) =>
        if NullCard in entries then Reply(500, ErrorBody(GenericFailure))
        else Reply(200, Payload(ValidFlashcards(entries, now)))
      case _ => Reply(500, ErrorBody(GenericFailure))
  }
}

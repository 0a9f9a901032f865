/**
 * The deck editor: generating cards from notes or an image, editing, deleting and adding them
 * within the card limit, and saving the complete ones under a title.
 */
module CreateDeckModal {
  import opened Wrappers
  import opened Text
  import opened Lists
  import opened Store
  import AiText
  import GenerateFlashcards

  datatype Step = InputStep | EditStep
  datatype InputMode = TextMode | ImageMode
  datatype Side = Front | Back

  const UntitledDeck := "My Flashcard Deck"
  const TitleLength := 30

  /** The card limit: 20 for premium accounts, 10 otherwise. */
  function MaxCards(isPremium: bool): nat {
    if isPremium then 20 else 10
  }

  /** The server returns at most 20 cards, so a premium account keeps every generated card,
      while a free account's editor may cut a reply to its first 10. */
  lemma PremiumKeepsServerCards(entries: seq<GenerateFlashcards.RawCard>, now: nat)
    ensures var cards := GenerateFlashcards.ValidFlashcards(entries, now);
      && Slice0(cards, MaxCards(true)) == cards
      && |Slice0(cards, MaxCards(false))| == if |cards| < 10 then |cards| else 10
  {
    var cards := GenerateFlashcards.ValidFlashcards(entries, now);
    assert cards[..|cards|] == cards;
  }

  /** The title proposed after generation: the first 30 characters of the notes (or the
      fallback title when there are none), trimmed, with "..." when the cut took 30 characters. */
  function DefaultTitle(notes: string): string {
    var base := if notes == [] then UntitledDeck else Prefix(notes, TitleLength);
    Trim(base) + (if |base| >= TitleLength then "..." else "")
  }

  /** No notes give the fallback title; short notes give their trim; longer ones the trim of
      their first 30 characters and "...", so the title never exceeds 33 characters. */
  lemma DefaultTitleShape(notes: string)
    ensures notes == [] ==> DefaultTitle(notes) == UntitledDeck
    ensures 0 < |notes| < TitleLength ==> DefaultTitle(notes) == Trim(notes)
    ensures |notes| >= TitleLength ==> DefaultTitle(notes) == Trim(notes[..TitleLength]) + "..."
    ensures |DefaultTitle(notes)| <= TitleLength + 3
  {
    TrimUnchanged(UntitledDeck);
  }

  /** `cards.map(card => card.id === cardId ? { ...card, [field]: value } : card)` */
  function UpdateCard(cards: seq<Flashcard>, cardId: string, side: Side, value: string): seq<Flashcard> {
    seq(|cards|, i requires 0 <= i < |cards| =>
      if cards[i].id != cardId then cards[i]
      else if side == Front then cards[i].(front := value) else cards[i].(back := value))
  }

  /** An edit touches only the named side: ids, mastery and the other side stay, and an edit
      of an id that is not in the list changes nothing. */
  lemma UpdateCardKeeps(cards: seq<Flashcard>, cardId: string, side: Side, value: string)
    ensures var r := UpdateCard(cards, cardId, side, value);
      && (forall i :: 0 <= i < |cards| ==> r[i].id == cards[i].id && r[i].mastered == cards[i].mastered)
      && (forall i :: 0 <= i < |cards| ==> (side == Front ==> r[i].back == cards[i].back) && (side == Back ==> r[i].front == cards[i].front))
      && ((forall i :: 0 <= i < |cards| ==> cards[i].id != cardId) ==> r == cards)
  {
  }

  predicate HasOtherId(cardId: string, c: Flashcard) {
    c.id != cardId
  }

  /** `cards.filter(card => card.id !== cardId)` */
  function DeleteCard(cards: seq<Flashcard>, cardId: string): (r: seq<Flashcard>)
    ensures |r| <= |cards|
    ensures forall i :: 0 <= i < |r| ==> r[i].id != cardId && r[i] in cards
    ensures forall i :: 0 <= i < |cards| && cards[i].id != cardId ==> cards[i] in r
  {
    Filter(cards, c => HasOtherId(cardId, c))
  }

  /** Deleting keeps the order of the rest, and deleting an id that is not there changes nothing. */
  lemma DeleteCardKeepsOrder(a: seq<Flashcard>, b: seq<Flashcard>, cardId: string)
    ensures DeleteCard(a + b, cardId) == DeleteCard(a, cardId) + DeleteCard(b, cardId)
    ensures (forall i :: 0 <= i < |a| ==> a[i].id != cardId) ==> DeleteCard(a, cardId) == a
  {
    FilterAppend(a, b, c => HasOtherId(cardId, c));
    if forall i :: 0 <= i < |a| ==> a[i].id != cardId {
      FilterAllPass(a, c => HasOtherId(cardId, c));
    }
  }

  /** A card both of whose sides have text besides whitespace. */
  predicate IsComplete(c: Flashcard) {
    !IsBlank(c.front) && !IsBlank(c.back)
  }

  /** validCards: the complete cards, in order. */
  function ValidCards(cards: seq<Flashcard>): (r: seq<Flashcard>)
    ensures |r| <= |cards|
    ensures forall i :: 0 <= i < |r| ==> IsComplete(r[i]) && r[i] in cards
    ensures forall i :: 0 <= i < |cards| && IsComplete(cards[i]) ==> cards[i] in r
  {
    Filter(cards, IsComplete)
  }

  /** There is nothing to save exactly when no card is complete. */
  lemma ValidCardsEmpty(cards: seq<Flashcard>)
    ensures ValidCards(cards) == [] <==> forall i :: 0 <= i < |cards| ==> !IsComplete(cards[i])
  {
    var r := ValidCards(cards);
    if r != [] {
      assert IsComplete(r[0]) && r[0] in cards;
    }
  }

  /** The request handleGenerate sends: the notes in text mode, the image in image mode. */
  function GenerateRequest(mode: InputMode, notes: string, image: Option<string>): GenerateFlashcards.FlashcardsRequest {
    GenerateFlashcards.FlashcardsRequest(
      if mode == TextMode then Some(notes) else None,
      if mode == ImageMode then image else None)
  }

  /** The editor only sends requests that the server's input selection accepts. */
  lemma GenerateRequestAccepted(mode: InputMode, notes: string, image: Option<string>)
    requires mode == TextMode ==> !IsBlank(notes)
    requires mode == ImageMode ==> AiText.Truthy(image)
    ensures GenerateFlashcards.FlashcardMessages(GenerateRequest(mode, notes, image)).Success?
  {
    if mode == TextMode {
      assert |Trim(notes)| <= |notes|;
    }
  }

  /** What handleSave hands to onCreateDeck. */
  datatype NewDeck = NewDeck(title: string, cards: seq<Flashcard>)

  /** The editor's state, compared as a whole to say what an action changes. */
  datatype EditorState = EditorState(
    step: Step, inputMode: InputMode, notes: string, imagePreview: Option<string>,
    generatedCards: seq<Flashcard>, deckTitle: string, editingCard: Option<string>)

  const InitialEditor := EditorState(InputStep, TextMode, "", None, [], "", None)

  class DeckEditor {
    const isPremium: bool
    var step: Step
    var inputMode: InputMode
    var notes: string
    var imagePreview: Option<string>
    var generatedCards: seq<Flashcard>
    var deckTitle: string
    var editingCard: Option<string>

    function State(): EditorState
      reads this
    {
      EditorState(step, inputMode, notes, imagePreview, generatedCards, deckTitle, editingCard)
    }

    /** The card list is within the limit. */
    predicate WithinCardLimit()
      reads this
    {
      |generatedCards| <= MaxCards(isPremium)
    }

    constructor (isPremium: bool)
      ensures this.isPremium == isPremium && State() == InitialEditor && WithinCardLimit()
    {
      this.isPremium := isPremium;
      step, inputMode, notes, imagePreview := InputStep, TextMode, "", None;
      generatedCards, deckTitle, editingCard := [], "", None;
    }

    /** handleGenerate: with blank notes in text mode or no image in image mode nothing is sent;
        otherwise the request carries the input of the current mode, and a reply with a card
        list moves to editing with at most MaxCards cards and the default title. */
    method HandleGenerate(reply: Option<seq<Flashcard>>) returns (request: Option<GenerateFlashcards.FlashcardsRequest>)
      modifies this
      ensures request.None? <==>
        (old(inputMode) == TextMode && IsBlank(old(notes))) || (old(inputMode) == ImageMode && !AiText.Truthy(old(imagePreview)))
      ensures request.Some? ==> request.value == GenerateRequest(old(inputMode), old(notes), old(imagePreview))
      ensures request.Some? ==> GenerateFlashcards.FlashcardMessages(request.value).Success?
      ensures request.Some? && reply.Some? ==>
        State() == old(State()).(generatedCards := Slice0(reply.value, MaxCards(isPremium)), step := EditStep,
                                 deckTitle := DefaultTitle(old(notes)))
      ensures request.None? || reply.None? ==> State() == old(State())
      ensures old(WithinCardLimit()) ==> WithinCardLimit()
    {
      if inputMode == TextMode && IsBlank(notes) {
        return None;
      }
      if inputMode == ImageMode && !AiText.Truthy(imagePreview) {
        return None;
      }
      GenerateRequestAccepted(inputMode, notes, imagePreview);
      request := Some(GenerateRequest(inputMode, notes, imagePreview));
      if reply.Some? {
        ShowGenerated(reply.value, DefaultTitle(notes));
      }
    }

    /** The success path of handleGenerate: the cards cut to the limit, the edit step and the
        proposed title. */
    method ShowGenerated(cards: seq<Flashcard>, title: string)
      modifies this
      ensures State() == old(State()).(generatedCards := Slice0(cards, MaxCards(isPremium)), step := EditStep,
                                       deckTitle := title)
      ensures WithinCardLimit()
    {
      generatedCards, step, deckTitle := Slice0(cards, MaxCards(isPremium)), EditStep, title;
    }

    /** handleUpdateCard */
    method HandleUpdateCard(cardId: string, side: Side, value: string)
      modifies this
      ensures State() == old(State()).(generatedCards := UpdateCard(old(generatedCards), cardId, side, value))
      ensures old(WithinCardLimit()) ==> WithinCardLimit()
    {
      generatedCards := UpdateCard(generatedCards, cardId, side, value);
    }

    /** handleDeleteCard */
    method HandleDeleteCard(cardId: string)
      modifies this
      ensures State() == old(State()).(generatedCards := DeleteCard(old(generatedCards), cardId))
      ensures old(WithinCardLimit()) ==> WithinCardLimit()
    {
      generatedCards := DeleteCard(generatedCards, cardId);
    }

    /** handleAddCard: refused at the limit; otherwise one blank card is appended and opened for
        editing. `now` stands for Date.now(). */
    method HandleAddCard(now: nat)
      modifies this
      ensures |old(generatedCards)| >= MaxCards(isPremium) ==> State() == old(State())
      ensures |old(generatedCards)| < MaxCards(isPremium) ==>
        var card := Flashcard("card-" + NatToString(now), "", "", false);
        State() == old(State()).(generatedCards := old(generatedCards) + [card], editingCard := Some(card.id))
      ensures old(WithinCardLimit()) ==> WithinCardLimit()
    {
      if |generatedCards| >= MaxCards(isPremium) {
        return;
      }
      var card := Flashcard("card-" + NatToString(now), "", "", false);
      generatedCards := generatedCards + [card];
      editingCard := Some(card.id);
    }

    /** handleClose: every field back to its initial value. */
    method HandleClose()
      modifies this
      ensures State() == InitialEditor && WithinCardLimit()
    {
      step, inputMode, notes, imagePreview := InputStep, TextMode, "", None;
      generatedCards, deckTitle, editingCard := [], "", None;
    }

    /** handleSave: a blank title or no complete card is refused with nothing changed; otherwise
        the trimmed title and the complete cards are handed on and the editor is reset. */
    method HandleSave() returns (created: Option<NewDeck>)
      modifies this
      ensures created.None? <==> IsBlank(old(deckTitle)) || ValidCards(old(generatedCards)) == []
      ensures created.None? ==> State() == old(State())
      ensures created.Some? ==>
        && created.value == NewDeck(Trim(old(deckTitle)), ValidCards(old(generatedCards)))
        && created.value.title != [] && created.value.cards != []
        && State() == InitialEditor
      ensures old(WithinCardLimit()) ==> WithinCardLimit()
    {
      if IsBlank(deckTitle) {
        return None;
      }
      var validCards := ValidCards(generatedCards);
      if validCards == [] {
        return None;
      }
      created := Some(NewDeck(Trim(deckTitle), validCards));
      HandleClose();
    }
  }
}

/**
 * The flashcards tab: the one-cycle free trial deck, the premium-only deck creation, and the
 * viewer's cursor machine over (currentIndex, cycleCount).
 */
module FlashcardsTab {
  import opened Wrappers
  import opened Text
  import opened Lists
  import opened Store

  const FreeTrialId := "free-trial"

  /** The eight sample cards of the free trial. */
  const SampleDeck: seq<Flashcard> := [
    Flashcard("1", "What is the quadratic formula?", "x = (-b \U{00B1} \U{221A}(b\U{00B2}-4ac)) / 2a", false),
    Flashcard("2", "What is the Pythagorean theorem?", "a\U{00B2} + b\U{00B2} = c\U{00B2}", false),
    Flashcard("3", "What is the area of a circle?", "A = \U{03C0}r\U{00B2}", false),
    Flashcard("4", "What is slope-intercept form?", "y = mx + b", false),
    Flashcard("5", "What is the circumference of a circle?", "C = 2\U{03C0}r or C = \U{03C0}d", false),
    Flashcard("6", "What is the volume of a cube?", "V = s\U{00B3}", false),
    Flashcard("7", "What is PEMDAS?", "Parentheses, Exponents, Multiplication, Division, Addition, Subtraction", false),
    Flashcard("8", "What is the area of a triangle?", "A = \U{00BD}bh", false)
  ]

  /** The deck handleTryFree opens; `now` stands for Date.now(). */
  function FreeTrialDeck(now: int): (d: FlashcardDeck)
    ensures d.id == FreeTrialId && d.currentIndex == 0 && d.cycleCount == 0 && d.timestamp == now
    ensures d.title == "Math Fundamentals (Free Trial)" && d.cards == SampleDeck
    ensures |d.cards| == 8 && forall i :: 0 <= i < |d.cards| ==> !d.cards[i].mastered
  {
    FlashcardDeck(FreeTrialId, "Math Fundamentals (Free Trial)", Slice0(SampleDeck, 8), 0, 0, now)
  }

  /** The viewer's position: the card shown and the number of completed passes. */
  datatype Cursor = Cursor(index: int, cycle: int)

  function CursorOf(d: FlashcardDeck): Cursor {
    Cursor(d.currentIndex, d.cycleCount)
  }

  /** handleNext outside the end of a trial: the next card, or back to the first card of the
      next cycle. */
  function Next(c: Cursor, len: int): Cursor {
    if c.index < len - 1 then Cursor(c.index + 1, c.cycle) else Cursor(0, c.cycle + 1)
  }

  /** handlePrev: one card back, never before the first. */
  function Prev(c: Cursor): Cursor {
    if c.index > 0 then Cursor(c.index - 1, c.cycle) else c
  }

  /** The reset button: back to the first card of the same cycle. */
  function Reset(c: Cursor): Cursor {
    Cursor(0, c.cycle)
  }

  predicate InRange(c: Cursor, len: int) {
    0 <= c.index < len
  }

  /** `k` presses of next. */
  function NextN(c: Cursor, len: int, k: nat): Cursor {
    if k == 0 then c else Next(NextN(c, len, k - 1), len)
  }

  /** On a deck with cards every move keeps the cursor on a card; next and prev never lower
      the cycle count, and only next on the last card raises it. */
  lemma CursorStaysInRange(c: Cursor, len: int)
    requires InRange(c, len)
    ensures InRange(Next(c, len), len) && InRange(Prev(c), len) && InRange(Reset(c), len)
    ensures Next(c, len).cycle == if c.index == len - 1 then c.cycle + 1 else c.cycle
    ensures Prev(c).cycle == c.cycle && Reset(c).cycle == c.cycle
  {
  }

  /** Within the first pass, k presses of next from the first card show card k. */
  lemma {:induction false} NextWithinCycle(len: int, cycle: int, k: nat)
    requires k < len
    ensures NextN(Cursor(0, cycle), len, k) == Cursor(k, cycle)
  {
    if k > 0 {
      NextWithinCycle(len, cycle, k - 1);
    }
  }

  /** A full pass of `len` presses from the first card returns to it with one more cycle. */
  lemma FullCycle(len: int, cycle: int)
    requires len >= 1
    ensures NextN(Cursor(0, cycle), len, len) == Cursor(0, cycle + 1)
  {
    NextWithinCycle(len, cycle, len - 1);
  }

  /** `{ currentIndex: i }` */
  function IndexPatch(i: int): DeckPatch {
    DeckPatch(None, None, None, Some(i), None, None)
  }

  /** The update handleNext sends when it does not end a trial. */
  function NextPatch(d: FlashcardDeck): DeckPatch {
    if d.currentIndex < |d.cards| - 1 then IndexPatch(d.currentIndex + 1)
    else DeckPatch(None, None, None, Some(0), Some(d.cycleCount + 1), None)
  }

  /** The viewer's onUpdate: a saved deck is updated in the store's list and as the active deck,
      the trial deck only as the active deck. */
  function AfterViewerUpdate(s: AppState, p: DeckPatch): (r: AppState)
    requires s.activeDeck.Some?
    ensures r.activeDeck == Some(MergeDeck(s.activeDeck.value, p))
    ensures s.activeDeck.value.id == FreeTrialId ==> r.flashcardDecks == s.flashcardDecks
    ensures r.(flashcardDecks := s.flashcardDecks, activeDeck := s.activeDeck) == s
  {
    var d := s.activeDeck.value;
    if d.id != FreeTrialId then
      s.(flashcardDecks := UpdateDecks(s.flashcardDecks, d.id, p), activeDeck := UpdateActiveDeck(s.activeDeck, d.id, p))
    else s.(activeDeck := Some(MergeDeck(d, p)))
  }

  /** The cursor of the active deck after one of the viewer's updates is the one the cursor
      machine prescribes. */
  lemma NextPatchFollowsCursor(d: FlashcardDeck)
    ensures CursorOf(MergeDeck(d, NextPatch(d))) == Next(CursorOf(d), |d.cards|)
    ensures d.currentIndex > 0 ==> CursorOf(MergeDeck(d, IndexPatch(d.currentIndex - 1))) == Prev(CursorOf(d))
    ensures CursorOf(MergeDeck(d, IndexPatch(0))) == Reset(CursorOf(d))
    ensures MergeDeck(d, NextPatch(d)).cards == d.cards && MergeDeck(d, NextPatch(d)).id == d.id
  {
  }

  class FlashcardsTabState {
    const store: AppStore
    var deckTitle: string
    var showCreateForm: bool

    constructor (store: AppStore)
      ensures this.store == store && deckTitle == "" && !showCreateForm
    {
      this.store := store;
      deckTitle := "";
      showCreateForm := false;
    }

    /** handleTryFree: a used trial of a free account opens the premium modal; otherwise the
        sample deck is shown from its first card. */
    method HandleTryFree(now: int)
      modifies store
      ensures !old(store.CanUseFlashcards()) ==> store.Snapshot() == old(store.Snapshot()).(showPremiumModal := true)
      ensures old(store.CanUseFlashcards()) ==> store.Snapshot() == old(store.Snapshot()).(activeDeck := Some(FreeTrialDeck(now)))
    {
      if store.hasUsedFreeTrial && !store.isPremium {
        store.SetShowPremiumModal(true);
        return;
      }
      store.SetActiveDeck(Some(FreeTrialDeck(now)));
    }

    /** The header's Create Deck button. */
    method OpenCreateForm()
      modifies this, store
      ensures old(store.isPremium) ==> showCreateForm && store.Snapshot() == old(store.Snapshot())
      ensures !old(store.isPremium) ==>
        showCreateForm == old(showCreateForm) && store.Snapshot() == old(store.Snapshot()).(showPremiumModal := true)
      ensures deckTitle == old(deckTitle)
    {
      if store.isPremium {
        showCreateForm := true;
      } else {
        store.SetShowPremiumModal(true);
      }
    }

    /** handleCreateDeck: free accounts get the premium modal; a blank title does nothing;
        otherwise an empty deck with the untrimmed title is created and opened. */
    method HandleCreateDeck(now: nat)
      modifies this, store
      ensures !old(store.isPremium) ==>
        store.Snapshot() == old(store.Snapshot()).(showPremiumModal := true)
        && deckTitle == old(deckTitle) && showCreateForm == old(showCreateForm)
      ensures old(store.isPremium) && IsBlank(old(deckTitle)) ==>
        store.Snapshot() == old(store.Snapshot()) && deckTitle == old(deckTitle) && showCreateForm == old(showCreateForm)
      ensures old(store.isPremium) && !IsBlank(old(deckTitle)) ==>
        var deck := FlashcardDeck(NatToString(now), old(deckTitle), [], 0, 0, now);
        && store.Snapshot() == old(store.Snapshot()).(flashcardDecks := [deck] + old(store.flashcardDecks), activeDeck := Some(deck))
        && deckTitle == "" && !showCreateForm
    {
      if !store.isPremium {
        store.SetShowPremiumModal(true);
        return;
      }
      if IsBlank(deckTitle) {
        return;
      }
      var deck := FlashcardDeck(NatToString(now), deckTitle, [], 0, 0, now);
      var created := store.CreateFlashcardDeck(deck);
      if created {
        store.SetActiveDeck(Some(deck));
        deckTitle := "";
        showCreateForm := false;
      }
    }

    /** A click on a deck of the list. */
    method OpenDeck(i: int)
      requires 0 <= i < |store.flashcardDecks|
      modifies store
      ensures store.Snapshot() == old(store.Snapshot()).(activeDeck := Some(old(store.flashcardDecks[i])))
    {
      store.SetActiveDeck(Some(store.flashcardDecks[i]));
    }

    /** The viewer's onClose: leaving the trial deck marks the trial as used. */
    method CloseViewer()
      requires store.activeDeck.Some?
      modifies store
      ensures store.Snapshot() == old(store.Snapshot()).(
        activeDeck := None,
        hasUsedFreeTrial := old(store.hasUsedFreeTrial) || old(store.activeDeck.value.id) == FreeTrialId)
    {
      if store.activeDeck.value.id == FreeTrialId {
        store.SetHasUsedFreeTrial(true);
      }
      store.SetActiveDeck(None);
    }

    /** The viewer's onUpdate. */
    method UpdateViewer(p: DeckPatch)
      requires store.activeDeck.Some?
      modifies store
      ensures store.Snapshot() == AfterViewerUpdate(old(store.Snapshot()), p)
    {
      var deck := store.activeDeck.value;
      if deck.id != FreeTrialId {
        store.UpdateDeck(deck.id, p);
      } else {
        store.SetActiveDeck(Some(MergeDeck(deck, p)));
      }
    }

    /** The viewer shows a card of the active deck. */
    predicate ShowsCard()
      reads this, store
    {
      store.activeDeck.Some? && InRange(CursorOf(store.activeDeck.value), |store.activeDeck.value.cards|)
    }

    /** Whether next on the last card ends the viewer instead of wrapping. */
    predicate EndsTrial(isPremium: bool, d: FlashcardDeck) {
      d.id == FreeTrialId && !isPremium && d.currentIndex >= |d.cards| - 1
    }

    /** handleNext: at the end of a free account's trial the viewer closes with the trial used
        and the premium modal open; otherwise the cursor moves as Next prescribes and stays on
        a card. */
    method ViewerNext()
      requires ShowsCard()
      modifies store
      ensures EndsTrial(old(store.isPremium), old(store.activeDeck.value)) ==>
        store.Snapshot() == old(store.Snapshot()).(activeDeck := None, hasUsedFreeTrial := true, showPremiumModal := true)
      ensures !EndsTrial(old(store.isPremium), old(store.activeDeck.value)) ==>
        var d := old(store.activeDeck.value);
        && store.Snapshot() == AfterViewerUpdate(old(store.Snapshot()), NextPatch(d))
        && CursorOf(store.activeDeck.value) == Next(CursorOf(d), |d.cards|)
        && ShowsCard()
    {
      var deck := store.activeDeck.value;
      NextPatchFollowsCursor(deck);
      CursorStaysInRange(CursorOf(deck), |deck.cards|);
      if deck.currentIndex < |deck.cards| - 1 {
        UpdateViewer(IndexPatch(deck.currentIndex + 1));
      } else if deck.id == FreeTrialId && !store.isPremium {
        store.SetShowPremiumModal(true);
        CloseViewer();
      } else {
        UpdateViewer(DeckPatch(None, None, None, Some(0), Some(deck.cycleCount + 1), None));
      }
    }

    /** handlePrev: moves back as Prev prescribes; on the first card nothing changes. */
    method ViewerPrev()
      requires ShowsCard()
      modifies store
      ensures old(store.activeDeck.value.currentIndex) == 0 ==> store.Snapshot() == old(store.Snapshot())
      ensures old(store.activeDeck.value.currentIndex) > 0 ==>
        store.Snapshot() == AfterViewerUpdate(old(store.Snapshot()), IndexPatch(old(store.activeDeck.value.currentIndex) - 1))
      ensures CursorOf(store.activeDeck.value) == Prev(CursorOf(old(store.activeDeck.value))) && ShowsCard()
    {
      var deck := store.activeDeck.value;
      NextPatchFollowsCursor(deck);
      if deck.currentIndex > 0 {
        UpdateViewer(IndexPatch(deck.currentIndex - 1));
      }
    }

    /** The reset button: back to the first card with the cycle count kept. */
    method ViewerReset()
      requires ShowsCard()
      modifies store
      ensures store.Snapshot() == AfterViewerUpdate(old(store.Snapshot()), IndexPatch(0))
      ensures CursorOf(store.activeDeck.value) == Reset(CursorOf(old(store.activeDeck.value))) && ShowsCard()
    {
      NextPatchFollowsCursor(store.activeDeck.value);
      UpdateViewer(IndexPatch(0));
    }
  }
  /** The free trial is available once: on a fresh free account the first try opens the trial
      deck; after the viewer is closed a second try opens nothing and shows the premium modal. */
  method FreeTrialOnce(now: int) returns (firstOpened: bool, secondOpened: bool, modalShown: bool)
    ensures firstOpened && !secondOpened && modalShown
  {
    var store := new AppStore();
    var tab := new FlashcardsTabState(store);
    tab.HandleTryFree(now);
    firstOpened := store.activeDeck == Some(FreeTrialDeck(now));
    tab.CloseViewer();
    tab.HandleTryFree(now);
    secondOpened := store.activeDeck.Some?;
    modalShown := store.showPremiumModal;
  }
}

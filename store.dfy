/**
 * The application store: premium status, lifetime usage counters checked against the free
 * limits, and the homework, quiz and flashcard-deck histories with the active quiz and deck.
 * One mutable object whose actions replace some of its fields.
 */
module Store {
  import opened Wrappers

  const FreeImageLimit := 5
  const FreeQuizLimit := 5

  datatype HomeworkAnswer = HomeworkAnswer(
    id: string, question: string, answer: string, steps: seq<string>,
    finalAnswer: string, timestamp: int, imageUrl: Option<string>)

  datatype QuizQuestion = QuizQuestion(
    id: string, question: string, options: seq<string>, correctAnswer: int,
    explanation: string, userAnswer: Option<int>)

  datatype Quiz = Quiz(
    id: string, title: string, topic: string, questions: seq<QuizQuestion>,
    score: Option<int>, completed: bool, timestamp: int)

  datatype Flashcard = Flashcard(id: string, front: string, back: string, mastered: bool)

  datatype FlashcardDeck = FlashcardDeck(
    id: string, title: string, cards: seq<Flashcard>, currentIndex: int, cycleCount: int, timestamp: int)

  /** A `Partial<Quiz>`: each present key overrides that field when spread over a quiz. The
      optional `score` key may be present with the value `undefined`, written Some(None). */
  datatype QuizPatch = QuizPatch(
    id: Option<string>, title: Option<string>, topic: Option<string>,
    questions: Option<seq<QuizQuestion>>, score: Option<Option<int>>,
    completed: Option<bool>, timestamp: Option<int>)

  /** A `Partial<FlashcardDeck>`. */
  datatype DeckPatch = DeckPatch(
    id: Option<string>, title: Option<string>, cards: Option<seq<Flashcard>>,
    currentIndex: Option<int>, cycleCount: Option<int>, timestamp: Option<int>)

  /** The empty patches `{}`. */
  const NoQuizChange := QuizPatch(None, None, None, None, None, None, None)
  const NoDeckChange := DeckPatch(None, None, None, None, None, None)

  /** `{ ...q, ...p }` */
  function MergeQuiz(q: Quiz, p: QuizPatch): Quiz {
    Quiz(p.id.GetOr(q.id), p.title.GetOr(q.title), p.topic.GetOr(q.topic),
         p.questions.GetOr(q.questions), p.score.GetOr(q.score),
         p.completed.GetOr(q.completed), p.timestamp.GetOr(q.timestamp))
  }

  /** `{ ...d, ...p }` */
  function MergeDeck(d: FlashcardDeck, p: DeckPatch): FlashcardDeck {
    FlashcardDeck(p.id.GetOr(d.id), p.title.GetOr(d.title), p.cards.GetOr(d.cards),
                  p.currentIndex.GetOr(d.currentIndex), p.cycleCount.GetOr(d.cycleCount),
                  p.timestamp.GetOr(d.timestamp))
  }

  /** `quizzes.map(q => q.id === quizId ? { ...q, ...p } : q)` */
  function UpdateQuizzes(quizzes: seq<Quiz>, quizId: string, p: QuizPatch): (r: seq<Quiz>)
    ensures |r| == |quizzes|
    ensures forall i :: 0 <= i < |quizzes| && quizzes[i].id != quizId ==> r[i] == quizzes[i]
    ensures (forall i :: 0 <= i < |quizzes| ==> quizzes[i].id != quizId) ==> r == quizzes
    ensures p == NoQuizChange ==> r == quizzes
    ensures p.id.None? || p.id == Some(quizId) ==> forall i :: 0 <= i < |quizzes| ==> r[i].id == quizzes[i].id
  {
    seq(|quizzes|, i requires 0 <= i < |quizzes| =>
      if quizzes[i].id == quizId then MergeQuiz(quizzes[i], p) else quizzes[i])
  }

  /** `decks.map(d => d.id === deckId ? { ...d, ...p } : d)` */
  function UpdateDecks(decks: seq<FlashcardDeck>, deckId: string, p: DeckPatch): (r: seq<FlashcardDeck>)
    ensures |r| == |decks|
    ensures forall i :: 0 <= i < |decks| && decks[i].id != deckId ==> r[i] == decks[i]
    ensures (forall i :: 0 <= i < |decks| ==> decks[i].id != deckId) ==> r == decks
    ensures p == NoDeckChange ==> r == decks
    ensures p.id.None? || p.id == Some(deckId) ==> forall i :: 0 <= i < |decks| ==> r[i].id == decks[i].id
  {
    seq(|decks|, i requires 0 <= i < |decks| =>
      if decks[i].id == deckId then MergeDeck(decks[i], p) else decks[i])
  }

  /** The active item is merged only when its id matches. */
  function UpdateActiveQuiz(active: Option<Quiz>, quizId: string, p: QuizPatch): Option<Quiz> {
    if active.Some? && active.value.id == quizId then Some(MergeQuiz(active.value, p)) else active
  }

  function UpdateActiveDeck(active: Option<FlashcardDeck>, deckId: string, p: DeckPatch): Option<FlashcardDeck> {
    if active.Some? && active.value.id == deckId then Some(MergeDeck(active.value, p)) else active
  }

  /** Applying the same update twice is the same as applying it once, as long as the update does
      not rename the quiz it addresses. */
  lemma UpdateQuizzesIdempotent(quizzes: seq<Quiz>, quizId: string, p: QuizPatch)
    requires p.id.None? || p.id == Some(quizId)
    ensures UpdateQuizzes(UpdateQuizzes(quizzes, quizId, p), quizId, p) == UpdateQuizzes(quizzes, quizId, p)
  {
    var once := UpdateQuizzes(quizzes, quizId, p);
    var twice := UpdateQuizzes(once, quizId, p);
    forall i | 0 <= i < |quizzes| ensures twice[i] == once[i] {
      if quizzes[i].id == quizId {
        assert once[i].id == quizId;
      }
    }
  }

  /** The same for decks; moreover entries whose id differs are left untouched, so the ids of a
      list are kept by any update that does not rename. */
  lemma UpdateDecksIdempotent(decks: seq<FlashcardDeck>, deckId: string, p: DeckPatch)
    requires p.id.None? || p.id == Some(deckId)
    ensures UpdateDecks(UpdateDecks(decks, deckId, p), deckId, p) == UpdateDecks(decks, deckId, p)
    ensures forall i :: 0 <= i < |decks| ==> UpdateDecks(decks, deckId, p)[i].id == decks[i].id
  {
    var once := UpdateDecks(decks, deckId, p);
    var twice := UpdateDecks(once, deckId, p);
    forall i | 0 <= i < |decks| ensures twice[i] == once[i] {
      if decks[i].id == deckId {
        assert once[i].id == deckId;
      }
    }
  }

  /** The persisted and transient fields the actions below read and replace. */
  datatype AppState = AppState(
    isPremium: bool,
    imageUploadsUsed: int,
    quizzesCreated: int,
    homeworkHistory: seq<HomeworkAnswer>,
    quizHistory: seq<Quiz>,
    activeQuiz: Option<Quiz>,
    flashcardDecks: seq<FlashcardDeck>,
    activeDeck: Option<FlashcardDeck>,
    hasUsedFreeTrial: bool,
    showPremiumModal: bool)

  class AppStore {
    var isPremium: bool
    var imageUploadsUsed: int
    var quizzesCreated: int
    var homeworkHistory: seq<HomeworkAnswer>
    var quizHistory: seq<Quiz>
    var activeQuiz: Option<Quiz>
    var flashcardDecks: seq<FlashcardDeck>
    var activeDeck: Option<FlashcardDeck>
    var hasUsedFreeTrial: bool
    var showPremiumModal: bool

    function Snapshot(): AppState
      reads this
    {
      AppState(isPremium, imageUploadsUsed, quizzesCreated, homeworkHistory, quizHistory,
               activeQuiz, flashcardDecks, activeDeck, hasUsedFreeTrial, showPremiumModal)
    }

    /** The initial state: a free account with nothing used and nothing recorded. */
    constructor ()
      ensures Snapshot() == AppState(false, 0, 0, [], [], None, [], None, false, false)
    {
      isPremium, imageUploadsUsed, quizzesCreated := false, 0, 0;
      homeworkHistory, quizHistory, activeQuiz := [], [], None;
      flashcardDecks, activeDeck := [], None;
      hasUsedFreeTrial, showPremiumModal := false, false;
    }

    /** canUploadImage: premium accounts always may; free ones while fewer than 5 uploads are used. */
    predicate CanUploadImage()
      reads this
    {
      isPremium || imageUploadsUsed < FreeImageLimit
    }

    /** canCreateQuiz: premium accounts always may; free ones while fewer than 5 quizzes were
        created. Bonus quizzes earned from milestones are not consulted. */
    predicate CanCreateQuiz()
      reads this
    {
      isPremium || quizzesCreated < FreeQuizLimit
    }

    /** canUseFlashcards: premium accounts, or free ones that have not used their trial. */
    predicate CanUseFlashcards()
      reads this
    {
      isPremium || !hasUsedFreeTrial
    }

    /** A free account has used at most its free allowances. */
    predicate WithinFreeLimits()
      reads this
    {
      !isPremium ==> imageUploadsUsed <= FreeImageLimit && quizzesCreated <= FreeQuizLimit
    }

    method SetIsPremium(premium: bool)
      modifies this
      ensures Snapshot() == old(Snapshot()).(isPremium := premium)
    {
      isPremium := premium;
    }

    /** addHomeworkToHistory: the newest answer goes first. */
    method AddHomeworkToHistory(answer: HomeworkAnswer)
      modifies this
      ensures Snapshot() == old(Snapshot()).(homeworkHistory := [answer] + old(homeworkHistory))
      ensures |homeworkHistory| == |old(homeworkHistory)| + 1 && homeworkHistory[1..] == old(homeworkHistory)
    {
      homeworkHistory := [answer] + homeworkHistory;
    }

    /** incrementImageUploads: check, then count one upload; a refusal opens the premium modal. */
    method IncrementImageUploads() returns (ok: bool)
      modifies this
      ensures ok == old(CanUploadImage())
      ensures ok ==> Snapshot() == old(Snapshot()).(imageUploadsUsed := old(imageUploadsUsed) + 1)
      ensures !ok ==> Snapshot() == old(Snapshot()).(showPremiumModal := true)
      ensures old(WithinFreeLimits()) ==> WithinFreeLimits()
    {
      if isPremium || imageUploadsUsed < FreeImageLimit {
        imageUploadsUsed := imageUploadsUsed + 1;
        return true;
      }
      showPremiumModal := true;
      return false;
    }

    /** addQuiz: check, then record the quiz first in the history and count it. */
    method AddQuiz(quiz: Quiz) returns (ok: bool)
      modifies this
      ensures ok == old(CanCreateQuiz())
      ensures ok ==> Snapshot() == old(Snapshot()).(quizHistory := [quiz] + old(quizHistory),
                                                   quizzesCreated := old(quizzesCreated) + 1)
      ensures !ok ==> Snapshot() == old(Snapshot()).(showPremiumModal := true)
      ensures old(WithinFreeLimits()) ==> WithinFreeLimits()
    {
      if isPremium || quizzesCreated < FreeQuizLimit {
        quizHistory := [quiz] + quizHistory;
        quizzesCreated := quizzesCreated + 1;
        return true;
      }
      showPremiumModal := true;
      return false;
    }

    method SetActiveQuiz(quiz: Option<Quiz>)
      modifies this
      ensures Snapshot() == old(Snapshot()).(activeQuiz := quiz)
    {
      activeQuiz := quiz;
    }

    /** updateQuiz: merge the patch into every history entry with that id, and into the active
        quiz when its id matches. */
    method UpdateQuiz(quizId: string, p: QuizPatch)
      modifies this
      ensures Snapshot() == old(Snapshot()).(quizHistory := UpdateQuizzes(old(quizHistory), quizId, p),
                                             activeQuiz := UpdateActiveQuiz(old(activeQuiz), quizId, p))
    {
      quizHistory := UpdateQuizzes(quizHistory, quizId, p);
      activeQuiz := UpdateActiveQuiz(activeQuiz, quizId, p);
    }

    /** createFlashcardDeck: only premium accounts may; the new deck goes first. */
    method CreateFlashcardDeck(deck: FlashcardDeck) returns (ok: bool)
      modifies this
      ensures ok == old(isPremium)
      ensures ok ==> Snapshot() == old(Snapshot()).(flashcardDecks := [deck] + old(flashcardDecks))
      ensures !ok ==> Snapshot() == old(Snapshot()).(showPremiumModal := true)
    {
      if isPremium {
        flashcardDecks := [deck] + flashcardDecks;
        return true;
      }
      showPremiumModal := true;
      return false;
    }

    method SetActiveDeck(deck: Option<FlashcardDeck>)
      modifies this
      ensures Snapshot() == old(Snapshot()).(activeDeck := deck)
    {
      activeDeck := deck;
    }

    /** updateDeck: merge the patch into every deck with that id, and into the active deck when
        its id matches. */
    method UpdateDeck(deckId: string, p: DeckPatch)
      modifies this
      ensures Snapshot() == old(Snapshot()).(flashcardDecks := UpdateDecks(old(flashcardDecks), deckId, p),
                                             activeDeck := UpdateActiveDeck(old(activeDeck), deckId, p))
    {
      flashcardDecks := UpdateDecks(flashcardDecks, deckId, p);
      activeDeck := UpdateActiveDeck(activeDeck, deckId, p);
    }

    method SetHasUsedFreeTrial(used: bool)
      modifies this
      ensures Snapshot() == old(Snapshot()).(hasUsedFreeTrial := used)
    {
      hasUsedFreeTrial := used;
    }

    method SetShowPremiumModal(show: bool)
      modifies this
      ensures Snapshot() == old(Snapshot()).(showPremiumModal := show)
    {
      showPremiumModal := show;
    }
  }
  /** The free image allowance: on a fresh free account `n` upload attempts succeed
      min(n, 5) times, and the premium modal opens exactly when an attempt beyond the
      allowance is made. */
  method FreeUploadQuota(n: nat) returns (accepted: nat, modalShown: bool)
    ensures accepted == if n < FreeImageLimit then n else FreeImageLimit
    ensures modalShown <==> n > FreeImageLimit
  {
    var s := new AppStore();
    accepted := 0;
    var k := 0;
    while k < n
      invariant 0 <= k <= n
      invariant !s.isPremium && s.imageUploadsUsed == accepted
      invariant accepted == if k < FreeImageLimit then k else FreeImageLimit
      invariant s.showPremiumModal <==> k > FreeImageLimit
    {
      var ok := s.IncrementImageUploads();
      if ok {
        accepted := accepted + 1;
      }
      k := k + 1;
    }
    modalShown := s.showPremiumModal;
  }

  /** The free quiz allowance: on a fresh free account only the first 5 of a series of quizzes
      are recorded, newest first, and the premium modal opens exactly when a sixth is tried.
      Bonus quizzes earned at milestones do not enlarge the allowance. */
  method FreeQuizQuota(quizzes: seq<Quiz>) returns (history: seq<Quiz>, modalShown: bool)
    ensures |history| == if |quizzes| < FreeQuizLimit then |quizzes| else FreeQuizLimit
    ensures forall i :: 0 <= i < |history| ==> history[i] == quizzes[|history| - 1 - i]
    ensures modalShown <==> |quizzes| > FreeQuizLimit
  {
    var s := new AppStore();
    var k := 0;
    while k < |quizzes|
      invariant 0 <= k <= |quizzes|
      invariant !s.isPremium && s.quizzesCreated == |s.quizHistory|
      invariant |s.quizHistory| == if k < FreeQuizLimit then k else FreeQuizLimit
      invariant forall i :: 0 <= i < |s.quizHistory| ==> s.quizHistory[i] == quizzes[|s.quizHistory| - 1 - i]
      invariant s.showPremiumModal <==> k > FreeQuizLimit
    {
      var ok := s.AddQuiz(quizzes[k]);
      k := k + 1;
    }
    history, modalShown := s.quizHistory, s.showPremiumModal;
  }
}

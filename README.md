# Quizzify: the gamification and entitlement core in Dafny

Quizzify is a study app. A student can ask for homework help, take quizzes and review
flashcard decks. A free account may upload 5 images and create 5 quizzes. Flashcard decks are
for premium accounts; a free account gets one pass through a sample deck. Finishing a quiz
earns XP; XP sets a level from 1 to 100. Every fifth level is a milestone that adds bonus
quizzes and bonus XP per quiz.

This project models that core and proves properties of it:

- `xp.dfy` (module `Xp`): the XP engine.
  - Level thresholds, and the level an XP total reaches.
  - The detailed level info and the XP a quiz earns.
  - The milestone tables and their running totals.
  - The `m:ss` timer format.
  - The loops of the original are methods proved equal to specification functions.
- `store.dfy` (module `Store`): the application store, as a class `AppStore`.
  - Its actions check the free limits, count usage, and update quizzes and decks by id.
  - Every method states the store's whole new state through `Snapshot()`.
- `use_xp.dfy` (module `UseXp`): the XP hook, as a class `XpTracker`.
  - Loads the profile, and commits a quiz award only after the profile write succeeds.
- `quizzes_tab.dfy` (module `QuizzesTab`): the quizzes tab.
  - The creation gate, the mock questions, answering at the cursor, and completion and score.
- `flashcards_tab.dfy` (module `FlashcardsTab`): the flashcards tab.
  - The free trial, premium-only deck creation, and the viewer's cursor machine over
    (card index, cycle count).
- `create_deck_modal.dfy` (module `CreateDeckModal`): the deck editor, as a class `DeckEditor`.
  - Generate, edit, delete and add cards under the 10/20 card limit, then save the complete ones.
- `ai_text.dfy` (module `AiText`): what the two generation functions share.
  - Truthiness, the data-URL rule, removal of code fences, and cutting out the JSON array.
- `generate_quiz.dfy` and `generate_flashcards.dfy` (modules `GenerateQuiz`,
  `GenerateFlashcards`): the two server functions.
  - Input selection, error responses, and the filter, cut and renumber pipelines.
- `text.dfy`, `lists.dfy`, `wrappers.dfy`: the JavaScript built-ins the code relies on.
  - `trim`, `padStart`, `slice`, `filter`, decimal rendering, plus Option and Result.

Values that come from outside become parameters:

- the clock (`Date.now()` is `now`);
- whether a user and a session exist;
- the outcome of the profile read and write;
- the gateway's status and reply text;
- whether the gateway key is configured;
- what `JSON.parse` makes of a text (a function parameter `parse`).

Behaviour of the code worth noting:

- The quiz gate compares `quizzesCreated` with the free limit only. Bonus quizzes earned at
  milestones are computed and stored, but the gate never reads them
  (`src/lib/store.ts:160`, `:211-214`).
- Creating a flashcard deck needs premium (`src/lib/store.ts:182-190`). A free account's only
  access is one cycle through the built-in sample deck. The `hasUsedFreeTrial` flag records
  that cycle (`src/components/FlashcardsTab.tsx:37-53`, `:85-89`, `:247-249`).
- Quiz generation never checks the option count or the correct-answer index of a question.
  `questionCount` defaults to 5 and has no bounds (`supabase/functions/generate-quiz/index.ts:21`,
  `:150-159`).

## Model
| member | source | states |
|---|---|---|
| Xp.XpForLevelClosedForm | src/lib/xp.ts:20-27 | the product under the floor is even, and the threshold equals 25·(L−1)·(L+12) |
| Xp.XpStep | src/lib/xp.ts:20-27 | going from level L to L+1 costs 350 + 50·(L−1) |
| Xp.XpForLevelMonotone | src/lib/xp.ts:20-27 | thresholds never decrease, and from level 1 on they strictly increase |
| Xp.Climb | src/lib/xp.ts:31-34 | the search started at any level in 1..100 stays in that level..100 |
| Xp.ClimbReaches | src/lib/xp.ts:31-34 | when the search starts at a reached threshold, it stops at a reached level that is 100 or whose next threshold is not reached |
| Xp.LevelFor | src/lib/xp.ts:30-36 | the level of any XP total is in 1..100 |
| Xp.LevelForCharacterized | src/lib/xp.ts:30-36 | for x ≥ 0, XpForLevel(level) ≤ x, and either level = 100 or x < XpForLevel(level+1) |
| Xp.LevelForUnique | src/lib/xp.ts:30-36 | exactly one level satisfies that characterization |
| Xp.LevelForThreshold | src/lib/xp.ts:30-36 | the threshold of level L gives level L, for every L in 1..100 |
| Xp.LevelForMonotone | src/lib/xp.ts:30-36 | more XP never gives a lower level |
| Xp.GetLevelFromXp | src/lib/xp.ts:30-36 | the while loop returns LevelFor(x), in 1..100, with the threshold characterization |
| Xp.GetLevelInfo | src/lib/xp.ts:39-55 | the level is LevelFor(x). At 100 the next threshold equals the current one and progress is 100. For x ≥ 0 the current threshold is ≤ x and progress is in [0,100]; below 100, x is below the next threshold and progress < 100 |
| Xp.FractionBounds | src/lib/xp.ts:45 | for 0 ≤ a < b the fraction a/b lies in [0,1) |
| Xp.PercentAtLeastExact | src/lib/xp.ts:63-72 | for total > 0, percentage ≥ t is exactly 100·correct ≥ t·total |
| Xp.BaseQuizXp | src/lib/xp.ts:63-72 | the base award is one of the eight table values |
| Xp.BaseQuizXpTable | src/lib/xp.ts:63-72 | for total > 0, the base is the first row of the descending table (100→150 … 10→10, else 0) that matches, on integer comparisons |
| Xp.CalculateQuizXp | src/lib/xp.ts:58-78 | the award lies between the milestone bonus of the given level and that bonus + 150 |
| Xp.CalculateQuizXpMonotone | src/lib/xp.ts:58-78 | for total > 0, more correct answers never earn less |
| Xp.CalculateQuizXpExamples | src/lib/xp.ts:58-78 | (10,10,1)=150, (6,10,1)=100, (0,10,1)=0, (10,10,5)=350 |
| Xp.LevelsFromShape | src/lib/xp.ts:83-86 | the levels pushed from i on are i, i+5, …, 100: (100−i)/5+1 of them |
| Xp.MilestoneLevelsSpec | src/lib/xp.ts:81-94 | the list has 20 entries with entry k equal to 5(k+1), so it strictly increases; isMilestoneLevel holds exactly for its members |
| Xp.GetMilestoneLevels | src/lib/xp.ts:81-88 | the loop builds exactly that list, from 5 to 100 |
| Xp.RewardsFromLevels | src/lib/xp.ts:130-146 | the rewards pushed from level i on have the levels pushed from i on |
| Xp.GetAllMilestones | src/lib/xp.ts:126-149 | the loop builds the milestone table; its 20 levels are the milestone levels |
| Xp.MilestoneTableLevels | src/lib/xp.ts:126-149 | the table's levels equal getMilestoneLevels, entry by entry |
| Xp.GetBonusQuizzesForLevel | src/lib/xp.ts:97-111 | the loop returns 3·(min(L,95)/5) for 5 ≤ L < 100, 1057 for L ≥ 100, and 0 below 5 |
| Xp.GetMilestoneXpBonus | src/lib/xp.ts:114-123 | the loop returns 200·(min(L,95)/5), and 0 below 5 |
| Xp.MilestoneBonusesMonotone | src/lib/xp.ts:97-123 | both totals never decrease with the level; the XP bonus is capped at 3800 and the quiz bonus at 1057 |
| Xp.ReachedFrom | src/lib/xp.ts:130-138 | summing the regular rewards from i on counts 3 quizzes and 200 XP per milestone reached |
| Xp.MilestoneSums | src/lib/xp.ts:97-149 | summing the table's bonusQuizzes (resp. bonusXpPerQuiz) over the milestones reached gives getBonusQuizzesForLevel (resp. getMilestoneXpBonus) |
| Xp.BonusQuizzesExamples | src/lib/xp.ts:97-111 | 3 bonus quizzes at level 5, 6 at 10, at least 1000 at 100 |
| Xp.JsRemainder | src/lib/xp.ts:154 | JavaScript `%`: the remainder has the sign of the dividend and a smaller magnitude than the divisor |
| Xp.PadSeconds | src/lib/xp.ts:155 | a seconds value below 60 pads to two digits that denote it |
| Xp.FormatTimeShape | src/lib/xp.ts:152-156 | for s ≥ 0 the text is `m:ss` with two digits ss < 60 and m·60 + ss = s |
| Store.UpdateQuizzes | src/lib/store.ts:173-176 | the map keeps the length; entries with another id are kept; an id that is absent, or the empty patch, changes nothing; a patch that does not rename keeps every id |
| Store.UpdateDecks | src/lib/store.ts:194-197 | the same for decks |
| Store.UpdateQuizzesIdempotent | src/lib/store.ts:173-180 | if the patch keeps the id, applying it twice equals applying it once |
| Store.UpdateDecksIdempotent | src/lib/store.ts:194-201 | the same for decks, and an update keeps every entry's id |
| Store.AppStore.constructor | src/lib/store.ts:115-132 | the initial state: free, no usage, empty histories, nothing active |
| Store.AppStore.SetIsPremium | src/lib/store.ts:135 | only isPremium changes |
| Store.AppStore.AddHomeworkToHistory | src/lib/store.ts:144-146 | exactly one answer is put first, and the old history follows in order |
| Store.AppStore.IncrementImageUploads | src/lib/store.ts:148-156 | returns CanUploadImage from before the call. On success the counter rises by exactly 1; on refusal only the premium modal opens. A free account stays within its limits |
| Store.AppStore.AddQuiz | src/lib/store.ts:158-169 | returns CanCreateQuiz from before the call. On success the quiz is put first and the counter rises by 1; on refusal only the premium modal opens. A free account stays within its limits |
| Store.AppStore.SetActiveQuiz | src/lib/store.ts:171 | only the active quiz changes |
| Store.AppStore.UpdateQuiz | src/lib/store.ts:173-180 | the history becomes UpdateQuizzes of it; the active quiz is merged only when its id matches |
| Store.AppStore.CreateFlashcardDeck | src/lib/store.ts:182-190 | succeeds exactly for premium accounts and then puts the deck first. Otherwise the decks are unchanged and the premium modal opens |
| Store.AppStore.SetActiveDeck | src/lib/store.ts:192 | only the active deck changes |
| Store.AppStore.UpdateDeck | src/lib/store.ts:194-201 | the deck list becomes UpdateDecks of it; the active deck is merged only when its id matches |
| Store.AppStore.SetHasUsedFreeTrial | src/lib/store.ts:203 | only the trial flag changes |
| Store.AppStore.SetShowPremiumModal | src/lib/store.ts:204 | only the modal flag changes |
| Store.FreeUploadQuota | src/lib/store.ts:148-156 | on a fresh free account, n upload attempts succeed min(n, 5) times, and the premium modal opens exactly when more than 5 are tried |
| Store.FreeQuizQuota | src/lib/store.ts:158-169 | on a fresh free account only the first 5 quizzes of a series are recorded, newest first, and the premium modal opens exactly when a sixth is tried; bonus quizzes do not enlarge the allowance |
| UseXp.XpTracker.constructor | src/hooks/useXp.ts:17-22 | the state starts at xp 0, level 1, no bonus quizzes, loading |
| UseXp.XpTracker.FetchXpData | src/hooks/useXp.ts:25-50 | no user resets to (0, 1, 0); a read error keeps the values; a row gives its values with defaults 0/1/0; loading always ends |
| UseXp.XpTracker.AddQuizXp | src/hooks/useXp.ts:57-119 | without a user or session nothing is sent or changed. Otherwise the update sent is (xp + award at the stored level, LevelFor of it, its bonus quota). The award is reported exactly when the write succeeds, and only then is it committed; leveledUp means the new level is above the stored one. XP never decreases |
| UseXp.FirstPerfectQuiz | src/hooks/useXp.ts:72-76 | a new account scoring 10/10 earns 150 XP and stays at level 1 with no bonus quizzes |
| UseXp.AwardNeverLowersDerivedLevel | src/hooks/useXp.ts:72-74 | the level of the new total is at least the level of the old total |
| QuizzesTab.ScoreBounds | src/components/QuizzesTab.tsx:95-97 | the score is at most the number of questions, and equals it exactly when every answer is correct |
| QuizzesTab.AnswerOutcome | src/components/QuizzesTab.tsx:91-103 | after merging the update, the quiz is completed exactly when all other questions were answered. Its score exists exactly when it is completed, and is then the number correct, ≤ the question count |
| QuizzesTab.GenerateMockQuestions | src/components/QuizzesTab.tsx:62-86 | 3 questions with ids "1".."3", 4 options each, correct answers 0, 1, 2 within the options, and no answers yet |
| QuizzesTab.QuizzesTabState.constructor | src/components/QuizzesTab.tsx:31-33 | the topic is empty and the cursor is 0 |
| QuizzesTab.QuizzesTabState.RemainingQuizzes | src/components/QuizzesTab.tsx:110 | for a free account the banner's count is positive exactly when the quiz gate is open; within the limits it is in 0..5 |
| QuizzesTab.QuizzesTabState.GenerateQuiz | src/components/QuizzesTab.tsx:35-60 | a blank topic changes nothing. A closed gate only opens the premium modal. Otherwise the mock quiz is recorded, made active and shown from question 0, and the topic is cleared |
| QuizzesTab.QuizzesTabState.HandleAnswer | src/components/QuizzesTab.tsx:88-108 | with no active quiz nothing changes. Otherwise the update is merged into the history and the active quiz, and the cursor moves on unless it is on the last question, so it stays on a question |
| QuizzesTab.QuizzesTabState.ClickOption | src/components/QuizzesTab.tsx:326-343 | an answered question ignores clicks, with nothing changed. An unanswered one records the clicked option exactly as HandleAnswer does: the patch merged into the history and the active quiz, and the cursor moved to the next question unless at the last |
| FlashcardsTab.FreeTrialDeck | src/components/FlashcardsTab.tsx:43-50 | the trial deck has id "free-trial", the title "Math Fundamentals (Free Trial)", the 8 unmastered sample cards, index 0 and cycle 0 |
| FlashcardsTab.CursorStaysInRange | src/components/FlashcardsTab.tsx:241-261 | on a deck with cards, next, prev and reset keep the index on a card. Only next on the last card raises the cycle, by 1 |
| FlashcardsTab.NextWithinCycle | src/components/FlashcardsTab.tsx:243-244 | k presses of next from the first card show card k, in the same cycle, for k < length |
| FlashcardsTab.FullCycle | src/components/FlashcardsTab.tsx:241-253 | length presses of next from the first card return to it, one cycle later |
| FlashcardsTab.AfterViewerUpdate | src/components/FlashcardsTab.tsx:91-97 | the active deck gets the patch. A saved deck is also updated in the list; the trial deck is not. Nothing else changes |
| FlashcardsTab.NextPatchFollowsCursor | src/components/FlashcardsTab.tsx:241-261 | the updates next, prev and reset send move the deck's cursor exactly as Next, Prev and Reset prescribe, and keep its cards and id |
| FlashcardsTab.FlashcardsTabState.constructor | src/components/FlashcardsTab.tsx:34-35 | an empty title and a hidden form |
| FlashcardsTab.FlashcardsTabState.HandleTryFree | src/components/FlashcardsTab.tsx:37-53 | when CanUseFlashcards is false only the premium modal opens; otherwise the trial deck becomes active |
| FlashcardsTab.FlashcardsTabState.OpenCreateForm | src/components/FlashcardsTab.tsx:112 | premium shows the form; free opens the premium modal |
| FlashcardsTab.FlashcardsTabState.HandleCreateDeck | src/components/FlashcardsTab.tsx:55-77 | free accounts only get the premium modal, and a blank title does nothing. Otherwise an empty deck with the untrimmed title is put first and opened, and the form is cleared and hidden |
| FlashcardsTab.FlashcardsTabState.OpenDeck | src/components/FlashcardsTab.tsx:198 | the chosen deck becomes active |
| FlashcardsTab.FlashcardsTabState.CloseViewer | src/components/FlashcardsTab.tsx:85-90 | the viewer closes, and closing the trial deck marks the trial used |
| FlashcardsTab.FlashcardsTabState.UpdateViewer | src/components/FlashcardsTab.tsx:91-97 | the store becomes AfterViewerUpdate of its old state |
| FlashcardsTab.FlashcardsTabState.ViewerNext | src/components/FlashcardsTab.tsx:241-254 | at the end of a free account's trial: the viewer closes, the trial is used and the modal opens, with no wrap. Otherwise the cursor moves as Next prescribes and stays on a card |
| FlashcardsTab.FlashcardsTabState.ViewerPrev | src/components/FlashcardsTab.tsx:256-261 | the index drops by one only above 0, and at 0 nothing changes |
| FlashcardsTab.FlashcardsTabState.ViewerReset | src/components/FlashcardsTab.tsx:346-349 | back to card 0 with the cycle kept |
| FlashcardsTab.FreeTrialOnce | src/components/FlashcardsTab.tsx:37-53 | on a fresh free account the first try opens the trial deck; once the viewer is closed, a second try opens nothing and shows the premium modal |
| CreateDeckModal.PremiumKeepsServerCards | src/components/CreateDeckModal.tsx:76-77 | the server returns at most 20 cards, so a premium editor keeps them all, while a free editor keeps min(n, 10) of n |
| CreateDeckModal.DefaultTitleShape | src/components/CreateDeckModal.tsx:82-83 | no notes give "My Flashcard Deck". Shorter notes give their trim, and longer ones the trim of the first 30 characters plus "..."; never longer than 33 |
| CreateDeckModal.UpdateCardKeeps | src/components/CreateDeckModal.tsx:104-110 | ids, mastery and the other side are kept, and an absent id changes nothing |
| CreateDeckModal.DeleteCard | src/components/CreateDeckModal.tsx:112-114 | no card with the id remains, and every card with another id remains |
| CreateDeckModal.DeleteCardKeepsOrder | src/components/CreateDeckModal.tsx:112-114 | deleting distributes over concatenation (order kept), and an absent id changes nothing |
| CreateDeckModal.ValidCards | src/components/CreateDeckModal.tsx:146-148 | exactly the cards with both sides non-blank after trimming are kept |
| CreateDeckModal.ValidCardsEmpty | src/components/CreateDeckModal.tsx:146-157 | there is nothing to save exactly when no card is complete |
| CreateDeckModal.DeckEditor.constructor | src/components/CreateDeckModal.tsx:19-26 | every field starts at its initial value |
| CreateDeckModal.DeckEditor.HandleGenerate | src/components/CreateDeckModal.tsx:43-102 | blank notes in text mode or no image in image mode send nothing. Otherwise the request carries the current mode's input, which the server's input selection accepts. A reply moves to editing with the prefix of at most MaxCards cards and the default title. A failure changes nothing |
| CreateDeckModal.GenerateRequestAccepted | src/components/CreateDeckModal.tsx:43-70 | every request the editor sends passes the server's input check: non-blank notes in text mode, a non-empty image in image mode |
| CreateDeckModal.DeckEditor.ShowGenerated | src/components/CreateDeckModal.tsx:76-83 | the success path: the reply's cards cut to the card limit, the edit step and the given title; nothing else changes |
| CreateDeckModal.DeckEditor.HandleUpdateCard | src/components/CreateDeckModal.tsx:104-110 | the cards become UpdateCard of them; nothing else changes |
| CreateDeckModal.DeckEditor.HandleDeleteCard | src/components/CreateDeckModal.tsx:112-114 | the cards become DeleteCard of them; nothing else changes |
| CreateDeckModal.DeckEditor.HandleAddCard | src/components/CreateDeckModal.tsx:116-134 | at the limit the list is unchanged. Otherwise exactly one blank, unmastered card is appended and opened for editing, so adds never pass the limit |
| CreateDeckModal.DeckEditor.HandleClose | src/components/CreateDeckModal.tsx:163-172 | every field is reset |
| CreateDeckModal.DeckEditor.HandleSave | src/components/CreateDeckModal.tsx:136-161 | a blank title or no complete card changes nothing. Otherwise it hands on the trimmed title and the complete cards in order, both non-empty, and resets |
| AiText.ImageDataUrl | supabase/functions/generate-quiz/index.ts:68 | an image starting with "data:" is kept; anything else gets "data:image/jpeg;base64," in front |
| AiText.ImageDataUrlIdempotent | supabase/functions/generate-flashcards/index.ts:50 | the prefix is never added twice |
| AiText.StripMarker | supabase/functions/generate-quiz/index.ts:133 | removing a marker never lengthens the text |
| AiText.StripLeavesNoFence | supabase/functions/generate-quiz/index.ts:133 | after the global removal of "```" no three backticks remain in a row |
| AiText.CleanContentHasNoFence | supabase/functions/generate-quiz/index.ts:133 | the cleaned reply contains no code fence |
| AiText.StripWithoutBacktick | supabase/functions/generate-quiz/index.ts:133 | a text without backticks is unchanged by the removal |
| AiText.PlainContentOnlyTrimmed | supabase/functions/generate-quiz/index.ts:133 | a reply without backticks is only trimmed |
| AiText.BracketRegionFromIndices | supabase/functions/generate-quiz/index.ts:134 | some `[` precedes some `]` exactly when the first `[` precedes the last `]` |
| AiText.BracketRegion | supabase/functions/generate-quiz/index.ts:134 | the greedy match found exactly when a bracket region exists, from the first `[` to the last `]` |
| AiText.ExtractArrayText | supabase/functions/generate-flashcards/index.ts:126-131 | without a region the whole text is parsed; with one, a text from `[` to `]` |
| AiText.ExtractArrayTextIdempotent | supabase/functions/generate-quiz/index.ts:134-139 | extracting again from the extracted text changes nothing |
| GenerateQuiz.QuizMessages | supabase/functions/generate-quiz/index.ts:52-87 | an error exactly when no input is truthy. Otherwise the messages are the instructions plus one user message from the image (as a data URL), else the notes, else the topic, with questionCount defaulting to 5 |
| GenerateQuiz.LowerPriorityInputsIgnored | supabase/functions/generate-quiz/index.ts:56-87 | with an image, notes and topic do not matter; with notes, the topic does not matter |
| GenerateQuiz.NormalizeTrims | supabase/functions/generate-quiz/index.ts:153-159 | the id reads back as index+1; question, options and explanation have no surrounding whitespace; option count and correct answer pass through unchecked; a missing explanation becomes the default but a blank one comes out empty; normalizing again changes nothing unless the question or explanation came out empty |
| GenerateQuiz.KeptQuestions | supabase/functions/generate-quiz/index.ts:150-152 | a prefix, of slice(0, questionCount) length, of the well-formed entries in order |
| GenerateQuiz.ValidQuestionsShape | supabase/functions/generate-quiz/index.ts:150-159 | at most questionCount and at most the entry count; ids "1".."n", hence distinct |
| GenerateQuiz.AllWellFormedKept | supabase/functions/generate-quiz/index.ts:150-159 | well-formed entries within the count all come out, in order |
| GenerateQuiz.MalformedEntriesIgnored | supabase/functions/generate-quiz/index.ts:151 | inserting an entry that fails the filter anywhere does not change the output |
| GenerateQuiz.HandleQuizRequest | supabase/functions/generate-quiz/index.ts:18-173 | a missing key, then a missing input: 500 with its message. Gateway 429/402 pass through; any other failure is 500. 200 exactly when the reply has content that parses to an array with no `null` entry, and its body is then ValidQuestions of the entries; a `null` entry makes the filter throw, giving 500 with the TypeError's message |
| GenerateQuiz.FencedReplyUnwrapped | supabase/functions/generate-quiz/index.ts:133-139 | "```json\n[1]\n```" is cleaned to "[1]" and parsed as that |
| GenerateFlashcards.FlashcardMessages | supabase/functions/generate-flashcards/index.ts:28-78 | an image gives one user message with its data URL. Otherwise notes give the instructions plus a user message. With neither, the request is an error |
| GenerateFlashcards.NotesIgnoredBesideImage | supabase/functions/generate-flashcards/index.ts:30-55 | with an image, the notes do not matter |
| GenerateFlashcards.ValidFlashcards | supabase/functions/generate-flashcards/index.ts:142-150 | at most 20 cards. Card i comes, in order, from an entry with both sides truthy, with id "card-now-i", trimmed sides and mastered false |
| GenerateFlashcards.ValidFlashcardsShape | supabase/functions/generate-flashcards/index.ts:142-150 | up to 20 complete entries all come out; none is mastered; ids are distinct |
| GenerateFlashcards.BlankSideSurvives | supabase/functions/generate-flashcards/index.ts:143-148 | a side of spaces passes the filter and comes out as "" |
| GenerateFlashcards.HandleFlashcardsRequest | supabase/functions/generate-flashcards/index.ts:18-165 | every failure other than gateway 429/402 is the same 500. 200 exactly when the key, the input and content parsing to an array with no `null` entry are all there, and its body is then ValidFlashcards; a `null` entry makes the filter throw, giving the 500 |
| Text.Trim | supabase/functions/generate-quiz/index.ts:155 | trim: the infix left after removing JavaScript whitespace at both ends; empty exactly for all-whitespace text |
| Text.TrimIdempotent | src/components/CreateDeckModal.tsx:159 | trimming twice is trimming once |
| Text.NatToString | supabase/functions/generate-quiz/index.ts:154 | String(n): decimal digits without a leading zero |
| Text.ParseNatToString | supabase/functions/generate-quiz/index.ts:154 | reading the digits back gives n |
| Text.NatToStringInjective | supabase/functions/generate-quiz/index.ts:154 | distinct numbers render differently |
| Text.PadStart | src/lib/xp.ts:155 | padStart: the string right-aligned in the width with the pad character |
| Text.Prefix | src/components/CreateDeckModal.tsx:82 | slice(0, n): the longest prefix of at most n characters |
| Lists.Filter | src/components/CreateDeckModal.tsx:146-148 | filter: only passing elements, all of them |
| Lists.FilterAppend | supabase/functions/generate-quiz/index.ts:151 | filter distributes over concatenation (order kept) |
| Lists.FilterAllPass | supabase/functions/generate-quiz/index.ts:151 | a filter every element passes changes nothing |
| Lists.FilterKeepsAll | src/components/QuizzesTab.tsx:96 | nothing is dropped exactly when every element passes |
| Lists.Slice0 | supabase/functions/generate-quiz/index.ts:152 | slice(0, n): a prefix whose length follows JavaScript's rule for negative n |

## Left out

- Rendering, animation, toasts, layout and navigation are left out.
  - The flip state of a card, the history list, the sample-topic buttons and the progress bars
    are display only.
  - The 1.5-second delay in generateQuiz and the 500 ms delay before the quiz cursor advances
    are modelled as if they happened at once.
- Network and persistence are parameters, not models.
  - The profile read and write, `supabase.functions.invoke` and the gateway `fetch` are outcomes.
  - Zustand's `persist` and local storage are not modelled.
- Request and reply formats are abstracted.
  - `req.json()`, `response.json()` and `JSON.parse` are not modelled. A parse is a function
    parameter from text to "unparseable", "not an array" or a list of entries.
  - A request body that is not JSON, and a gateway body that is not JSON, are not modelled.
- JSON values are only `null`, strings, integers and string arrays.
  - A `null` entry of the parsed array is modelled: reading a field of it throws inside the
    filter, so the whole request fails with 500.
  - GenerateQuiz.HandleQuizRequest: the message of that 500 is taken in the wording of the V8
    engine, "Cannot read properties of null (reading 'question')".
  - Any other non-object entry (a number, a string, an array) has none of the fields and is
    treated like an object without them, which the filter drops.
  - Non-string fields (a numeric `front`, say, turned into text by `String(...)`) are not modelled.
  - Non-integer or NaN `correctAnswer` and `questionCount`, and a `questionCount` of `null`,
    are not modelled either.
- Prompt wording is abstracted: a message records which prompt it carries and the values the
  prompt interpolates, not the prompt's text. The request's model name, headers and the CORS
  preflight are not modelled.
- Xp.GetLevelInfo: progress is a Dafny `real`, not floating point.
- Xp.PercentAtLeast: the percentage comparison is exact rational arithmetic. For a zero total
  it takes JavaScript's Infinity/NaN outcome: a positive score counts as 100 % and anything else
  fails every threshold.
- Strings are sequences of code points. JavaScript's UTF-16 code units are not modelled, so
  `slice(0, 30)` in the default title may differ for text outside the Basic Multilingual Plane.
- Date.now() is one instant `now` per operation.
  - generateQuiz reads the clock twice (id and timestamp).
  - generate-flashcards reads it once per card.
  - So the model does not capture ids and timestamps that differ by a millisecond.
- CreateDeckModal.DeckEditor: `isPremium` is a constant of the editor. A premium change while
  the modal is open, which would change the card limit, is not modelled.
- The `onClose` callback of the deck editor belongs to its parent and is not modelled. The
  parent that turns a saved deck into a store deck, and the image file reader, are not modelled
  either.
- The store setters for `targetAudience`, `activeTab`, `inputMode`, `currentQuestion`,
  `currentImageUrl`, `currentAnswer` and `isProcessing` only assign a display field and are
  not modelled.
- The `isGenerating` flag of the quizzes tab and the deck editor only disables buttons and is
  not modelled.
- `useAuth`, the homework tab and the homework-solving function are not part of this model.
  They are session plumbing and mock answers.
- QuizzesTab.QuizzesTabState.HandleAnswer: the original writes the answer into a question
  object that the store's history shares. The model uses a sequence update, whose result is
  the same after the store update.
- Concurrent tabs writing the same persisted store or profile row are not modelled.

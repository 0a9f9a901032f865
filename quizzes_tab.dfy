/**
 * The quizzes tab: generating a quiz behind the quiz gate, answering its questions one at a
 * time, and the completion and score derived after every answer.
 */
module QuizzesTab {
  import opened Wrappers
  import opened Text
  import opened Lists
  import opened Store

  /** `questions.every(q => q.userAnswer !== undefined)` */
  predicate AllAnswered(questions: seq<QuizQuestion>) {
    forall i :: 0 <= i < |questions| ==> questions[i].userAnswer.Some?
  }

  predicate IsAnsweredCorrectly(q: QuizQuestion) {
    q.userAnswer == Some(q.correctAnswer)
  }

  /** `questions.filter(q => q.userAnswer === q.correctAnswer).length` */
  function Score(questions: seq<QuizQuestion>): nat {
    |Filter(questions, IsAnsweredCorrectly)|
  }

  /** The score counts the correct answers: it is at most the number of questions, and equal
      to it exactly when every answer is correct. */
  lemma ScoreBounds(questions: seq<QuizQuestion>)
    ensures Score(questions) <= |questions|
    ensures Score(questions) == |questions| <==> forall i :: 0 <= i < |questions| ==> IsAnsweredCorrectly(questions[i])
  {
    FilterKeepsAll(questions, IsAnsweredCorrectly);
  }

  /** The questions with answer `answerIndex` recorded at `index`. */
  function AnswerAt(questions: seq<QuizQuestion>, index: int, answerIndex: int): seq<QuizQuestion>
    requires 0 <= index < |questions|
  {
    questions[index := questions[index].(userAnswer := Some(answerIndex))]
  }

  /** The update handleAnswer sends: the new questions, whether all are answered, and the score
      only when they are. */
  function AnswerPatch(questions: seq<QuizQuestion>): QuizPatch {
    var allAnswered := AllAnswered(questions);
    QuizPatch(None, None, None, Some(questions),
              Some(if allAnswered then Some(Score(questions)) else None), Some(allAnswered), None)
  }

  /** After an answer the quiz is completed exactly when every other question was already
      answered; its score is then defined, and lies between 0 and the number of questions. */
  lemma AnswerOutcome(q: Quiz, index: int, answerIndex: int)
    requires 0 <= index < |q.questions|
    ensures var answered := MergeQuiz(q, AnswerPatch(AnswerAt(q.questions, index, answerIndex)));
      && answered.questions == AnswerAt(q.questions, index, answerIndex)
      && answered.id == q.id && answered.title == q.title && answered.topic == q.topic
      && (answered.completed <==> forall j :: 0 <= j < |q.questions| && j != index ==> q.questions[j].userAnswer.Some?)
      && (answered.score.Some? <==> answered.completed)
      && (answered.score.Some? ==> answered.score.value == Score(answered.questions) <= |q.questions|)
  {
    var qs := AnswerAt(q.questions, index, answerIndex);
    assert forall j :: 0 <= j < |q.questions| && j != index ==> qs[j] == q.questions[j];
    ScoreBounds(qs);
    if forall j :: 0 <= j < |q.questions| && j != index ==> q.questions[j].userAnswer.Some? {
      assert AllAnswered(qs);
    }
  }

  /** generateMockQuestions: three questions about `topic`, with four options each and correct
      answers 0, 1 and 2. */
  function GenerateMockQuestions(topic: string): (qs: seq<QuizQuestion>)
    ensures |qs| == 3
    ensures forall i :: 0 <= i < 3 ==>
      && qs[i].id == NatToString(i + 1) && |qs[i].options| == 4
      && qs[i].correctAnswer == i && 0 <= qs[i].correctAnswer < |qs[i].options|
      && qs[i].userAnswer.None?
  {
    [ QuizQuestion("1", "What is the main concept in " + topic + "?",
                   ["Option A", "Option B", "Option C", "Option D"], 0,
                   "This is because Option A represents the fundamental principle.", None),
      QuizQuestion("2", "Which formula is commonly used in " + topic + "?",
                   ["Formula 1", "Formula 2", "Formula 3", "Formula 4"], 1,
                   "Formula 2 is the standard approach for this type of problem.", None),
      QuizQuestion("3", "How do you solve a typical " + topic + " problem?",
                   ["Step A", "Step B", "Step C", "Step D"], 2,
                   "Step C provides the most efficient solution method.", None) ]
  }

  /** The quiz generateQuiz builds; `now` stands for Date.now(). */
  function NewQuiz(topic: string, now: nat): Quiz {
    Quiz(NatToString(now), topic, topic, GenerateMockQuestions(topic), None, false, now)
  }

  class QuizzesTabState {
    const store: AppStore
    var topic: string
    var currentQuestionIndex: int

    constructor (store: AppStore)
      ensures this.store == store && topic == "" && currentQuestionIndex == 0
    {
      this.store := store;
      topic := "";
      currentQuestionIndex := 0;
    }

    /** The banner's count of free quizzes left. */
    function RemainingQuizzes(): (n: int)
      reads this, store
      ensures !store.isPremium ==> (n > 0 <==> store.CanCreateQuiz())
      ensures 0 <= store.quizzesCreated <= FreeQuizLimit ==> 0 <= n <= FreeQuizLimit
    {
      FreeQuizLimit - store.quizzesCreated
    }

    /** generateQuiz: a blank topic does nothing; a closed quiz gate opens the premium modal;
        otherwise the quiz is added, made active and shown from its first question. */
    method GenerateQuiz(now: nat)
      modifies this, store
      ensures IsBlank(old(topic)) ==>
        store.Snapshot() == old(store.Snapshot()) && topic == old(topic) && currentQuestionIndex == old(currentQuestionIndex)
      ensures !IsBlank(old(topic)) && !old(store.CanCreateQuiz()) ==>
        store.Snapshot() == old(store.Snapshot()).(showPremiumModal := true)
        && topic == old(topic) && currentQuestionIndex == old(currentQuestionIndex)
      ensures !IsBlank(old(topic)) && old(store.CanCreateQuiz()) ==>
        var quiz := NewQuiz(old(topic), now);
        && store.Snapshot() == old(store.Snapshot()).(quizHistory := [quiz] + old(store.quizHistory),
                                                     quizzesCreated := old(store.quizzesCreated) + 1,
                                                     activeQuiz := Some(quiz))
        && currentQuestionIndex == 0 && topic == ""
    {
      if IsBlank(topic) {
        return;
      }
      if !store.CanCreateQuiz() {
        store.SetShowPremiumModal(true);
        return;
      }
      var quiz := NewQuiz(topic, now);
      var added := store.AddQuiz(quiz);
      if added {
        store.SetActiveQuiz(Some(quiz));
        currentQuestionIndex := 0;
      }
      topic := "";
    }

    /** The question card of the active quiz is on screen. */
    predicate ShowsQuestion()
      reads this, store
    {
      store.activeQuiz.Some? && 0 <= currentQuestionIndex < |store.activeQuiz.value.questions|
    }

    /** handleAnswer: record the answer at the cursor, send the completion and score to the
        store, and move to the next question unless this was the last. */
    method HandleAnswer(answerIndex: int)
      requires store.activeQuiz.Some? ==> ShowsQuestion()
      modifies this, store
      ensures old(store.activeQuiz).None? ==>
        store.Snapshot() == old(store.Snapshot()) && currentQuestionIndex == old(currentQuestionIndex)
      ensures old(store.activeQuiz).Some? ==>
        var q := old(store.activeQuiz).value;
        var patch := AnswerPatch(AnswerAt(q.questions, old(currentQuestionIndex), answerIndex));
        && store.Snapshot() == old(store.Snapshot()).(quizHistory := UpdateQuizzes(old(store.quizHistory), q.id, patch),
                                                     activeQuiz := Some(MergeQuiz(q, patch)))
        && currentQuestionIndex == (if old(currentQuestionIndex) < |q.questions| - 1
                                    then old(currentQuestionIndex) + 1 else old(currentQuestionIndex))
        && ShowsQuestion()
      ensures topic == old(topic)
    {
      if store.activeQuiz.None? {
        return;
      }
      var quiz := store.activeQuiz.value;
      var updatedQuestions := AnswerAt(quiz.questions, currentQuestionIndex, answerIndex);
      var allAnswered := AllAnswered(updatedQuestions);
      var score := if allAnswered then Some(Score(updatedQuestions)) else None;
      store.UpdateQuiz(quiz.id, QuizPatch(None, None, None, Some(updatedQuestions), Some(score), Some(allAnswered), None));
      if currentQuestionIndex < |quiz.questions| - 1 {
        currentQuestionIndex := currentQuestionIndex + 1;
      }
    }

    /** A click on an option of the question card: ignored once the question is answered. */
    method ClickOption(index: int)
      requires ShowsQuestion()
      modifies this, store
      ensures old(store.activeQuiz.value.questions[currentQuestionIndex].userAnswer).Some? ==>
        store.Snapshot() == old(store.Snapshot()) && currentQuestionIndex == old(currentQuestionIndex)
      ensures old(store.activeQuiz.value.questions[currentQuestionIndex].userAnswer).None? ==>
        var q := old(store.activeQuiz).value;
        var patch := AnswerPatch(AnswerAt(q.questions, old(currentQuestionIndex), index));
        && store.Snapshot() == old(store.Snapshot()).(quizHistory := UpdateQuizzes(old(store.quizHistory), q.id, patch),
                                                     activeQuiz := Some(MergeQuiz(q, patch)))
        && currentQuestionIndex == (if old(currentQuestionIndex) < |q.questions| - 1
                                    then old(currentQuestionIndex) + 1 else old(currentQuestionIndex))
      ensures ShowsQuestion() && topic == old(topic)
    {
      var answered := store.activeQuiz.value.questions[currentQuestionIndex].userAnswer.Some?;
      if !answered {
        HandleAnswer(index);
      }
    }
  }
}

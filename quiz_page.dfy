/**
 * The state of the quiz page: the `QuizState` record together with the
 * payment and results flags, and the handlers that update them one step at a
 * time. The clock (`Date.now()`) and the shuffle order are parameters.
 */
module QuizPage {
  import opened Numerals
  import opened QuizRules
  import ScoreDisplay

  /** The question at `index` has a truthy answer, which is what enables the next-question button. */
  predicate Answered(answers: map<int, string>, index: int) {
    index in answers && answers[index] != ""
  }

  class QuizSession {
    var currentQuestion: int
    var selectedAnswers: map<int, string>
    var timeRemaining: int
    var quizStarted: bool
    var quizCompleted: bool
    var selectedQuestions: seq<Question>
    var startTime: int

    var showResults: bool
    var showDetailedResults: bool
    var paymentCompleted: bool
    var showPayment: bool

    /**
     * The countdown stays within 0 .. 600 and is full before the quiz starts;
     * the current question indexes a selected question whenever there is one;
     * answers are recorded only at positions already reached, and every
     * position passed has an answer; the results are shown only once the
     * payment has gone through.
     */
    ghost predicate Valid()
      reads this
    {
      && 0 <= timeRemaining <= QuizSeconds
      && (!quizStarted ==> timeRemaining == QuizSeconds)
      && 0 <= currentQuestion
      && (currentQuestion == 0 || currentQuestion < |selectedQuestions|)
      && (forall k :: k in selectedAnswers ==> 0 <= k <= currentQuestion)
      && (forall k :: 0 <= k < currentQuestion ==> Answered(selectedAnswers, k))
      && (showResults ==> paymentCompleted)
    }

    /** The state the page opens in, and returns to on reset. */
    ghost predicate IsInitial()
      reads this
    {
      && currentQuestion == 0
      && selectedAnswers == map[]
      && timeRemaining == QuizSeconds
      && !quizStarted
      && !quizCompleted
      && selectedQuestions == []
      && startTime == 0
      && !showResults && !showDetailedResults && !paymentCompleted && !showPayment
    }

    /** The interval is armed exactly while the quiz runs and time is left. */
    predicate TimerRunning()
      reads this
    {
      quizStarted && !quizCompleted && timeRemaining > 0
    }

    constructor ()
      ensures Valid() && IsInitial()
    {
      currentQuestion := 0;
      selectedAnswers := map[];
      timeRemaining := QuizSeconds;
      quizStarted := false;
      quizCompleted := false;
      selectedQuestions := [];
      startTime := 0;
      showResults := false;
      showDetailedResults := false;
      paymentCompleted := false;
      showPayment := false;
    }

    /**
     * Draws the questions and starts the countdown at `now`. The payment and
     * results flags are left as they were.
     */
    method StartQuiz(pool: seq<Question>, order: seq<nat>, now: int)
      requires Valid()
      requires IsPermutation(order, |pool|)
      modifies this
      ensures Valid()
      ensures currentQuestion == 0 && selectedAnswers == map[] && timeRemaining == QuizSeconds
      ensures quizStarted && !quizCompleted && startTime == now
      ensures selectedQuestions == SelectRandomQuestions(pool, order)
      ensures showResults == old(showResults) && showDetailedResults == old(showDetailedResults)
      ensures paymentCompleted == old(paymentCompleted) && showPayment == old(showPayment)
    {
      var questions := SelectRandomQuestions(pool, order);
      currentQuestion := 0;
      selectedAnswers := map[];
      timeRemaining := QuizSeconds;
      quizStarted := true;
      quizCompleted := false;
      selectedQuestions := questions;
      startTime := now;
    }

    /**
     * Records `answer` for the current question, replacing any earlier one.
     * Choosing the answer already recorded changes nothing.
     */
    method SelectAnswer(answer: string)
      requires Valid()
      modifies this`selectedAnswers
      ensures Valid()
      ensures selectedAnswers == old(selectedAnswers)[currentQuestion := answer]
      ensures Lookup(selectedAnswers, currentQuestion) == Some(answer)
      ensures forall k :: k != currentQuestion ==> Lookup(selectedAnswers, k) == Lookup(old(selectedAnswers), k)
      ensures Lookup(old(selectedAnswers), currentQuestion) == Some(answer) ==> selectedAnswers == old(selectedAnswers)
    {
      ghost var before := selectedAnswers;
      selectedAnswers := selectedAnswers[currentQuestion := answer];
      forall k | 0 <= k < currentQuestion ensures Answered(selectedAnswers, k) {
        assert Answered(before, k);
      }
    }

    /** Marks the quiz completed and shows the payment screen. */
    method HandleSubmitQuiz()
      requires Valid()
      modifies this`quizCompleted, this`showPayment
      ensures Valid()
      ensures quizCompleted && showPayment
    {
      quizCompleted := true;
      showPayment := true;
    }

    /**
     * Moves to the next question, or submits on the last one. The button that
     * calls it is enabled only once the current question has an answer.
     */
    method NextQuestion()
      requires Valid()
      requires Answered(selectedAnswers, currentQuestion)
      modifies this`currentQuestion, this`quizCompleted, this`showPayment
      ensures Valid()
      ensures currentQuestion >= old(currentQuestion)
      ensures old(currentQuestion) < |selectedQuestions| - 1 ==>
        && currentQuestion == old(currentQuestion) + 1
        && quizCompleted == old(quizCompleted) && showPayment == old(showPayment)
      ensures old(currentQuestion) >= |selectedQuestions| - 1 ==>
        currentQuestion == old(currentQuestion) && quizCompleted && showPayment
    {
      if currentQuestion < |selectedQuestions| - 1 {
        currentQuestion := currentQuestion + 1;
      } else {
        HandleSubmitQuiz();
      }
    }

    /**
     * One second of the countdown: the interval, while armed, takes a second
     * off; the timer effect then runs again and submits the quiz when the time
     * has run out, whatever question is current.
     */
    method Tick()
      requires Valid()
      modifies this`timeRemaining, this`quizCompleted, this`showPayment
      ensures Valid()
      ensures timeRemaining == if old(TimerRunning()) then old(timeRemaining) - 1 else old(timeRemaining)
      ensures 0 <= timeRemaining <= old(timeRemaining)
      ensures quizCompleted == (old(quizCompleted) || timeRemaining == 0)
      ensures showPayment == (old(showPayment) || (!old(quizCompleted) && timeRemaining == 0))
    {
      if TimerRunning() {
        timeRemaining := timeRemaining - 1;
      }
      if timeRemaining == 0 && !quizCompleted {
        HandleSubmitQuiz();
      }
    }

    /** The payment went through: hide the payment screen and show the results. */
    method HandlePaymentSuccess()
      requires Valid()
      modifies this`paymentCompleted, this`showPayment, this`showResults
      ensures Valid()
      ensures paymentCompleted && !showPayment && showResults
    {
      paymentCompleted := true;
      showPayment := false;
      showResults := true;
    }

    /** Back to the welcome screen, in exactly the state the page opened in. */
    method ResetQuiz()
      modifies this
      ensures Valid() && IsInitial()
    {
      currentQuestion := 0;
      selectedAnswers := map[];
      timeRemaining := QuizSeconds;
      quizStarted := false;
      quizCompleted := false;
      selectedQuestions := [];
      startTime := 0;
      showResults := false;
      showDetailedResults := false;
      paymentCompleted := false;
      showPayment := false;
    }

    /**
     * Scores the recorded answers against the selected questions, with the
     * elapsed time measured from `startTime` to `now`, the moment the results
     * screen renders after the payment. Counts correct and incorrect answers
     * question by question, then assembles the breakdown.
     */
    method CalculateScore(now: int) returns (r: ScoreBreakdown)
      ensures r == ScoreOf(selectedQuestions, selectedAnswers, now - startTime)
      ensures r.correctAnswers == |OutcomeIndices(selectedQuestions, selectedAnswers, |selectedQuestions|, Correct)|
      ensures r.incorrectAnswers == |OutcomeIndices(selectedQuestions, selectedAnswers, |selectedQuestions|, Incorrect)|
      ensures r.correctAnswers + r.incorrectAnswers <= |selectedQuestions|
      ensures MinScore <= r.finalScore <= MaxScore
      ensures |selectedQuestions| == QuestionsPerQuiz ==>
        r.unanswered == CountOutcome(selectedQuestions, selectedAnswers, |selectedQuestions|, Unanswered)
        && 0 <= r.accuracy <= 100
    {
      var correctAnswers, incorrectAnswers := 0, 0;
      var index := 0;
      while index < |selectedQuestions|
        invariant 0 <= index <= |selectedQuestions|
        invariant correctAnswers == CountOutcome(selectedQuestions, selectedAnswers, index, Correct)
        invariant incorrectAnswers == CountOutcome(selectedQuestions, selectedAnswers, index, Incorrect)
      {
        var userAnswer := Lookup(selectedAnswers, index);
        if userAnswer == Some(selectedQuestions[index].correctAnswer) {
          correctAnswers := correctAnswers + 1;
        } else if userAnswer.Some? && userAnswer.value != "" {
          incorrectAnswers := incorrectAnswers + 1;
        }
        index := index + 1;
      }
      r := Breakdown(correctAnswers, incorrectAnswers, now - startTime);
      CountsPartition(selectedQuestions, selectedAnswers, |selectedQuestions|);
      CountIsCardinality(selectedQuestions, selectedAnswers, |selectedQuestions|, Correct);
      CountIsCardinality(selectedQuestions, selectedAnswers, |selectedQuestions|, Incorrect);
      if |selectedQuestions| == QuestionsPerQuiz {
        ScoreOfFullQuiz(selectedQuestions, selectedAnswers, now - startTime);
      }
    }
  }

  /**
   * A client run: when the countdown reaches zero on the fourth question, the
   * quiz is submitted without stepping through the remaining six questions.
   */
  method TimeoutSubmitsMidQuiz(s: QuizSession)
    requires s.Valid() && s.quizStarted && !s.quizCompleted
    requires s.timeRemaining == 1 && s.currentQuestion == 3
    modifies s
    ensures s.quizCompleted && s.showPayment && s.currentQuestion == 3 && s.timeRemaining == 0
  {
    s.Tick();
  }

  /** A client run: choosing the same answer twice leaves the same answers as choosing it once. */
  method SelectAnswerTwice(s: QuizSession, answer: string)
    requires s.Valid()
    modifies s
    ensures s.selectedAnswers == old(s.selectedAnswers)[old(s.currentQuestion) := answer]
  {
    s.SelectAnswer(answer);
    s.SelectAnswer(answer);
  }

  /**
   * The score card is given the correct count over ten questions, so the
   * percentage it shows is the accuracy the score breakdown computes.
   */
  lemma CardPercentageIsAccuracy(correct: int)
    ensures ScoreDisplay.Percentage(correct, QuestionsPerQuiz) == Accuracy(correct)
  {
    ScoreDisplay.PercentageOfTen(correct);
  }

  /**
   * The results screen without payment and without details, the only one
   * showing the final score, the band label, the accuracy and the completion
   * time, is never rendered: the results are shown only after the payment.
   */
  lemma ResultsSummaryUnreachable(s: QuizSession)
    requires s.Valid()
    ensures !(s.showResults && !s.paymentCompleted && !s.showDetailedResults)
  {
  }
}

/**
 * The pure rules of the BlockIQ quiz page: how a question is drawn from the
 * pool, how an answer is classified, how the IQ-style score is assembled from
 * the counts and the completion time, and how the countdown and the score are
 * presented (the `mm:ss` clock, the timer colour, the score-band label).
 */
module QuizRules {
  import opened Numerals

  /** Number of questions in one quiz, and the countdown in seconds. */
  const QuestionsPerQuiz: nat := 10
  const QuizSeconds: nat := 600

  const BaseScore: int := 100
  const PointsPerCorrect: int := 10
  const PenaltyPerIncorrect: int := 5
  const MinScore: int := 50
  const MaxScore: int := 150

  /** Bonus thresholds, in milliseconds of completion time (5, 7 and 10 minutes). */
  const FastMs: int := 300000
  const MediumMs: int := 420000
  const SlowMs: int := 600000

  /**
   * A question of the pool. The pool file is not part of this model; a
   * question is known only by the fields the page reads.
   */
  datatype Question = Question(
    id: int,
    category: string,
    question: string,
    options: seq<string>,
    correctAnswer: string,
    explanation: string)

  const OptionLetters: seq<string> := ["A", "B", "C", "D"]

  /** What the pool promises of every question: four options and a letter naming one. */
  predicate WellFormed(q: Question) {
    |q.options| == 4 && q.correctAnswer in OptionLetters
  }

  // ---------------------------------------------------------------------------
  // Selecting the questions of a quiz
  // ---------------------------------------------------------------------------

  /** `order` is a rearrangement of the positions 0 .. n-1. */
  predicate IsPermutation(order: seq<nat>, n: nat) {
    && |order| == n
    && (forall i :: 0 <= i < n ==> order[i] < n)
    && (forall i, j :: 0 <= i < j < n ==> order[i] != order[j])
  }

  /**
   * The pool shuffled and cut to the first ten. The order the random
   * comparator produces is the parameter `order`: whatever it is, sorting
   * yields a permutation of the pool.
   */
  function SelectRandomQuestions(pool: seq<Question>, order: seq<nat>): (r: seq<Question>)
    requires IsPermutation(order, |pool|)
    ensures |r| == Min(QuestionsPerQuiz, |pool|)
    ensures forall i :: 0 <= i < |r| ==> r[i] == pool[order[i]]
    ensures forall i, j :: 0 <= i < j < |r| ==> order[i] != order[j]
  {
    var shuffled := seq(|pool|, i requires 0 <= i < |pool| => pool[order[i]]);
    shuffled[..Min(QuestionsPerQuiz, |pool|)]
  }

  /** Every selected question comes from the pool, and no question id is drawn twice. */
  lemma SelectedAreDistinct(pool: seq<Question>, order: seq<nat>)
    requires IsPermutation(order, |pool|)
    requires forall i, j :: 0 <= i < j < |pool| ==> pool[i].id != pool[j].id
    ensures var r := SelectRandomQuestions(pool, order);
      && (forall i :: 0 <= i < |r| ==> r[i] in pool)
      && (forall i, j :: 0 <= i < j < |r| ==> r[i].id != r[j].id)
  {
  }

  // ---------------------------------------------------------------------------
  // Classifying and counting answers
  // ---------------------------------------------------------------------------

  datatype Outcome = Correct | Incorrect | Unanswered

  /** `selectedAnswers[index]`: the recorded answer, or nothing (`undefined`). */
  function Lookup(answers: map<int, string>, index: int): Option<string> {
    if index in answers then Some(answers[index]) else None
  }

  /**
   * An answer strictly equal to the question's key is correct; any other
   * truthy (present and non-empty) answer is incorrect; the rest is unanswered.
   */
  function Classify(correctAnswer: string, userAnswer: Option<string>): (o: Outcome)
    ensures o == Correct <==> userAnswer == Some(correctAnswer)
    ensures o == Incorrect <==> userAnswer.Some? && userAnswer.value != correctAnswer && userAnswer.value != ""
    ensures o == Unanswered <==> userAnswer.None? || (userAnswer.value == "" && correctAnswer != "")
  {
    if userAnswer == Some(correctAnswer) then Correct
    else if userAnswer.Some? && userAnswer.value != "" then Incorrect
    else Unanswered
  }

  function OutcomeAt(qs: seq<Question>, answers: map<int, string>, i: nat): Outcome
    requires i < |qs|
  {
    Classify(qs[i].correctAnswer, Lookup(answers, i))
  }

  /** How many of the first `n` questions have outcome `o`. */
  function CountOutcome(qs: seq<Question>, answers: map<int, string>, n: nat, o: Outcome): (c: nat)
    requires n <= |qs|
    ensures c <= n
  {
    if n == 0 then 0
    else CountOutcome(qs, answers, n - 1, o) + (if OutcomeAt(qs, answers, n - 1) == o then 1 else 0)
  }

  /** The positions among the first `n` whose outcome is `o`. */
  function OutcomeIndices(qs: seq<Question>, answers: map<int, string>, n: nat, o: Outcome): set<nat>
    requires n <= |qs|
  {
    set i: nat | i < n && OutcomeAt(qs, answers, i) == o
  }

  /** The running count agrees with the size of the set of positions it counts. */
  lemma {:induction false} CountIsCardinality(qs: seq<Question>, answers: map<int, string>, n: nat, o: Outcome)
    requires n <= |qs|
    ensures CountOutcome(qs, answers, n, o) == |OutcomeIndices(qs, answers, n, o)|
  {
    if n == 0 {
      assert OutcomeIndices(qs, answers, n, o) == {};
    } else {
      CountIsCardinality(qs, answers, n - 1, o);
      var prev := OutcomeIndices(qs, answers, n - 1, o);
      if OutcomeAt(qs, answers, n - 1) == o {
        assert OutcomeIndices(qs, answers, n, o) == prev + {n - 1};
      } else {
        assert OutcomeIndices(qs, answers, n, o) == prev;
      }
    }
  }

  /** Every question is exactly one of correct, incorrect or unanswered. */
  lemma {:induction false} CountsPartition(qs: seq<Question>, answers: map<int, string>, n: nat)
    requires n <= |qs|
    ensures CountOutcome(qs, answers, n, Correct) + CountOutcome(qs, answers, n, Incorrect)
            + CountOutcome(qs, answers, n, Unanswered) == n
  {
    if n > 0 {
      CountsPartition(qs, answers, n - 1);
    }
  }

  // ---------------------------------------------------------------------------
  // The score
  // ---------------------------------------------------------------------------

  /**
   * The time bonus. The page compares the completion time in minutes
   * (elapsed milliseconds / 1000 / 60) with 5, 7 and 10.
   */
  function TimeBonus(elapsedMs: int): (b: int)
    ensures b == 20 <==> elapsedMs < FastMs
    ensures b == 10 <==> FastMs <= elapsedMs < MediumMs
    ensures b == 5 <==> MediumMs <= elapsedMs < SlowMs
    ensures b == 0 <==> SlowMs <= elapsedMs
  {
    var minutes := elapsedMs as real / 1000.0 / 60.0;
    if minutes < 5.0 then 20
    else if minutes < 7.0 then 10
    else if minutes < 10.0 then 5
    else 0
  }

  /** A slower completion never earns a larger bonus. */
  lemma TimeBonusMonotone(a: int, b: int)
    requires a <= b
    ensures TimeBonus(b) <= TimeBonus(a)
  {
  }

  /** `Math.max(50, Math.min(150, raw))` of the raw score. */
  function FinalScore(correct: int, incorrect: int, timeBonus: int): (s: int)
    ensures MinScore <= s <= MaxScore
    ensures var raw := BaseScore + PointsPerCorrect * correct - PenaltyPerIncorrect * incorrect + timeBonus;
      && (MinScore <= raw <= MaxScore ==> s == raw)
      && (raw < MinScore ==> s == MinScore)
      && (raw > MaxScore ==> s == MaxScore)
  {
    var raw := BaseScore + correct * 10 - incorrect * 5 + timeBonus;
    var capped := if MaxScore < raw then MaxScore else raw;
    if MinScore < capped then capped else MinScore
  }

  /** `Math.round(correct / 10 * 100)`: the share of the ten questions answered correctly. */
  function Accuracy(correct: int): (a: int)
    ensures a == 10 * correct
    ensures 0 <= correct <= QuestionsPerQuiz ==> 0 <= a <= 100
  {
    Round(correct * 100, QuestionsPerQuiz)
  }

  /** `Math.round(minutes * 10)`: the completion time in tenths of a minute, nearest tenth. */
  function CompletionTenths(elapsedMs: int): (t: int)
    ensures 6000 * t - 3000 <= elapsedMs < 6000 * t + 3000
  {
    Round(elapsedMs, 6000)
  }

  /** The object `calculateScore` returns. `completionTenths` is `completionTime` times ten. */
  datatype ScoreBreakdown = ScoreBreakdown(
    correctAnswers: nat,
    incorrectAnswers: nat,
    unanswered: int,
    baseScore: int,
    correctPoints: int,
    incorrectPenalty: int,
    timeBonus: int,
    finalScore: int,
    completionTenths: int,
    accuracy: int)

  /** The breakdown for given counts and completion time. */
  function Breakdown(correct: nat, incorrect: nat, elapsedMs: int): (r: ScoreBreakdown)
    ensures r.correctAnswers == correct && r.incorrectAnswers == incorrect
    ensures r.unanswered + correct + incorrect == QuestionsPerQuiz
    ensures r.baseScore == BaseScore
    ensures r.correctPoints == PointsPerCorrect * correct && r.incorrectPenalty == PenaltyPerIncorrect * incorrect
    ensures r.timeBonus == TimeBonus(elapsedMs)
    ensures r.finalScore == FinalScore(correct, incorrect, r.timeBonus)
    ensures r.accuracy == Accuracy(correct) && r.completionTenths == CompletionTenths(elapsedMs)
    ensures r.timeBonus in {20, 10, 5, 0}
    ensures MinScore <= r.finalScore <= MaxScore
    ensures r.finalScore == r.baseScore + r.correctPoints - r.incorrectPenalty + r.timeBonus
            || r.finalScore == MinScore || r.finalScore == MaxScore
  {
    var timeBonus := TimeBonus(elapsedMs);
    ScoreBreakdown(
      correct,
      incorrect,
      QuestionsPerQuiz - correct - incorrect,
      BaseScore,
      correct * PointsPerCorrect,
      incorrect * PenaltyPerIncorrect,
      timeBonus,
      FinalScore(correct, incorrect, timeBonus),
      CompletionTenths(elapsedMs),
      Accuracy(correct))
  }

  /** The score of a set of questions and recorded answers, completed after `elapsedMs`. */
  function ScoreOf(qs: seq<Question>, answers: map<int, string>, elapsedMs: int): (r: ScoreBreakdown)
    ensures r.correctAnswers == |OutcomeIndices(qs, answers, |qs|, Correct)|
    ensures r.incorrectAnswers == |OutcomeIndices(qs, answers, |qs|, Incorrect)|
    ensures r.correctAnswers + r.incorrectAnswers <= |qs|
    ensures MinScore <= r.finalScore <= MaxScore
  {
    CountsPartition(qs, answers, |qs|);
    CountIsCardinality(qs, answers, |qs|, Correct);
    CountIsCardinality(qs, answers, |qs|, Incorrect);
    Breakdown(CountOutcome(qs, answers, |qs|, Correct), CountOutcome(qs, answers, |qs|, Incorrect), elapsedMs)
  }

  /**
   * For a full quiz of ten questions the three counts partition the ten
   * questions, and the accuracy is a percentage.
   */
  lemma ScoreOfFullQuiz(qs: seq<Question>, answers: map<int, string>, elapsedMs: int)
    requires |qs| == QuestionsPerQuiz
    ensures var r := ScoreOf(qs, answers, elapsedMs);
      && r.unanswered == CountOutcome(qs, answers, |qs|, Unanswered)
      && 0 <= r.unanswered <= QuestionsPerQuiz
      && r.accuracy == 10 * r.correctAnswers
      && 0 <= r.accuracy <= 100
  {
    CountsPartition(qs, answers, |qs|);
  }

  /**
   * A quiz of ten questions with question 0 answered right, question 1
   * answered wrong and the rest unanswered, finished in four minutes, scores
   * 100 + 10 - 5 + 20 = 125 with an accuracy of 10%.
   */
  lemma {:induction false} OneRightOneWrongScenario(qs: seq<Question>)
    requires |qs| == QuestionsPerQuiz && forall i :: 0 <= i < |qs| ==> WellFormed(qs[i])
    ensures var wrong := if qs[1].correctAnswer == "A" then "B" else "A";
      var r := ScoreOf(qs, map[0 := qs[0].correctAnswer, 1 := wrong], 240000);
      && r.correctAnswers == 1 && r.incorrectAnswers == 1 && r.unanswered == 8
      && r.correctPoints == 10 && r.incorrectPenalty == 5 && r.timeBonus == 20
      && r.finalScore == 125 && r.accuracy == 10 && r.completionTenths == 40
  {
    var wrong := if qs[1].correctAnswer == "A" then "B" else "A";
    var answers := map[0 := qs[0].correctAnswer, 1 := wrong];
    assert OutcomeAt(qs, answers, 0) == Correct;
    assert OutcomeAt(qs, answers, 1) == Incorrect;
    forall i | 2 <= i < |qs| ensures OutcomeAt(qs, answers, i) == Unanswered {
      assert i !in answers;
    }
    assert CountOutcome(qs, answers, 2, Correct) == 1;
    assert CountOutcome(qs, answers, 2, Incorrect) == 1;
    UnansweredTail(qs, answers, 2, |qs|);
  }

  /** Unanswered questions past position `k` change neither the correct nor the incorrect count. */
  lemma {:induction false} UnansweredTail(qs: seq<Question>, answers: map<int, string>, k: nat, n: nat)
    requires k <= n <= |qs|
    requires forall i :: k <= i < n ==> OutcomeAt(qs, answers, i) == Unanswered
    ensures CountOutcome(qs, answers, n, Correct) == CountOutcome(qs, answers, k, Correct)
    ensures CountOutcome(qs, answers, n, Incorrect) == CountOutcome(qs, answers, k, Incorrect)
    decreases n - k
  {
    if k < n {
      UnansweredTail(qs, answers, k, n - 1);
    }
  }

  /** All ten right after twelve minutes: raw 200, capped at 150. */
  lemma AllCorrectSlowScenario()
    ensures var r := Breakdown(10, 0, 720000);
      && r.correctPoints == 100 && r.incorrectPenalty == 0 && r.timeBonus == 0
      && r.finalScore == 150 && r.unanswered == 0
  {
  }

  /** All ten wrong after twelve minutes: raw 50, the floor. */
  lemma AllIncorrectSlowScenario()
    ensures var r := Breakdown(0, 10, 720000);
      && r.correctPoints == 0 && r.incorrectPenalty == 50 && r.timeBonus == 0
      && r.finalScore == 50 && r.accuracy == 0
  {
  }

  // ---------------------------------------------------------------------------
  // Presentation
  // ---------------------------------------------------------------------------

  /**
   * The countdown as `MM:SS`, both fields zero-padded to two digits. It reads
   * back as the same number of seconds, and below 100 minutes it is exactly
   * five characters.
   */
  function FormatTime(seconds: nat): (r: string)
    ensures ParseMinSec(r) == Some(seconds)
    ensures |r| >= 5
    ensures seconds < 6000 ==> |r| == 5
  {
    var mm := PadStart(ToDecimal(seconds / 60), 2, '0');
    var ss := PadStart(ToDecimal(seconds % 60), 2, '0');
    ZeroPadValue(ToDecimal(seconds / 60), 2);
    ZeroPadValue(ToDecimal(seconds % 60), 2);
    DecimalRoundTrip(seconds / 60);
    DecimalRoundTrip(seconds % 60);
    ParseMinSecOf(mm, ss);
    mm + ":" + ss
  }

  /** Tailwind colour class of the countdown. */
  function TimerColor(timeRemaining: int): (c: string)
    ensures c == "text-red-600" <==> timeRemaining <= 30
    ensures c == "text-orange-600" <==> 30 < timeRemaining <= 120
    ensures c == "text-gray-600" <==> 120 < timeRemaining
  {
    if timeRemaining <= 30 then "text-red-600"
    else if timeRemaining <= 120 then "text-orange-600"
    else "text-gray-600"
  }

  /**
   * The labels the results screen renders under the final score: each of the
   * five guarded lines contributes its text when its guard holds.
   */
  function ScoreLabels(finalScore: int): (r: seq<string>)
    ensures |r| == 1
  {
    (if finalScore >= 130 then ["Exceptional blockchain knowledge"] else [])
    + (if finalScore >= 115 && finalScore < 130 then ["Above average understanding"] else [])
    + (if finalScore >= 100 && finalScore < 115 then ["Good foundational knowledge"] else [])
    + (if finalScore >= 85 && finalScore < 100 then ["Developing understanding"] else [])
    + (if finalScore < 85 then ["Room for improvement - keep learning!"] else [])
  }

  /** A higher score never shows a lower band. */
  lemma ScoreLabelsMonotone(s: int, t: int)
    ensures s <= t ==> LabelRank(ScoreLabels(s)[0]) <= LabelRank(ScoreLabels(t)[0])
  {
  }

  /** Position of a label from the lowest band (0) to the highest (4). */
  function LabelRank(text: string): nat {
    if text == "Exceptional blockchain knowledge" then 4
    else if text == "Above average understanding" then 3
    else if text == "Good foundational knowledge" then 2
    else if text == "Developing understanding" then 1
    else 0
  }
}

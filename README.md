# BlockIQ quiz engine, modelled in Dafny

BlockIQ is a single-page quiz. It draws ten multiple-choice questions from a
pool and runs a ten-minute countdown. When the quiz ends it shows a payment
screen. Once the payment goes through, the results screen computes an
IQ-style score from the number of correct and incorrect answers and the time
elapsed since the start. The score card on that screen shows only the number
of correct answers and its percentage. This project models the
quiz engine inside the page and the score card that displays the result.
Their contracts are proved with Dafny.

- `numerals.dfy` (module `Numerals`): the JavaScript number helpers the
  screens use, over exact integers. They are `Math.round` of a quotient,
  `toString` of a non-negative integer and `padStart`. It also holds their
  inverses: reading digits back, and reading an `m:ss` clock back into
  seconds.
- `quiz_rules.dfy` (module `QuizRules`): the pure rules of the page. These are
  question selection, answer classification and counting, the time bonus, the
  clamp to [50, 150], accuracy, completion time, the `MM:SS` countdown, the
  timer colour and the score-band label.
- `quiz_page.dfy` (module `QuizPage`): the page state as the class
  `QuizSession`. Its fields are those of the `QuizState` record plus the
  `showResults`, `showDetailedResults`, `paymentCompleted` and `showPayment`
  flags. Each handler is a method that updates those fields. `CalculateScore`
  is the counting loop, proved equal to the specification function
  `QuizRules.ScoreOf`.
- `score_display.dfy` (module `ScoreDisplay`): the score card. It covers the
  rounded percentage, the 90/75/60 colour and message bands, the `m:ss` time
  and the share text.

Randomness and the clock are parameters. The order produced by the
random-comparator sort is a permutation `order` of the pool positions.
`Date.now()` is an integer `now` in milliseconds. Floating-point values are
exact rationals: the bonus compares elapsed milliseconds over 60000 with 5, 7
and 10 minutes, and `completionTime` is kept in tenths of a minute.

Behaviour of the code that the model keeps:
- Selection takes the first `min(10, |pool|)` shuffled questions. It does not
  fail on a small pool.
- The last question is `selectedQuestions.length - 1`, not a fixed 9.
- Any string is recorded as an answer. Only an empty or missing answer counts
  as unanswered.
- `CalculateScore` can be called in any state. The code does not guard it on
  completion.
- The score is computed while the results screen renders, so `now` is the
  moment of that render, after the payment. The elapsed time includes the
  payment, and each render reads the clock again.
- The results are shown only together with the payment flag
  (`QuizPage.QuizSession.Valid`). The results screen without payment, the only
  one showing the final score, the band label, the accuracy and the
  completion time, is never rendered (`QuizPage.ResultsSummaryUnreachable`).
- `unanswered` is `10 - correct - incorrect`, as the code computes it. It
  matches the number of unanswered questions only for a full quiz of ten
  (`QuizRules.ScoreOfFullQuiz`).

## Model

| member | source | states |
|---|---|---|
| `Numerals.Round` | frontend/app/page.tsx:228 | `Math.round(num/den)` is the integer nearest to the quotient, with halves going up: 2·den·r ≤ 2·num + den < 2·den·r + 2·den |
| `Numerals.PadStart` | frontend/app/page.tsx:104 | `padStart` has length max(width, \|s\|), ends with `s`, and is fill characters before it |
| `Numerals.ToDecimal` | frontend/app/page.tsx:104 | `toString` writes at least one decimal digit, two or more exactly from 10 on, at most two below 100, and no leading zero for a positive number |
| `Numerals.DecimalRoundTrip` | frontend/app/page.tsx:104 | reading back the digits `toString` writes gives the same number |
| `Numerals.ZeroPadValue` | frontend/app/page.tsx:104 | zero-padding a digit string keeps it a digit string with the same value |
| `QuizRules.SelectRandomQuestions` | frontend/app/page.tsx:154-157 | the selection has min(10, pool size) questions, each the pool entry at a distinct position of the shuffle order (a prefix of a permutation) |
| `QuizRules.SelectedAreDistinct` | frontend/app/page.tsx:154-157 | every selected question is in the pool, and with distinct pool ids no id is selected twice |
| `QuizRules.Classify` | frontend/app/page.tsx:200-207 | correct iff the answer equals the key; incorrect iff it is present, non-empty and different; unanswered iff it is missing or empty (and the key is not empty) |
| `QuizRules.CountOutcome` | frontend/app/page.tsx:198-207 | the count of an outcome over the first n questions is at most n |
| `QuizRules.CountIsCardinality` | frontend/app/page.tsx:198-207 | the running count equals the number of positions with that outcome |
| `QuizRules.CountsPartition` | frontend/app/page.tsx:198-221 | correct + incorrect + unanswered counts add up to the number of questions |
| `QuizRules.TimeBonus` | frontend/app/page.tsx:211-216 | the bonus is 20 iff elapsed < 300000 ms, 10 iff in [300000, 420000), 5 iff in [420000, 600000), 0 otherwise |
| `QuizRules.TimeBonusMonotone` | frontend/app/page.tsx:212-216 | a longer completion time never earns a larger bonus |
| `QuizRules.FinalScore` | frontend/app/page.tsx:208-217 | the final score lies in [50, 150]; it equals 100 + 10·correct − 5·incorrect + bonus when that is in range, and the nearer bound otherwise |
| `QuizRules.Accuracy` | frontend/app/page.tsx:228 | accuracy is 10·correct, within [0, 100] for 0..10 correct answers |
| `QuizRules.CompletionTenths` | frontend/app/page.tsx:212-227 | completion time in tenths of a minute t satisfies 6000·t − 3000 ≤ elapsed ms < 6000·t + 3000 |
| `QuizRules.Breakdown` | frontend/app/page.tsx:208-229 | the result carries the counts, unanswered = 10 − correct − incorrect, base 100, 10 points per correct and 5 per incorrect answer, the bonus `TimeBonus` of the elapsed time, the clamped `FinalScore`, `Accuracy` of the correct count and `CompletionTenths` of the elapsed time; the final score lies in [50, 150] and is the raw sum or a bound |
| `QuizRules.ScoreOf` | frontend/app/page.tsx:197-229 | the score of a set of questions and answers counts exactly the positions answered correctly and incorrectly, at most the number of questions together, with a final score in [50, 150] |
| `QuizRules.ScoreOfFullQuiz` | frontend/app/page.tsx:218-229 | for ten questions, `unanswered` equals the number of unanswered questions, lies in [0, 10], and accuracy is 10·correct within [0, 100] |
| `QuizRules.UnansweredTail` | frontend/app/page.tsx:200-207 | questions without an answer change neither the correct nor the incorrect count |
| `QuizRules.OneRightOneWrongScenario` | frontend/app/page.tsx:197-229 | one right, one wrong and eight unanswered in four minutes scores 125 with accuracy 10 and completion time 4.0 minutes |
| `QuizRules.AllCorrectSlowScenario` | frontend/app/page.tsx:208-217 | ten right in twelve minutes: raw 200, clamped to 150 |
| `QuizRules.AllIncorrectSlowScenario` | frontend/app/page.tsx:208-217 | ten wrong in twelve minutes: raw 50, the floor |
| `QuizRules.FormatTime` | frontend/app/page.tsx:101-105 | `MM:SS` reads back as the same seconds (MM·60 + SS = s, SS two digits below 60, MM at least two digits) and is exactly five characters below 100 minutes |
| `QuizRules.TimerColor` | frontend/app/page.tsx:147-151 | red iff ≤ 30 s left, orange iff 31–120 s, grey iff more than 120 s |
| `QuizRules.ScoreLabels` | frontend/app/page.tsx:492-496 | exactly one of the five guarded band labels holds for any final score (they sit on the results screen that `QuizPage.ResultsSummaryUnreachable` shows is never rendered) |
| `QuizRules.ScoreLabelsMonotone` | frontend/app/page.tsx:492-496 | a higher final score never shows a lower band label |
| `QuizPage.QuizSession.constructor` | frontend/app/page.tsx:70-82 | the page opens not started, at question 0, with no answers, 600 s left and every flag cleared |
| `QuizPage.QuizSession.StartQuiz` | frontend/app/page.tsx:159-171 | question 0, no answers, 600 s, started, not completed, `startTime = now`, the selected questions; payment and results flags unchanged |
| `QuizPage.QuizSession.SelectAnswer` | frontend/app/page.tsx:173-182 | records the answer at the current question only; every other key and field is unchanged; choosing the recorded answer again changes nothing |
| `QuizPage.QuizSession.NextQuestion` | frontend/app/page.tsx:184-194 | before the last question it advances by exactly one and changes nothing else; on the last it submits (completed, payment shown) without moving; the question index never decreases |
| `QuizPage.QuizSession.HandleSubmitQuiz` | frontend/app/page.tsx:232-239 | marks the quiz completed and shows the payment screen, nothing else |
| `QuizPage.QuizSession.Tick` | frontend/app/page.tsx:84-98 | while the timer runs it takes exactly one second off; the time never goes below 0 or up; at 0 the quiz is submitted whatever the current question |
| `QuizPage.QuizSession.HandlePaymentSuccess` | frontend/app/page.tsx:241-246 | sets payment completed and results shown, hides the payment screen, nothing else |
| `QuizPage.QuizSession.ResetQuiz` | frontend/app/page.tsx:248-263 | restores exactly the state the page opens in, clearing results, detailed results, payment completed and payment shown |
| `QuizPage.QuizSession.CalculateScore` | frontend/app/page.tsx:196-230 | the counting loop yields `ScoreOf` of the selected questions and answers, timed from `startTime` to the `now` of the render; correct and incorrect are the sizes of their position sets and at most the number of questions; the score lies in [50, 150]; for ten questions `unanswered` is the real unanswered count |
| `QuizPage.CardPercentageIsAccuracy` | frontend/app/page.tsx:392-394 | the score card, given the correct count over 10 questions, shows the same percentage as the accuracy the score breakdown computes (page.tsx:228) |
| `QuizPage.ResultsSummaryUnreachable` | frontend/app/page.tsx:241-262 | in every reachable state the results screen without payment and without details (page.tsx:478-550) is not rendered, since results are shown only once the payment has gone through |
| `QuizPage.TimeoutSubmitsMidQuiz` | frontend/app/page.tsx:85-98 | a timeout on question 4 submits at once, without six more advances |
| `QuizPage.SelectAnswerTwice` | frontend/app/page.tsx:174-182 | choosing the same answer twice leaves the same answers as choosing it once |
| `ScoreDisplay.Percentage` | frontend/components/ScoreDisplay.tsx:17 | the percentage is the integer nearest to 100·score/total, halves going up |
| `ScoreDisplay.PercentageBounds` | frontend/components/ScoreDisplay.tsx:17 | for 0 ≤ score ≤ total the percentage lies in [0, 100] |
| `ScoreDisplay.PercentageMonotone` | frontend/components/ScoreDisplay.tsx:17 | a higher score never gives a lower percentage |
| `ScoreDisplay.PercentageOfTen` | frontend/components/ScoreDisplay.tsx:17 | over ten questions the percentage is 10·score |
| `ScoreDisplay.BandOf` | frontend/components/ScoreDisplay.tsx:19-31 | the four bands are the disjoint ranges ≥ 90, [75, 90), [60, 75), < 60 |
| `ScoreDisplay.ScoreColor` | frontend/components/ScoreDisplay.tsx:19-24 | the first-match colour chain gives the colour of the percentage's band |
| `ScoreDisplay.ScoreMessage` | frontend/components/ScoreDisplay.tsx:26-31 | the first-match message chain gives the message of the same band |
| `ScoreDisplay.ColorAndMessageAgree` | frontend/components/ScoreDisplay.tsx:19-31 | two percentages share a colour iff they share a band iff they share a message |
| `ScoreDisplay.FormatTime` | frontend/components/ScoreDisplay.tsx:33-37 | `m:ss` reads back as the same seconds (m·60 + ss = s, ss two digits below 60), the minutes are unpadded (no leading zero from one minute on), and it is four characters below ten minutes |
| `ScoreDisplay.ShareText` | frontend/components/ScoreDisplay.tsx:39-40 | the share text reads back as `score/totalQuestions` together with the same percentage the card shows |

## Left out

- Mini App readiness signalling, the payment component, the HTTP header configuration, the provider wiring and all JSX rendering and styling: these are platform glue and external-library calls, not quiz logic.
- Sharing through the host frame, `navigator.share` or the clipboard (`handleFarcasterShare`, the browser half of `shareResults`): browser I/O. The page's own share text at frontend/app/page.tsx:110 is not modelled. The score card's text is.
- `isMobileView`: it reads the window size and user agent.
- The question pool file is not part of this model. A question has its id, category, text, options, answer key and explanation, and nothing is assumed about them beyond `WellFormed` where a lemma needs it.
- `SelectRandomQuestions`: the statistical bias of sorting with a random comparator is not modelled. The shuffle is any permutation, passed in as `order`.
- Timing: the model does not cover the one-second interval, React's asynchronous and batched state updates, or effect scheduling. Each handler is one sequential update. `Tick` is one interval firing followed by the timer effect running again.
- `QuizPage.QuizSession.NextQuestion` requires the current question to have a truthy answer. The button that calls it is disabled otherwise (frontend/app/page.tsx:616).
- ScoreDisplay.Percentage: rounds the exact quotient, while the card rounds a double. They differ when the double product falls just below a half: (23 / 40) · 100 is 57.49999999999999 in doubles, so the card shows 57 where the model gives 58, and 29/200, 57/200 and 115/200 behave alike. For `totalQuestions = 10`, which the page passes, the two agree.
- `ScoreDisplay.Percentage` requires `totalQuestions > 0`. For 0, JavaScript yields NaN or Infinity, which the model does not represent. The page always passes 10.
- `QuizRules.FormatTime` and `ScoreDisplay.FormatTime` take non-negative seconds. The countdown never goes below 0, and a negative elapsed time (a clock moving backwards) is not modelled.
- Floating point: minutes are exact rationals, not doubles. Over integer milliseconds this gives the same comparisons with 5, 7 and 10 minutes.
- The inline setters that toggle `showDetailedResults` from buttons (frontend/app/page.tsx:397, 411, 539) each assign one flag. They are not modelled as separate methods.

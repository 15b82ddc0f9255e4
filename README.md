# DELF B1 vocabulary quiz: a verified model of the quiz and progress rules

The page is a French–Korean vocabulary quiz in the browser. The vocabulary
comes in levels, and each level has a theme and a list of word pairs. A quiz
on level L draws its questions from every word of levels 1..L, and level L's
own words are added two more times. The pool is shuffled and cut to 50
questions. Each question offers the Korean translation and up to three wrong
translations, shuffled together. The player selects an option and presses
Next. The answer is meant to be scored then, and the next question shown
1.5 s later. After the last question the result screen is meant to show the
percentage, a feedback message and a colour, and to fold the attempt into the
per-level progress table. As written, the selection never reaches
`nextQuestion`, so nothing is scored and a quiz never reaches its results
(see Findings). The progress table decides which levels are locked and feeds
the summary figures.

The model is in five modules:

- `Optional` (optional.dfy): `Option`, standing for `null` next to a value.
- `Scoring` (scoring.dfy) covers the rounded percentage, the pass mark of 70,
  the five feedback tiers with their style classes, and the badge colour.
- `Progress` (progress.dfy) covers the per-level record, the lazily created
  blank record and the default table for 20 levels. It also holds the update
  after a quiz, the lock rule and the summary sums. Lemmas cover monotonicity
  and histories of attempts.
- `Generator` (generator.dfy) covers level lookup, the cumulative weighted
  pool (built by push loops), the Fisher–Yates shuffle over an array, the
  wrong answers and the answer options of a question.
- `Session` (session.dfy) holds the class `QuizPage`. Its fields are the
  script's global variables, and its methods are the handlers that update
  them. Client methods at the end show how the handlers combine.

Modelling choices:

- `Math.round(x / y * 100)` becomes `(200x + y) / (2y)`, which is the nearest
  integer with halves rounded up. The page computes on doubles, so the two can
  differ by one where the quotient lands just below a half (see "Left out").
  Division by zero becomes `Percentage.NotANumber`, which fails every
  comparison, as `NaN` does. In JavaScript `score / 0` is `Infinity` when the
  score is positive. That case is not reachable: a quiz with no questions
  always has score 0, because `startQuiz` resets the score before showing
  anything.
- `Math.random` becomes a parameter `draw: nat -> nat`. At loop index i the
  shuffle swaps with `draw(i) % (i + 1)`. That reaches exactly the indices
  0..i that `Math.floor(Math.random() * (i + 1))` can give.
- The `setTimeout` callback becomes a counter of scheduled callbacks,
  `pendingAdvances`, plus the method `Advance`, which fires one of them.
- The Next button's enabled state is a field. `NextQuestion` requires it,
  because both the button and the Enter key handler (script.js:443) call
  `nextQuestion` only while Next is enabled.
- Past the last question, `currentQuiz[currentQuestionIndex].korean` throws
  before any state changes. `NextQuestion` models this as "nothing changes".
- `Object.values(userProgress)` sums are ghost functions over the table's key
  set. A sum does not depend on the order of the keys (`TotalOverRemove`).

A reader might expect some rules to work otherwise; the model follows the code:

- A reader might expect the average score to divide by the real quiz lengths. The code divides by `attempts * 50`.
- A reader might expect distinct wrong answers from nearby levels. The code
  takes every translation different from the correct one, from all levels,
  with repetitions kept. An option list may therefore
  show the same wrong translation twice.
- A reader might expect `nextQuestion` to ignore a question already answered,
  and a new quiz to cancel the pending advance. The code does neither (see
  Findings).

## Model

| member | source | states |
|---|---|---|
| `Scoring.RoundedPercent` | script.js:347 | `Math.round(part/whole*100)` is the integer nearest to 100·part/whole, with a half rounded up. It is at most 100 when part ≤ whole and exactly 100 when part = whole |
| `Scoring.PercentageOf` | script.js:347 | the percentage is NaN exactly for an empty quiz. It is at most 100 when score ≤ total, 100 for a perfect quiz, and 0 for no correct answer |
| `Scoring.PassIffRatio` | script.js:393 | `percentage >= 70` holds exactly when the quiz is non-empty and 200·score ≥ 139·total (35 of 50) |
| `Scoring.FeedbackFor` | script.js:359-374 | the message tier is chosen by the thresholds 90/80/70/60, checked in order, and NaN gives the last tier. The tier is one of the first three exactly when the quiz passed |
| `Scoring.ColourFor` | script.js:381-390 | the badge is green from 80, orange from 60, and red below 60 or for NaN |
| `Scoring.ColourMatchesTone` | script.js:359-390 | the badge colour and the message's style class always agree: success is green, warning is orange, danger is red |
| `Scoring.FeedbackMonotone` | script.js:359-374 | more correct answers out of the same total never give a worse message |
| `Progress.BlankLevels` | script.js:50-57 | the default table has a record for exactly the levels 1..n, and every record is blank |
| `Progress.Recorded` | script.js:409-418 | one finished quiz adds one attempt and adds the score to the total. The best score becomes the larger of the old best and the score. Completion becomes old completion or pass, so it never reverts |
| `Progress.RecordAttempt` | script.js:399-421 | the update creates the level's record with zero defaults when it is missing. Only that record changes, and the attempt, total, best-score and completion rules apply |
| `Progress.IsLocked` | script.js:135 | level L is locked exactly when L > 1 and level L−1's record is missing or not completed. Level 1 and below are never locked |
| `Progress.DefaultLocks` | script.js:135 | with the default table, every level above 1 is locked and level 1 is open |
| `Progress.RecordKeepsUnlocked` | script.js:416-418 | recording any attempt never locks a level that was open |
| `Progress.PassUnlocksNext` | script.js:416-418 | a passed quiz on level L unlocks level L+1 |
| `Progress.RecordExamples` | script.js:399-421 | 40/50 on a fresh level 1 gives {completed, best 40, 1 attempt, 40 correct}. 30/50 then 40/50 gives {completed, best 40, 2 attempts, 70 correct}. 20/50 on level 2 gives {not completed, 1 attempt} |
| `Progress.RecordAttemptTotals` | script.js:69-71 | after a recorded quiz the table has one more attempt in all and `score` more correct answers. It has one more completed level exactly when this quiz passed a level not completed before |
| `Progress.Summarize` | script.js:69-87 | the summary counts the completed levels and sums the correct answers over all records. The average is 0 before any attempt; after that it is the nearest integer to 100·correct/(50·attempts). The overall percentage is the nearest integer to 100·completed/20, so it is at most 100 when at most 20 levels are completed |
| `Progress.DefaultSummary` | script.js:69-72 | with the default table, all summary figures are 0 |
| `Progress.ReplayFromBlank` | script.js:409-418 | over any history of attempts, a level's record counts the attempts and sums their scores. It is completed exactly when some attempt passed, and its best score is the highest score in the history (0 when empty) |
| `Progress.ReplayMonotone` | script.js:412-418 | along a history, the best score never decreases and completion never reverts. The attempts grow by exactly the number of attempts in between |
| `Generator.FindLevel` | script.js:198 | `find` returns the first level with the id, and nothing exactly when no level has it |
| `Generator.CumulativeWords` | script.js:203-209 | every word collected for levels 1..n belongs to a level whose id is in 1..n |
| `Generator.PoolWeighting` | script.js:211-215 | the pool of level n ≥ 1 holds levels 1..n−1's words once and level n's words three times, as multisets |
| `Generator.PoolFromLevelsUpTo` | script.js:203-215 | every pool word belongs to a level whose id is at most n |
| `Generator.BuildPool` | script.js:203-215 | the push loops build exactly the cumulative words followed by two more copies of the level's words |
| `Generator.ShuffleArray` | script.js:232-239 | the shuffle of a copy returns a permutation of its input: same length, same multiset |
| `Generator.Take` | script.js:218 | `slice(0, n)` is a prefix of the input, min(n, length) elements long |
| `Generator.Translations` | script.js:285 | mapping to translations keeps the length, and each position holds the Korean translation of the word at that position |
| `Generator.WrongCandidates` | script.js:282-285 | the filtered translations never contain the correct answer. Every other translation appears exactly as often as among all words |
| `Generator.GetWrongAnswers` | script.js:281-288 | the wrong answers number min(3, candidates). None equals the correct answer, they are drawn from the candidates, and each is some word's translation |
| `Generator.BuildAnswerOptions` | script.js:257-259 | the options hold 1 + min(3, candidates) ≤ 4 entries. The correct translation appears exactly once, and every other option is some word's translation |
| `Generator.BuildQuiz` | script.js:203-218 | the quiz has min(50, pool size) questions drawn from the pool. Each comes from a level whose id is at most the chosen one |
| `Session.QuizPage.constructor` | script.js:1-18 | the globals start at their declared values, and the progress table is the saved one or the 20-level default |
| `Session.QuizPage.LoadProgress` | script.js:44-59 | the saved table is used when present; otherwise the loop builds blank records for levels 1..20 |
| `Session.QuizPage.UpdateUserProgress` | script.js:399-421 | the in-place update leaves the table equal to `RecordAttempt` of the old table |
| `Session.QuizPage.ShowResults` | script.js:346-396 | the result screen shows the score, total, percentage, message, class and colour. The attempt is recorded as passed exactly when the percentage is at least 70 |
| `Session.QuizPage.ShowQuestion` | script.js:242-278 | past the last question, the results are shown and recorded. Otherwise the answer state resets and Next is disabled. The options then hold the correct answer exactly once, at most 4 entries in all. The score bound is kept |
| `Session.QuizPage.StartQuiz` | script.js:196-229 | the level is remembered even when missing, and a missing level changes nothing else. Otherwise the quiz is min(50, pool) words from the pool, index and score are 0, and the first question is shown. For an empty pool the results are shown and recorded, with the answer state, the options and Next left as they were. Pending callbacks are kept |
| `Session.QuizPage.StartQuizIntended` | script.js:196-229 | as intended: the same as `startQuiz`, and starting a quiz on an existing level drops every pending advance |
| `Session.QuizPage.SelectAnswer` | script.js:291-305 | as written: ignored once answered. Otherwise it enables Next and sets `window.selectedAnswer`, and the binding `selectedAnswer` is not changed |
| `Session.QuizPage.SelectAnswerIntended` | script.js:291-305 | as intended: ignored once answered; otherwise it stores the answer where `nextQuestion` reads it and enables Next |
| `Session.QuizPage.NextQuestion` | script.js:308-335 | as written: without a truthy selection nothing changes. Otherwise the score rises by 1 exactly when the selection equals the current translation, the question is marked answered, and one advance is scheduled, with no already-answered check |
| `Session.QuizPage.NextQuestionIntended` | script.js:308-335 | as intended: the same, except that an answered question is not committed again. The score never exceeds the questions answered |
| `Session.QuizPage.Advance` | script.js:330-334 | the callback consumes one scheduled advance and increments the index. It then shows the next question, or shows and records the results when the index reaches the length |
| `Session.SelectionIsLost` | script.js:301 | as written, selecting any option and pressing Next leaves score, index, answered flag and scheduled advances unchanged |
| `Session.SelectionReachesCommit` | script.js:291-327 | with the intended selection, Next scores the answer, marks it answered, schedules one advance and keeps the score bound |
| `Session.DoubleCommit` | script.js:308-334 | pressing Next twice before the callback scores a correct answer twice and schedules two advances. This can push the score past the questions answered |
| `Session.DoubleCommitOnLastQuestion` | script.js:308-334 | a double press on the last question lets both callbacks reach the results, so the attempt is recorded twice |
| `Session.GuardedDoubleCommit` | script.js:308-334 | with the intended guard, the second press changes nothing: the score rises by 1 and one advance is scheduled |
| `Session.FinishQuiz` | script.js:329-396 | answering the last question and letting the callback fire shows and records the results. The percentage is then at most 100 and the level has exactly one more attempt |
| `Session.StaleAdvanceSkipsFirstQuestion` | script.js:196-229 | as written, an advance pending when a new quiz of at least two questions starts moves it to question 2 with score 0: question 1 is skipped unanswered |
| `Session.FreshQuizAnswersFirstQuestion` | script.js:196-229 | as intended, a restart leaves no pending advance. The new quiz moves to question 2 only after question 1 is answered, and the score is 1 exactly when that answer was right |

## Left out

- Rendering and screen switching are left out: `showScreen`, the level grid and progress list HTML, badges, the progress bar and the score text (script.js:101-193, 338-343). They only display state.
- Loading the vocabulary with `fetch` and its failure alert is left out (script.js:21-33). The vocabulary is a constructor parameter, and the `vocabularyData === null` guard is not modelled.
- `localStorage` and `JSON.parse`/`JSON.stringify` are left out (script.js:45-47, 63). The saved table comes in as an optional, already parsed parameter, and saving has no effect in the model.
- Floating-point rounding is not modelled (script.js:72, 87, 347). The model divides exactly on integers. For quizzes of at most 50 questions, with no more correct answers than questions, the double result differs only at 23/40: the page shows 57 (the product is 57.49999999999999) and the model gives 58. No tier or pass threshold lies between the two, so the pass and feedback rules are unaffected. A score above the length, which only the double commit of the second finding produces, also differs at 41/40 (102 shown, 103 in the model). The average score (script.js:72) differs the same way at 14.5, 28.5, 56.5 and 57.5 percent, e.g. 29 correct over 4 attempts (200 questions) shows 14 where the model gives 15. The overall percentage (script.js:87) never differs.
- Timers are not modelled as real time. The 1500 ms delay is an explicit `Advance` step, and the order of events is left to the caller.
- `retryQuiz` (script.js:424-426) is `StartQuiz` with `currentLevel` and has no member of its own.
- The keyboard handler (script.js:429-447) is not modelled apart from the Next gating it shares with the button. The touch, resize, service-worker, print, devtools, context-menu and performance handlers (script.js:449-505) are left out as well.
- `Generator.BuildQuiz`: states the length min(50, pool size), that the quiz is a sub-multiset of the pool, and where each question comes from, but not the weighting, which `Generator.PoolWeighting` states.
- `Generator.ShuffleArray`: states that the result is a permutation. It does not say which permutation each draw gives or that the draws are uniform.

## Findings

| source | as written | input that shows it | evidently intended | confidence | as-written member | corrected member |
|---|---|---|---|---|---|---|
| script.js:301 | `this.selectedAnswer = selectedAnswer` runs in a plain function call of a non-strict script, so it sets the property `window.selectedAnswer`. The top-level `let selectedAnswer` is a different binding and stays `null`, so `nextQuestion` always returns at line 309 and the quiz never reaches its results | start any level, click any option, press Next | the selection is stored in the binding `nextQuestion` reads | high; not executed | `Session.QuizPage.SelectAnswer`, `Session.SelectionIsLost` | `Session.QuizPage.SelectAnswerIntended`, `Session.SelectionReachesCommit` |
| script.js:308-334 | `nextQuestion` does not check `isAnswered`, and Next stays enabled until the next question is shown (script.js:274). This is latent behind the first finding | with the selection fixed, select the correct answer and press Next twice within 1.5 s. The score rises by 2 and two advances fire: a question is skipped, and on the last question the attempt is recorded twice | one commit per question | medium; not executed | `Session.QuizPage.NextQuestion`, `Session.DoubleCommit`, `Session.DoubleCommitOnLastQuestion` | `Session.QuizPage.NextQuestionIntended`, `Session.GuardedDoubleCommit` |
| script.js:196-229 | `startQuiz` does not cancel the advance that `nextQuestion` schedules, so a pending advance fires into the next quiz. This is latent behind the first finding, since as written no advance is ever scheduled | with the selection fixed, answer a question and press Next, then start a quiz (of two or more questions) within 1.5 s. The callback moves the new quiz past question 1, which is never answered | a new quiz cancels the pending advance | medium; not executed | `Session.QuizPage.StartQuiz`, `Session.StaleAdvanceSkipsFirstQuestion` | `Session.QuizPage.StartQuizIntended`, `Session.FreshQuizAnswersFirstQuestion` |

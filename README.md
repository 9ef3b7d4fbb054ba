# Quiz-Matematico: the quiz session, modelled in Dafny

Quiz-Matematico is a browser maths quiz. A `QuizManager` object loads a question
file, takes the question list of the chosen difficulty (`easy`, `intermediate`,
`hard`), shows the questions one at a time, scores the answers and ends with a
results modal. The modal shows a percentage, one of four encouragement messages,
and a celebration when the percentage is high enough.

This project models that session and proves what it promises:

- `Quiz.Session` is the session state as a value. It holds the four fields of
  `QuizManager` (`questions`, `currentQuestionIndex`, `score`, `hasAnswered`)
  and the number of displays scheduled and not yet run. `hasAnswered` is the
  answer lock.
- `Quiz.Step` gives the state change of each source transition exactly as
  written: `startQuiz`, a scheduled `displayQuestion`, an answer click,
  `nextQuestion` and `restartQuiz`. `Quiz.Run` applies a sequence of them.
- `Quiz.QuizManager` is a class with the source's fields, `allQuestions` (the
  loaded file) included; only `selectedDifficulty` (quiz.js:9) is left out. Each of `startQuiz`, `displayQuestion`, `selectAnswer`,
  `nextQuestion` and `restartQuiz` is a method. Each method's contract gives the
  new fields, ties them to `Quiz.Step`, and says what reaches the screen.
- `Valid()` is the session invariant `Quiz.SessionInvariant`, which every method
  keeps. It has three parts:
  - `score <= |questions|`;
  - `score <= currentQuestionIndex + 1` while the lock is held, and
    `score <= currentQuestionIndex` otherwise;
  - `score <= currentQuestionIndex` whenever a display is still pending.
- The displays scheduled with `setTimeout` or an animation's `onComplete` are
  counted by the ghost field `pendingDisplays`. Each transition is taken as atomic.
- `Quiz.FinishQuiz` is a pure function. It gives the results of `finishQuiz`: the
  percentage, the celebration and the modal texts.
- `Quiz.FinalPercentage` is `Math.round(score / total * 100)` in exact
  integers: `(200 * score + total) / (2 * total)`, proved to be round-half-up.
  `Quiz.Progress` is the progress bar's `(index + 1) / total * 100` as a real.
- `Animations` holds the results modal's pure decisions: the tier a percentage
  selects, its message and emoji, the percent text and the score label.
- `NumberText` renders integers in decimal as a JavaScript template literal
  does for the integers the quiz produces (from 1e21 on JavaScript switches to
  exponent form), and parses them back.
- `QuizScenarios` drives whole sessions through the class.

In these places the model follows quiz.js:

- `nextQuestion` (quiz.js:198-212) has no lock check and does not touch the lock.
  The lock is released by `startQuiz` (quiz.js:128), by `displayQuestion`
  when a question is shown (quiz.js:148), and by `restartQuiz` (quiz.js:255).
- A click while the lock is held is ignored (quiz.js:108 and quiz.js:173). It
  raises no error.
- A chosen option other than the right one is simply wrong. No range check is made.
- `startQuiz` accepts an empty question list. Only a missing difficulty key fails.
- The progress bar shows `(index + 1) / total` when a question is displayed
  (quiz.js:215).
- The running score label shows `score / currentQuestionIndex` (quiz.js:220),
  not `score / total`.
- `disableOptions` only adds a CSS class (animations.js:364-368). The click
  listener checks only `hasAnswered` (quiz.js:107-111).

Clicking "next" twice during the exit animation increments the index twice, and
two displays follow. Past the last question both displays show the results
(`QuizScenarios.DoubleNextSkipsQuestion`). The `>=` test at quiz.js:142 is what
keeps this from reading past the list. Before the last question, a question is
skipped and the next one is shown twice. Each display releases the lock, so that
question can be scored twice (`QuizScenarios.DoubleNextScoresShownQuestionTwice`).
The invariant still holds in that case.

## Model

| member | source | states |
|---|---|---|
| `Quiz.Step` | quiz.js:123-255 | the state change of each transition as the code writes it; no contract of its own, its effects are stated by `Quiz.StepEffects` |
| `Quiz.StepEffects` | quiz.js:123-255 | start and restart reset index, score and lock to 0/0/false, and only start replaces the list; a click takes the lock and adds one point exactly when it passes the lock on the right option; next adds one to the index and changes nothing else; a display keeps index and score and releases the lock unless it finishes the quiz |
| `Quiz.Enabled` | quiz.js:172-177 | what the source needs to take a step: a scheduled display, and a current question for a click that passes the lock; no contract of its own |
| `Quiz.Run` | quiz.js:123-255 | the state after a sequence of transitions, or none if one cannot be taken; no contract of its own |
| `Quiz.SessionInvariant` | quiz.js:173-199 | the score is at most the list length, at most the index plus one for a held lock, and at most the index while a display is pending; no contract of its own |
| `Quiz.Guarded` | quiz.js:107-111 | a click that passes the lock while a display is pending finds fewer points than positions passed; no contract of its own |
| `Quiz.GuardedStepKeepsInvariant` | quiz.js:123-255 | every guarded step keeps the session invariant |
| `Quiz.GuardedRunKeepsInvariant` | quiz.js:123-255 | a guarded run from a valid state ends in a valid state, and its final percentage lies in [0, 100] |
| `Quiz.EarlyClickScoresTwice` | quiz.js:126-148 | as written, a right click before the first display and another after it end a one-question quiz at 2 of 1, 200%, the best tier and a celebration; that run is not guarded |
| `Quiz.QuizManager.Valid` | quiz.js:6-10 | the session invariant over the manager's fields; no contract of its own |
| `Quiz.QuizManager.constructor` | quiz.js:5-11 | a new manager has no questions, index 0, score 0, the lock released, and satisfies the session invariant |
| `Quiz.QuizManager.StartQuiz` | quiz.js:123-139 | a known difficulty key installs its question list, resets index, score and lock to 0/0/false and schedules a display; a missing key fails with `UnknownDifficulty` and changes nothing |
| `Quiz.QuizManager.DisplayQuestion` | quiz.js:141-170 | at or past the end of the list (`>=`, overrun included) it finishes: the lock is untouched and the results carry a percentage in [0, 100]; otherwise it releases the lock, leaves index and score alone, and shows the current question, a progress in (0, 100] and the score label; the invariant is kept |
| `Quiz.FinishQuiz` | quiz.js:223-238 | for any non-empty list the results show the score, the list length, the rounded percentage (in [0, 100] whenever score ≤ total; 200 for 2 of 1), a celebration exactly when it is at least 70, and the modal texts of that percentage |
| `Quiz.QuizManager.SelectAnswer` | quiz.js:172-196 | when the lock is held it does nothing; otherwise it takes the lock and adds exactly one point iff the chosen index equals the question's `correct`, reporting the right index when wrong; index and list never change; the invariant is kept for every click that meets the guard |
| `Quiz.QuizManager.NextQuestion` | quiz.js:198-212 | the index grows by exactly one, with no lock check; score, lock and list are unchanged; a display is scheduled |
| `Quiz.QuizManager.RestartQuiz` | quiz.js:240-261 | index, score and lock return to 0/0/false over the same question list, and a display is scheduled |
| `Quiz.FinalPercentage` | quiz.js:224 | the result is 100·score/total rounded to nearest with halves up: 2·total·p ≤ 200·score + total < 2·total·(p + 1) |
| `Quiz.PercentageAtLeast` | quiz.js:224 | the rounded percentage reaches k exactly when 200·score + total ≥ 2·k·total |
| `Quiz.PercentageBounds` | quiz.js:224 | with score ≤ total the percentage lies in [0, 100]; no points give 0 and all points give 100 |
| `Quiz.Celebrates` | quiz.js:227 | the celebration test: a percentage of at least 70; no contract of its own |
| `Quiz.CelebrationThreshold` | quiz.js:224-229 | the celebration fires exactly when 200·score ≥ 139·total, i.e. when score/total is at least 69.5% |
| `Quiz.CelebrationMatchesTier` | quiz.js:227-229 | a percentage celebrates exactly when it selects one of the two best result tiers |
| `Quiz.TierOfScore` | quiz.js:233 | the result tier of a finished quiz, as bounds on 200·score against 179, 139 and 99 times the total |
| `Quiz.Progress` | quiz.js:214-217 | progress times the list length is (index + 1)·100; it lies in (0, 100] for a displayed question and is 100 at the last one |
| `Animations.TierOf` | animations.js:282-294 | ≥ 90 selects the genius tier, 70–89 the excellent tier, 50–69 the good-work tier, below 50 the keep-practising tier; each iff, so exactly one tier per percentage |
| `Animations.Message` | animations.js:282-294 | the message of each tier, verbatim; no contract of its own |
| `Animations.Emoji` | animations.js:282-294 | the emoji of each tier: 🏆, 🎉, 👍, 💪; no contract of its own |
| `Animations.TierMonotone` | animations.js:282-294 | a higher percentage never selects a lower tier |
| `Animations.PercentText` | animations.js:297 | the percentage followed by '%'; its meaning is stated by `Animations.PercentTextRoundTrip` |
| `Animations.MessageText` | animations.js:298 | the emoji, one space, then the message; its meaning is stated by `Animations.MessageTextParts` |
| `Animations.ResultModalText` | animations.js:297-298 | the two texts the results modal fills in for a percentage; stated by the two lemmas above and below |
| `Animations.PercentTextRoundTrip` | animations.js:297 | the final-score text ends in '%' and the text before it reads back as the percentage |
| `Animations.MessageTextParts` | animations.js:298 | the message text is the tier's emoji, one space, then the tier's message; two percentages give the same text iff they select the same tier |
| `Animations.ScoreLabel` | animations.js:248 | "Pontuação " then the score, '/', and the total; its meaning is stated by `Animations.ScoreLabelRoundTrip` |
| `Animations.ScoreLabelRoundTrip` | animations.js:248 | the label "Pontuação score/total" reads back as exactly that score and total |
| `NumberText.NatToStringRoundTrip` | animations.js:248 | the decimal text of a natural number denotes that number |
| `NumberText.IntToStringRoundTrip` | animations.js:297 | the decimal text of an integer, with '-' when negative, reads back as that integer |
| `QuizScenarios.TwoOfFour` | quiz.js:123-238 | four questions answered right, wrong, right, wrong end with 2 of 4, 50%, no celebration and the good-work message |
| `QuizScenarios.OneQuestionPerfect` | quiz.js:123-238 | one question answered right ends with 1 of 1, 100%, a celebration and the genius message |
| `QuizScenarios.DoubleAnswer` | quiz.js:172-190 | a second click on an answered question is ignored and the score stays 1 |
| `QuizScenarios.DoubleNextSkipsQuestion` | quiz.js:141-212 | two "next" clicks after the first of two questions skip the second; both displays show 1 of 2, 50% |
| `QuizScenarios.DoubleNextScoresShownQuestionTwice` | quiz.js:141-212 | a double "next" on the first of three questions shows the third twice; both answers to it score, and the quiz ends at 3 of 3, 100% |
| `QuizScenarios.UnknownDifficultyFails` | quiz.js:123-138 | starting an absent difficulty fails and leaves the question list empty |
| `QuizScenarios.RestartShowsFirstQuestion` | quiz.js:240-261 | after the results, a restart shows the first question of the same list again at 50% progress |

## Left out

- Loading the question file with `fetch` and parsing its JSON (quiz.js:30-45). This is network I/O. The loaded file is the constructor's argument.
- Reading the difficulty from the URL or `sessionStorage`, `selectDifficulty`, and page transitions (quiz.js:48-52, 115-121). These are browser storage and navigation.
- Event-listener wiring and `showError` (quiz.js:54-113, 263-286). These are DOM plumbing. The error message of a failed start is the `Fail` result of `StartQuiz`.
- Every gsap timeline, easing, duration and DOM property change in animations.js, and the `celebrationAnimation` particles, which use `Math.random`. These are presentation only. `celebrate` in the results records only that the celebration is triggered.
- The timing of `setTimeout` and `onComplete` (quiz.js:131-133, 193-195, 202-211, 232-234, 258-260). Only the order of the displays they schedule is kept, as `pendingDisplays`. The two `await`s in `displayQuestion` (quiz.js:160 and 163) are left out as well: in the source `updateProgress` and `updateScore` (quiz.js:166, 169) read the index and score after the question and option animations finish, about 2 s after the lock is released at quiz.js:148, so a click during the option animation already shows in the source's score label. `Quiz.QuizManager.DisplayQuestion` reads both values at the display itself.
- script.js, home-page.js and main.js. They hold only animation calls and page toggling. They are not part of this model.
- `Quiz.FinalPercentage`: is exact integer round-half-up. The source computes `(score / total) * 100` in floating point before `Math.round`, and for some ratios the float product can land just below a half, which rounds it down.
- `Quiz.QuizManager.DisplayQuestion`: requires a non-empty question list. With an empty list the source divides by zero and shows "NaN%". It also requires a scheduled display, because it runs only from a timer or an animation callback.
- `Quiz.QuizManager.SelectAnswer`: requires the guard of `Quiz.Guarded`. While a display is pending, a click past the lock must find fewer points than positions passed. This excludes a click during the 500 ms before the first display of a quiz, which the source accepts and which breaks the invariant (see "## Findings"). The same window exists after `restartQuiz` releases the lock (quiz.js:255). Whether clicks get through there depends on the page's CSS, which is not part of this model.
- `Quiz.QuizManager.SelectAnswer`: needs a current question when the lock is free. Otherwise `question.correct` at quiz.js:177 reads from `undefined`.
- `Quiz.Progress`: is an exact real ratio, not the JavaScript float.

## Findings

| source | as written | input that shows it | evidently intended | confidence | as-written member | corrected member |
|---|---|---|---|---|---|---|
| quiz.js:126-133 | `startQuiz` releases the answer lock (quiz.js:128) 500 ms before the first display. The click listener (quiz.js:107-111) checks only the lock, so a click in that window scores. The display then releases the lock again (quiz.js:148), and the same question scores a second time. | A one-question quiz. Click the right option before it is displayed, then again after. The quiz ends at 2 of 1: `Math.round` gives 200, the best tier is chosen and the celebration fires. | The score never exceeds the number of questions, so the percentage stays in [0, 100]; a question is not scored before it is displayed. | not executed; it depends on the options accepting clicks before the first display, which is decided by markup and CSS that are not part of this model | `Quiz.EarlyClickScoresTwice` | `Quiz.GuardedRunKeepsInvariant` |

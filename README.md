# Quiz session state machine

This project models the quiz session held by the `App` component of the
QuizExplorer front end. The user picks a category, a difficulty and a region.
A question provider returns a list of multiple-choice questions. The user then
answers them against a 15-second clock per question, while the component keeps
score and streak. The model covers every handler of the component:

- the journey button;
- the three setup controls;
- the start of a quiz and its two outcomes, success or failure;
- answer submission;
- advancing to the next question;
- the timer effect;
- the two buttons on the results screen.

Layout:

- `types.dfy` (module `Types`) gives the datatypes of `types.ts`: `Category`,
  `Difficulty`, `Question`, `QuizState` and `Screen`. It also holds the
  `Feedback` value of the feedback slot, and the assumptions on the
  provider's output (`WellFormedQuestions`). Nothing in the program checks
  those assumptions.
- `session.dfy` (module `Session`) holds the state slots as one value,
  `AppState`, and one function per handler giving the state after it runs.
  `Inv` is the invariant every handler keeps. It says:
  - the clock stays in [0, 15];
  - feedback is present exactly while the question counts as answered;
  - the loaded questions are well formed;
  - score and streak are non-negative;
  - the index points at a loaded question once any are loaded;
  - the quiz screen only appears with questions loaded.

  Each function's contract says that it keeps `Inv`.
- `app.dfy` (module `AppComponent`) holds the class `App`. Its fields are the
  component's state slots. Each handler is a method that overwrites them one
  slot at a time. Each method is proved to reach exactly the state that the
  matching `Session` function gives, and to keep `Valid()`.
- `event_loop.dfy` (module `EventLoop`) covers the environment: clicks, the
  provider's outcome and timer firings, as a sequence of events.
  - A click has an effect only when the current screen renders its control.
  - `Run` is proved to keep `Inv` along any sequence. So in every reachable
    state the quiz screen has a question to show and the clock is in [0, 15].
  - The timeout quirk is proved as a lemma about `Run`.
- `properties.dfy` (module `Laws`) states the laws of the individual handlers:
  scoring, the double-submission guard, advancing, the timer, loading, and the
  handlers that touch only one field.
- `scenarios.dfy` (module `Scenarios`) drives whole runs through an `App`
  object:
  - a perfect run, and five 200-point questions answered with 10 s left
    giving 1500 points;
  - a timeout on the last question that leaves the first question of the
    next quiz answered before it is shown.

  `WaitUntil`, `AnswerCorrectlyAt`, `AdvanceToLastQuestion` and
  `TimeOutLastQuestion` are the drivers these runs are built from.

Quirks of the code that the model keeps:

- "Choose New Topic" only switches to the setup screen. Unlike "Play Again",
  it resets neither the index, nor the score, nor the streak
  (`App.tsx:369`).
- Loading and both resets never touch the answering flag or the feedback
  (`App.tsx:69-71`, `360-361`).
- The timeout branch of the timer effect does not look at the screen
  (`App.tsx:117-118`). If the last question times out, "See Results" leaves
  the clock at 0 and clears the answering flag. The effect then submits a
  second timeout answer on the results screen. Neither "Play Again",
  "Choose New Topic" nor a new load clears that flag, so the next quiz opens
  with question 0 already answered. It shows the previous quiz's last
  explanation, and its clock never runs. Clicking "Next Question" clears the
  flag and moves on to question 1 with a running clock, so question 0 is
  skipped unscored. See `EventLoop.TimeoutOnLastQuestionLeaksIntoNextQuiz`,
  `EventLoop.NextSkipsQuestionOpenedAnswered` and
  `Scenarios.TimeoutCarriesOver`.
- The provider's output is not validated. A non-empty list, a correct index
  in 0..3 and points of at least 0 are preconditions of a successful load.
  With a correct index of -1, a timeout would count as a correct answer
  (`Laws.SentinelCorrectIndexRewardsTimeout`).
- A successful load keeps the selected topic; it does not replace it.

The speed bonus `Math.floor(timeLeft * 10)` is `10 * timeLeft`, because
`timeLeft` is always a whole number of seconds.

## Model

| member | source | states |
|---|---|---|
| `Session.Init` | App.tsx:41-55 | The initial slots (home screen, no questions, 15 s, not answering, no feedback) satisfy the session invariant |
| `Session.StartSetup` | App.tsx:59 | Switching to the setup screen keeps the session invariant |
| `Session.SelectCategory` | App.tsx:163 | Choosing a category keeps the session invariant |
| `Session.SelectDifficulty` | App.tsx:184 | Choosing a difficulty keeps the session invariant |
| `Session.EditRegion` | App.tsx:207 | Editing the region keeps the session invariant |
| `Session.StartQuiz` | App.tsx:61-62 | Switching to the loading screen keeps the session invariant |
| `Session.QuestionsLoaded` | App.tsx:63-71 | Loading a non-empty list of well-formed questions keeps the invariant, so the index points at a question afterwards |
| `Session.LoadFailed` | App.tsx:72-76 | Returning home after a failed load keeps the session invariant |
| `Session.HandleAnswer` | App.tsx:79-99 | Scoring an answer (when a current question exists or the question is already answered) keeps the invariant: score and streak stay non-negative and feedback appears together with the answered flag |
| `Session.NextQuestion` | App.tsx:101-110 | Advancing keeps the index inside the question list and clears flag and feedback together |
| `Session.Tick` | App.tsx:113-120 | A timer firing keeps the clock in [0, 15]; its timeout answer always finds a current question |
| `Session.PlayAgain` | App.tsx:359-362 | Zeroing index, score and streak keeps the session invariant |
| `Session.ChooseNewTopic` | App.tsx:369 | Switching to the setup screen keeps the session invariant |
| `AppComponent.App.constructor` | App.tsx:41-55 | The fresh component holds the initial state and is valid |
| `AppComponent.App.StartSetup` | App.tsx:59 | Only the screen changes, to SETUP |
| `AppComponent.App.SelectCategory` | App.tsx:163 | Only the selected category changes |
| `AppComponent.App.SelectDifficulty` | App.tsx:184 | Only the selected difficulty changes |
| `AppComponent.App.EditRegion` | App.tsx:207 | Only the region changes |
| `AppComponent.App.StartQuiz` | App.tsx:61-68 | The screen becomes LOADING and the returned request, built by `Session.RequestOf`, is the category, difficulty and region selected at the moment of the click |
| `AppComponent.App.QuestionsLoaded` | App.tsx:69-71 | The questions are replaced; index, score and streak become 0; the quiz screen shows with a full clock; topic, answered flag and feedback are untouched |
| `AppComponent.App.LoadFailed` | App.tsx:72-76 | Only the screen changes, to HOME |
| `AppComponent.App.HandleAnswer` | App.tsx:79-99 | The new state is the scored answer of the old state, or the old state unchanged while answered |
| `AppComponent.App.NextQuestion` | App.tsx:101-110 | The new state is the old one advanced or moved to RESULTS, with flag and feedback cleared |
| `AppComponent.App.Tick` | App.tsx:113-120 | The new state is the old one with the clock one second lower, or answered with the timeout sentinel, or unchanged |
| `AppComponent.App.PlayAgain` | App.tsx:359-362 | Index, score and streak become 0 and the screen HOME; nothing else changes |
| `AppComponent.App.ChooseNewTopic` | App.tsx:369 | Only the screen changes, to SETUP |
| `Session.SpeedBonus` | App.tsx:87 | The bonus is Math.floor(timeLeft * 10): the largest whole number at most 10 * timeLeft, so between 0 and 150 for a clock in [0, 15] |
| `EventLoop.Enabled` | App.tsx:135-369 | Which controls each screen renders (journey button 135-136; category, difficulty, region and start controls 161-163, 181-184, 198-207, 214-215; option buttons 290-293 and "Next" 307-317 on the quiz screen; the two result buttons 358-369): answers and "Next" only on the quiz screen with a current question, nothing but the provider outcome and the timer while loading, the timer always; the option buttons' disabled={isAnswering} is ignored |
| `EventLoop.Step` | App.tsx:57-120 | Every handler reachable from a rendered control or the timer keeps the session invariant |
| `EventLoop.Run` | App.tsx:57-120 | Any sequence of clicks, provider outcomes and timer firings keeps the session invariant |
| `EventLoop.ReachableStatesAreConsistent` | App.tsx:41-55 | From the initial state, the quiz screen always has a current question, the clock stays in [0, 15], feedback is shown exactly while answered, and score and streak stay non-negative |
| `EventLoop.ScoreOnlyResetByLoadOrPlayAgain` | App.tsx:84-97 | No event other than a load or "Play Again" lowers the score |
| `EventLoop.TimeoutOnLastQuestionAnswersResults` | App.tsx:101-120 | A timeout on the last question, then "See Results", then one more timer firing leaves the results screen answered, with negative feedback, streak 0, the score unchanged and the clock at 0 |
| `EventLoop.AnsweredFlagSurvivesIntoNextQuiz` | App.tsx:359-362 | From an answered results screen, "Play Again", setup, start and a successful load open the new quiz still answered, with the old feedback and a clock the timer does not move while the flag stays set |
| `EventLoop.TimeoutOnLastQuestionLeaksIntoNextQuiz` | App.tsx:117-118 | A timed-out last question leaves question 0 of the next quiz answered before it is shown, with that question's explanation and a clock that does not run |
| `EventLoop.NextSkipsQuestionOpenedAnswered` | App.tsx:101-110 | On a first question that opened answered, "Next Question" is on screen and moves to question 1 with flag and feedback cleared, a full clock that the timer then lowers, and score and streak unchanged: question 0 is skipped unscored |
| `Laws.DoubleSubmissionIsNoOp` | App.tsx:79-80 | A submission while answered changes nothing, so submitting twice equals submitting once |
| `Laws.CorrectAnswerScoring` | App.tsx:84-94 | A correct index adds exactly points + 10 * timeLeft to the score and 1 to the streak, and sets positive feedback; nothing else changes |
| `Laws.WrongAnswerScoring` | App.tsx:95-97 | Any other index keeps the score, sets the streak to 0 and sets negative feedback; nothing else changes |
| `Laws.TimeoutScoresAsWrong` | App.tsx:118 | For well-formed questions the timeout sentinel -1 is always scored as wrong |
| `Laws.SentinelCorrectIndexRewardsTimeout` | App.tsx:84 | Without the provider assumption, a correct index of -1 would make a timeout count as correct |
| `Laws.NextQuestionLaw` | App.tsx:101-110 | Advancing clears flag and feedback; before the last question it increments the index and resets the clock to 15; on the last it shows RESULTS and keeps index, score, streak and clock |
| `Laws.TickLaw` | App.tsx:113-116 | The clock drops by one exactly while a quiz question is live with time left, otherwise it keeps its value, and it stays in [0, 15] |
| `Laws.TimeoutFiresOnEveryScreen` | App.tsx:117-118 | At 0 seconds and not answered, a timer firing is a timeout answer on whatever screen is shown |
| `Laws.LoadLaw` | App.tsx:69-71 | A successful load sets the questions, index 0, score 0, streak 0, QUIZ and 15 s, and keeps topic, answered flag and feedback |
| `Laws.LoadFailedLaw` | App.tsx:75 | A failed load changes only the screen, to HOME |
| `Laws.PlayAgainLaw` | App.tsx:359-362 | "Play Again" zeroes index, score and streak, shows HOME and keeps everything else |
| `Laws.ScreenOnlyHandlers` | App.tsx:59-62 | The journey button (line 59), the start of loading (line 62) and "Choose New Topic" (line 369) change only the screen |
| `Laws.SetupControlsChangeOneField` | App.tsx:163-207 | Each setup control (category line 163, difficulty line 184, region line 207) changes exactly its own topic field, and so the topic that the next provider call receives |
| `Laws.TimeoutOnQuizQuestion` | App.tsx:117-118 | A timeout on a quiz question keeps the quiz screen, marks it answered with negative feedback, keeps the score and sets the streak to 0 |
| `Scenarios.WaitUntil` | App.tsx:113-116 | Letting the timer run on a live question lowers only the clock, to the chosen value |
| `Scenarios.AnswerCorrectlyAt` | App.tsx:84-110 | Waiting until the clock shows t > 0, answering correctly and clicking "Next" adds the question's points plus 10 * t to the score and 1 to the streak, then advances with a full clock or shows RESULTS |
| `Scenarios.PerfectRun` | App.tsx:84-93 | Answering every question correctly with t > 0 seconds left ends on RESULTS with score = sum of points + (number of questions) * 10 * t and streak = number of questions |
| `Scenarios.FivePerfectAnswers` | App.tsx:86-93 | Any five well-formed questions of 200 points each, answered correctly with 10 s left, give 1500 points, streak 5, on RESULTS |
| `Scenarios.AdvanceToLastQuestion` | App.tsx:101-120 | Letting every question but the last run out of time and clicking "Next" each time reaches the last question, live with a full clock, with the questions and the score unchanged |
| `Scenarios.TimeOutLastQuestion` | App.tsx:101-120 | On the App object, a timed-out last question and "See Results" end on an answered results screen with that question's negative feedback |
| `Scenarios.TimeoutCarriesOver` | App.tsx:117-118 | On the App object, after such a timeout and a replay, the next quiz shows QUIZ answered, with the old explanation, and a clock the timer leaves at 15 |

## Left out

- Rendering: all JSX, `Header`, `Footer`, button styling and the progress bar (`App.tsx:19-36`, `124-394`). From rendering, only which controls each screen shows is kept (`EventLoop.Enabled`).
- The question provider: `services/geminiService.ts` is a network call to a generative-AI service plus `JSON.parse`. Its result is an input to `QuestionsLoaded`, and a rejection is `LoadFailed`. The `q-<index>` ids it assigns are not modelled; `id` is just a field of `Question`.
- The results percentage (`App.tsx:331-332`): it uses floating division and `Math.round` and is never displayed.
- `setInterval`, `clearInterval`, effect scheduling and `async`/`await`: the timer is the discrete `Tick` event, and `startQuiz` is two steps (`StartQuiz`, then `QuestionsLoaded` or `LoadFailed`). The event model lets any event occur between two handlers. In the browser, the timer effect runs right after each render, so it is also allowed to run before the user can click.
- `alert` and `console.error` in the failure path.
- The `isGameOver` field and the `loadingMsg` slot: the first is never set after initialisation (`App.tsx:46`) and every update copies it along, the second never changes.
- Validation of the provider's output: the code does none, so its assumptions are preconditions of `QuestionsLoaded`. The number of options is not assumed. When the assumptions fail the program breaks, and the model excludes that path by the preconditions of `QuestionsLoaded` and `HandleAnswer`: with an empty list the quiz screen renders nothing (`App.tsx:233`), the clock still runs down, and at 0 s the timeout's `handleAnswer(-1)` reads `correctAnswerIndex` of an undefined question and throws (`App.tsx:83-84`, `117-118`).
- `EventLoop.Enabled` ignores `disabled={isAnswering}` on the option buttons. An answer click stays possible while answered, and the guard in `handleAnswer` turns it into a no-op. The runs covered are therefore a superset of the browser's.
- JavaScript numbers are doubles: score, streak and clock are unbounded integers here. The model assumes the provider's points are small enough that the score stays below 2^53, where doubles are exact; nothing in the code enforces that, since `WellFormedQuestion` bounds points only from below.

# QuizNova core, modelled in Dafny

QuizNova is a single-page quiz application. The user picks a topic. A form sets the
difficulty, the number of questions and an optional per-question timer. A quiz is
then generated: a Flask back end asks a language model for each question, and when the
back end cannot be reached the browser builds the quiz from a small built-in question
bank. The quiz runner shows one question at a time with an optional countdown, records
the selected answers and scores them. The results screen shows the score bands and an
answer review.

This project models the logic under those screens:

- `quiz_generator.dfy` (module `QuizGenerator`): the static question bank, the
  fallback synthesis `generateMockQuiz`, how the chosen count and timer are resolved,
  the rule that enables the Generate button, and `handleSubmit` with the network call
  reduced to its outcome.
- `generated_quiz.dfy` (module `GeneratedQuiz`): `calculateResults` and its exact
  integer scoring, the runner as a class (`quizStarted`, `currentQuestion`,
  `selectedAnswers`, `questionTimeRemaining`) whose handlers and timer effects are
  methods, the Next/Submit gating, and `formatTime`.
- `results_display.dfy` (module `ResultsDisplay`): colour and message bands, the
  incorrect count, per-option review labels and the review toggle.
- `app.dfy` (module `App`): the four-view controller and its payload fields.
- `backend.dfy` (module `Backend`): the checks and answer-index resolution applied to
  a model reply, `generate_full_quiz` with its fallback question, and the request
  handling of `/generate-quiz` and `/validate-answer`. A model reply is an input: the
  decoded JSON value, or None when the call or the decoding failed.
- `quiz_types.dfy`, `text.dfy`, `wrappers.dfy`: the shared question/quiz/results
  values, ASCII case folding, Python's substring test, decimal digits, and `Option`.

Floating point is replaced by exact integers. `Math.round((c / t) * 100)` becomes
`(200c + t) div 2t`, which is rounding half up. `(c / t) >= 0.7` becomes `10c >= 7t`.
A quiz with no questions gives NaN in the source, so scoring requires at least one
question.

## Model

| member | source | states |
|---|---|---|
| `QuizGenerator.SelectBank` | src/components/QuizGenerator.jsx:93-94 | the bank chosen for any topic is non-empty, and every entry has four options with a correct answer among them |
| `QuizGenerator.SelectBankIgnoresCase` | src/components/QuizGenerator.jsx:93 | bank selection does not depend on letter case |
| `QuizGenerator.UnknownTopicUsesJavascript` | src/components/QuizGenerator.jsx:94 | any topic other than python/history, in any case, gets the JavaScript bank |
| `QuizGenerator.LookupAsWritten` | src/components/QuizGenerator.jsx:93-94 | the bank lookup as written, which also reaches inherited object members; an own entry is never empty; ConstructorTopicYieldsBareIds and SlotAsWrittenElsewhere state what it yields |
| `QuizGenerator.SlotAsWritten` | src/components/QuizGenerator.jsx:96-102 | the record built for slot i by the code as written; its properties are in ConstructorTopicYieldsBareIds and SlotAsWrittenElsewhere |
| `QuizGenerator.ConstructorTopicYieldsBareIds` | src/components/QuizGenerator.jsx:93-102 | as written, the topics "Constructor" and "__proto__" give records carrying only an id (see Findings) |
| `QuizGenerator.SlotAsWrittenElsewhere` | src/components/QuizGenerator.jsx:93-102 | for every other topic the code as written builds the same question as the corrected lookup |
| `QuizGenerator.MockQuiz` | src/components/QuizGenerator.jsx:23-111 | the synthesised quiz; its properties are in MockQuizShape and SeventhJavascriptQuestionWraps |
| `QuizGenerator.MockQuizShape` | src/components/QuizGenerator.jsx:96-110 | the synthesised quiz has exactly the requested number of questions; question i is bank item i mod bank size with id i+1; ids increase strictly; every question is well-formed; title is the topic plus " Quiz"; difficulty and timer pass through |
| `QuizGenerator.SeventhJavascriptQuestionWraps` | src/components/QuizGenerator.jsx:97-102 | seven JavaScript questions wrap around the five-item bank: questions 6 and 7 are bank items 1 and 2 again |
| `QuizGenerator.GenerateMockQuiz` | src/components/QuizGenerator.jsx:23-111 | the counted push loop builds exactly that synthesised quiz |
| `QuizGenerator.ActualQuestionCount` | src/components/QuizGenerator.jsx:118-120 | the resolved question count, None for an empty custom field; stated in CustomFieldsReplacePresets and EnabledFormResolves |
| `QuizGenerator.ActualTimer` | src/components/QuizGenerator.jsx:122-124 | the resolved timer, None for an empty custom field; stated in CustomFieldsReplacePresets and EnabledFormResolves |
| `QuizGenerator.SubmitDisabled` | src/components/QuizGenerator.jsx:279-281 | the Generate button's disabled rule; EnabledFormResolves states what an enabled form guarantees |
| `QuizGenerator.EnabledFormResolves` | src/components/QuizGenerator.jsx:279-281 | when the Generate button is enabled, the resolved count is in 1..50 and the resolved timer is 0 or in 5..600 |
| `QuizGenerator.CustomFieldsReplacePresets` | src/components/QuizGenerator.jsx:118-124 | the custom field decides the count (timer) exactly when 'custom' is selected; otherwise the preset does |
| `QuizGenerator.HandleSubmit` | src/components/QuizGenerator.jsx:142-164 | a back-end quiz is kept with its timer overwritten by the resolved timer; on failure the result is the synthesised quiz, with 1..50 questions; either way the timer is the resolved one |
| `GeneratedQuiz.CountCorrect` | frontend/src/components/GeneratedQuiz.jsx:11-18 | the correct count never exceeds the number of questions |
| `GeneratedQuiz.CountCorrectIsCardinality` | frontend/src/components/GeneratedQuiz.jsx:14-18 | the count is the number of positions whose recorded answer equals the correct answer (unanswered questions are not counted) |
| `GeneratedQuiz.AllCorrectIff` | frontend/src/components/GeneratedQuiz.jsx:14-18 | the count equals the total iff every question is answered correctly |
| `GeneratedQuiz.NoneCorrectIff` | frontend/src/components/GeneratedQuiz.jsx:14-18 | the count is 0 iff no question is answered correctly |
| `GeneratedQuiz.Percentage` | frontend/src/components/GeneratedQuiz.jsx:23 | the shown percentage over exact fractions; stated in PercentageIsNearest, ScoreMonotone and SeventyPercentNeedNotPass |
| `GeneratedQuiz.Passed` | frontend/src/components/GeneratedQuiz.jsx:24 | the pass rule; stated in PassedShowsAtLeastSeventy, ScoreMonotone and CalculateResults |
| `GeneratedQuiz.Score` | frontend/src/components/GeneratedQuiz.jsx:20-25 | the results record; CalculateResults proves the counting loop equal to it |
| `GeneratedQuiz.PercentageIsNearest` | frontend/src/components/GeneratedQuiz.jsx:23 | the percentage lies in 0..100 and is the integer nearest to 100·correct/total, halves rounding up |
| `GeneratedQuiz.PassedShowsAtLeastSeventy` | frontend/src/components/GeneratedQuiz.jsx:23-24 | a pass always shows at least 70 percent |
| `GeneratedQuiz.SeventyPercentNeedNotPass` | frontend/src/components/GeneratedQuiz.jsx:23-24 | 16 of 23 shows 70 percent and does not pass |
| `GeneratedQuiz.ScoreMonotone` | frontend/src/components/GeneratedQuiz.jsx:20-25 | more correct answers never lower the percentage or turn a pass into a fail |
| `GeneratedQuiz.CalculateResults` | frontend/src/components/GeneratedQuiz.jsx:10-26 | the counting loop yields the score: correct ≤ total = number of questions, percentage as above, passed iff 10·correct ≥ 7·total |
| `GeneratedQuiz.NavigationDisabled` | frontend/src/components/GeneratedQuiz.jsx:242-250 | the Next/Submit `disabled` expression; stated in NavigationDisabledIffUnanswered |
| `GeneratedQuiz.Runner.Valid` | frontend/src/components/GeneratedQuiz.jsx:5-105 | the runner's invariant: index in range once started, countdown within 0..timer and present while a timed quiz runs, answers only for the quiz's question ids; every handler keeps it |
| `GeneratedQuiz.Runner.PreviousOffered` | frontend/src/components/GeneratedQuiz.jsx:223-224 | whether the Previous button is rendered; stated in PreviousOnlyWhenUntimed |
| `GeneratedQuiz.Runner.PreviousOnlyWhenUntimed` | frontend/src/components/GeneratedQuiz.jsx:223-224 | Previous is never rendered with a countdown running, and for timers of 0 or more it is rendered exactly when there is no countdown |
| `GeneratedQuiz.NavigationDisabledIffUnanswered` | frontend/src/components/GeneratedQuiz.jsx:242-250 | the Next/Submit button is disabled exactly when the current question has no recorded answer; index 0 counts as answered |
| `GeneratedQuiz.Runner.constructor` | frontend/src/components/GeneratedQuiz.jsx:5-8 | a fresh runner is not started, on question 0, with no answers and no countdown |
| `GeneratedQuiz.Runner.Start` | frontend/src/components/GeneratedQuiz.jsx:60-68 | starting keeps question 0 and sets the countdown to the timer when one is configured, none otherwise |
| `GeneratedQuiz.Runner.SelectAnswer` | frontend/src/components/GeneratedQuiz.jsx:70-78 | a selection sets only the current question's entry and enables Next/Submit; at 0 seconds left it is ignored |
| `GeneratedQuiz.Runner.Submit` | frontend/src/components/GeneratedQuiz.jsx:102-105 | submission reports the recorded answers and their score |
| `GeneratedQuiz.Runner.NextQuestion` | frontend/src/components/GeneratedQuiz.jsx:80-90 | before the last question: index + 1 and the countdown restarts at the timer; on the last question: submission; answers are unchanged |
| `GeneratedQuiz.Runner.PreviousQuestion` | frontend/src/components/GeneratedQuiz.jsx:92-100 | index − 1 only when above 0; answers are unchanged; the index stays in range |
| `GeneratedQuiz.Runner.Tick` | frontend/src/components/GeneratedQuiz.jsx:36-41 | a started countdown above 0 loses one second; otherwise nothing changes, so it never goes negative |
| `GeneratedQuiz.Runner.Expire` | frontend/src/components/GeneratedQuiz.jsx:44-58 | at 0 seconds the runner moves to the next question with a fresh countdown, or submits on the last question |
| `GeneratedQuiz.LetEveryTimerExpire` | frontend/src/components/GeneratedQuiz.jsx:29-58 | with three questions at 15 seconds and no clicks, the third expiry submits an empty answer map and its score |
| `GeneratedQuiz.FormatTime` | frontend/src/components/GeneratedQuiz.jsx:107-111 | the `m:ss` clock; stated in FormatTimeRoundTrip |
| `GeneratedQuiz.FormatTimeRoundTrip` | frontend/src/components/GeneratedQuiz.jsx:107-111 | the clock is the minutes, a colon and two digits for seconds mod 60, and reads back as the original number of seconds |
| `ResultsDisplay.ScoreBandsMonotone` | src/components/ResultsDisplay.jsx:7-20 | colour and message never get weaker as the percentage rises |
| `ResultsDisplay.GetScoreColor` | src/components/ResultsDisplay.jsx:7-12 | the colour band; stated in ScoreBandsMonotone and ColorFollowsMessage |
| `ResultsDisplay.GetScoreMessage` | src/components/ResultsDisplay.jsx:14-20 | the message band; stated in ScoreBandsMonotone and ColorFollowsMessage |
| `ResultsDisplay.ColorFollowsMessage` | src/components/ResultsDisplay.jsx:7-20 | colour and message share the 80/70/60 boundaries; only the message splits at 90 |
| `ResultsDisplay.ReviewVerdictMatchesScoring` | src/components/ResultsDisplay.jsx:74-75 | a question is marked correct iff the runner scored it correct |
| `ResultsDisplay.IncorrectCount` | src/components/ResultsDisplay.jsx:42 | the Incorrect statistic; stated in IncorrectCountMatchesReview |
| `ResultsDisplay.CorrectPlusIncorrect` | src/components/ResultsDisplay.jsx:73-82 | the runner's correct count plus the number of review cards marked incorrect is the number of questions |
| `ResultsDisplay.IncorrectCountMatchesReview` | src/components/ResultsDisplay.jsx:42 | the Incorrect statistic equals the number of review cards marked incorrect, and lies in 0..total |
| `ResultsDisplay.ReviewLabels` | src/components/ResultsDisplay.jsx:89-100 | one label set per option; exactly the option at the correct index is labelled correct-answer; an option carries a user label iff it is the user's pick; a user-correct label only ever sits on the correct answer |
| `ResultsDisplay.LabelOption` | src/components/ResultsDisplay.jsx:92-100 | the labels of one option; stated through ReviewLabels and the label lemmas below |
| `ResultsDisplay.ExactlyOneCorrectAnswerLabel` | src/components/ResultsDisplay.jsx:92-94 | exactly one option carries the correct-answer label |
| `ResultsDisplay.UserLabelsExclusive` | src/components/ResultsDisplay.jsx:95-100 | no option is labelled both the user's wrong pick and the user's correct pick |
| `ResultsDisplay.CorrectPickLabels` | src/components/ResultsDisplay.jsx:95-100 | after a correct pick, exactly one option has a user label, it is the correct answer, and no option is marked wrong |
| `ResultsDisplay.WrongPickLabels` | src/components/ResultsDisplay.jsx:95-100 | after a wrong pick, exactly that option is marked wrong and none is marked as the user's correct pick |
| `ResultsDisplay.UnansweredHasNoUserLabels` | src/components/ResultsDisplay.jsx:74-100 | an unanswered question has no user label on any option |
| `ResultsDisplay.ReviewEntries` | src/components/ResultsDisplay.jsx:73-126 | the review has one card per question; card i is numbered i+1 and marked correct iff the runner scored question i correct; it shows an explanation iff the question has a non-empty one |
| `ResultsDisplay.ResultsScreen.constructor` | src/components/ResultsDisplay.jsx:4-5 | the screen opens with the review hidden |
| `ResultsDisplay.ResultsScreen.ToggleReview` | src/components/ResultsDisplay.jsx:58-70 | the button flips the review, so two presses restore it; results and answers are constants; an open review shows every card, a closed one none |
| `App.AppState.Rendered` | src/App.jsx:52-79 | the quiz screen is mounted only with quiz data and the results screen only with results; in every valid state some screen is shown |
| `App.AppState.constructor` | src/App.jsx:9-13 | the app starts at home with every payload empty |
| `App.AppState.SelectCategory` | src/App.jsx:15-18 | the category is stored and the view becomes generator; other payloads are kept |
| `App.AppState.QuizGenerated` | src/App.jsx:20-23 | the quiz is stored and the view becomes quiz; other payloads are kept |
| `App.AppState.QuizCompleted` | src/App.jsx:25-29 | answers and results are stored and the view becomes results; category and quiz are kept |
| `App.AppState.StartOver` | src/App.jsx:31-37 | the view becomes home and category, quiz, answers and results are cleared |
| `App.AppState.BackToHome` | src/App.jsx:60 | the generator's Back goes home and changes nothing else |
| `App.AppState.BackToGenerator` | src/App.jsx:68 | the quiz's Back returns to the generator and changes nothing else |
| `Text.ContainsAt` | backend.py:95 | Python's `a in b` on strings holds iff `a` occurs at some offset of `b` |
| `Backend.PyEqReflexive` | backend.py:195 | every decoded JSON value equals itself under Python equality |
| `Backend.PyEqSymmetric` | backend.py:195 | Python equality on decoded JSON is symmetric |
| `Backend.PyEqOnStrings` | backend.py:90 | a string equals only the same string |
| `Backend.PyEq` | backend.py:195 | Python `==` on decoded JSON; stated in PyEqReflexive, PyEqSymmetric, PyEqOnStrings and ValidateAnswerOnIndexes |
| `Backend.IndexFrom` | backend.py:88-90 | `list.index` returns the first equal option, and fails only when no option is equal |
| `Backend.FuzzyFrom` | backend.py:92-97 | a non-zero match found by the closest-match scan is a valid option position |
| `Backend.CorrectIndex` | backend.py:87-97 | any resolved correct answer is in 0..3 |
| `Backend.ExactMatchWins` | backend.py:88-90 | an answer equal to some option resolves to the first equal option |
| `Backend.FuzzyFromMeaning` | backend.py:92-97 | without an exact match: the first case-insensitive two-way substring match wins; 0 when all options are non-matching strings; no question when a non-string option comes before any match |
| `Backend.ResolveCorrectIndex` | backend.py:87-97 | the index loop and the closest-match loop with its break compute exactly that resolution |
| `Backend.QuestionFromReply` | backend.py:79-108 | a question comes only from an object reply holding all four required keys with a list of exactly four options; it keeps the reply's question and explanation and has an answer in 0..3 |
| `Backend.WellShapedReplyAccepted` | backend.py:79-104 | a reply with all keys, four options and its correct answer among them is accepted, and its answer index points at or before that option to an option equal to the answer |
| `Backend.GenerateQuizQuestion` | backend.py:76-108 | the validation steps compute exactly that normalisation |
| `Backend.SlotQuestionShape` | backend.py:119-138 | every slot has its id, four options and an answer in 0..3; a failed generation gives the fallback |
| `Backend.FallbackQuestion` | backend.py:126-137 | the fallback question for a slot; GenerateFullQuiz and SlotQuestionShape state where it is used |
| `Backend.SlotQuestion` | backend.py:119-138 | the question a slot receives; stated in SlotQuestionShape and GenerateFullQuiz |
| `Backend.GenerateFullQuiz` | backend.py:110-142 | exactly one question per requested slot, in order, with ids 1..n; failed slots get the fallback question with correct answer 0; successful slots keep their generated question |
| `Backend.TitleFrom` | backend.py:175 | title-casing keeps the topic's length |
| `Backend.TitleCaseKeepsLetters` | backend.py:175 | title-casing changes letter case only |
| `Backend.IntOf` | backend.py:163 | `int()` of the count, None where Python raises; its outcome is stated through GenerateQuiz |
| `Backend.ReadQuizRequest` | backend.py:160-163 | reading topic, difficulty and count with their defaults; GenerateQuiz states every outcome in terms of it |
| `Backend.Blank` | backend.py:165 | `not topic.strip()`; GenerateQuiz states the 400 reply for it |
| `Backend.GenerateQuiz` | backend.py:156-184 | an unreadable body or count, or a non-string topic, gives 500; a blank topic gives 400 before the client check (500); otherwise the reply is the title-cased topic plus " Quiz" with one question per slot |
| `Backend.ValidateAnswer` | backend.py:186-204 | isCorrect holds iff the submitted answer equals the correct one under Python equality; the message follows the verdict |
| `Backend.ValidateAnswerOnIndexes` | backend.py:195 | two integer answers are judged equal iff they are the same number; a body with neither value is judged correct |

## Left out

- The `fetch` call, the back-end URL lookup and the 1500 ms delay in `handleSubmit` are left out. `QuizGenerator.HandleSubmit` takes the call's outcome as an input.
- `isGenerating` is only a parameter of the button rule. Its setting and clearing around the asynchronous call are not modelled.
- React scheduling is left out: effects, `setTimeout`, the 100 ms expiry delay and timer cancellation. Ticks and expiry are separate method calls on `GeneratedQuiz.Runner`. The timer-reset effect is folded into `Start`, `NextQuestion`, `PreviousQuestion` and `Expire`.
- Unmounting and remounting components (for example the runner after Back) is not modelled. A new runner is a new `GeneratedQuiz.Runner` object.
- `GeneratedQuiz.Runner.Start` requires a non-empty quiz. After the start the source indexes the first question and fails on an empty quiz, and scoring an empty quiz gives NaN.
- `GeneratedQuiz.Runner.NextQuestion` and `Submit` do not require an answer. The source's handlers do not check one either; the gate is the button's `disabled` expression, modelled as `NavigationEnabled` and `NavigationDisabledIffUnanswered`.
- Rendering is left out: JSX markup, styling classes, the progress bar, option letters, and the preview's total-time badge. `FormatTime` covers the function that badge uses.
- GeneratedQuiz.Percentage: the integer formula is the value over exact fractions. The program divides and multiplies in IEEE doubles, which show one less at 23 of 40 (57.49999999999999 rounds to 57, the formula gives 58). 46 of 80 and 29 of 200 behave the same way. `Passed` has no such gap for totals up to 200.
- `parseInt` and the coercion of form fields are left out. Custom values are optional integers, with None for an empty field (NaN in the source). Fractional entries are not modelled.
- Case folding is ASCII only in `Text.Lower` and `Backend.TitleFrom`. `str.strip()` whitespace is limited to Latin-1 in `Backend.IsPyWhitespace`.
- `Backend.PyEq` compares JSON objects structurally. Python's `True == 1` inside nested dictionaries and JSON floating-point numbers are not modelled.
- `Backend.IntOf` accepts only plain digit strings. Python's `int()` also accepts signs, surrounding whitespace and underscores.
- Flask routing, CORS, `jsonify`, the Groq client and its initialisation, the prompt text, logging, the `/health` endpoint and the `__main__` block are foreign calls or I/O. The client's state is the `clientReady` input.
- setup_groq.py, frontend/src/components/ErrorPage.jsx and vite.config.js contain setup, navigation and build configuration only.
- HomePage.jsx is not part of this model. Categories arrive as values of `App.Category`.
- `handlePreviousQuestion` resets the countdown when a timer is configured (frontend/src/components/GeneratedQuiz.jsx:96-98), but Previous is rendered only when there is no timer (line 224). `GeneratedQuiz.Runner.PreviousQuestion` keeps that reset, and `GeneratedQuiz.Runner.PreviousOnlyWhenUntimed` shows it is unreachable from the screen.
- `App.jsx` keeps a view tag plus separate payload fields rather than one tagged value per view, and the model keeps that form.

## Findings

| source | as written | input that shows it | evidently intended | confidence | as-written member | corrected member |
|---|---|---|---|---|---|---|
| src/components/QuizGenerator.jsx:94 | `mockQuestions[topicLower] \|\| mockQuestions.javascript` looks the topic up on a plain object, so names inherited from `Object.prototype` are found. The inherited value is truthy and has no question entries, and spreading `undefined` leaves records that carry only an id. The runner then fails on `question.options`. | topic "Constructor" (or "__proto__") while the back end is unreachable | any topic other than javascript, python and history uses the JavaScript bank | high, not executed | `QuizGenerator.ConstructorTopicYieldsBareIds` | `QuizGenerator.SelectBank` |

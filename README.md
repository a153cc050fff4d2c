# Creator burnout assessment — a verified model

The repository is a single React component, `BurnoutAssessment` (`app.jsx`).
It asks eight questions and computes a burnout score. It also names the
"time waster" that costs the most, and gives four diagnostics. It moves
through four screens: welcome, quiz, results and thank-you. This project
models the component's logic in Dafny:

- `catalog.dfy` (module `Catalog`): the eight questions (ids, slider bounds,
  button labels), the answers a store can hold, and what a well-formed store is.
- `scoring.dfy` (module `Scoring`): `calculateBurnout` as pure functions. It
  covers normalisation, the weighted raw score and its clamp at 100, the five
  factor scores, the `reduce` that picks the top waster, the four diagnostics
  and the echoed stats.
- `scoring_props.dfy` (module `ScoringProps`): lemmas about the scoring engine.
  They cover bounds, monotonicity in every answer, the top waster being the
  last maximum, the diagnostic thresholds, the tables against the catalog, and
  the worked example.
- `assessment.dfy` (module `Assessment`): the component state (`stage`,
  `responses`, `email`, `results`) as a class, with one method per handler.
  It also proves the invariant that the quiz's own controls keep: the store
  holds answers for exactly the first `|responses|` questions. It models the
  gate on the Next and See My Results buttons as written and as corrected. A
  client method runs a whole session by calling the handlers directly.

An answer is `Num(n)` for a slider value, `Label(s)` for a button label, or
`Undefined`. `Undefined` is the JavaScript `undefined` that the Back handler
writes when the previous question has no answer. The current question index
is `|responses|`, the number of keys in the store. It is not a separate cursor.

Behaviour of `app.jsx` worth knowing:

- The index is not capped. It reaches 8 once every question is answered, and
  the current question is then undefined.
- `handleAnswer` validates nothing and accepts any id and any value.
- Missing or unknown answers normalise to 0. The score is computed for any
  store, including an empty one (score 10). There is no "incomplete" or
  "unknown question" error.
- The results guard counts keys, not catalog ids.
- In a `topWaster` tie the later-declared factor wins, not the first.
- `platformCount` is at most 4, so the platforms diagnostic is never
  "Critical". In the worked example it is "High", not "Critical".
- Email capture does not check the stage. Its one modelled failure path is the
  empty email. Its other failure path, the try/catch at app.jsx:149-162, is not
  modelled (see "## Left out").
- Nothing forces the stage to `results` once every question is answered.
  Only the Next and See My Results handlers change it. Neither button can be
  pressed on a store built by the quiz's own controls, because their gate
  never opens (see "## Findings").

## Model

| member | source | states |
|---|---|---|
| `Catalog.CatalogShape` | app.jsx:10-67 | the catalog has 8 questions with pairwise distinct ids; every slider range has min < max; every button question has 4 distinct labels |
| `Scoring.Normalise` | app.jsx:73-80 | each label-valued factor lies in its table's range (platforms 0..4, pace 0..5, boundaries 0..5, repurposing 0..4), with 0 for a missing or unmapped label |
| `Scoring.Score` | app.jsx:96 | the score is the raw score clamped above at 100: at most 100, at most the raw score, and equal to one of them |
| `Scoring.Raw` | app.jsx:82 | the weighted raw score. It has no contract of its own: `ScoreMonotone` proves it monotone in every factor (antitone in revenue streams) and `ScoreBoundsWhenWellFormed` bounds it to [18, 164] on catalog answers |
| `Scoring.FactorScores` | app.jsx:84-90 | the five factor scores, one per factor name. `TopWasterIsLastMaximum` states how the top waster is chosen from them |
| `Scoring.TopIndex` | app.jsx:92-94 | the `reduce` keeps the accumulator only when strictly greater, so it returns an index holding the maximum with every later score strictly smaller (the last maximum) |
| `Scoring.TopWaster` | app.jsx:84-94 | the top waster is one of the five declared factor names |
| `Scoring.CalculateBurnout` | app.jsx:69-113 | the result's score is at most 100; its top waster is a factor name; its platforms diagnostic is never the Critical string; its stats echo the normalised daily hours, platform count and revenue streams |
| `Scoring.Diagnose` | app.jsx:100-105 | the four diagnostics. It has no contract of its own: `DiagnosticThresholds` states each threshold in both directions |
| `ScoringProps.TableKeysAreOptions` | app.jsx:74-79 | each button question's normalisation table has exactly that question's labels as keys |
| `ScoringProps.TableIncreasing` | app.jsx:74-79 | a button question's labels, in catalog order, have strictly increasing weights |
| `ScoringProps.UnmappedIsZero` | app.jsx:74-79 | an answer that is not one of a button question's labels normalises to 0 |
| `ScoringProps.EmptyStore` | app.jsx:73-82 | a store with no answers normalises to all zeros and still scores 10 |
| `ScoringProps.ScoreBoundsWhenWellFormed` | app.jsx:82-96 | with every question answered within its catalog bounds or labels, the raw score is in [18, 164] and the score in [18, 100] |
| `ScoringProps.ScoreHasNoLowerClamp` | app.jsx:96 | there is no lower clamp: a store holding only a daily-hours answer n below 45 scores 2n + 10, which is negative once n < -5 |
| `ScoringProps.NormaliseUpdate` | app.jsx:73-80 | answering one question changes only the factor read from that question's id, to the answer's normalised value; the other seven factors are unchanged |
| `ScoringProps.UpdateButtonDominates` | app.jsx:74-82 | replacing a button answer by one of larger table weight yields factors at least as bad in every position |
| `ScoringProps.ScoreMonotone` | app.jsx:82-96 | raising any factor other than revenue streams, or lowering revenue streams, never lowers the raw score or the score |
| `ScoringProps.SliderMonotone` | app.jsx:73-82 | raising the daily-hours, manual-tasks or income-stress answer never lowers the score |
| `ScoringProps.RevenueAntitone` | app.jsx:80-82 | raising the revenue-streams answer never raises the score |
| `ScoringProps.ChoiceMonotone` | app.jsx:74-82 | choosing a later label of a button question never lowers the score |
| `ScoringProps.TopWasterIsLastMaximum` | app.jsx:84-94 | the top waster is the factor at index k if and only if k holds the maximum factor score and every later factor scores strictly less (ties go to the later factor) |
| `ScoringProps.DiagnosticThresholds` | app.jsx:102-105 | platforms is High iff count > 2, else Manageable. Manual is Critical iff > 60, High iff in (40, 60], else Okay. Boundaries is Critical iff > 3, High iff in (1, 3], else Good. Revenue is Critical iff < 1, High iff == 1, else Diversified |
| `ScoringProps.WorstCaseExample` | app.jsx:69-113 | answers (9, 7+, 70, 8, Constantly, Never, Never, 0) give raw 136 and score 100. The top waster is Manual Content Processes. Platforms is High and the other three diagnostics Critical. Stats are (9, 4, 0) |
| `Assessment.AnswerCurrentKeepsOrder` | app.jsx:241-278 | answering the question on screen, when earlier answers were given in order, adds a new id: the index moves on by exactly one and the order invariant still holds |
| `Assessment.PreviousIsAnswered` | app.jsx:283-288 | when answers were given in order and the index is positive, the previous question has an answer, so Back has nothing to add |
| `Assessment.AllAnsweredReachesEnd` | app.jsx:165-166 | once every catalog id has an answer, the index is at least 8, so the current question is undefined |
| `Assessment.EndMeansAllAnswered` | app.jsx:122-141 | when answers were given in order, reaching index 8 means every catalog question has an answer |
| `Assessment.BurnoutAssessment.constructor` | app.jsx:5-8 | the initial state: welcome stage, empty store, empty email, no results |
| `Assessment.BurnoutAssessment.CurrentQuestionIndex` | app.jsx:165 | the index is the number of keys in the store, uncapped. `HandleAnswer` proves it grows by one exactly when a new id is stored |
| `Assessment.BurnoutAssessment.CurrentQuestion` | app.jsx:165-166 | the current question is defined iff the index is below 8, and is then the question at that index |
| `Assessment.BurnoutAssessment.Start` | app.jsx:209 | the stage becomes quiz; nothing else changes |
| `Assessment.BurnoutAssessment.HandleAnswer` | app.jsx:115-120 | the store maps the id to the value and keeps every other entry. The index grows by one iff the id was new. Stage, email and results do not change |
| `Assessment.BurnoutAssessment.AnswerCurrent` | app.jsx:241-278 | a slider or button on screen records the value under the current question's id; from an in-order store it keeps the store in order and advances the index by one |
| `Assessment.BurnoutAssessment.Back` | app.jsx:283-288 | if the previous question has an answer the store is unchanged. Otherwise its id is added with `undefined` and the index grows by one. From an in-order store it never changes the store |
| `Assessment.BurnoutAssessment.HandleNext` | app.jsx:122-131 | below 8 keys nothing changes. Otherwise results become the burnout calculation of the store and the stage becomes results. Store and email are untouched |
| `Assessment.BurnoutAssessment.HandleGetResults` | app.jsx:133-141 | below 8 keys neither stage nor results change (the alert path). Otherwise results become the burnout calculation of the store and the stage becomes results |
| `Assessment.BurnoutAssessment.SetEmail` | app.jsx:417 | the email becomes the input's value; nothing else changes |
| `Assessment.BurnoutAssessment.HandleEmailCapture` | app.jsx:143-163 | an empty email leaves the stage unchanged (the alert path). A non-empty one sets the stage to thank-you. Store, email and results are untouched either way |
| `Assessment.NavGateClosedWhenInOrder` | app.jsx:294-307 | as written, `!responses[currentQuestion?.id]` is true on every store whose answers were given in order. Below 8 keys the current id is the one not yet answered; at 8 the lookup is of the key "undefined", which no catalog id equals. So Next and See My Results are always disabled |
| `Assessment.ResultsEnabledIffAllAnswered` | app.jsx:133-141 | the corrected See My Results gate (at least 8 keys, the handler's own guard) is open on an in-order store if and only if every catalog question has an answer |
| `Assessment.RunAssessment` | app.jsx:208-309 | Start, one valid answer per question in order, then the See My Results handler called directly, behind the corrected gate. The gate as written is closed at that point. The stage is results, the score is in [18, 100], and the stats echo the daily-hours and revenue-streams answers |

## Left out

- Rendering, CSS classes, icons and the SVG score ring (app.jsx:168-478). They are presentation only.
- The progress percentages and the ring's dash array (app.jsx:227, 232, 348). They are floating-point display arithmetic.
- `Math.round(x / 100 * 100)` at app.jsx:96 is modelled as the identity on integers. IEEE rounding is not modelled.
- `parseInt` on slider strings is not modelled. A slider answer is the integer it denotes. A label stored under a slider id reads as 0, where `parseInt` would read a leading number (for example "7+" as 7). NaN is not modelled.
- Table lookups of labels that name inherited object properties (such as "toString") are not modelled. Only the table's own keys map to weights.
- `window.assessmentData`, the console output, the timestamp and the try/catch in the email handler (app.jsx:149-162) are left out. They are host globals, a clock and I/O. The model keeps only the empty-email check and the stage change.
- The `alert` calls (app.jsx:135, 145) are modelled as a return with no state change.
- Assessment.BurnoutAssessment.Back: requires an index in 1..8. The button is rendered only for a positive index, and above 8 `questions[index - 1].id` throws; that throw is not modelled.
- Assessment.BurnoutAssessment.AnswerCurrent: requires a defined current question. The slider and buttons are rendered only then.
- `async` on the email handler awaits nothing, so no concurrency is modelled.
- The question prompts and tick labels are kept as data, but nothing is proved about them.

## Findings

| source | as written | input that shows it | evidently intended | confidence | as-written member | corrected member |
|---|---|---|---|---|---|---|
| app.jsx:297, app.jsx:305 | Next and See My Results are disabled while `responses[currentQuestion?.id]` is falsy. Answering moves the index past the question just answered, so the current id is never in the store; after the last answer `currentQuestion` is undefined and the key read is "undefined" | the store after all eight questions are answered in order: index 8, `responses["undefined"]` is undefined, See My Results disabled. Every store the quiz's controls build behaves the same | See My Results is enabled once every question has an answer (the guard of `handleGetResults`, at least 8 keys), so the session reaches the results stage | high; not executed | `Assessment.NavGateClosedWhenInOrder` | `Assessment.ResultsEnabledIffAllAnswered`, used by `Assessment.RunAssessment` |

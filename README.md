# Survey controller model

A Dafny model of the survey widget's controller (`src/Components/SurveyApp.jsx`) as a
small state machine, with the React rendering stripped away. The component holds:

- the index of the question on screen;
- the list of recorded answers;
- three screen flags: `surveyCompleted`, which shows the confirmation prompt,
  `showWelcomeScreen` and `showThankYouScreen`;
- the staged feedback text;
- a persistent browser store with two keys, `surveyAnswers` and `surveyStatus`.

It runs over a fixed table of five questions. Four are rating questions, with
options 1..5 (three of them) and 1..10 (one). The fifth is a free-text question.

The project has four modules:

- `Questions` (`questions.dfy`): the question table and its shape.
- `Survey` (`survey.dfy`): the controller's state as a value, and one function per event
  handler. Each handler is one atomic step. The save effect, which overwrites the stored
  answer list with the current one, runs inside every step that changes the list.
  `Consistent` is the invariant: the index is on a question and the store mirrors the
  answer list.
- `Session` (`session.dfy`): the events that can reach the controller. `Enabled` says
  which controls the rendered component offers in a state: disabled buttons, the rating
  buttons of the current question, the text area of a text question, and the render
  guard that hides every control while the stored status is `"COMPLETED"`. `Run`
  applies a sequence of events. The lemmas state what holds along every run.
- `Controller` (`survey_app.dfy`): class `SurveyApp`. Its fields are the component's
  state and its methods are the handlers, updating the fields in place. Each method's
  `ensures` ties the new fields to the matching `Survey` step applied to the old ones.

Behaviour of the code that the model keeps as written:

- Answers are appended, so re-answering a revisited question adds a second entry for it.
- Previous and Next do not clamp the index. Only the disabled buttons keep it in range,
  so the class methods take those conditions as preconditions.
- Typing into the text question stages the text and marks the survey completed. It
  never adds an entry to the answer list.
- A recorded answer is always an integer from a rating button; the text area only
  stages `feedback` (`src/Components/SurveyApp.jsx:120-123`, `142`).
- Restart does not touch the status key. Clearing the answer list still rewrites
  `surveyAnswers` through the save effect, so after restart the stored list is empty.
- Confirming writes the status key, and the render guard then replaces the whole UI with
  a "come back later" message until the guard's timer removes the key. The thank-you
  screen could only appear if the guard's timer fired before the thank-you timer. As the
  code is written that does not happen: both wait 5000 ms, and the thank-you timer is
  scheduled in the submit handler (line 108), before the render that schedules the
  guard's callback (line 178). So the thank-you screen (lines 203-207) is never shown.
  The model does not order the timers, and the two give the same state in either order
  (`Session.TimersCommute`).
- The guard schedules a new reset callback on every render while the status key is set.
  Setting the thank-you flags causes such a render, so another callback is still pending
  after the first one has removed the key and the controls are live again. When that
  later callback fires it runs restart again, which discards any answers, index and
  completion entered in between (`Session.LateGuardDiscardsProgress`,
  `Session.LateGuardDropsAnswer`).

## Model

| member | source | states |
|---|---|---|
| Questions.Table | src/Components/SurveyApp.jsx:27-57 | five questions with ids 1..5 in order; the first three rate on 1..5, the fourth on 1..10, the fifth is a text question with no options |
| Questions.IdsDistinct | src/Components/SurveyApp.jsx:27-57 | no two questions share an id, and an id occurs in the table exactly when it is in 1..5 |
| Survey.Save | src/Components/SurveyApp.jsx:20-22 | the stored answer list becomes the whole current list (full overwrite); the status key and the controller's fields are unchanged |
| Survey.Initial | src/Components/SurveyApp.jsx:5-22 | after mounting, a stored answer list, if present, is the answer list (otherwise it is empty) and is saved back; first question, welcome screen shown, not completed, empty feedback; the status key is kept |
| Survey.StartStep | src/Components/SurveyApp.jsx:68-70 | hides the welcome screen and changes nothing else |
| Survey.SkipStep | src/Components/SurveyApp.jsx:93-99 | judged on the index before the step: on the last question it sets completed and keeps the index; elsewhere it adds exactly 1 to the index and keeps completed; nothing else changes, the answers included |
| Survey.AnswerStep | src/Components/SurveyApp.jsx:72-83 | appends exactly one entry (current question's id, value) at the end with every earlier entry unchanged, so a revisited question gets a second entry; the store mirrors the new list; index and completed follow the same rule as Skip on the old index; nothing else changes |
| Survey.FeedbackStep | src/Components/SurveyApp.jsx:120-123 | stores the typed text and sets completed; answers, index, store and screen flags are unchanged |
| Survey.ConfirmSubmitStep | src/Components/SurveyApp.jsx:101-107 | immediately: no answers, not completed, thank-you shown, store = (empty list, "COMPLETED"); index, welcome flag and feedback unchanged |
| Survey.ThankYouTimerStep | src/Components/SurveyApp.jsx:108-111 | the delayed part of confirming: welcome shown, thank-you hidden, everything else, the store included, unchanged |
| Survey.RestartStep | src/Components/SurveyApp.jsx:114-118 | index 0, no answers, not completed; the status key, the screen flags and the feedback are untouched; the stored list is emptied by the save effect |
| Survey.GuardTimerStep | src/Components/SurveyApp.jsx:177-181 | removes the status key and then restarts, so the guard no longer shows |
| Survey.PreviousStep | src/Components/SurveyApp.jsx:85-87 | subtracts exactly 1 from the index, without clamping, and changes nothing else |
| Survey.NextStep | src/Components/SurveyApp.jsx:89-91 | adds exactly 1 to the index, without clamping, and changes nothing else |
| Session.Enabled | src/Components/SurveyApp.jsx:136-200 | an available control implies the guard is not showing; answer, text and skip need an index on a question; Previous (disabled at index 0) and Next (disabled at the last index) keep a valid index valid; confirm needs the completed flag |
| Session.Step | src/Components/SurveyApp.jsx:132-172 | every event the rendered UI offers keeps the invariant: the index stays on a question and the store mirrors the answers |
| Session.Run | src/Components/SurveyApp.jsx:132-172 | every run of available events ends in a consistent state |
| Session.RunAppendsOnly | src/Components/SurveyApp.jsx:72-76 | along a run without a confirm or a guard reset, the old answer list is a prefix of the new one and exactly one entry is added per answer event |
| Session.AdvanceCompletesOnce | src/Components/SurveyApp.jsx:72-99 | from an uncompleted state, answers and skips complete the survey exactly when the run goes past the last question, never earlier; the index climbs one per event and then stays on the last question |
| Session.StaysCompletedOnLast | src/Components/SurveyApp.jsx:93-99 | once completed on the last question, further answers and skips keep it completed there |
| Session.StepKeepsOnTable | src/Components/SurveyApp.jsx:136-148 | one available event keeps every recorded answer on a rating question with one of that question's options |
| Session.RunKeepsOnTable | src/Components/SurveyApp.jsx:136-155 | along every run, recorded answers name rating questions and hold their options; the text question is never recorded |
| Session.RunThenEvent | src/Components/SurveyApp.jsx:132-172 | running one more available event after a run equals taking that event from the run's final state |
| Session.LateGuardDiscardsProgress | src/Components/SurveyApp.jsx:177-181 | after any run, a late guard callback leaves no answers, an empty stored list, index 0 and not completed |
| Session.LateGuardDropsAnswer | src/Components/SurveyApp.jsx:72-83 | on question 1 with the guard cleared, a rating of 4 is recorded as (1, 4), and a following guard callback empties the answers again |
| Session.SubmitBlocksInput | src/Components/SurveyApp.jsx:177-183 | right after confirming, the guard shows and no control is available; only the timers can act |
| Session.SubmitThenBothTimers | src/Components/SurveyApp.jsx:101-111 | confirm followed by both timers, in either order, gives the same state: welcome shown, thank-you hidden, no answers, index 0, not completed, store = (empty list, no status) |
| Session.TimersCommute | src/Components/SurveyApp.jsx:177-181 | the thank-you timer and the guard timer commute |
| Session.GuardTimerIdempotent | src/Components/SurveyApp.jsx:177-181 | two back-to-back firings of the guard's callback equal one; a firing after further input restarts again (see `Session.LateGuardDiscardsProgress`) |
| Session.PreviousNextInverse | src/Components/SurveyApp.jsx:85-91 | Previous then Next, and Next then Previous, restore the state |
| Session.NavigationInRange | src/Components/SurveyApp.jsx:156-166 | from a valid index, Previous stays in range if and only if the index is not 0, and Next if and only if it is not the last, which are exactly the enabled-button conditions |
| Session.ReloadRestoresAnswers | src/Components/SurveyApp.jsx:13-22 | mounting on the store a consistent state leaves behind gives back its answer list and the same store, with the index on the first question and the welcome screen shown |
| Session.RestoreOneAnswer | src/Components/SurveyApp.jsx:13-18 | a stored list holding the single entry (question 1, answer 5) is restored as exactly that list |
| Session.FullSurveyScenario | src/Components/SurveyApp.jsx:68-123 | fresh mount, start, ratings 5, 4, 3, 8, then text typed: awaiting confirmation on question 5 with the four ratings recorded and the text only staged in feedback |
| Controller.SurveyApp.Mount | src/Components/SurveyApp.jsx:5-22 | the constructed fields are the state `Survey.Initial` gives for the store |
| Controller.SurveyApp.SaveAnswers | src/Components/SurveyApp.jsx:20-22 | overwrites the stored list with the current list and changes nothing else |
| Controller.SurveyApp.ShowsComeBackLater | src/Components/SurveyApp.jsx:177 | returns exactly the render guard `Survey.ComeBackLater` of the current state: the stored status is "COMPLETED" |
| Controller.SurveyApp.CurrentQuestion | src/Components/SurveyApp.jsx:126 | the question on screen, whose id is the index plus 1 |
| Controller.SurveyApp.StartSurvey | src/Components/SurveyApp.jsx:68-70 | new fields = `StartStep` of the old ones |
| Controller.SurveyApp.AnswerQuestion | src/Components/SurveyApp.jsx:72-83 | new fields = `AnswerStep` of the old ones: one entry appended and the store mirroring the list |
| Controller.SurveyApp.PreviousQuestion | src/Components/SurveyApp.jsx:85-87 | callable only off the first question (the disabled button); subtracts 1 from the index and keeps the invariant |
| Controller.SurveyApp.NextQuestion | src/Components/SurveyApp.jsx:89-91 | callable only off the last question (the disabled button); adds 1 to the index and keeps the invariant |
| Controller.SurveyApp.SkipQuestion | src/Components/SurveyApp.jsx:93-99 | new fields = `SkipStep` of the old ones; answers and store unchanged |
| Controller.SurveyApp.EnterFeedback | src/Components/SurveyApp.jsx:120-123 | new fields = `FeedbackStep` of the old ones |
| Controller.SurveyApp.ConfirmSubmit | src/Components/SurveyApp.jsx:101-107 | new fields = `ConfirmSubmitStep` of the old ones |
| Controller.SurveyApp.ThankYouElapsed | src/Components/SurveyApp.jsx:108-111 | new fields = `ThankYouTimerStep` of the old ones; store unchanged |
| Controller.SurveyApp.Restart | src/Components/SurveyApp.jsx:114-118 | new fields = `RestartStep` of the old ones; status key unchanged |
| Controller.SurveyApp.GuardElapsed | src/Components/SurveyApp.jsx:177-181 | new fields = `GuardTimerStep` of the old ones; status key absent |

## Left out

- Rendering: the JSX, CSS classes and markup are not modelled. The only parts kept are
  which controls are shown or disabled (`Session.Enabled`) and the render guard's test.
- React scheduling and batching: each handler is one atomic step, and the save effect
  runs inside that step.
- The question loader starts with an empty list and fills it in an effect. The model
  loads the table at mount, so it has no render in which the question list is still empty.
- Real time: the 5000 ms delays are not modelled. Each delayed body is its own event
  (`ThankYouTimer`, `GuardTimer`), and `Session.Enabled` lets a timer fire at any time.
  That over-approximates which callbacks are pending.
- The guard scheduling a new callback on every render is not modelled as a count of
  pending callbacks. The guard's timer may fire after any run, which covers every late
  callback. Two back-to-back firings equal one (`Session.GuardTimerIdempotent`), but a
  firing after further input resets that input (`Session.LateGuardDiscardsProgress`).
- JSON serialisation and parsing: the store holds the answer list directly, so malformed
  stored data cannot arise. The source does not handle it either.
- `localStorage` as a browser API: it is a field with one optional value per key.
- The asynchronous loader and its `try`/`catch` logging around the constant question
  table, which cannot fail.
- The unused `event` argument of the answer handler.

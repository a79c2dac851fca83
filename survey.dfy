/** The survey controller's state as a value, and one transition per event handler.
    Every handler is one atomic step; the save effect that mirrors `answers` into
    the store runs as part of each step that changes `answers`. */
module Survey {
  import opened Questions

  datatype Option<T> = None | Some(value: T)

  /** One recorded answer: the id of the question and the rating button pressed. */
  datatype Answer = Answer(questionId: int, answer: int)

  /** The browser's persistent key-value store, restricted to the survey's two keys. */
  datatype Storage = Storage(surveyAnswers: Option<seq<Answer>>, surveyStatus: Option<string>)

  /** The value written under `surveyStatus` on submission. */
  const Completed := "COMPLETED"

  /** Everything the controller holds, plus the store it reads and writes. */
  datatype State = State(
    index: int,
    answers: seq<Answer>,
    surveyCompleted: bool,
    showWelcomeScreen: bool,
    showThankYouScreen: bool,
    feedback: string,
    storage: Storage)

  /** The index points at a question and the store mirrors the answer list. */
  predicate Consistent(s: State) {
    InRange(s.index) && s.storage.surveyAnswers == Some(s.answers)
  }

  /** The render guard: while the store says the survey was just completed,
      the component shows only a "come back later" message. */
  predicate ComeBackLater(s: State) {
    s.storage.surveyStatus == Some(Completed)
  }

  /** The save effect: `surveyAnswers` is overwritten with the whole current list. */
  function Save(s: State): (t: State)
    ensures t.storage.surveyAnswers == Some(s.answers)
    ensures t.storage.surveyStatus == s.storage.surveyStatus
    ensures t.(storage := s.storage) == s
  {
    s.(storage := s.storage.(surveyAnswers := Some(s.answers)))
  }

  /** The state right after mounting on a store: a stored answer list, if any,
      becomes the initial list, and the save effect writes it back. */
  function Initial(stored: Storage): (s: State)
    ensures Consistent(s)
    ensures s.answers == (if stored.surveyAnswers.Some? then stored.surveyAnswers.value else [])
    ensures s.storage.surveyStatus == stored.surveyStatus
    ensures s.index == 0 && !s.surveyCompleted && s.feedback == ""
    ensures s.showWelcomeScreen && !s.showThankYouScreen
  {
    var restored := if stored.surveyAnswers.Some? then stored.surveyAnswers.value else [];
    Save(State(0, restored, false, true, false, "", stored))
  }

  /** Start: leave the welcome screen. */
  function StartStep(s: State): (t: State)
    ensures !t.showWelcomeScreen
    ensures t.(showWelcomeScreen := s.showWelcomeScreen) == s
  {
    s.(showWelcomeScreen := false)
  }

  /** Skip, and the move-or-complete rule answering shares with it: at the last
      question mark the survey completed, elsewhere move to the next question.
      The test is on the index as it was before the step. */
  function SkipStep(s: State): (t: State)
    ensures s.index == LastIndex() ==> t.surveyCompleted && t.index == s.index
    ensures s.index != LastIndex() ==> t.index == s.index + 1 && t.surveyCompleted == s.surveyCompleted
    ensures t.(index := s.index, surveyCompleted := s.surveyCompleted) == s
  {
    if s.index == LastIndex() then s.(surveyCompleted := true)
    else s.(index := s.index + 1)
  }

  /** Answer: append one entry for the current question (never replacing an earlier
      entry for it), save, then move or complete as Skip does. */
  function AnswerStep(s: State, v: int): (t: State)
    requires InRange(s.index)
    ensures |t.answers| == |s.answers| + 1
    ensures t.answers[..|s.answers|] == s.answers
    ensures t.answers[|s.answers|] == Answer(Table()[s.index].id, v)
    ensures t.storage == s.storage.(surveyAnswers := Some(t.answers))
    ensures t.index == SkipStep(s).index && t.surveyCompleted == SkipStep(s).surveyCompleted
    ensures t.(answers := s.answers, storage := s.storage, index := s.index, surveyCompleted := s.surveyCompleted) == s
  {
    var recorded := Save(s.(answers := s.answers + [Answer(Table()[s.index].id, v)]));
    SkipStep(recorded)
  }

  /** Previous: one question back, with no clamping of its own. */
  function PreviousStep(s: State): (t: State)
    ensures t.index == s.index - 1
    ensures t.(index := s.index) == s
  {
    s.(index := s.index - 1)
  }

  /** Next: one question forward, with no clamping of its own. */
  function NextStep(s: State): (t: State)
    ensures t.index == s.index + 1
    ensures t.(index := s.index) == s
  {
    s.(index := s.index + 1)
  }

  /** Typing into the text question: stage the text and mark the survey completed;
      nothing is recorded in `answers`. */
  function FeedbackStep(s: State, text: string): (t: State)
    ensures t.feedback == text && t.surveyCompleted
    ensures t.answers == s.answers && t.index == s.index && t.storage == s.storage
    ensures t.showWelcomeScreen == s.showWelcomeScreen && t.showThankYouScreen == s.showThankYouScreen
  {
    s.(feedback := text, surveyCompleted := true)
  }

  /** Confirm-submit, immediate part: clear the answers (and, by the save effect, the
      stored list), leave the confirmation, show the thank-you screen and persist the
      completed status. The index, welcome flag and feedback are left alone. */
  function ConfirmSubmitStep(s: State): (t: State)
    ensures t.answers == [] && !t.surveyCompleted && t.showThankYouScreen
    ensures t.storage == Storage(Some([]), Some(Completed))
    ensures t.index == s.index && t.showWelcomeScreen == s.showWelcomeScreen && t.feedback == s.feedback
  {
    Save(s.(answers := [], surveyCompleted := false, showThankYouScreen := true,
            storage := s.storage.(surveyStatus := Some(Completed))))
  }

  /** Confirm-submit, delayed part: back to the welcome screen; the store is untouched. */
  function ThankYouTimerStep(s: State): (t: State)
    ensures t.showWelcomeScreen && !t.showThankYouScreen
    ensures t.(showWelcomeScreen := s.showWelcomeScreen, showThankYouScreen := s.showThankYouScreen) == s
  {
    s.(showWelcomeScreen := true, showThankYouScreen := false)
  }

  /** Restart: first question, no answers (saved), not completed; the status key and
      the screen flags are left alone. */
  function RestartStep(s: State): (t: State)
    ensures t.index == 0 && t.answers == [] && !t.surveyCompleted
    ensures t.storage == s.storage.(surveyAnswers := Some([]))
    ensures t.showWelcomeScreen == s.showWelcomeScreen && t.showThankYouScreen == s.showThankYouScreen
    ensures t.feedback == s.feedback
  {
    Save(s.(surveyCompleted := false, index := 0, answers := []))
  }

  /** The render guard's delayed body: remove the status key, then restart. */
  function GuardTimerStep(s: State): (t: State)
    ensures t.storage.surveyStatus == None && !ComeBackLater(t)
    ensures t == RestartStep(s).(storage := RestartStep(s).storage.(surveyStatus := None))
  {
    RestartStep(s.(storage := s.storage.(surveyStatus := None)))
  }
}

/** Sessions: what the rendered component lets happen next, runs of events, and
    the properties that hold along every run. */
module Session {
  import opened Questions
  import opened Survey

  /** The events that reach the controller: button presses, typing, and the two
      delayed callbacks. There is no restart button; restart happens only through
      the guard's timer. */
  datatype Event =
    | Start
    | AnswerWith(v: int)
    | Previous
    | Next
    | Skip
    | Feedback(text: string)
    | Confirm
    | ThankYouTimer
    | GuardTimer

  predicate IsTimer(e: Event) {
    e.ThankYouTimer? || e.GuardTimer?
  }

  /** The current question is on screen: the guard is not showing and the index
      points at a question. */
  predicate ShowsQuestion(s: State) {
    !ComeBackLater(s) && InRange(s.index)
  }

  /** The event is available in state `s`. Buttons exist only when rendered, Previous
      is disabled on the first question and Next on the last, rating buttons show the
      current rating question's options and the text area only on a text question.
      A timer may fire at any time: a callback can still be pending from an earlier
      step, so allowing it always over-approximates the scheduler. */
  predicate Enabled(s: State, e: Event): (r: bool)
    ensures r && !IsTimer(e) ==> !ComeBackLater(s)
    ensures r && (e.AnswerWith? || e.Feedback? || e.Skip?) ==> InRange(s.index)
    ensures r && e.Previous? && InRange(s.index) ==> InRange(s.index - 1)
    ensures r && e.Next? && InRange(s.index) ==> InRange(s.index + 1)
    ensures r && e.Confirm? ==> s.surveyCompleted
  {
    match e
    case Start => !ComeBackLater(s) && s.showWelcomeScreen
    case AnswerWith(v) =>
      ShowsQuestion(s) && Table()[s.index].kind == Rating && v in Table()[s.index].options
    case Previous => ShowsQuestion(s) && s.index != 0
    case Next => ShowsQuestion(s) && s.index != LastIndex()
    case Skip => ShowsQuestion(s)
    case Feedback(_) => ShowsQuestion(s) && Table()[s.index].kind == Text
    case Confirm => !ComeBackLater(s) && s.surveyCompleted
    case ThankYouTimer => true
    case GuardTimer => true
  }

  /** One event, taken where it is available, keeps the state consistent. */
  function Step(s: State, e: Event): (t: State)
    requires Consistent(s) && Enabled(s, e)
    ensures Consistent(t)
  {
    match e
    case Start => StartStep(s)
    case AnswerWith(v) => AnswerStep(s, v)
    case Previous => PreviousStep(s)
    case Next => NextStep(s)
    case Skip => SkipStep(s)
    case Feedback(text) => FeedbackStep(s, text)
    case Confirm => ConfirmSubmitStep(s)
    case ThankYouTimer => ThankYouTimerStep(s)
    case GuardTimer => GuardTimerStep(s)
  }

  /** Run events in order; None when some event is not available when its turn comes. */
  function Run(s: State, es: seq<Event>): (r: Option<State>)
    requires Consistent(s)
    ensures r.Some? ==> Consistent(r.value)
    ensures es == [] ==> r == Some(s)
    decreases |es|
  {
    if es == [] then Some(s)
    else if Enabled(s, es[0]) then Run(Step(s, es[0]), es[1..])
    else None
  }

  /** Number of answer events in a run. */
  function CountAnswers(es: seq<Event>): nat {
    if es == [] then 0 else (if es[0].AnswerWith? then 1 else 0) + CountAnswers(es[1..])
  }

  /** The events that clear the answer list. */
  predicate Clears(e: Event) {
    e.Confirm? || e.GuardTimer?
  }

  /** An answer was made with one of its question's rating buttons. */
  predicate OnTable(a: Answer) {
    exists i :: 0 <= i < |Table()| && Table()[i].id == a.questionId
                && Table()[i].kind == Rating && a.answer in Table()[i].options
  }

  predicate AllOnTable(answers: seq<Answer>) {
    forall k :: 0 <= k < |answers| ==> OnTable(answers[k])
  }

  /** Along a run that does not clear the list, answers are only appended, one per
      answer event: the list before the run is a prefix of the list after it. */
  lemma {:induction false} RunAppendsOnly(s: State, es: seq<Event>)
    requires Consistent(s)
    requires forall k :: 0 <= k < |es| ==> !Clears(es[k])
    ensures Run(s, es).Some? ==>
              |Run(s, es).value.answers| == |s.answers| + CountAnswers(es) &&
              Run(s, es).value.answers[..|s.answers|] == s.answers
    decreases |es|
  {
    if es != [] && Enabled(s, es[0]) {
      var t := Step(s, es[0]);
      assert !Clears(es[0]);
      assert |t.answers| == |s.answers| + (if es[0].AnswerWith? then 1 else 0);
      assert t.answers[..|s.answers|] == s.answers;
      RunAppendsOnly(t, es[1..]);
      if Run(s, es).Some? {
        var u := Run(s, es).value;
        assert u == Run(t, es[1..]).value;
        assert u.answers[..|s.answers|] == u.answers[..|t.answers|][..|s.answers|];
      }
    }
  }

  /** Answering or skipping from an uncompleted state completes the survey exactly
      when the run has gone past the last question, never earlier; until then each
      event moves one question forward, and afterwards the index stays on the last. */
  lemma {:induction false} AdvanceCompletesOnce(s: State, es: seq<Event>)
    requires Consistent(s) && !s.surveyCompleted
    requires forall k :: 0 <= k < |es| ==> es[k].AnswerWith? || es[k].Skip?
    requires Run(s, es).Some?
    ensures Run(s, es).value.surveyCompleted <==> |es| > LastIndex() - s.index
    ensures Run(s, es).value.index ==
              if |es| > LastIndex() - s.index then LastIndex() else s.index + |es|
    decreases |es|
  {
    if es != [] {
      var t := Step(s, es[0]);
      assert Run(s, es) == Run(t, es[1..]);
      assert forall k :: 0 <= k < |es[1..]| ==> es[1..][k] == es[k + 1];
      if s.index == LastIndex() {
        assert t.surveyCompleted && t.index == LastIndex();
        StaysCompletedOnLast(t, es[1..]);
      } else {
        assert t.index == s.index + 1 && !t.surveyCompleted;
        AdvanceCompletesOnce(t, es[1..]);
      }
    }
  }

  /** Once completed on the last question, further answers and skips keep it so. */
  lemma {:induction false} StaysCompletedOnLast(s: State, es: seq<Event>)
    requires Consistent(s) && s.surveyCompleted && s.index == LastIndex()
    requires forall k :: 0 <= k < |es| ==> es[k].AnswerWith? || es[k].Skip?
    requires Run(s, es).Some?
    ensures Run(s, es).value.surveyCompleted && Run(s, es).value.index == LastIndex()
    decreases |es|
  {
    if es != [] {
      var t := Step(s, es[0]);
      assert Run(s, es) == Run(t, es[1..]);
      assert forall k :: 0 <= k < |es[1..]| ==> es[1..][k] == es[k + 1];
      StaysCompletedOnLast(t, es[1..]);
    }
  }

  /** One step keeps every recorded answer one of its rating question's options. */
  lemma StepKeepsOnTable(s: State, e: Event)
    requires Consistent(s) && Enabled(s, e) && AllOnTable(s.answers)
    ensures AllOnTable(Step(s, e).answers)
  {
  }

  /** Along every run, recorded answers stay on the table: each names a rating
      question and holds one of that question's options. The text question is
      never recorded. */
  lemma {:induction false} RunKeepsOnTable(s: State, es: seq<Event>)
    requires Consistent(s) && AllOnTable(s.answers)
    ensures Run(s, es).Some? ==> AllOnTable(Run(s, es).value.answers)
    decreases |es|
  {
    if es != [] && Enabled(s, es[0]) {
      StepKeepsOnTable(s, es[0]);
      RunKeepsOnTable(Step(s, es[0]), es[1..]);
    }
  }

  /** Running one more available event after a run is taking that event from the
      run's final state. */
  lemma {:induction false} RunThenEvent(s: State, es: seq<Event>, e: Event)
    requires Consistent(s) && Run(s, es).Some? && Enabled(Run(s, es).value, e)
    ensures Run(s, es + [e]) == Some(Step(Run(s, es).value, e))
    decreases |es|
  {
    if es == [] {
      assert es + [e] == [e];
      assert Run(Step(s, e), []) == Some(Step(s, e));
    } else {
      assert (es + [e])[0] == es[0] && (es + [e])[1..] == es[1..] + [e];
      RunThenEvent(Step(s, es[0]), es[1..], e);
    }
  }

  /** The guard schedules a callback on every render while the status key is set, so
      more callbacks stay pending after the first has removed the key and the controls
      are live again. Whatever was done in between, a late callback restarts: the
      answers, the stored list, the index and the completion flag are all reset. */
  lemma LateGuardDiscardsProgress(s: State, es: seq<Event>)
    requires Consistent(s) && Run(s, es).Some?
    ensures Run(s, es + [GuardTimer]).Some?
    ensures var t := Run(s, es + [GuardTimer]).value;
            t.answers == [] && t.storage.surveyAnswers == Some([]) && t.index == 0
            && !t.surveyCompleted
  {
    RunThenEvent(s, es, GuardTimer);
  }

  /** For instance, a rating given on the first question after the guard has cleared
      is recorded, and the next pending guard callback removes it again. */
  lemma LateGuardDropsAnswer(s: State)
    requires Consistent(s) && !ComeBackLater(s) && s.index == 0
    ensures Run(s, [AnswerWith(4)]).Some?
    ensures Run(s, [AnswerWith(4)]).value.answers == s.answers + [Answer(1, 4)]
    ensures Run(s, [AnswerWith(4), GuardTimer]).Some?
    ensures Run(s, [AnswerWith(4), GuardTimer]).value.answers == []
  {
  }

  /** Right after confirming, the guard hides every control: nothing but a timer can
      happen until the guard's timer removes the status key. */
  lemma SubmitBlocksInput(s: State)
    requires Consistent(s) && Enabled(s, Confirm)
    ensures ComeBackLater(Step(s, Confirm))
    ensures forall e :: !IsTimer(e) ==> !Enabled(Step(s, Confirm), e)
  {
  }

  /** After confirming, once both delayed callbacks have fired, in either order, the
      component is back on the welcome screen with no answers and no status key. */
  lemma SubmitThenBothTimers(s: State)
    requires Consistent(s) && Enabled(s, Confirm)
    ensures Run(s, [Confirm, ThankYouTimer, GuardTimer]) == Run(s, [Confirm, GuardTimer, ThankYouTimer])
    ensures var t := Run(s, [Confirm, ThankYouTimer, GuardTimer]).value;
            t.showWelcomeScreen && !t.showThankYouScreen && t.answers == [] && t.index == 0
            && !t.surveyCompleted && t.storage == Storage(Some([]), None)
  {
  }

  /** The two timers touch different parts of the state, so their order never matters. */
  lemma TimersCommute(s: State)
    ensures ThankYouTimerStep(GuardTimerStep(s)) == GuardTimerStep(ThankYouTimerStep(s))
  {
  }

  /** Two back-to-back firings of the guard's callback equal one; a firing after
      further input restarts again (`LateGuardDiscardsProgress`). */
  lemma GuardTimerIdempotent(s: State)
    ensures GuardTimerStep(GuardTimerStep(s)) == GuardTimerStep(s)
  {
  }

  /** Previous then Next, or Next then Previous, gives back the state unchanged. */
  lemma PreviousNextInverse(s: State)
    ensures NextStep(PreviousStep(s)) == s
    ensures PreviousStep(NextStep(s)) == s
  {
  }

  /** Navigation does not clamp: from a valid index, Previous stays in range exactly
      when it is not on the first question, and Next exactly when not on the last,
      which are the conditions under which the buttons are enabled. */
  lemma NavigationInRange(s: State)
    requires InRange(s.index)
    ensures InRange(PreviousStep(s).index) <==> s.index != 0
    ensures InRange(NextStep(s).index) <==> s.index != LastIndex()
  {
  }

  /** Reloading restores progress: mounting on the store a consistent state left
      behind gives back its answer list and store, with the index back on the first
      question and the welcome screen shown. */
  lemma ReloadRestoresAnswers(s: State)
    requires Consistent(s)
    ensures Initial(s.storage).answers == s.answers
    ensures Initial(s.storage).storage == s.storage
    ensures Initial(s.storage).index == 0 && Initial(s.storage).showWelcomeScreen
  {
  }

  /** A store holding one answer `{questionId: 1, answer: 5}` is restored as exactly that. */
  lemma RestoreOneAnswer()
    ensures Initial(Storage(Some([Answer(1, 5)]), None)).answers == [Answer(1, 5)]
  {
  }

  /** From a fresh mount: start, rate questions 1 to 4 with 5, 4, 3 and 8, then type
      into the text question. The survey is awaiting confirmation on the last question
      with the four ratings recorded and the text staged only in `feedback`. */
  lemma FullSurveyScenario()
    ensures var r := Run(Initial(Storage(None, None)),
                         [Start, AnswerWith(5), AnswerWith(4), AnswerWith(3), AnswerWith(8),
                          Feedback("More options")]);
            r.Some? && r.value.surveyCompleted && r.value.index == 4
            && r.value.feedback == "More options"
            && r.value.answers == [Answer(1, 5), Answer(2, 4), Answer(3, 3), Answer(4, 8)]
  {
    var s0 := Initial(Storage(None, None));
    var s1 := Step(s0, Start);
    var s2 := Step(s1, AnswerWith(5));
    var s3 := Step(s2, AnswerWith(4));
    var s4 := Step(s3, AnswerWith(3));
    var s5 := Step(s4, AnswerWith(8));
    var s6 := Step(s5, Feedback("More options"));
    assert Run(s6, []) == Some(s6);
    assert Run(s5, [Feedback("More options")]) == Some(s6);
    assert Run(s4, [AnswerWith(8), Feedback("More options")]) == Some(s6);
    assert Run(s3, [AnswerWith(3), AnswerWith(8), Feedback("More options")]) == Some(s6);
    assert Run(s2, [AnswerWith(4), AnswerWith(3), AnswerWith(8), Feedback("More options")]) == Some(s6);
    assert Run(s1, [AnswerWith(5), AnswerWith(4), AnswerWith(3), AnswerWith(8), Feedback("More options")]) == Some(s6);
  }
}

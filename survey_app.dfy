/** The survey component as an object whose handlers update its fields in place. */
module Controller {
  import opened Questions
  import opened Survey

  class SurveyApp {
    var currentQuestionIndex: int
    var answers: seq<Answer>
    var surveyCompleted: bool
    var showWelcomeScreen: bool
    var showThankYouScreen: bool
    var feedback: string
    /** The persistent store; it outlives the component and is read again on remount. */
    var storage: Storage

    /** The fields as a value of the controller's state. */
    ghost function Snapshot(): State
      reads this
    {
      State(currentQuestionIndex, answers, surveyCompleted, showWelcomeScreen,
            showThankYouScreen, feedback, storage)
    }

    /** The index is on a question and the store mirrors the answer list. */
    ghost predicate Valid()
      reads this
    {
      Consistent(Snapshot())
    }

    /** Mount on the store left by an earlier session: restore its answer list if
        one is stored, then save the list back. */
    constructor Mount(stored: Storage)
      ensures Valid()
      ensures Snapshot() == Initial(stored)
      ensures stored.surveyAnswers.Some? ==> answers == stored.surveyAnswers.value
    {
      currentQuestionIndex := 0;
      answers := [];
      surveyCompleted := false;
      showWelcomeScreen := true;
      showThankYouScreen := false;
      feedback := "";
      storage := stored;
      new;
      if stored.surveyAnswers.Some? {
        answers := stored.surveyAnswers.value;
      }
      SaveAnswers();
    }

    /** The save effect: overwrite the stored list with the current one. */
    method SaveAnswers()
      modifies this
      ensures storage == old(storage).(surveyAnswers := Some(answers))
      ensures Snapshot() == Save(old(Snapshot()))
    {
      storage := storage.(surveyAnswers := Some(answers));
    }

    /** The render guard: the stored status says the survey was just completed. */
    method ShowsComeBackLater() returns (b: bool)
      ensures b == ComeBackLater(Snapshot())
    {
      b := storage.surveyStatus == Some(Completed);
    }

    /** The question on screen. */
    method CurrentQuestion() returns (q: Question)
      requires Valid()
      ensures q == Table()[currentQuestionIndex] && q.id == currentQuestionIndex + 1
    {
      q := Table()[currentQuestionIndex];
    }

    method StartSurvey()
      requires Valid()
      modifies this
      ensures Valid()
      ensures Snapshot() == StartStep(old(Snapshot()))
    {
      showWelcomeScreen := false;
    }

    /** Record a rating for the current question, then move on or complete. */
    method AnswerQuestion(v: int)
      requires Valid()
      modifies this
      ensures Valid()
      ensures Snapshot() == AnswerStep(old(Snapshot()), v)
      ensures answers == old(answers) + [Answer(Table()[old(currentQuestionIndex)].id, v)]
      ensures storage.surveyAnswers == Some(answers)
    {
      answers := answers + [Answer(Table()[currentQuestionIndex].id, v)];
      SaveAnswers();
      if currentQuestionIndex == LastIndex() {
        surveyCompleted := true;
      } else {
        currentQuestionIndex := currentQuestionIndex + 1;
      }
    }

    /** The Previous button is disabled on the first question. */
    method PreviousQuestion()
      requires Valid() && currentQuestionIndex != 0
      modifies this
      ensures Valid()
      ensures Snapshot() == PreviousStep(old(Snapshot()))
      ensures currentQuestionIndex == old(currentQuestionIndex) - 1
    {
      currentQuestionIndex := currentQuestionIndex - 1;
    }

    /** The Next button is disabled on the last question. */
    method NextQuestion()
      requires Valid() && currentQuestionIndex != LastIndex()
      modifies this
      ensures Valid()
      ensures Snapshot() == NextStep(old(Snapshot()))
      ensures currentQuestionIndex == old(currentQuestionIndex) + 1
    {
      currentQuestionIndex := currentQuestionIndex + 1;
    }

    method SkipQuestion()
      requires Valid()
      modifies this
      ensures Valid()
      ensures Snapshot() == SkipStep(old(Snapshot()))
      ensures answers == old(answers) && storage == old(storage)
    {
      if currentQuestionIndex == LastIndex() {
        surveyCompleted := true;
      } else {
        currentQuestionIndex := currentQuestionIndex + 1;
      }
    }

    /** Typing into the text question. */
    method EnterFeedback(text: string)
      requires Valid()
      modifies this
      ensures Valid()
      ensures Snapshot() == FeedbackStep(old(Snapshot()), text)
    {
      feedback := text;
      surveyCompleted := true;
    }

    /** The immediate part of confirming the submission. */
    method ConfirmSubmit()
      requires Valid()
      modifies this
      ensures Valid()
      ensures Snapshot() == ConfirmSubmitStep(old(Snapshot()))
      ensures answers == [] && storage.surveyStatus == Some(Completed)
    {
      answers := [];
      SaveAnswers();
      surveyCompleted := false;
      showThankYouScreen := true;
      storage := storage.(surveyStatus := Some(Completed));
    }

    /** The callback confirming schedules. */
    method ThankYouElapsed()
      requires Valid()
      modifies this
      ensures Valid()
      ensures Snapshot() == ThankYouTimerStep(old(Snapshot()))
      ensures storage == old(storage)
    {
      showWelcomeScreen := true;
      showThankYouScreen := false;
    }

    method Restart()
      requires Valid()
      modifies this
      ensures Valid()
      ensures Snapshot() == RestartStep(old(Snapshot()))
      ensures storage.surveyStatus == old(storage.surveyStatus)
    {
      surveyCompleted := false;
      currentQuestionIndex := 0;
      answers := [];
      SaveAnswers();
    }

    /** The callback the render guard schedules: drop the status key, then restart. */
    method GuardElapsed()
      requires Valid()
      modifies this
      ensures Valid()
      ensures Snapshot() == GuardTimerStep(old(Snapshot()))
      ensures storage.surveyStatus == None
    {
      storage := storage.(surveyStatus := None);
      Restart();
    }
  }
}

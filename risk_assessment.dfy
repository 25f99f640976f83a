/**
 * The questionnaire page: one question per step, an answer map keyed by
 * question id, and an optional question whose explanation is expanded.
 * Moving forward needs an answer to the current question; the last step
 * submits the profile to the session instead of moving on.
 */
module RiskAssessment {
  import opened Wrappers
  import opened RiskCalculator
  import opened AuthContext

  /**
   * Whether the answer map holds a truthy answer for the question: the key is
   * present and its option id is not the empty string.
   */
  predicate AnsweredIn(answers: map<int, string>, questionId: int)
  {
    questionId in answers && answers[questionId] != ""
  }

  /** Every question at a position below `step` has an answer. */
  predicate AnsweredBefore(answers: map<int, string>, step: nat)
  {
    forall i :: 0 <= i < step && i < |Questions| ==> AnsweredIn(answers, Questions[i].id)
  }

  /** Selecting a non-empty option never takes an answer away. */
  lemma SelectionKeepsAnswers(answers: map<int, string>, step: nat, questionId: int, optionId: string)
    requires AnsweredBefore(answers, step)
    requires optionId != ""
    ensures AnsweredBefore(answers[questionId := optionId], step)
  {
  }

  /** Answering the question at `step` extends the answered prefix by one. */
  lemma AnsweringExtends(answers: map<int, string>, step: nat)
    requires AnsweredBefore(answers, step)
    requires step < |Questions| && AnsweredIn(answers, Questions[step].id)
    ensures AnsweredBefore(answers, step + 1)
  {
  }

  /** The info toggle: collapse the question if it is the one shown, show it otherwise. */
  function Toggled(shown: Option<int>, questionId: int): (r: Option<int>)
    ensures r == Some(questionId) <==> shown != Some(questionId)
    ensures r != Some(questionId) ==> r == None
  {
    if shown == Some(questionId) then None else Some(questionId)
  }

  /** Toggling the same question twice restores the previous state when it was that question or none. */
  lemma ToggleTwice(shown: Option<int>, questionId: int)
    requires shown == None || shown == Some(questionId)
    ensures Toggled(Toggled(shown, questionId), questionId) == shown
  {
  }

  /** What a press of the forward or back button did. */
  datatype StepOutcome =
    | NoQuestion          // the step is outside the table: nothing happens
    | SelectionRequired   // the current question is unanswered: a notice, nothing else
    | MovedForward
    | MovedBack
    | Submitted(profile: RiskProfile)  // the profile was stored and the page moves to the dashboard
    | NavigatedBack                    // back from the first question: the page leaves the wizard

  class Wizard {
    /** Position of the question on screen in the question table. */
    var currentStep: nat
    /** Chosen option id for each question id. */
    var answers: map<int, string>
    /** The question whose explanation is expanded, if any. */
    var showInfo: Option<int>

    /** The step always points at a question of the table. */
    predicate InRange()
      reads this
    {
      currentStep < |Questions|
    }

    /** Every question before the current step has been answered. */
    predicate Progress()
      reads this
    {
      AnsweredBefore(answers, currentStep)
    }

    /** Whether the question on screen has a truthy answer. */
    predicate CurrentAnswered()
      reads this
    {
      currentStep < |Questions| && AnsweredIn(answers, Questions[currentStep].id)
    }

    /** Every question of the table has been answered. */
    predicate Complete()
      reads this
    {
      AnsweredBefore(answers, |Questions|)
    }

    constructor ()
      ensures currentStep == 0 && answers == map[] && showInfo == None
      ensures InRange() && Progress()
    {
      currentStep := 0;
      answers := map[];
      showInfo := None;
      QuestionTableShape();
    }

    /** Record the chosen option for a question; nothing else changes. */
    method SelectAnswer(questionId: int, optionId: string)
      modifies this
      ensures answers == old(answers)[questionId := optionId]
      ensures currentStep == old(currentStep) && showInfo == old(showInfo)
      ensures optionId != "" && old(Progress()) ==> Progress()
    {
      answers := answers[questionId := optionId];
      if optionId != "" && old(Progress()) {
        SelectionKeepsAnswers(old(answers), currentStep, questionId, optionId);
      }
    }

    /**
     * The forward button: blocked while the question on screen is unanswered;
     * on the last question it computes the profile and stores it on the
     * session; otherwise it moves one step on and collapses the explanation.
     */
    method NextStep(session: Session) returns (outcome: StepOutcome)
      modifies this, session
      ensures old(currentStep) >= |Questions| ==> outcome == NoQuestion
      ensures outcome == SelectionRequired <==> old(currentStep) < |Questions| && !old(CurrentAnswered())
      ensures outcome == MovedForward <==> old(CurrentAnswered()) && old(currentStep) < |Questions| - 1
      ensures outcome.Submitted? <==> old(CurrentAnswered()) && old(currentStep) == |Questions| - 1
      ensures outcome in {NoQuestion, SelectionRequired} ==> unchanged(this) && unchanged(session)
      ensures outcome == MovedForward ==>
                currentStep == old(currentStep) + 1 && showInfo == None && answers == old(answers)
                && unchanged(session)
      ensures outcome.Submitted? ==>
                unchanged(this)
                && outcome.profile == ProfileOf(answers)
                && session.isLoading == old(session.isLoading)
                && (old(session.user).None? ==> session.user == old(session.user) && session.stored == old(session.stored))
                && (old(session.user).Some? ==>
                      session.user == Some(WithRiskProfile(old(session.user).value, outcome.profile)) && session.Synced())
      ensures outcome.Submitted? && old(Progress()) ==> Complete()
      ensures old(Progress()) ==> Progress()
      ensures old(InRange()) ==> InRange()
    {
      QuestionTableShape();
      if currentStep < |Questions| {
        var currentQuestionId := Questions[currentStep].id;
        if !(currentQuestionId in answers && answers[currentQuestionId] != "") {
          return SelectionRequired;
        }
        if currentStep == |Questions| - 1 {
          var profile := HandleSubmit(session);
          outcome := Submitted(profile);
        } else {
          if Progress() {
            AnsweringExtends(answers, currentStep);
          }
          currentStep := currentStep + 1;
          showInfo := None;
          outcome := MovedForward;
        }
      } else {
        outcome := NoQuestion;
      }
    }

    /** The back button: one step back and collapse the explanation, or leave the page from the first step. */
    method PrevStep() returns (outcome: StepOutcome)
      modifies this
      ensures old(currentStep) > 0 ==>
                outcome == MovedBack && currentStep == old(currentStep) - 1 && showInfo == None
                && answers == old(answers)
      ensures old(currentStep) == 0 ==> outcome == NavigatedBack && unchanged(this)
      ensures old(Progress()) ==> Progress()
      ensures old(InRange()) ==> InRange()
    {
      if currentStep > 0 {
        currentStep := currentStep - 1;
        showInfo := None;
        outcome := MovedBack;
      } else {
        outcome := NavigatedBack;
      }
    }

    /** Compute the profile of the current answers and store it on the session. */
    method HandleSubmit(session: Session) returns (profile: RiskProfile)
      modifies session
      ensures profile == ProfileOf(answers)
      ensures session.isLoading == old(session.isLoading)
      ensures old(session.user).None? ==> session.user == old(session.user) && session.stored == old(session.stored)
      ensures old(session.user).Some? ==>
                session.user == Some(WithRiskProfile(old(session.user).value, profile)) && session.Synced()
    {
      profile := CalculateRiskProfile(answers);
      session.UpdateRiskProfile(profile);
    }

    /** Expand or collapse the explanation of a question. */
    method ToggleInfo(questionId: int)
      modifies this
      ensures showInfo == Toggled(old(showInfo), questionId)
      ensures currentStep == old(currentStep) && answers == old(answers)
    {
      if showInfo == Some(questionId) {
        showInfo := None;
      } else {
        showInfo := Some(questionId);
      }
    }
  }
}

/**
 * The home page's check-in state and its two handlers, as an object whose
 * fields the handlers update in place. Each handler is one atomic step;
 * the React scheduling of state updates is not modelled.
 */
module Home {
  import opened Wrappers
  import opened Questions
  import TimeUtils
  import opened Flow

  class CheckIn {
    var timeBasedQuestions: seq<Question>
    var currentQuestionIndex: nat
    var selectedAnswers: map<string, Value>
    var followUpQuestion: Option<Question>

    /** The page's state as a value. */
    function State(): FlowState
      reads this
    {
      FlowState(timeBasedQuestions, currentQuestionIndex, selectedAnswers, followUpQuestion)
    }

    /** The session invariant, and every question of the session offers a good option table. */
    ghost predicate Valid()
      reads this
    {
      Consistent(State()) && OptionsGood(timeBasedQuestions)
    }

    /** The page at start-up: the catalog filtered by the time of day of the given hour. */
    constructor (hour: int)
      ensures Valid()
      ensures State() == Start(Catalog, TimeUtils.TimeOfDay(hour))
    {
      CatalogStartGood(TimeUtils.TimeOfDay(hour));
      timeBasedQuestions := Filter(Catalog, TimeUtils.TimeOfDay(hour));
      currentQuestionIndex := 0;
      selectedAnswers := map[];
      followUpQuestion := None;
    }

    /** handleOptionSelect */
    method HandleOptionSelect(option: QuestionOption)
      requires Valid()
      modifies this
      ensures Valid()
      ensures State() == SelectOption(old(State()), option)
      ensures timeBasedQuestions == old(timeBasedQuestions)
      ensures currentQuestionIndex == old(currentQuestionIndex)
      ensures var q := old(CurrentQuestion(State()));
        q.Some? && option in q.value.options ==>
          Answered(State(), q.value.id) &&
          (!Triggers(q.value, option.value) ==> Continue(State()).outcome != MissingAnswer)
    {
      SelectOptionConsistent(State(), option);
      if CurrentQuestion(State()).Some? && option in CurrentQuestion(State()).value.options {
        SelectedOptionPassesValidation(State(), option);
      }
      var current := CurrentQuestion(State());
      if current.None? {
        return;
      }
      var q := current.value;
      selectedAnswers := selectedAnswers[q.id := option.value];
      if q.followUpQuestion.Some? && q.followUpQuestion.value.condition.value == option.value {
        followUpQuestion := Some(AsQuestion(q.followUpQuestion.value.question));
      }
    }

    /** handleContinue; the alerts and the console log become the returned outcome. */
    method HandleContinue() returns (outcome: Outcome)
      requires Valid()
      modifies this
      ensures Valid()
      ensures Step(State(), outcome) == Continue(old(State()))
      ensures timeBasedQuestions == old(timeBasedQuestions) && selectedAnswers == old(selectedAnswers)
      ensures old(currentQuestionIndex) <= currentQuestionIndex <= |timeBasedQuestions|
    {
      ContinueConsistent(State());
      var current := CurrentQuestion(State());
      if current.None? {
        return NoQuestion;
      }
      var q := current.value;
      if !(q.id in selectedAnswers && Truthy(selectedAnswers[q.id])) {
        return MissingAnswer;
      }
      if followUpQuestion.Some? {
        followUpQuestion := None;
        currentQuestionIndex := currentQuestionIndex + 1;
        outcome := Silent;
      } else {
        var shouldShowFollowUp := q.followUpQuestion.Some? &&
          q.followUpQuestion.value.condition.value == selectedAnswers[q.id];
        outcome := Silent;
        if !shouldShowFollowUp {
          if currentQuestionIndex < |timeBasedQuestions| - 1 {
            currentQuestionIndex := currentQuestionIndex + 1;
          } else {
            outcome := Completed(selectedAnswers);
          }
        }
      }
    }
  }

  /** A user's turn on the page: pick an option, then press Continue. */
  method AnswerWith(page: CheckIn, option: QuestionOption) returns (outcome: Outcome)
    requires page.Valid()
    modifies page
    ensures page.Valid()
    ensures Step(page.State(), outcome) == Answer(old(page.State()), option)
  {
    page.HandleOptionSelect(option);
    outcome := page.HandleContinue();
  }

  /** Sleep quality 4, 8 hours and energy 3 on a fresh morning page lead to its last question. */
  method AnswerFirstThreeMorning(page: CheckIn)
    requires page.Valid() && page.State() == FlowState(MorningQuestions, 0, map[], None)
    modifies page
    ensures page.Valid() && page.State() == FlowState(MorningQuestions, 3, FirstThreeMorningAnswers, None)
  {
    var outcome;
    MorningSleepQuality();
    outcome := AnswerWith(page, SleepQualityOptions[3]);
    assert page.State() == FlowState(MorningQuestions, 1, map["sleep_quality" := Num(4)], None);
    MorningHoursSleep();
    outcome := AnswerWith(page, HoursOptions[3]);
    assert page.State() == FlowState(MorningQuestions, 2, map["sleep_quality" := Num(4), "hours_sleep" := Num(8)], None);
    MorningEnergyLevel();
    outcome := AnswerWith(page, EnergyOptions[2]);
  }

  /**
   * A morning check-in at 8 o'clock answered 4, 8, 3 and 5: no follow-up
   * appears and the last Continue completes with exactly the four answers.
   */
  method MorningCheckIn() returns (outcome: Outcome)
    ensures outcome == Completed(FirstThreeMorningAnswers["morning_mood" := Num(5)])
  {
    MorningStart();
    var page := new CheckIn(8);
    AnswerFirstThreeMorning(page);
    MorningWithoutFollowUp();
    outcome := AnswerWith(page, MoodOptions[4]);
  }

  /**
   * The same check-in with mood 3: the stress follow-up appears, and after
   * "balanced" the last Continue moves past the end without reporting
   * completion, holding five answers.
   */
  method MorningCheckInWithFollowUp() returns (outcome: Outcome, answers: map<string, Value>, current: Option<Question>)
    ensures outcome == Silent && current == None
    ensures answers == FiveMorningAnswers && |answers| == 5
  {
    MorningStart();
    var page := new CheckIn(8);
    AnswerFirstThreeMorning(page);
    MorningMoodNeutral();
    page.HandleOptionSelect(MoodOptions[2]);
    MorningWithFollowUp();
    MorningPastTheEnd();
    outcome := AnswerWith(page, StressOptions[2]);
    answers := page.selectedAnswers;
    current := CurrentQuestion(page.State());
  }
}

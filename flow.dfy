/**
 * The check-in question flow of the home page, as values: the questions of
 * the session's time of day, the position in them, the answers recorded so
 * far and the follow-up question being shown, if any. Each handler of the
 * page is one transition of this state; the page class in module Home is
 * proved to perform exactly these transitions.
 */
module Flow {
  import opened Wrappers
  import opened Questions
  import TimeUtils

  /** The state of one check-in session. */
  datatype FlowState = FlowState(
    timeBasedQuestions: seq<Question>,
    currentQuestionIndex: nat,
    selectedAnswers: map<string, Value>,
    followUpQuestion: Option<Question>)

  /** What a press of Continue reports besides the new state. */
  datatype Outcome =
    | NoQuestion                                   // nothing is shown; the handler returns at once
    | MissingAnswer                                // "Please select an option to continue"
    | Silent                                       // the state moved on, or stayed, without a message
    | Completed(answers: map<string, Value>)       // "Thank you for completing the check-in!"

  datatype Step = Step(state: FlowState, outcome: Outcome)

  // ---------------------------------------------------------------------
  // Start: the questions of the time of day

  /** The catalog questions tagged with the given time of day, in catalog order. */
  function Filter(catalog: seq<Question>, timeOfDay: string): (r: seq<Question>)
    ensures |r| <= |catalog|
    ensures forall q :: q in r <==> q in catalog && q.timeOfDay == timeOfDay
  {
    if catalog == [] then []
    else if catalog[0].timeOfDay == timeOfDay then [catalog[0]] + Filter(catalog[1..], timeOfDay)
    else Filter(catalog[1..], timeOfDay)
  }

  /** Filtering a concatenation filters each part: the kept questions stay in catalog order. */
  lemma {:induction false} FilterAppend(a: seq<Question>, b: seq<Question>, timeOfDay: string)
    ensures Filter(a + b, timeOfDay) == Filter(a, timeOfDay) + Filter(b, timeOfDay)
  {
    if a == [] {
      assert a + b == b;
    } else {
      assert (a + b)[0] == a[0] && (a + b)[1..] == a[1..] + b;
      FilterAppend(a[1..], b, timeOfDay);
    }
  }

  /** A list whose questions all have the time of day is kept whole; one where none has it, dropped whole. */
  lemma {:induction false} FilterAllOrNothing(qs: seq<Question>, timeOfDay: string)
    ensures (forall q | q in qs :: q.timeOfDay == timeOfDay) ==> Filter(qs, timeOfDay) == qs
    ensures (forall q | q in qs :: q.timeOfDay != timeOfDay) ==> Filter(qs, timeOfDay) == []
  {
    if qs != [] {
      FilterAllOrNothing(qs[1..], timeOfDay);
      assert qs == [qs[0]] + qs[1..];
    }
  }

  lemma IdsDistinctTail(qs: seq<Question>)
    requires IdsDistinct(qs) && qs != []
    ensures IdsDistinct(qs[1..])
    ensures forall q | q in qs[1..] :: Ids(qs[0]) !! Ids(q)
  {
    var rest := qs[1..];
    forall i, j | 0 <= i < j < |rest| ensures Ids(rest[i]) !! Ids(rest[j]) {
      assert rest[i] == qs[i + 1] && rest[j] == qs[j + 1];
    }
    forall i | 0 <= i < |rest| && rest[i].followUpQuestion.Some?
      ensures rest[i].followUpQuestion.value.question.id != rest[i].id
    {
      assert rest[i] == qs[i + 1];
    }
    forall q | q in rest ensures Ids(qs[0]) !! Ids(q) {
      var k :| 0 <= k < |rest| && rest[k] == q;
      assert qs[k + 1] == q;
    }
  }

  lemma IdsDistinctCons(q: Question, rest: seq<Question>)
    requires IdsDistinct(rest) && IdsDistinct([q])
    requires forall p | p in rest :: Ids(q) !! Ids(p)
    ensures IdsDistinct([q] + rest)
  {
    var r := [q] + rest;
    forall i, j | 0 <= i < j < |r| ensures Ids(r[i]) !! Ids(r[j]) {
      assert r[j] == rest[j - 1];
      if i > 0 {
        assert r[i] == rest[i - 1];
      }
    }
  }

  /** Filtering keeps the ids of the kept questions pairwise distinct. */
  lemma {:induction false} FilterKeepsIdsDistinct(catalog: seq<Question>, timeOfDay: string)
    requires IdsDistinct(catalog)
    ensures IdsDistinct(Filter(catalog, timeOfDay))
  {
    if catalog != [] {
      IdsDistinctTail(catalog);
      FilterKeepsIdsDistinct(catalog[1..], timeOfDay);
      if catalog[0].timeOfDay == timeOfDay {
        IdsDistinctCons(catalog[0], Filter(catalog[1..], timeOfDay));
      }
    }
  }

  /** The filtered questions of a well-formed catalog are well formed. */
  lemma FilterKeepsWellFormed(catalog: seq<Question>, timeOfDay: string)
    requires WellFormed(catalog)
    ensures WellFormed(Filter(catalog, timeOfDay))
  {
    FilterKeepsIdsDistinct(catalog, timeOfDay);
  }

  /** A new session: the questions of the time of day, the first one current, no answers. */
  function Start(catalog: seq<Question>, timeOfDay: string): (s: FlowState)
    ensures s.timeBasedQuestions == Filter(catalog, timeOfDay)
    ensures s.currentQuestionIndex == 0 && s.selectedAnswers == map[] && s.followUpQuestion == None
  {
    FlowState(Filter(catalog, timeOfDay), 0, map[], None)
  }

  // ---------------------------------------------------------------------
  // The question on screen, progress and the button label

  /** The follow-up if one is active, else the question at the index, else nothing. */
  function CurrentQuestion(s: FlowState): (r: Option<Question>)
    ensures r.None? <==> s.followUpQuestion.None? && s.currentQuestionIndex >= |s.timeBasedQuestions|
  {
    if s.followUpQuestion.Some? then s.followUpQuestion
    else if s.currentQuestionIndex < |s.timeBasedQuestions| then Some(s.timeBasedQuestions[s.currentQuestionIndex])
    else None
  }

  /** The progress percentage, counted over the main questions only. */
  function Progress(s: FlowState): (p: real)
    ensures |s.timeBasedQuestions| == 0 ==> p == 0.0
    ensures s.currentQuestionIndex < |s.timeBasedQuestions| ==> 0.0 < p <= 100.0
    ensures |s.timeBasedQuestions| > 0 ==> (p == 100.0 <==> s.currentQuestionIndex == |s.timeBasedQuestions| - 1)
  {
    var n := |s.timeBasedQuestions|;
    if n > 0 then
      var p := (s.currentQuestionIndex + 1) as real / n as real * 100.0;
      assert p * n as real == (s.currentQuestionIndex + 1) as real * 100.0;
      p
    else 0.0
  }

  /** The label of the button: "Finish" on the last main question without a follow-up. */
  function ButtonLabel(s: FlowState): (r: string)
    ensures r in {"Finish", "Continue"}
    ensures r == "Finish" <==> s.currentQuestionIndex + 1 == |s.timeBasedQuestions| && s.followUpQuestion.None?
  {
    if s.currentQuestionIndex == |s.timeBasedQuestions| - 1 && s.followUpQuestion.None? then "Finish"
    else "Continue"
  }

  // ---------------------------------------------------------------------
  // The two handlers

  /** A follow-up is shown when its trigger value is strictly equal to the value; the id it names is not looked at. */
  predicate Triggers(q: Question, v: Value) {
    q.followUpQuestion.Some? && q.followUpQuestion.value.condition.value == v
  }

  /** The answer recorded for `id` is present and truthy. */
  predicate Answered(s: FlowState, id: string) {
    id in s.selectedAnswers && Truthy(s.selectedAnswers[id])
  }

  /** handleOptionSelect: record the value under the current question's id, and show its follow-up if triggered. */
  function SelectOption(s: FlowState, option: QuestionOption): (r: FlowState)
    ensures r.timeBasedQuestions == s.timeBasedQuestions
    ensures r.currentQuestionIndex == s.currentQuestionIndex
    ensures CurrentQuestion(s).None? ==> r == s
    ensures CurrentQuestion(s).Some? ==>
      var q := CurrentQuestion(s).value;
      r.selectedAnswers.Keys == s.selectedAnswers.Keys + {q.id} &&
      r.selectedAnswers[q.id] == option.value &&
      (forall k | k in s.selectedAnswers && k != q.id :: r.selectedAnswers[k] == s.selectedAnswers[k]) &&
      (Triggers(q, option.value) ==> r.followUpQuestion == Some(AsQuestion(q.followUpQuestion.value.question))) &&
      (!Triggers(q, option.value) ==> r.followUpQuestion == s.followUpQuestion)
  {
    match CurrentQuestion(s)
    case None => s
    case Some(q) =>
      var answers := s.selectedAnswers[q.id := option.value];
      if Triggers(q, option.value) then
        s.(selectedAnswers := answers, followUpQuestion := Some(AsQuestion(q.followUpQuestion.value.question)))
      else
        s.(selectedAnswers := answers)
  }

  /** handleContinue: validate the answer, then leave the follow-up, stay, advance or report completion. */
  function Continue(s: FlowState): (r: Step)
    ensures r.state.timeBasedQuestions == s.timeBasedQuestions
    ensures r.state.selectedAnswers == s.selectedAnswers
    ensures s.currentQuestionIndex <= r.state.currentQuestionIndex <= s.currentQuestionIndex + 1
    ensures r.outcome == NoQuestion <==> CurrentQuestion(s).None?
    ensures r.outcome == MissingAnswer <==> CurrentQuestion(s).Some? && !Answered(s, CurrentQuestion(s).value.id)
    ensures r.outcome in {NoQuestion, MissingAnswer} ==> r.state == s
    ensures r.outcome.Completed? ==>
      r.state == s && r.outcome.answers == s.selectedAnswers &&
      s.followUpQuestion.None? && s.currentQuestionIndex >= |s.timeBasedQuestions| - 1
    ensures CurrentQuestion(s).Some? && Answered(s, CurrentQuestion(s).value.id) ==>
      var q, i, n := CurrentQuestion(s).value, s.currentQuestionIndex, |s.timeBasedQuestions|;
      // leaving a follow-up: clear it and step the index, with no bound check
      (s.followUpQuestion.Some? ==> r == Step(s.(followUpQuestion := None, currentQuestionIndex := i + 1), Silent)) &&
      // an answer that triggers the follow-up keeps the state
      (s.followUpQuestion.None? && Triggers(q, s.selectedAnswers[q.id]) ==> r == Step(s, Silent)) &&
      (s.followUpQuestion.None? && !Triggers(q, s.selectedAnswers[q.id]) ==>
        (i < n - 1 ==> r == Step(s.(currentQuestionIndex := i + 1), Silent)) &&
        (i >= n - 1 ==> r == Step(s, Completed(s.selectedAnswers))))
  {
    match CurrentQuestion(s)
    case None => Step(s, NoQuestion)
    case Some(q) =>
      if !Answered(s, q.id) then Step(s, MissingAnswer)
      else if s.followUpQuestion.Some? then
        Step(s.(followUpQuestion := None, currentQuestionIndex := s.currentQuestionIndex + 1), Silent)
      else if Triggers(q, s.selectedAnswers[q.id]) then Step(s, Silent)
      else if s.currentQuestionIndex < |s.timeBasedQuestions| - 1 then
        Step(s.(currentQuestionIndex := s.currentQuestionIndex + 1), Silent)
      else Step(s, Completed(s.selectedAnswers))
  }

  // ---------------------------------------------------------------------
  // The invariant of a session

  /** The follow-up of the question at the index, as the page shows it. */
  function FollowUpOf(q: Question): (r: Option<Question>)
    ensures r.Some? <==> q.followUpQuestion.Some?
    ensures r.Some? ==> r.value.followUpQuestion == None
  {
    match q.followUpQuestion
    case None => None
    case Some(f) => Some(AsQuestion(f.question))
  }

  /**
   * What holds in every state a session reaches from Start through the two
   * handlers: the index never passes the end, an active follow-up is the
   * follow-up of the question at the index, no later question has an answer
   * yet, and an answer that would trigger a follow-up never sits on the
   * current question without that follow-up being shown.
   */
  ghost predicate Consistent(s: FlowState) {
    var qs, i := s.timeBasedQuestions, s.currentQuestionIndex;
    IdsDistinct(qs) &&
    i <= |qs| &&
    (s.followUpQuestion.Some? ==> i < |qs| && s.followUpQuestion == FollowUpOf(qs[i])) &&
    (forall j | i < j < |qs| :: Ids(qs[j]) !! s.selectedAnswers.Keys) &&
    (s.followUpQuestion.None? && i < |qs| && qs[i].id in s.selectedAnswers ==>
      !Triggers(qs[i], s.selectedAnswers[qs[i].id]))
  }

  /** A session started on a catalog with distinct ids is consistent. */
  lemma StartConsistent(catalog: seq<Question>, timeOfDay: string)
    requires IdsDistinct(catalog)
    ensures Consistent(Start(catalog, timeOfDay))
  {
    FilterKeepsIdsDistinct(catalog, timeOfDay);
  }

  /** Selecting an option keeps a session consistent. */
  lemma SelectOptionConsistent(s: FlowState, option: QuestionOption)
    requires Consistent(s)
    ensures Consistent(SelectOption(s, option))
  {
    var qs, i := s.timeBasedQuestions, s.currentQuestionIndex;
    var r := SelectOption(s, option);
    if CurrentQuestion(s).Some? {
      var q := CurrentQuestion(s).value;
      assert q.id in Ids(qs[i]);
      forall j | i < j < |qs| ensures Ids(qs[j]) !! r.selectedAnswers.Keys {
        assert Ids(qs[i]) !! Ids(qs[j]);
      }
    }
  }

  /** Pressing Continue keeps a session consistent. */
  lemma ContinueConsistent(s: FlowState)
    requires Consistent(s)
    ensures Consistent(Continue(s).state)
  {
    var qs, i := s.timeBasedQuestions, s.currentQuestionIndex;
    var r := Continue(s).state;
    if r.currentQuestionIndex == i + 1 && i + 1 < |qs| {
      assert qs[i + 1].id in Ids(qs[i + 1]);
    }
  }

  /**
   * The current question is the question at the index or, while it is
   * shown, that question's follow-up; a follow-up never has one of its own.
   */
  lemma CurrentIsIndexedOrItsFollowUp(s: FlowState)
    requires Consistent(s) && CurrentQuestion(s).Some?
    ensures s.currentQuestionIndex < |s.timeBasedQuestions|
    ensures var q, main := CurrentQuestion(s).value, s.timeBasedQuestions[s.currentQuestionIndex];
      q == main || (Some(q) == FollowUpOf(main) && q.followUpQuestion == None)
  {
  }

  /** Whether a follow-up triggers does not depend on the question id its condition names. */
  lemma TriggerIgnoresQuestionId(q: Question, v: Value, otherId: string)
    requires q.followUpQuestion.Some?
    ensures var f := q.followUpQuestion.value;
      var q' := q.(followUpQuestion := Some(f.(condition := f.condition.(questionId := otherId))));
      Triggers(q', v) == Triggers(q, v) && FollowUpOf(q') == FollowUpOf(q)
  {
  }

  /** While a follow-up is shown, no option selects a further follow-up. */
  lemma FollowUpNeverNests(s: FlowState, option: QuestionOption)
    requires Consistent(s) && s.followUpQuestion.Some?
    ensures SelectOption(s, option).followUpQuestion == s.followUpQuestion
  {
  }

  /**
   * The branch of Continue that keeps the state because the recorded
   * answer would trigger a follow-up is never taken in a consistent
   * session: an answered question is always left or completed.
   */
  lemma ContinueNeverStalls(s: FlowState)
    requires Consistent(s)
    requires CurrentQuestion(s).Some? && Answered(s, CurrentQuestion(s).value.id)
    ensures Continue(s).outcome.Completed? || Continue(s).state.currentQuestionIndex == s.currentQuestionIndex + 1
  {
  }

  /**
   * Continue on the follow-up of the last question moves past the end: no
   * question is current afterwards and no completion is ever reported.
   */
  lemma FollowUpOfLastQuestionNeverCompletes(s: FlowState, option: QuestionOption)
    requires Consistent(s) && s.followUpQuestion.Some?
    requires s.currentQuestionIndex == |s.timeBasedQuestions| - 1
    requires Answered(s, s.followUpQuestion.value.id)
    ensures var r := Continue(s);
      r.outcome == Silent && r.state.currentQuestionIndex == |s.timeBasedQuestions| &&
      CurrentQuestion(r.state) == None && Continue(r.state) == Step(r.state, NoQuestion) &&
      SelectOption(r.state, option) == r.state
  {
  }

  /**
   * Continue as the check-in is meant to end: on the answered follow-up of
   * the last question it reports completion with the recorded answers and
   * keeps the state, as completion on a main question does; everywhere
   * else it is Continue.
   */
  function ContinueIntended(s: FlowState): (r: Step)
    ensures r.state.timeBasedQuestions == s.timeBasedQuestions
    ensures r.state.selectedAnswers == s.selectedAnswers
    ensures r.outcome.Completed? ==> r.state == s && r.outcome.answers == s.selectedAnswers
  {
    if s.followUpQuestion.Some? && Answered(s, s.followUpQuestion.value.id) &&
       s.currentQuestionIndex + 1 >= |s.timeBasedQuestions|
    then Step(s, Completed(s.selectedAnswers))
    else Continue(s)
  }

  /**
   * With the intended Continue an answered question is always either left
   * for another question of the session or completed: the index never
   * leaves the session, and the follow-up of the last question completes.
   */
  lemma ContinueIntendedStaysInSession(s: FlowState)
    requires Consistent(s)
    requires CurrentQuestion(s).Some? && Answered(s, CurrentQuestion(s).value.id)
    ensures var r := ContinueIntended(s);
      r.outcome.Completed? || (r.state.currentQuestionIndex < |s.timeBasedQuestions| && CurrentQuestion(r.state).Some?)
    ensures s.followUpQuestion.Some? && s.currentQuestionIndex == |s.timeBasedQuestions| - 1 ==>
      ContinueIntended(s).outcome == Completed(s.selectedAnswers)
  {
    ContinueNeverStalls(s);
  }

  /** A session whose time of day has no questions has nothing to show from the start. */
  lemma EmptyStartShowsNothing(catalog: seq<Question>, timeOfDay: string, option: QuestionOption)
    requires forall q | q in catalog :: q.timeOfDay != timeOfDay
    ensures var s := Start(catalog, timeOfDay);
      CurrentQuestion(s) == None && SelectOption(s, option) == s && Continue(s) == Step(s, NoQuestion)
  {
    FilterAllOrNothing(catalog, timeOfDay);
  }

  /**
   * Picking one of the current question's options, from tables without
   * falsy values, records an answer that the truthiness test accepts; unless
   * it brings up a follow-up, Continue then passes validation.
   */
  lemma SelectedOptionPassesValidation(s: FlowState, option: QuestionOption)
    requires Consistent(s) && OptionsGood(s.timeBasedQuestions)
    requires CurrentQuestion(s).Some? && option in CurrentQuestion(s).value.options
    ensures Answered(SelectOption(s, option), CurrentQuestion(s).value.id)
    ensures !Triggers(CurrentQuestion(s).value, option.value) ==>
      Continue(SelectOption(s, option)).outcome != MissingAnswer
  {
    var q := CurrentQuestion(s).value;
    var main := s.timeBasedQuestions[s.currentQuestionIndex];
    assert main in s.timeBasedQuestions;
    NoFalsyMeansTruthy(q.options, option);
  }

  /** Progress never decreases on Continue, and follow-ups do not change it. */
  lemma ProgressMonotone(s: FlowState, f: Option<Question>)
    ensures Progress(Continue(s).state) >= Progress(s)
    ensures Progress(s.(followUpQuestion := f)) == Progress(s)
  {
  }

  /**
   * The button reads "Finish" exactly when Continue, once the answer is
   * given, reports completion.
   */
  lemma FinishMeansCompletion(s: FlowState)
    requires Consistent(s)
    requires CurrentQuestion(s).Some? && Answered(s, CurrentQuestion(s).value.id)
    ensures ButtonLabel(s) == "Finish" <==> Continue(s).outcome.Completed?
  {
  }

  // ---------------------------------------------------------------------
  // The sessions of the catalog

  lemma {:induction false} FilterMorning(timeOfDay: string)
    ensures Filter(MorningQuestions, timeOfDay) == if timeOfDay == "morning" then MorningQuestions else []
  {
    FilterAllOrNothing(MorningQuestions, timeOfDay);
  }

  lemma {:induction false} FilterAfternoon(timeOfDay: string)
    ensures Filter(AfternoonQuestions, timeOfDay) == if timeOfDay == "afternoon" then AfternoonQuestions else []
  {
    FilterAllOrNothing(AfternoonQuestions, timeOfDay);
  }

  lemma {:induction false} FilterEvening(timeOfDay: string)
    ensures Filter(EveningQuestions, timeOfDay) == if timeOfDay == "evening" then EveningQuestions else []
  {
    FilterAllOrNothing(EveningQuestions, timeOfDay);
  }

  /**
   * The session of each time of day, in catalog order: four morning
   * questions ending with morning_mood, two afternoon, five evening, and
   * none at night or for any other string.
   */
  lemma {:induction false} CatalogSession(timeOfDay: string)
    ensures Filter(Catalog, timeOfDay) ==
      if timeOfDay == "morning" then MorningQuestions
      else if timeOfDay == "afternoon" then AfternoonQuestions
      else if timeOfDay == "evening" then EveningQuestions
      else []
  {
    FilterAppend(MorningQuestions + AfternoonQuestions, EveningQuestions, timeOfDay);
    FilterAppend(MorningQuestions, AfternoonQuestions, timeOfDay);
    FilterMorning(timeOfDay);
    FilterAfternoon(timeOfDay);
    FilterEvening(timeOfDay);
  }

  /** Per time of day the catalog holds 4, 2, 5 and 0 questions; a night session shows no question. */
  lemma CatalogSessionSizes()
    ensures |Filter(Catalog, "morning")| == 4 && |Filter(Catalog, "afternoon")| == 2
    ensures |Filter(Catalog, "evening")| == 5 && Filter(Catalog, "night") == []
    ensures CurrentQuestion(Start(Catalog, "night")) == None
  {
    CatalogSession("morning");
    CatalogSession("afternoon");
    CatalogSession("evening");
    CatalogSession("night");
  }

  /** A session started on the catalog is consistent, and every question it asks offers a good option table. */
  lemma CatalogStartGood(timeOfDay: string)
    ensures Consistent(Start(Catalog, timeOfDay))
    ensures OptionsGood(Start(Catalog, timeOfDay).timeBasedQuestions)
  {
    CatalogWellFormed();
    FilterKeepsWellFormed(Catalog, timeOfDay);
    StartConsistent(Catalog, timeOfDay);
  }

  // ---------------------------------------------------------------------
  // Two morning check-ins

  /** What a user does on each question: pick an option, then press Continue. */
  function Answer(s: FlowState, option: QuestionOption): Step {
    Continue(SelectOption(s, option))
  }

  const FirstThreeMorningAnswers: map<string, Value> :=
    map["sleep_quality" := Num(4), "hours_sleep" := Num(8), "morning_energy" := Num(3)]

  /** A morning session starts on sleep_quality, the first of its four questions. */
  lemma MorningStart()
    ensures Start(Catalog, "morning") == FlowState(MorningQuestions, 0, map[], None)
  {
    CatalogSession("morning");
  }

  lemma MorningSleepQuality()
    ensures Answer(FlowState(MorningQuestions, 0, map[], None), SleepQualityOptions[3]) ==
      Step(FlowState(MorningQuestions, 1, map["sleep_quality" := Num(4)], None), Silent)
  {
  }

  lemma MorningHoursSleep()
    ensures Answer(FlowState(MorningQuestions, 1, map["sleep_quality" := Num(4)], None), HoursOptions[3]) ==
      Step(FlowState(MorningQuestions, 2, map["sleep_quality" := Num(4), "hours_sleep" := Num(8)], None), Silent)
  {
  }

  lemma MorningEnergyLevel()
    ensures Answer(FlowState(MorningQuestions, 2, map["sleep_quality" := Num(4), "hours_sleep" := Num(8)], None),
      EnergyOptions[2]) == Step(FlowState(MorningQuestions, 3, FirstThreeMorningAnswers, None), Silent)
  {
  }

  /** Sleep quality 4, 8 hours of sleep and energy 3 bring a morning session to its last question. */
  lemma MorningFirstThree()
    ensures var s1 := Answer(Start(Catalog, "morning"), SleepQualityOptions[3]);
      var s2 := Answer(s1.state, HoursOptions[3]);
      var s3 := Answer(s2.state, EnergyOptions[2]);
      s1.outcome == s2.outcome == s3.outcome == Silent &&
      s3.state == FlowState(MorningQuestions, 3, FirstThreeMorningAnswers, None)
  {
    MorningStart();
    MorningSleepQuality();
    MorningHoursSleep();
    MorningEnergyLevel();
  }

  /** Mood 5 on the last morning question shows no follow-up, and Continue completes with the four answers. */
  lemma MorningWithoutFollowUp()
    ensures var s3 := FlowState(MorningQuestions, 3, FirstThreeMorningAnswers, None);
      var s4 := SelectOption(s3, MoodOptions[4]);
      s4.followUpQuestion == None && ButtonLabel(s4) == "Finish" &&
      Continue(s4).outcome == Completed(FirstThreeMorningAnswers["morning_mood" := Num(5)]) &&
      |Continue(s4).outcome.answers| == 4
  {
  }

  const FiveMorningAnswers: map<string, Value> :=
    FirstThreeMorningAnswers["morning_mood" := Num(3)]["morning_stress" := Str("balanced")]

  /** Mood 3 on the last morning question shows the stress follow-up, and the button reads "Continue". */
  lemma MorningMoodNeutral()
    ensures var s4 := SelectOption(FlowState(MorningQuestions, 3, FirstThreeMorningAnswers, None), MoodOptions[2]);
      s4 == FlowState(MorningQuestions, 3, FirstThreeMorningAnswers["morning_mood" := Num(3)], FollowUpOf(MorningMood)) &&
      CurrentQuestion(s4) == FollowUpOf(MorningMood) && ButtonLabel(s4) == "Continue"
  {
  }

  /**
   * After "balanced" on the follow-up, Continue leaves the follow-up and
   * moves the index past the last question, holding five answers.
   */
  lemma MorningWithFollowUp()
    ensures Answer(FlowState(MorningQuestions, 3, FirstThreeMorningAnswers["morning_mood" := Num(3)], FollowUpOf(MorningMood)),
      StressOptions[2]) == Step(FlowState(MorningQuestions, 4, FiveMorningAnswers, None), Silent)
    ensures |FiveMorningAnswers| == 5
  {
  }

  /** Past the last question nothing is current, and Continue reports no completion. */
  lemma MorningPastTheEnd()
    ensures CurrentQuestion(FlowState(MorningQuestions, 4, FiveMorningAnswers, None)) == None
    ensures Continue(FlowState(MorningQuestions, 4, FiveMorningAnswers, None)).outcome == NoQuestion
  {
  }
}

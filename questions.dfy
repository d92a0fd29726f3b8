/**
 * The question catalog: the option and question types, the option tables
 * and the constant list of questions, with the well-formedness facts the
 * check-in flow relies on.
 */
module Questions {
  import opened Wrappers
  import TimeUtils

  /** An option's value, `number | string`. */
  datatype Value = Num(n: int) | Str(s: string)

  /** The rendering hint of a question; it carries no flow logic. */
  datatype Kind = Mood | Scale | Number | YesNo

  /** The glyph an option is drawn with. */
  datatype Icon = Drained | Low | Neutral | Positive | Energised

  /** An option; its display label is not modelled. */
  datatype QuestionOption = QuestionOption(icon: Icon, value: Value)

  /**
   * A follow-up question: a question without the `followUpQuestion` field,
   * so that a follow-up can never carry a follow-up of its own.
   */
  datatype FollowUpQuestion =
    FollowUpQuestion(id: string, timeOfDay: string, kind: Kind, options: seq<QuestionOption>)

  /** The trigger of a follow-up: the question it belongs to and the value that shows it. */
  datatype Condition = Condition(questionId: string, value: Value)

  datatype FollowUp = FollowUp(condition: Condition, question: FollowUpQuestion)

  datatype Question = Question(
    id: string,
    timeOfDay: string,
    kind: Kind,
    options: seq<QuestionOption>,
    followUpQuestion: Option<FollowUp>)

  /** JavaScript truthiness of an option value: 0 and "" are falsy. */
  predicate Truthy(v: Value) {
    match v
    case Num(n) => n != 0
    case Str(s) => s != ""
  }

  /**
   * A follow-up question where a question is expected: every field is
   * kept, and reading its `followUpQuestion` gives nothing.
   */
  function AsQuestion(f: FollowUpQuestion): (q: Question)
    ensures q.followUpQuestion == None
    ensures q.id == f.id && q.timeOfDay == f.timeOfDay && q.options == f.options
  {
    Question(f.id, f.timeOfDay, f.kind, f.options, None)
  }

  // ---------------------------------------------------------------------
  // Option tables

  const MoodOptions: seq<QuestionOption> := [
    QuestionOption(Drained, Num(1)),
    QuestionOption(Low, Num(2)),
    QuestionOption(Neutral, Num(3)),
    QuestionOption(Positive, Num(4)),
    QuestionOption(Energised, Num(5))
  ]

  const SleepQualityOptions: seq<QuestionOption> := [
    QuestionOption(Drained, Num(1)),
    QuestionOption(Low, Num(2)),
    QuestionOption(Neutral, Num(3)),
    QuestionOption(Positive, Num(4)),
    QuestionOption(Energised, Num(5))
  ]

  const HoursOptions: seq<QuestionOption> := [
    QuestionOption(Drained, Num(4)),
    QuestionOption(Low, Num(6)),
    QuestionOption(Neutral, Num(7)),
    QuestionOption(Positive, Num(8)),
    QuestionOption(Energised, Num(9))
  ]

  const EnergyOptions: seq<QuestionOption> := [
    QuestionOption(Drained, Num(1)),
    QuestionOption(Low, Num(2)),
    QuestionOption(Neutral, Num(3)),
    QuestionOption(Positive, Num(4)),
    QuestionOption(Energised, Num(5))
  ]

  const StressOptions: seq<QuestionOption> := [
    QuestionOption(Energised, Str("very_relaxed")),
    QuestionOption(Positive, Str("relaxed")),
    QuestionOption(Neutral, Str("balanced")),
    QuestionOption(Low, Str("stressed")),
    QuestionOption(Drained, Str("very_stressed"))
  ]

  const ProductivityOptions: seq<QuestionOption> := [
    QuestionOption(Drained, Num(1)),
    QuestionOption(Low, Num(2)),
    QuestionOption(Neutral, Num(3)),
    QuestionOption(Positive, Num(4)),
    QuestionOption(Energised, Num(5))
  ]

  const SatisfactionOptions: seq<QuestionOption> := [
    QuestionOption(Drained, Num(1)),
    QuestionOption(Low, Num(2)),
    QuestionOption(Neutral, Num(3)),
    QuestionOption(Positive, Num(4)),
    QuestionOption(Energised, Num(5))
  ]

  const YesNoOptions: seq<QuestionOption> := [
    QuestionOption(Energised, Str("yes")),
    QuestionOption(Drained, Str("no"))
  ]

  const BreakCountOptions: seq<QuestionOption> := [
    QuestionOption(Drained, Num(2)),
    QuestionOption(Low, Num(4)),
    QuestionOption(Neutral, Num(6)),
    QuestionOption(Positive, Num(8)),
    QuestionOption(Energised, Num(9))
  ]

  const BalanceOptions: seq<QuestionOption> := [
    QuestionOption(Drained, Num(1)),
    QuestionOption(Low, Num(2)),
    QuestionOption(Neutral, Num(3)),
    QuestionOption(Positive, Num(4)),
    QuestionOption(Energised, Num(5))
  ]

  /** All option tables, in declaration order. */
  const OptionTables: seq<seq<QuestionOption>> := [
    MoodOptions, SleepQualityOptions, HoursOptions, EnergyOptions, StressOptions,
    ProductivityOptions, SatisfactionOptions, YesNoOptions, BreakCountOptions, BalanceOptions
  ]

  // ---------------------------------------------------------------------
  // The catalog

  /** The "relaxed or stressed?" follow-up, shown when `parentId` is answered Neutral (3). */
  function StressFollowUp(parentId: string, id: string, timeOfDay: string): FollowUp {
    FollowUp(Condition(parentId, Num(3)),
      FollowUpQuestion(id, timeOfDay, Mood, StressOptions))
  }

  const SleepQuality :=
    Question("sleep_quality", "morning", Scale, SleepQualityOptions, None)
  const HoursSleep :=
    Question("hours_sleep", "morning", Number, HoursOptions, None)
  const MorningEnergy :=
    Question("morning_energy", "morning", Scale, EnergyOptions, None)
  const MorningMood :=
    Question("morning_mood", "morning", Mood, MoodOptions,
      Some(StressFollowUp("morning_mood", "morning_stress", "morning")))
  const AfternoonMood :=
    Question("afternoon_mood", "afternoon", Mood, MoodOptions,
      Some(StressFollowUp("afternoon_mood", "afternoon_stress", "afternoon")))
  const Productivity :=
    Question("productivity", "afternoon", Scale, ProductivityOptions, None)
  const EveningMood :=
    Question("evening_mood", "evening", Mood, MoodOptions,
      Some(StressFollowUp("evening_mood", "evening_stress", "evening")))
  const Satisfaction :=
    Question("satisfaction", "evening", Scale, SatisfactionOptions, None)
  const BreaksTaken :=
    Question("breaks_taken", "evening", YesNo, YesNoOptions,
      Some(FollowUp(Condition("breaks_taken", Str("yes")),
        FollowUpQuestion("break_count", "evening", Number, BreakCountOptions))))
  const LeisureMinutes :=
    Question("leisure_minutes", "evening", YesNo, YesNoOptions, None)
  const OverallBalance :=
    Question("overall_balance", "evening", Scale, BalanceOptions, None)

  const MorningQuestions: seq<Question> := [SleepQuality, HoursSleep, MorningEnergy, MorningMood]
  const AfternoonQuestions: seq<Question> := [AfternoonMood, Productivity]
  const EveningQuestions: seq<Question> := [EveningMood, Satisfaction, BreaksTaken, LeisureMinutes, OverallBalance]

  /** The `questions` list: four morning, two afternoon and five evening questions, none at night. */
  const Catalog: seq<Question> := MorningQuestions + AfternoonQuestions + EveningQuestions

  // ---------------------------------------------------------------------
  // Well-formedness

  /** The ids a question claims: its own and that of its follow-up, if any. */
  function Ids(q: Question): (r: set<string>)
    ensures q.id in r
    ensures q.followUpQuestion.Some? ==> q.followUpQuestion.value.question.id in r
    ensures |r| <= 2
  {
    match q.followUpQuestion
    case None => {q.id}
    case Some(f) => {q.id, f.question.id}
  }

  /** No id is used twice, among main questions and follow-ups alike. */
  ghost predicate IdsDistinct(qs: seq<Question>) {
    (forall i :: 0 <= i < |qs| && qs[i].followUpQuestion.Some? ==>
      qs[i].followUpQuestion.value.question.id != qs[i].id) &&
    (forall i, j :: 0 <= i < j < |qs| ==> Ids(qs[i]) !! Ids(qs[j]))
  }

  /** Every follow-up names its parent and is triggered by one of the parent's option values. */
  ghost predicate FollowUpsConsistent(qs: seq<Question>) {
    forall q | q in qs && q.followUpQuestion.Some? ::
      var f := q.followUpQuestion.value;
      f.condition.questionId == q.id &&
      (exists o :: o in q.options && o.value == f.condition.value) &&
      f.question.timeOfDay == q.timeOfDay
  }

  /** The values of an option table are pairwise distinct. */
  ghost predicate ValuesDistinct(options: seq<QuestionOption>) {
    forall i, j :: 0 <= i < j < |options| ==> options[i].value != options[j].value
  }

  /** No option value is falsy: numbers are at least 1, strings are non-empty. */
  ghost predicate NoFalsyValue(options: seq<QuestionOption>) {
    forall i :: 0 <= i < |options| ==>
      match options[i].value
      case Num(n) => n >= 1
      case Str(s) => s != ""
  }

  /** The options of a question, or of its follow-up, are a table that is non-empty, distinct and never falsy. */
  ghost predicate GoodOptions(options: seq<QuestionOption>) {
    |options| > 0 && ValuesDistinct(options) && NoFalsyValue(options)
  }

  ghost predicate OptionsGood(qs: seq<Question>) {
    forall q | q in qs ::
      GoodOptions(q.options) &&
      (q.followUpQuestion.Some? ==> GoodOptions(q.followUpQuestion.value.question.options))
  }

  /** Every question is tagged with one of the four buckets. */
  ghost predicate BucketsValid(qs: seq<Question>) {
    forall q | q in qs :: TimeUtils.IsBucket(q.timeOfDay)
  }

  /** All the facts about a question list that the check-in flow relies on. */
  ghost predicate WellFormed(qs: seq<Question>) {
    IdsDistinct(qs) && FollowUpsConsistent(qs) && OptionsGood(qs) && BucketsValid(qs)
  }

  /** A numeric table ascending from at least 1, as every scale and count table of the catalog is. */
  ghost predicate Ascending(options: seq<QuestionOption>) {
    (forall i :: 0 <= i < |options| ==> options[i].value.Num? && options[i].value.n >= 1) &&
    (forall i :: 0 <= i < |options| - 1 ==> options[i].value.n < options[i + 1].value.n)
  }

  lemma {:induction false} AscendingBelow(options: seq<QuestionOption>, i: int, j: int)
    requires Ascending(options) && 0 <= i < j < |options|
    ensures options[i].value.n < options[j].value.n
    decreases j - i
  {
    if i + 1 < j {
      AscendingBelow(options, i + 1, j);
    }
  }

  /** An ascending table never repeats a value. */
  lemma AscendingDistinct(options: seq<QuestionOption>)
    requires Ascending(options)
    ensures ValuesDistinct(options) && NoFalsyValue(options)
  {
    forall i, j | 0 <= i < j < |options|
      ensures options[i].value != options[j].value
    {
      AscendingBelow(options, i, j);
    }
  }

  lemma NumericTablesGood()
    ensures GoodOptions(MoodOptions) && GoodOptions(SleepQualityOptions) && GoodOptions(HoursOptions)
    ensures GoodOptions(EnergyOptions) && GoodOptions(ProductivityOptions) && GoodOptions(SatisfactionOptions)
    ensures GoodOptions(BreakCountOptions) && GoodOptions(BalanceOptions)
  {
    AscendingDistinct(MoodOptions);
    AscendingDistinct(SleepQualityOptions);
    AscendingDistinct(HoursOptions);
    AscendingDistinct(EnergyOptions);
    AscendingDistinct(ProductivityOptions);
    AscendingDistinct(SatisfactionOptions);
    AscendingDistinct(BreakCountOptions);
    AscendingDistinct(BalanceOptions);
  }

  lemma WordTablesGood()
    ensures GoodOptions(StressOptions) && GoodOptions(YesNoOptions)
  {
  }

  /** Each option table has pairwise distinct, truthy values; yes/no has two entries, every other table five. */
  lemma OptionTablesWellFormed()
    ensures forall t | t in OptionTables :: GoodOptions(t) && (|t| == 2 || |t| == 5)
    ensures YesNoOptions in OptionTables && |YesNoOptions| == 2
    ensures forall t | t in OptionTables && t != YesNoOptions :: |t| == 5
  {
    NumericTablesGood();
    WordTablesGood();
  }

  /** A value from a table without falsy values is truthy. */
  lemma NoFalsyMeansTruthy(options: seq<QuestionOption>, o: QuestionOption)
    requires NoFalsyValue(options) && o in options
    ensures Truthy(o.value)
  {
  }

  // ---------------------------------------------------------------------
  // Distinct ids, through the flat list of all ids

  /** A question's own id followed by its follow-up's id, if any. */
  function OwnIds(q: Question): (r: seq<string>)
    ensures forall x :: x in r <==> x in Ids(q)
  {
    match q.followUpQuestion
    case None => [q.id]
    case Some(f) => [q.id, f.question.id]
  }

  /** Every id of a question list, main and follow-up, in catalog order. */
  function AllIds(qs: seq<Question>): seq<string> {
    if qs == [] then [] else OwnIds(qs[0]) + AllIds(qs[1..])
  }

  /** No string occurs twice. */
  ghost predicate NoDup(s: seq<string>) {
    forall i, j :: 0 <= i < j < |s| ==> s[i] != s[j]
  }

  lemma NoDupAppend(a: seq<string>, b: seq<string>)
    requires NoDup(a + b)
    ensures NoDup(a) && NoDup(b)
    ensures forall x :: x in a ==> x !in b
  {
    forall i, j | 0 <= i < j < |a| ensures a[i] != a[j] {
      assert a[i] == (a + b)[i] && a[j] == (a + b)[j];
    }
    forall i, j | 0 <= i < j < |b| ensures b[i] != b[j] {
      assert b[i] == (a + b)[|a| + i] && b[j] == (a + b)[|a| + j];
    }
    forall x | x in a ensures x !in b {
      var i :| 0 <= i < |a| && a[i] == x;
      forall j | 0 <= j < |b| ensures b[j] != x {
        assert (a + b)[i] == x && (a + b)[|a| + j] == b[j];
      }
    }
  }

  lemma {:induction false} AllIdsCover(qs: seq<Question>, k: int)
    requires 0 <= k < |qs|
    ensures forall x :: x in Ids(qs[k]) ==> x in AllIds(qs)
  {
    if k > 0 {
      AllIdsCover(qs[1..], k - 1);
    }
  }

  /** An id list without repetitions makes the questions' ids pairwise distinct. */
  lemma {:induction false} NoDupIdsDistinct(qs: seq<Question>)
    requires NoDup(AllIds(qs))
    ensures IdsDistinct(qs)
  {
    if qs != [] {
      NoDupAppend(OwnIds(qs[0]), AllIds(qs[1..]));
      NoDupIdsDistinct(qs[1..]);
      forall j | 0 < j < |qs|
        ensures Ids(qs[0]) !! Ids(qs[j])
      {
        AllIdsCover(qs[1..], j - 1);
      }
      forall i, j | 0 <= i < j < |qs|
        ensures Ids(qs[i]) !! Ids(qs[j])
      {
        if i > 0 {
          assert qs[i] == qs[1..][i - 1] && qs[j] == qs[1..][j - 1];
        }
      }
      forall i | 0 <= i < |qs| && qs[i].followUpQuestion.Some?
        ensures qs[i].followUpQuestion.value.question.id != qs[i].id
      {
        if i > 0 {
          assert qs[i] == qs[1..][i - 1];
        }
      }
    }
  }

  lemma {:induction false} AllIdsAppend(a: seq<Question>, b: seq<Question>)
    ensures AllIds(a + b) == AllIds(a) + AllIds(b)
  {
    if a == [] {
      assert a + b == b;
    } else {
      assert (a + b)[0] == a[0] && (a + b)[1..] == a[1..] + b;
      AllIdsAppend(a[1..], b);
    }
  }

  lemma NoDupConcat(a: seq<string>, b: seq<string>)
    requires NoDup(a) && NoDup(b)
    requires forall x | x in a :: x !in b
    ensures NoDup(a + b)
  {
    forall i, j | 0 <= i < j < |a + b| ensures (a + b)[i] != (a + b)[j] {
      if j < |a| {
      } else if i < |a| {
        assert (a + b)[i] in a && (a + b)[j] == b[j - |a|];
      } else {
        assert (a + b)[i] == b[i - |a|] && (a + b)[j] == b[j - |a|];
      }
    }
  }

  const MorningIds: seq<string> := ["sleep_quality", "hours_sleep", "morning_energy", "morning_mood", "morning_stress"]
  const AfternoonIds: seq<string> := ["afternoon_mood", "afternoon_stress", "productivity"]
  const EveningIds: seq<string> :=
    ["evening_mood", "evening_stress", "satisfaction", "breaks_taken", "break_count", "leisure_minutes", "overall_balance"]

  lemma MorningIdsListed()
    ensures AllIds(MorningQuestions) == MorningIds
  {
    assert AllIds(MorningQuestions[3..]) == OwnIds(MorningQuestions[3]) + AllIds(MorningQuestions[4..]) by {
      assert MorningQuestions[3..][1..] == MorningQuestions[4..];
    }
    assert AllIds(MorningQuestions[2..]) == OwnIds(MorningQuestions[2]) + AllIds(MorningQuestions[3..]) by {
      assert MorningQuestions[2..][1..] == MorningQuestions[3..];
    }
    assert AllIds(MorningQuestions[1..]) == OwnIds(MorningQuestions[1]) + AllIds(MorningQuestions[2..]) by {
      assert MorningQuestions[1..][1..] == MorningQuestions[2..];
    }
    assert AllIds(MorningQuestions[0..]) == OwnIds(MorningQuestions[0]) + AllIds(MorningQuestions[1..]) by {
      assert MorningQuestions[0..][1..] == MorningQuestions[1..];
    }
    assert MorningQuestions[0..] == MorningQuestions;
  }

  lemma AfternoonIdsListed()
    ensures AllIds(AfternoonQuestions) == AfternoonIds
  {
    assert AllIds(AfternoonQuestions[1..]) == OwnIds(AfternoonQuestions[1]) + AllIds(AfternoonQuestions[2..]) by {
      assert AfternoonQuestions[1..][1..] == AfternoonQuestions[2..];
    }
    assert AllIds(AfternoonQuestions[0..]) == OwnIds(AfternoonQuestions[0]) + AllIds(AfternoonQuestions[1..]) by {
      assert AfternoonQuestions[0..][1..] == AfternoonQuestions[1..];
    }
    assert AfternoonQuestions[0..] == AfternoonQuestions;
  }

  lemma EveningIdsListed()
    ensures AllIds(EveningQuestions) == EveningIds
  {
    assert AllIds(EveningQuestions[4..]) == OwnIds(EveningQuestions[4]) + AllIds(EveningQuestions[5..]) by {
      assert EveningQuestions[4..][1..] == EveningQuestions[5..];
    }
    assert AllIds(EveningQuestions[3..]) == OwnIds(EveningQuestions[3]) + AllIds(EveningQuestions[4..]) by {
      assert EveningQuestions[3..][1..] == EveningQuestions[4..];
    }
    assert AllIds(EveningQuestions[2..]) == OwnIds(EveningQuestions[2]) + AllIds(EveningQuestions[3..]) by {
      assert EveningQuestions[2..][1..] == EveningQuestions[3..];
    }
    assert AllIds(EveningQuestions[1..]) == OwnIds(EveningQuestions[1]) + AllIds(EveningQuestions[2..]) by {
      assert EveningQuestions[1..][1..] == EveningQuestions[2..];
    }
    assert AllIds(EveningQuestions[0..]) == OwnIds(EveningQuestions[0]) + AllIds(EveningQuestions[1..]) by {
      assert EveningQuestions[0..][1..] == EveningQuestions[1..];
    }
    assert EveningQuestions[0..] == EveningQuestions;
  }

  // The fifteen ids are told apart a few at a time, to keep each proof small.

  lemma PartIdsNoDup()
    ensures NoDup(MorningIds) && NoDup(AfternoonIds) && NoDup(EveningIds)
  {
  }

  lemma MorningAfternoonIdsDisjoint()
    ensures forall x | x in MorningIds :: x !in AfternoonIds
  {
  }

  lemma MorningEveningIdsDisjoint()
    ensures forall x | x in MorningIds[..2] :: x !in EveningIds
    ensures forall x | x in MorningIds[2..] :: x !in EveningIds
  {
    assert MorningIds[..2] == ["sleep_quality", "hours_sleep"];
    assert MorningIds[2..] == ["morning_energy", "morning_mood", "morning_stress"];
  }

  lemma AfternoonEveningIdsDisjoint()
    ensures forall x | x in AfternoonIds :: x !in EveningIds
  {
  }

  /** The catalog's ids, in order, list no id twice. */
  lemma CatalogIdsNoDup()
    ensures NoDup(AllIds(Catalog))
  {
    AllIdsAppend(MorningQuestions, AfternoonQuestions);
    AllIdsAppend(MorningQuestions + AfternoonQuestions, EveningQuestions);
    MorningIdsListed();
    AfternoonIdsListed();
    EveningIdsListed();
    PartIdsNoDup();
    MorningAfternoonIdsDisjoint();
    MorningEveningIdsDisjoint();
    AfternoonEveningIdsDisjoint();
    assert MorningIds == MorningIds[..2] + MorningIds[2..];
    NoDupConcat(MorningIds, AfternoonIds);
    NoDupConcat(MorningIds + AfternoonIds, EveningIds);
  }

  /** All question ids of the catalog, main and follow-up, are pairwise distinct. */
  lemma CatalogIdsDistinct()
    ensures IdsDistinct(Catalog)
  {
    CatalogIdsNoDup();
    NoDupIdsDistinct(Catalog);
  }

  lemma MorningFollowUpsConsistent()
    ensures FollowUpsConsistent(MorningQuestions)
  {
    assert MoodOptions[2].value == Num(3);
  }

  lemma AfternoonFollowUpsConsistent()
    ensures FollowUpsConsistent(AfternoonQuestions)
  {
    assert MoodOptions[2].value == Num(3);
  }

  lemma EveningFollowUpsConsistent()
    ensures FollowUpsConsistent(EveningQuestions)
  {
    assert MoodOptions[2].value == Num(3);
    assert YesNoOptions[0].value == Str("yes");
  }

  /**
   * Every follow-up of the catalog names its parent, is triggered by one of
   * the parent's option values, and shares the parent's time of day.
   */
  lemma CatalogFollowUpsConsistent()
    ensures FollowUpsConsistent(Catalog)
  {
    MorningFollowUpsConsistent();
    AfternoonFollowUpsConsistent();
    EveningFollowUpsConsistent();
  }

  /** The options of every catalog question, and of every follow-up, are one of the good tables. */
  lemma CatalogOptionsGood()
    ensures OptionsGood(Catalog)
  {
    NumericTablesGood();
    WordTablesGood();
    assert OptionsGood(MorningQuestions);
    assert OptionsGood(AfternoonQuestions);
    assert OptionsGood(EveningQuestions);
  }

  /** Every catalog question is tagged with one of the four buckets. */
  lemma CatalogBucketsValid()
    ensures BucketsValid(Catalog)
  {
    assert BucketsValid(MorningQuestions);
    assert BucketsValid(AfternoonQuestions);
    assert BucketsValid(EveningQuestions);
  }

  /** The catalog is well formed: everything the check-in flow relies on holds of it. */
  lemma CatalogWellFormed()
    ensures WellFormed(Catalog)
  {
    CatalogIdsDistinct();
    CatalogFollowUpsConsistent();
    CatalogOptionsGood();
    CatalogBucketsValid();
  }
}

# Daily check-in survey — a verified model

The home page of the check-in app asks a short survey that depends on the
time of day. The page loads the questions tagged with the current time of
day (morning, afternoon, evening or night) from a fixed catalog. It shows
them one at a time. The user picks one option per question, and Continue
moves the survey on. Some questions carry a follow-up. It is shown when the
picked value equals the follow-up's trigger value. After the last main
question, the page reports completion with all recorded answers.

The model has four modules:

- `TimeUtils` (`time_utils.dfy`) maps an hour to its time of day and maps a time of day to its greeting.
- `Questions` (`questions.dfy`) holds the catalog: the option tables, the eleven questions and their follow-ups. It also holds the well-formedness facts about the catalog that the page relies on.
- `Flow` (`flow.dfy`) models the page state as a value and each handler as one transition. It proves the invariant a session keeps and walks through two morning check-ins.
- `Home` (`home.dfy`) is the page as an object. Its fields are updated in place by `HandleOptionSelect` and `HandleContinue`, and each method is proved to perform exactly the matching transition of `Flow`.

Answers are JavaScript `number | string` values. The model writes them as
`Value = Num(int) | Str(string)`. The page tests an answer with JavaScript
truthiness, so `0`, `""` and a missing key all count as unanswered; the
model does the same.

The page model follows the code as written, including the way a session
whose last question has a follow-up ends. "## Findings" below describes
that ending and the corrected Continue the model proves beside it.

## Model

| member | source | states |
|---|---|---|
| TimeUtils.TimeOfDay | app/utils/timeUtils.ts:1-8 | The result is always one of the four buckets. It is "morning" exactly for hours 5–11, "afternoon" for 12–16, "evening" for 17–20 and "night" for every other hour. |
| TimeUtils.GreetingFor | app/utils/timeUtils.ts:10-23 | Each of the three named buckets gets its own greeting, in both directions. Every other string, night included, gets "Hello". |
| TimeUtils.Greeting | app/utils/timeUtils.ts:10-23 | The greeting by hour, both ways: "Good morning" exactly for 5–11, "Good afternoon" for 12–16, "Good evening" for 17–20, and "Hello" for every other hour. |
| Questions.AsQuestion | app/data/questions.ts:7-19 | A follow-up shown as a question has the same id, time of day and options, and has no follow-up of its own. |
| Questions.NumericTablesGood | app/data/questions.ts:22-97 | Each numeric option table is non-empty, has distinct values and has no falsy value. |
| Questions.WordTablesGood | app/data/questions.ts:54-82 | The stress and yes/no tables are non-empty, have distinct values and have no empty string. |
| Questions.OptionTablesWellFormed | app/data/questions.ts:22-97 | Every one of the ten option tables is well formed. The yes/no table holds 2 options, and every other table holds 5. |
| Questions.NoFalsyMeansTruthy | app/page.tsx:44-47 | In a table without falsy values, every picked value passes the page's truthiness test. |
| Questions.CatalogIdsNoDup | app/data/questions.ts:99-233 | The ids of all questions and follow-ups in the catalog, listed in order, contain no duplicate. |
| Questions.CatalogIdsDistinct | app/data/questions.ts:99-233 | No two catalog entries share an id, counting follow-up ids, and no follow-up reuses its parent's id. |
| Questions.MorningFollowUpsConsistent | app/data/questions.ts:122-141 | The morning follow-up names its parent, its trigger is one of the parent's options, and it shares the parent's time of day. |
| Questions.AfternoonFollowUpsConsistent | app/data/questions.ts:144-163 | The same for the afternoon follow-up. |
| Questions.EveningFollowUpsConsistent | app/data/questions.ts:173-219 | The same for both evening follow-ups: mood 3 leads to stress, and "yes" to breaks taken leads to the break count. |
| Questions.CatalogFollowUpsConsistent | app/data/questions.ts:99-233 | Every follow-up in the catalog names its parent, is triggered by one of the parent's options, and shares its time of day. |
| Questions.CatalogOptionsGood | app/data/questions.ts:99-233 | Every question and follow-up in the catalog has a well-formed option table. |
| Questions.CatalogBucketsValid | app/data/questions.ts:99-233 | Every question in the catalog is tagged with one of the four times of day. |
| Questions.CatalogWellFormed | app/data/questions.ts:99-233 | The catalog has distinct ids, consistent follow-ups, good options and valid time tags. |
| Flow.Filter | app/page.tsx:15-19 | A question is kept exactly when it is in the catalog and has the time of day. The result is no longer than the catalog. |
| Flow.FilterAppend | app/page.tsx:17 | Filtering keeps catalog order: filtering a concatenation concatenates the filtered parts. |
| Flow.FilterAllOrNothing | app/page.tsx:17 | A list whose questions all have the time of day is kept whole. A list where none has it is dropped. |
| Flow.FilterKeepsIdsDistinct | app/page.tsx:17 | Filtering keeps ids distinct. |
| Flow.FilterKeepsWellFormed | app/page.tsx:17 | Filtering a well-formed catalog gives well-formed questions. |
| Flow.Start | app/page.tsx:9-19 | A new session holds the filtered questions at index 0, with no answers and no follow-up. |
| Flow.CurrentQuestion | app/page.tsx:21 | Nothing is current exactly when no follow-up is shown and the index is at or past the end. |
| Flow.ButtonLabel | app/page.tsx:156 | The label is "Finish" exactly on the last main question with no follow-up shown, and "Continue" otherwise. `FinishMeansCompletion` ties it to what Continue does. |
| Flow.Progress | app/page.tsx:22-24 | Progress is 0 for an empty session and within (0, 100] while a main question is current. It is 100 exactly on the last main question. |
| Flow.SelectOption | app/page.tsx:26-39 | With nothing current, nothing changes. Otherwise the value is recorded under the current id and every other answer is kept. The follow-up appears exactly when the value strictly equals its trigger (`Triggers`, lines 35-36). The questions and the index never change. |
| Flow.Continue | app/page.tsx:41-68 | With nothing current, nothing changes. Without a truthy answer (`Answered`, line 44) the user is asked for one and nothing changes. A follow-up is cleared and the index steps by one. An answer that triggers (`Triggers`, lines 55-56) keeps the state. Otherwise the index steps, or, on the last question, completion is reported with exactly the recorded answers. The answers and questions never change, and the index never decreases. |
| Flow.FollowUpOf | app/data/questions.ts:13-19 | A question has a follow-up to show exactly when it declares one, and what is shown has no follow-up of its own. |
| Flow.StartConsistent | app/page.tsx:15-19 | A session started on a catalog with distinct ids satisfies the session invariant. |
| Flow.SelectOptionConsistent | app/page.tsx:26-39 | Selecting an option keeps the session invariant. |
| Flow.ContinueConsistent | app/page.tsx:41-68 | Pressing Continue keeps the session invariant. |
| Flow.CurrentIsIndexedOrItsFollowUp | app/page.tsx:21 | In a consistent session, the current question is the question at the index or its follow-up, and the index is in range. |
| Flow.TriggerIgnoresQuestionId | app/page.tsx:35-36 | Whether a follow-up triggers does not depend on the question id its condition names. |
| Flow.FollowUpNeverNests | app/page.tsx:35-38 | While a follow-up is shown, no option brings up a further one. |
| Flow.ContinueNeverStalls | app/page.tsx:55-66 | In a consistent session, Continue on an answered question always moves the index or completes. The branch that would wait for a follow-up is never taken. |
| Flow.FollowUpOfLastQuestionNeverCompletes | app/page.tsx:50-52 | Continue on the answered follow-up of the last question moves past the end. Afterwards nothing is current, Select and Continue do nothing, and completion is never reported. |
| Flow.ContinueIntended | app/page.tsx:49-52 | The corrected Continue of "## Findings". It keeps the questions and the answers, and a completion reports exactly the recorded answers without changing the state. |
| Flow.ContinueIntendedStaysInSession | app/page.tsx:41-68 | With the corrected Continue, an answered question of a consistent session either completes or moves on to a question of the session. The answered follow-up of the last question completes. |
| Flow.EmptyStartShowsNothing | app/page.tsx:78-80 | A time of day with no questions has nothing current from the start, and both handlers do nothing. |
| Flow.SelectedOptionPassesValidation | app/page.tsx:44-47 | Picking one of the current options from a well-formed table records an answer that passes validation. Unless it triggers a follow-up, the next Continue does not ask for an answer. |
| Flow.ProgressMonotone | app/page.tsx:22-24 | Progress never decreases on Continue, and showing or clearing a follow-up does not change it. |
| Flow.FinishMeansCompletion | app/page.tsx:156 | On an answered question of a consistent session, the button reads "Finish" exactly when Continue reports completion. |
| Flow.CatalogSession | app/page.tsx:17 | The catalog gives the four morning questions, the two afternoon and the five evening ones in catalog order, and no question at night or for any other string. |
| Flow.CatalogSessionSizes | app/data/questions.ts:99-233 | The sessions hold 4, 2, 5 and 0 questions, and a night session shows no question. |
| Flow.CatalogStartGood | app/page.tsx:15-19 | A session started on the catalog satisfies the session invariant, and each of its questions offers a non-empty table of distinct, truthy values. |
| Flow.MorningStart | app/page.tsx:15-21 | A morning session starts on the first morning question with no answers. |
| Flow.MorningFirstThree | app/page.tsx:26-68 | Sleep quality 4, 8 hours and energy 3 bring a morning session to its last question with exactly those answers. |
| Flow.MorningWithoutFollowUp | app/page.tsx:41-68 | Mood 5 on the last morning question shows no follow-up, the button reads "Finish", and Continue completes with the four answers. |
| Flow.MorningMoodNeutral | app/page.tsx:26-39 | Mood 3 on the last morning question shows the stress follow-up, and the button reads "Continue". |
| Flow.MorningWithFollowUp | app/page.tsx:49-52 | After "balanced" on the follow-up, Continue moves the index past the last question and holds five answers. |
| Flow.MorningPastTheEnd | app/page.tsx:41-42 | Past the last question nothing is current, and Continue reports nothing. |
| Home.CheckIn.constructor | app/page.tsx:8-19 | The page starts on the catalog filtered by the time of day of the given hour. It satisfies the session invariant, and every question offers a good option table. |
| Home.CheckIn.HandleOptionSelect | app/page.tsx:26-39 | The fields become exactly the `Flow.SelectOption` state, and the session invariant is kept. Picking one of the options the page offers records an answer that the truthiness test at line 44 accepts. Unless that answer brings up a follow-up, the next Continue does not ask for an answer. |
| Home.CheckIn.HandleContinue | app/page.tsx:41-68 | The fields become exactly the `Flow.Continue` state, the returned outcome is its message, and the invariant is kept. The index never passes the number of questions. |
| Home.AnswerWith | app/page.tsx:26-68 | Picking an option and pressing Continue performs the two transitions in turn. |
| Home.AnswerFirstThreeMorning | app/page.tsx:26-68 | Answering 4, 8 and 3 on a fresh morning page leaves it on the last question with those answers. |
| Home.MorningCheckIn | app/page.tsx:8-68 | At 8 o'clock, answers 4, 8, 3 and 5 complete the check-in with exactly those four answers. |
| Home.MorningCheckInWithFollowUp | app/page.tsx:49-52 | At 8 o'clock, answers 4, 8, 3 and 3 bring up the stress follow-up. After "balanced", the page holds five answers with nothing current, and no completion is reported. |

## Left out

- Question text, option labels, icon artwork and the page's markup are not modelled. The option tables keep each option's icon, as an enumeration, and its value. Labels are dropped.
- The page's `MoodOption` and `MoodIcon` components and all styling are not modelled: they only render.
- `handleClose` is not modelled. It sets a flag and raises an alert after a 300 ms timer, and does not touch the survey state.
- Alerts and the console log are not performed. `Continue` and `HandleContinue` return them as an `Outcome`.
- React's scheduling of state updates is not modelled. Each handler runs as one atomic step on the state it sees, and the effect that loads the questions runs inside the constructor.
- The clock is not read. The hour is a parameter of `TimeUtils.TimeOfDay` and of the page constructor.
- Progress is a real number. The floating-point division is not modelled.
- JavaScript numbers are unbounded integers here. No catalog value is fractional or large.
- The answers are a map with no inherited keys. On the page they live in a plain object, where a lookup also finds prototype members such as `constructor`, which count as truthy. No catalog id has such a name, so the flow is the same.
- Home.CheckIn.HandleOptionSelect: like the page, it accepts any option, not only one of the current question's options. `SelectedOptionPassesValidation` covers the options actually offered.

## Findings

| source | as written | input that shows it | evidently intended | confidence | as-written member | corrected member |
|---|---|---|---|---|---|---|
| app/page.tsx:49-52 | Continue on a follow-up clears it and steps the index with no bound check. When the follow-up belongs to the last question, the index moves past the end. Nothing is current after that, both handlers do nothing, and completion is never reported. | A morning session at 8 o'clock answered 4, 8, 3, then mood 3, then "balanced" on the stress follow-up, then Continue. | Every session ends in completion, and the follow-up of the last question completes the check-in with all answers. | not executed | Flow.FollowUpOfLastQuestionNeverCompletes, Home.MorningCheckInWithFollowUp | Flow.ContinueIntended, Flow.ContinueIntendedStaysInSession |

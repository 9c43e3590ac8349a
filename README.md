# Workout tracker: weekly statistics, exercise records and client helpers

A Dafny model of the deterministic core of a workout-tracking web application
(Express + Mongoose server, browser scripts using moment.js). The model covers:

- **the week window** of `GET /api/workouts/range/:fromDate`: the Sunday-to-Saturday
  interval wrapped around the ISO week of `fromDate`, and the inclusive `$match` on `day`;
- **the two aggregation pipelines** (match, unwind, group, sum, sort), by weekday and by
  exercise name, as pure reference functions over an in-memory list of workouts;
- **`populateMissingWeekdays`**, the in-place `splice` loop that pads the weekday summary
  to seven rows, as a method on a `DataSet` object;
- **the exercise schema** of the `Workout` model (type enum, required name, integer
  validators, defaults of 0) and the `totalDuration` virtual, a `forEach` accumulation;
- **`PUT /api/workouts/:id`** (type-dependent field selection, 501 for other types, `$push`
  onto the matching workout) and **`POST /api/workouts`** on a `WorkoutCollection` object;
- **client helpers**: `tallyExercises` and the day stepping of `initWorkout` on the workout
  page, `fetchFromDataSet` and the week stepping of the stats page, and the URLs,
  last-element selection and status mapping of the `API` object.

Time is an integer count of milliseconds since day 0 (a Thursday, 00:00 UTC).
`Time.Day` floors to a day number and `Time.MsOfDay` gives the offset within it.
Weekday codes follow the store's `$dayOfWeek` convention (Sunday = 1 … Saturday = 7).
Each module matches one source file: `Time` and `Weeks` for date handling,
`WorkoutModel` for models/Workout.js, `Summaries`, `GapFill` and `WorkoutRoutes` for
routes/workoutRoutes.js, `WorkoutPage`, `StatsPage` and `Api` for the three browser scripts.
`Wrappers` holds `Option` and `Result`.

The week window follows the code, not the documented Monday-to-Sunday week. The code takes
the ISO Monday, subtracts a day and runs to the following Saturday 23:59:59.999. A Sunday
`fromDate` therefore lies outside its own window (`Weeks.OwnWindow`).

The store of the PUT handler is modelled as casting the pushed exercise through the
schema: defaults are filled in and the validators run. A rejected exercise reaches the
handler's `catch`, which answers 500; nothing changes. The documented 422 answer does not
exist in this code.

## Model

| member | source | states |
|---|---|---|
| Time.StartOfDay | routes/workoutRoutes.js:21 | the result is on the same day at millisecond 0, at or before t and less than a day before it |
| Time.EndOfDay | routes/workoutRoutes.js:22 | the result is on the same day at its last millisecond, at or after t and less than a day after it |
| Time.AddDays | routes/workoutRoutes.js:21-22 | moves the day number by exactly n and keeps the time of day |
| Time.DayOfWeek | routes/workoutRoutes.js:91 | the store's weekday code is in 1..7 |
| Time.IsoWeekday | routes/workoutRoutes.js:21 | the ISO weekday (Monday = 1) used by startOf('isoWeek') is in 1..7; WeekdayNumberings ties it to the store's code |
| Time.WeekdayNumberings | routes/workoutRoutes.js:20-21 | the store's Sunday-first code is the ISO Monday-first weekday shifted by one, cyclically |
| Weeks.IsoWeekStart | routes/workoutRoutes.js:21 | startOf('isoWeek') is a Monday at 00:00, 0 to 6 days before t |
| Weeks.WeekWindow | routes/workoutRoutes.js:21-22 | weekStartDate is a Sunday at 00:00, the day before the ISO Monday; weekEndDate is the last millisecond of the Saturday six days later |
| Weeks.InWindow | routes/workoutRoutes.js:24-31 | computes the `$gte`/`$lte` test, both bounds inclusive; InWindowByDay and OwnWindow state what it selects |
| Weeks.WindowStartDay | routes/workoutRoutes.js:21 | the window starts on day 7·(ISO week number) − 4 |
| Weeks.WindowLength | routes/workoutRoutes.js:21-22 | the window spans exactly one week less one millisecond |
| Weeks.SameIsoWeekSameWindow | routes/workoutRoutes.js:21-22 | two dates give the same window if and only if they lie in the same ISO week |
| Weeks.InWindowByDay | routes/workoutRoutes.js:24-31 | an instant matches if and only if its day is one of the seven days from the window's start |
| Weeks.OwnWindow | routes/workoutRoutes.js:21-22 | a date lies in its own window if and only if it is not a Sunday |
| Weeks.WindowShift | public/assets/js/stats.js:220-229 | moving a date by whole weeks moves both window bounds by the same amount |
| WorkoutModel.ParseType | models/Workout.js:8-12 | the type is accepted as cardio exactly for "cardio" and as resistance exactly for "resistance" |
| WorkoutModel.ValidationErrors | models/Workout.js:8-57 | each path fails exactly when its rule is broken: type outside the enum, name missing or empty, a numeric field holding a non-integer |
| WorkoutModel.ApplySchema | models/Workout.js:3-60 | the exercise is stored exactly when no rule fails; the stored fields are the ones given, with 0 for every omitted number; otherwise the failure names every failing path |
| WorkoutModel.OnlyIntegralityChecked | models/Workout.js:21-24 | any integers at all, negative or large, are accepted once type and name are valid |
| WorkoutModel.DefaultsAreZero | models/Workout.js:17-57 | an exercise with every number omitted is stored with all five numbers 0 |
| WorkoutModel.TotalDuration | models/Workout.js:65-69 | the forEach loop returns the sum of the exercise durations |
| WorkoutModel.TotalOfEmpty | models/Workout.js:65-69 | a workout without exercises totals 0 |
| WorkoutModel.SumDurationsConcat | models/Workout.js:67 | the total of two concatenated lists is the sum of their totals |
| WorkoutModel.AppendRaisesTotal | models/Workout.js:67 | appending an exercise raises the total by exactly its duration |
| WorkoutModel.TotalIgnoresOrder | models/Workout.js:67 | the total does not depend on the order of the exercises |
| Summaries.Match | routes/workoutRoutes.js:24-31 | a workout is selected if and only if its day lies between the bounds, both inclusive |
| Summaries.MatchOne | routes/workoutRoutes.js:24-31 | a single workout is kept exactly when its day lies in the window |
| Summaries.MatchConcat | routes/workoutRoutes.js:24-31 | the match preserves store order: matching a concatenation concatenates the matches |
| Summaries.MatchCounts | routes/workoutRoutes.js:24-31 | a workout in the window occurs in the result exactly as often as in the store; any other workout never occurs |
| Summaries.Unwind | routes/workoutRoutes.js:86 | computes the `$unwind` stage; UnwindOne, UnwindConcat and EmptyWorkoutVanishes state its result |
| Summaries.UnwindOne | routes/workoutRoutes.js:86 | unwinding a workout gives one entry per exercise, in order, each carrying the workout's day |
| Summaries.UnwindConcat | routes/workoutRoutes.js:86 | unwinding distributes over concatenation of workout lists |
| Summaries.EmptyWorkoutVanishes | routes/workoutRoutes.js:86 | a workout with no exercises contributes nothing after the unwind |
| Summaries.GroupRow | routes/workoutRoutes.js:88-104 | computes one weekday group: the code, with the summed duration and weight of the entries on that weekday; WeekdaySummaryMeaning shows every row is one |
| Summaries.WeekdayRowsFrom | routes/workoutRoutes.js:88-110 | the groups for weekday codes from wd on are strictly ascending and lie in wd..7 |
| Summaries.WeekdaySummary | routes/workoutRoutes.js:85-111 | the weekday rows are strictly ascending by weekDay, every code in 1..7 |
| Summaries.WeekdaySummaryMeaning | routes/workoutRoutes.js:88-108 | each row holds its weekday's sums of duration and weight; a weekday has a row if and only if some entry falls on it |
| Summaries.LessIrreflexive | routes/workoutRoutes.js:137-141 | no name sorts before itself |
| Summaries.LessTransitive | routes/workoutRoutes.js:137-141 | the name order is transitive |
| Summaries.LessTotal | routes/workoutRoutes.js:137-141 | of two different names, one sorts before the other |
| Summaries.AddToGroups | routes/workoutRoutes.js:122-141 | computes the insertion of one entry into the sorted groups; AddToGroupsNames, AddToGroupsSorted and AddToGroupsSums state its result |
| Summaries.AddToGroupsNames | routes/workoutRoutes.js:122-127 | adding an entry to the groups adds exactly its name |
| Summaries.AddToGroupsSorted | routes/workoutRoutes.js:137-141 | adding an entry keeps the groups strictly sorted by name |
| Summaries.AddToGroupsSums | routes/workoutRoutes.js:125-126 | adding an entry raises its own group's sums by its duration and weight and no other group's |
| Summaries.GroupByNameFacts | routes/workoutRoutes.js:119-143 | the groups are strictly sorted by name and hold the entries' names; each name's sums are those of its entries; the duration column sums all durations |
| Summaries.GroupByName | routes/workoutRoutes.js:119-143 | computes the name summary as a fold of AddToGroups; GroupByNameFacts and ExerciseSummaryMeaning state its result |
| Summaries.NamedConcat | routes/workoutRoutes.js:124 | the entries of a name in a concatenation are those of each part, in order |
| Summaries.SumsConcat | routes/workoutRoutes.js:93-94 | the duration and weight sums distribute over concatenation |
| Summaries.ExerciseSummaryMeaning | routes/workoutRoutes.js:119-143 | one row per distinct exercise name, strictly ascending; each row sums its name's durations and weights; the duration column totals all durations in the window |
| Summaries.UnwindOneDuration | models/Workout.js:65-69 | a workout's unwound entries carry durations that add up to its totalDuration |
| Summaries.UnwindDuration | routes/workoutRoutes.js:86-93 | the summed duration after the unwind is the sum of the workouts' totalDuration |
| Summaries.WeekDurationIsTotals | routes/workoutRoutes.js:119-143 | the exercise summary's duration column equals the totalDuration of the workouts in the window, added up |
| GapFill.DataSet.constructor | routes/workoutRoutes.js:32-33 | the data set holds the rows it was given |
| GapFill.Splice | routes/workoutRoutes.js:162 | splice(index, 0, x) inserts x at index and shifts the rest one place right |
| GapFill.Step | routes/workoutRoutes.js:161-163 | computes one pass of the for loop: a null row spliced in at the index when its code was not recorded; KeepStep and InsertStep state its effect |
| GapFill.FillUpTo | routes/workoutRoutes.js:160-164 | computes the first k passes of the for loop; FillInvariant states what they achieve |
| GapFill.Filled | routes/workoutRoutes.js:155-164 | computes all seven passes over the recorded codes; FilledWeek, FilledEmpty and FilledIdempotent state the result |
| GapFill.PopulateMissingWeekdays | routes/workoutRoutes.js:150-165 | a null data set is left alone; otherwise the rows become the reference padding of the old rows |
| GapFill.FillInvariant | routes/workoutRoutes.js:160-164 | after k steps positions 0..k-1 hold weekdays 1..k and the rest is the unvisited tail of the input |
| GapFill.FilledWeek | routes/workoutRoutes.js:155-164 | on rows sorted by distinct weekday in 1..7: exactly seven rows; row j has weekDay j+1; every original row sits at its weekday's position; the others have null duration and weight |
| GapFill.FilledEmpty | routes/workoutRoutes.js:160-164 | an empty summary becomes seven null rows, Sunday to Saturday |
| GapFill.FilledIdempotent | routes/workoutRoutes.js:155-164 | padding a padded summary changes nothing |
| WorkoutRoutes.PushExercise | routes/workoutRoutes.js:55-57 | the push keeps the number, ids and days of the workouts |
| WorkoutRoutes.PushOnlyTarget | routes/workoutRoutes.js:55-57 | with distinct ids, the workout with the id gets the exercise appended at the end of its list and every other workout is unchanged |
| WorkoutRoutes.PushRaisesOnlyTargetTotal | routes/workoutRoutes.js:55-57 | the target's totalDuration grows by the exercise's duration and no other total moves |
| WorkoutRoutes.WorkoutCollection.constructor | routes/workoutRoutes.js:66-77 | the collection starts empty |
| WorkoutRoutes.WorkoutCollection.Create | routes/workoutRoutes.js:68-71 | creation appends one workout with a fresh id and keeps the ids distinct |
| WorkoutRoutes.WorkoutCollection.UpdateOnePush | routes/workoutRoutes.js:55-57 | the collection becomes the push; the matched count is 1 when the id exists and 0 otherwise |
| WorkoutRoutes.FilledSummary | routes/workoutRoutes.js:32-33 | the padded weekday summary has seven rows; row j holds weekday j+1's sums when it has entries and nulls otherwise |
| WorkoutRoutes.GetRange | routes/workoutRoutes.js:17-40 | the response carries the window bounds, the seven padded weekday rows and the exercise summary of the window's entries |
| WorkoutRoutes.NewExercise | routes/workoutRoutes.js:45-54 | cardio keeps type, name, duration and distance; resistance keeps type, name, duration, weight, reps and sets; any other type builds nothing |
| WorkoutRoutes.OtherTypeFieldsDropped | routes/workoutRoutes.js:47-50 | fields of the other exercise type are stored as 0 whatever the body sent |
| WorkoutRoutes.Status | routes/workoutRoutes.js:53-61 | computes the status of each answer: 200 for the update report, 501 for an unsupported type, 500 from the catch; AddExerciseReportsRefusalsAsSuccess and AddExerciseSucceededMatchesHandler use it |
| WorkoutRoutes.PutExercise | routes/workoutRoutes.js:43-63 | another type answers 501 and changes nothing; a schema rejection answers 500 and changes nothing; otherwise the exercise is pushed and the update report returned |
| WorkoutRoutes.PostWorkout | routes/workoutRoutes.js:66-77 | a blank workout dated now with a fresh id is appended and returned |
| WorkoutPage.NoKindSumsZero | public/assets/js/workout.js:43-48 | a list with no exercise of a type sums 0 for that type's fields |
| WorkoutPage.TallyStep | public/assets/js/workout.js:43-50 | computes the reducer body for one exercise; TallyFromTotals and OtherKindIgnored state its effect |
| WorkoutPage.TallyFrom | public/assets/js/workout.js:42-51 | computes the reduce from a given accumulator; TallyFromTotals states its result |
| WorkoutPage.TallyExercises | public/assets/js/workout.js:41-53 | computes tallyExercises as the reduce from an empty object; TallyMeaning states its result |
| WorkoutPage.TallyFromTotals | public/assets/js/workout.js:42-51 | from any accumulator, each key receives the sum over its type exactly when that type occurs and is left alone otherwise |
| WorkoutPage.TallyMeaning | public/assets/js/workout.js:41-53 | weight, sets and reps are present exactly when a resistance exercise exists, each summing that field over resistance exercises; distance likewise for cardio; an empty list has no keys |
| WorkoutPage.OtherKindIgnored | public/assets/js/workout.js:42-51 | an exercise of any other type, inserted anywhere, changes no total |
| WorkoutPage.DateWithoutWorkout | public/assets/js/workout.js:28-35 | the date moves to the start of the previous day after "P", of the next day otherwise, and is today's start when there is no date |
| WorkoutPage.Page.constructor | public/assets/js/workout.js:8-10 | the page starts with no date, operation or workout id |
| WorkoutPage.Page.InitWorkout | public/assets/js/workout.js:12-39 | a found workout becomes current and its summary (date, totalDuration, number of exercises, tally) is rendered; otherwise the id is cleared and the date stepped |
| WorkoutPage.Page.PreviousButtonClicked | public/assets/js/workout.js:127-131 | sets the operation "P" and then behaves as initWorkout |
| WorkoutPage.Page.NextButtonClicked | public/assets/js/workout.js:134-138 | sets the operation "N" and then behaves as initWorkout |
| StatsPage.FetchFromDataSet | public/assets/js/stats.js:193-199 | a null data set gives an empty list; otherwise one value per row, row i's value for the column |
| StatsPage.LabelsNameWeekdays | public/assets/js/stats.js:52-60 | the label at position weekday-code − 1 is the calendar name of that day |
| StatsPage.WeekdayChartSeries | public/assets/js/stats.js:61-66 | the duration and weight series have one value per label; value i is weekday i+1's sum, or null when nothing was logged that day |
| StatsPage.Stats.constructor | public/assets/js/stats.js:5 | selectedDate starts at the start of today |
| StatsPage.Stats.PreviousButtonClicked | public/assets/js/stats.js:220-223 | selectedDate moves back exactly seven days and the requested week with it |
| StatsPage.Stats.NextButtonClicked | public/assets/js/stats.js:226-229 | selectedDate moves forward exactly seven days and the requested week with it |
| StatsPage.PreviousThenNext | public/assets/js/stats.js:220-229 | previous then next restores selectedDate |
| Api.PathUnderWorkouts | server.js:15 | paths built under the router's mount point start with /api/workouts |
| Api.SplitPathOf | public/assets/js/api.js:8-10 | a path built from segments without "/" splits back into those segments |
| Api.QueryUrl | public/assets/js/api.js:5-15 | without both a date and a truthy operation the URL is /api/workouts; otherwise /api/workouts/date/operation, then /id only for a truthy id |
| Api.NavigationUrlSegments | public/assets/js/api.js:8-10 | a navigation URL reads back as its date, operation and (when sent) workout id |
| Api.DeleteUrl | public/assets/js/api.js:59 | the delete URL is /api/workouts/id |
| Api.RangeUrl | public/assets/js/api.js:70 | the range URL is /api/workouts/range/isoDate |
| Api.LastElement | public/assets/js/api.js:22 | nothing exactly for an empty response |
| Api.LastOfAppend | public/assets/js/api.js:22 | the element at the end of the response is the one picked |
| Api.AddExerciseReported | public/assets/js/api.js:24-45 | false exactly on a thrown error or status 422, true otherwise |
| Api.AddExerciseReportsRefusalsAsSuccess | public/assets/js/api.js:32-38 | every answer of the PUT handler, including 501 and 500, is reported as success |
| Api.UnsupportedTypeReportedAsSuccess | public/assets/js/api.js:32-38 | an exercise of type "flexibility" is refused by the handler yet reported as added |
| Api.AddExerciseSucceededMatchesHandler | public/assets/js/api.js:32-43 | with 2xx as success, success is reported exactly when the handler ran the update |

## Left out

- Mongoose and MongoDB (`find`, `aggregate`, `updateOne`, `create`), async/await and the
  catch-to-500 mapping of unexpected errors: the store is an in-memory sequence of workouts
  and the pipelines are reference functions. Only a schema rejection is routed to 500.
- WorkoutRoutes.PutExercise: Mongoose does not run validators on `updateOne` without
  `runValidators`; the model lets the store apply the whole schema to the pushed exercise.
- Store-assigned identifiers are modelled as a counter; ObjectId text is not modelled.
- The GET "/" latest-workout query (routes/workoutRoutes.js:8): a limited query sorted by
  `day`, not by id. Only the client's selection of the last element is modelled.
- The server-side previous/next navigation route and the DELETE route: api.js requests
  them, but they are not in routes/workoutRoutes.js. The server side of both is not part
  of this model; only their URLs are.
- `createWorkout` in api.js (46-56): a fetch whose JSON is returned unchanged.
- `deleteButtonClicked` (public/assets/js/workout.js:117-124): only its URL is modelled.
- moment.js time zones, locales, `.utc()`, `hour(12)` and display formats: instants are
  UTC milliseconds, and ISO date text is a parameter (`workoutDate.toDate().toISOString()`).
- DOM, Chart.js rendering, toasts, event listeners, `generatePalette` and the debug
  `console.log` lines of the stats page.
- Numeric range limits ([0,1000], [0,2000]) and 422 validation answers: the schema in
  models/Workout.js enforces only the enum, the required fields and integrality.
- A JavaScript `null` in a numeric field, and type casting of non-numeric text, are not
  modelled. A numeric field is absent, an integer, or a non-integer number;
  `Number.isInteger` on floating point is reduced to that distinction.
- WorkoutModel.TotalDuration: stored exercises always hold an integer duration, so the
  `|| 0` fallback only ever maps 0 to 0; a missing stored duration cannot occur in the model.
- GapFill.FilledWeek: the seven-row result is proved for rows sorted by distinct weekday
  codes in 1..7, which is what the weekday pipeline produces. For other input the method
  still matches the reference padding, but its shape is not characterised.
- The documented setting of the week as Monday..Sunday is not followed: the code's
  Sunday..Saturday window is modelled.

## Findings

| source | as written | input that shows it | evidently intended | confidence | as-written member | corrected member |
|---|---|---|---|---|---|---|
| public/assets/js/api.js:32-38 | `addExercise` returns false only for status 422 (or a thrown error) | a PUT with type "flexibility": the handler answers 501 and stores nothing, yet `addExercise` returns true; a store rejection (500) is reported as success too | only a 2xx answer means the exercise was added | not executed | Api.AddExerciseReportsRefusalsAsSuccess | Api.AddExerciseSucceededMatchesHandler |

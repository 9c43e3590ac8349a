/** The API handlers of routes/workoutRoutes.js over an in-memory collection
    of workouts standing in for the store: the weekly range summary, appending
    an exercise (PUT) and creating a blank workout (POST). */
module WorkoutRoutes {
  import opened Wrappers
  import opened Time
  import opened WorkoutModel
  import opened Weeks
  import opened Summaries
  import opened GapFill

  // ---------------------------------------------------------------- the collection

  /** Appends `e` to the exercises of the first workout whose id is `id`, as
      updateOne with $push does; the list is unchanged when no id matches. */
  function PushExercise(workouts: seq<Workout>, id: nat, e: Exercise): (r: seq<Workout>)
    ensures |r| == |workouts|
    ensures forall i :: 0 <= i < |r| ==> r[i].id == workouts[i].id && r[i].day == workouts[i].day
  {
    if workouts == [] then []
    else if workouts[0].id == id then
      [workouts[0].(exercises := workouts[0].exercises + [e])] + workouts[1..]
    else [workouts[0]] + PushExercise(workouts[1..], id, e)
  }

  function Ids(workouts: seq<Workout>): set<nat> {
    set w | w in workouts :: w.id
  }

  ghost predicate DistinctIds(workouts: seq<Workout>) {
    forall i, j :: 0 <= i < j < |workouts| ==> workouts[i].id != workouts[j].id
  }

  /** With distinct ids, the push changes exactly the workout with that id, by
      appending `e` at the end of its list, and leaves every other workout as it was. */
  lemma {:induction false} PushOnlyTarget(workouts: seq<Workout>, id: nat, e: Exercise)
    requires DistinctIds(workouts)
    ensures var r := PushExercise(workouts, id, e);
      forall i :: 0 <= i < |r| ==>
        r[i] == if workouts[i].id == id then workouts[i].(exercises := workouts[i].exercises + [e])
                else workouts[i]
  {
    if workouts != [] {
      assert DistinctIds(workouts[1..]);
      PushOnlyTarget(workouts[1..], id, e);
    }
  }

  /** The target's totalDuration grows by the exercise's duration; no other total moves. */
  lemma PushRaisesOnlyTargetTotal(workouts: seq<Workout>, id: nat, e: Exercise, i: int)
    requires DistinctIds(workouts) && 0 <= i < |workouts|
    ensures SumDurations(PushExercise(workouts, id, e)[i].exercises)
         == SumDurations(workouts[i].exercises) + (if workouts[i].id == id then e.duration else 0)
  {
    PushOnlyTarget(workouts, id, e);
    AppendRaisesTotal(workouts[i].exercises, e);
  }

  /** The Workout collection: the documents in insertion order and the next
      identifier the store hands out (identifiers grow with creation order). */
  class WorkoutCollection {
    var workouts: seq<Workout>
    var nextId: nat

    ghost predicate Valid()
      reads this
    {
      DistinctIds(workouts) && forall i :: 0 <= i < |workouts| ==> workouts[i].id < nextId
    }

    constructor ()
      ensures Valid() && workouts == [] && nextId == 0
    {
      workouts := [];
      nextId := 0;
    }

    /** Workout.create: stores a new document under a fresh identifier. */
    method Create(day: Instant, exercises: seq<Exercise>) returns (w: Workout)
      requires Valid()
      modifies this
      ensures Valid()
      ensures w == Workout(old(nextId), day, exercises) && w.id !in Ids(old(workouts))
      ensures workouts == old(workouts) + [w]
    {
      w := Workout(nextId, day, exercises);
      workouts := workouts + [w];
      nextId := nextId + 1;
    }

    /** Workout.updateOne({_id: id}, {$push: {exercises: e}}): the number of
        documents matched (0 or 1). */
    method UpdateOnePush(id: nat, e: Exercise) returns (matchedCount: nat)
      requires Valid()
      modifies this
      ensures Valid() && nextId == old(nextId)
      ensures workouts == PushExercise(old(workouts), id, e)
      ensures matchedCount == if id in Ids(old(workouts)) then 1 else 0
    {
      matchedCount := if id in Ids(workouts) then 1 else 0;
      workouts := PushExercise(workouts, id, e);
    }
  }

  // ---------------------------------------------------------------- GET /range/:fromDate

  datatype RangeResponse = RangeResponse(
    weekdaySummary: seq<WeekdayRow>,
    exerciseSummary: seq<ExerciseRow>,
    weekStartDate: Instant,
    weekEndDate: Instant)

  /** The weekday row the response carries for weekday wd: the group's sums when
      some exercise in the window falls on that weekday, nulls otherwise. */
  function DayRow(entries: seq<Entry>, wd: int): WeekdayRow {
    if EntriesOn(entries, wd) != [] then GroupRow(entries, wd) else NullRow(wd)
  }

  /** The gap-filled weekday summary is the seven day rows, Sunday first. */
  lemma FilledSummary(entries: seq<Entry>)
    ensures |Filled(WeekdaySummary(entries))| == 7
    ensures forall j :: 0 <= j < 7 ==> Filled(WeekdaySummary(entries))[j] == DayRow(entries, j + 1)
  {
    var rows := WeekdaySummary(entries);
    WeekdaySummaryMeaning(entries);
    FilledWeek(rows);
    forall j | 0 <= j < 7 ensures Filled(rows)[j] == DayRow(entries, j + 1) {
      if j + 1 in Weekdays(rows) {
        var i :| 0 <= i < |rows| && rows[i].weekDay == j + 1;
        assert Filled(rows)[rows[i].weekDay - 1] == rows[i];
      }
    }
  }

  /** GET /api/workouts/range/:fromDate on the workouts in the collection. */
  method GetRange(db: WorkoutCollection, fromDate: Instant) returns (response: RangeResponse)
    ensures response.weekStartDate == WeekWindow(fromDate).start
    ensures response.weekEndDate == WeekWindow(fromDate).end
    ensures |response.weekdaySummary| == 7
    ensures forall j :: 0 <= j < 7 ==>
      response.weekdaySummary[j] == DayRow(WindowEntries(db.workouts, fromDate), j + 1)
    ensures response.exerciseSummary == GroupByName(WindowEntries(db.workouts, fromDate))
  {
    var window := WeekWindow(fromDate);
    var entries := Unwind(Match(db.workouts, window));
    var weekdaySummary := new DataSet(WeekdaySummary(entries));
    PopulateMissingWeekdays(weekdaySummary);
    var exerciseSummary := GroupByName(entries);
    FilledSummary(entries);
    response := RangeResponse(weekdaySummary.rows, exerciseSummary, window.start, window.end);
  }

  // ---------------------------------------------------------------- PUT /:id

  /** What the PUT handler answers: the update report, 501 for an exercise type
      the server does not support, or 500 with the store's validation failure. */
  datatype PutResponse =
    | UpdateResult(matchedCount: nat)
    | NotImplemented
    | ServerError(failed: set<Path>)

  function Status(r: PutResponse): int {
    match r
    case UpdateResult(_) => 200
    case NotImplemented => 501
    case ServerError(_) => 500
  }

  /** The exercise object the handler builds from the request body: cardio keeps
      type, name, duration and distance; resistance keeps type, name, duration,
      weight, reps and sets; any other type is refused. */
  function NewExercise(body: ExerciseDoc): (r: Option<ExerciseDoc>)
    ensures r.Some? <==> body.kind == Some("cardio") || body.kind == Some("resistance")
    ensures r.Some? ==> r.value.kind == body.kind && r.value.name == body.name && r.value.duration == body.duration
    ensures body.kind == Some("cardio") ==>
      r.value.distance == body.distance && r.value.weight == Absent && r.value.reps == Absent && r.value.sets == Absent
    ensures body.kind == Some("resistance") ==>
      r.value.distance == Absent && r.value.weight == body.weight && r.value.reps == body.reps && r.value.sets == body.sets
  {
    if body.kind == Some("cardio") then
      Some(ExerciseDoc(body.kind, body.name, body.duration, body.distance, Absent, Absent, Absent))
    else if body.kind == Some("resistance") then
      Some(ExerciseDoc(body.kind, body.name, body.duration, Absent, body.weight, body.reps, body.sets))
    else None
  }

  /** A cardio exercise is stored with weight, reps and sets 0 whatever the body
      sent for them, and a resistance exercise with distance 0: the fields of the
      other type are dropped before the schema sees them. */
  lemma OtherTypeFieldsDropped(body: ExerciseDoc)
    requires body.kind == Some("cardio") || body.kind == Some("resistance")
    requires body.name.Some? && body.name.value != ""
    requires !body.duration.NonInteger?
    requires body.kind == Some("cardio") ==> !body.distance.NonInteger?
    requires body.kind == Some("resistance") ==> !body.weight.NonInteger? && !body.reps.NonInteger? && !body.sets.NonInteger?
    ensures var stored := ApplySchema(NewExercise(body).value);
      && stored.Success?
      && (body.kind == Some("cardio") ==> stored.value.kind == Cardio && stored.value.weight == 0 && stored.value.reps == 0 && stored.value.sets == 0)
      && (body.kind == Some("resistance") ==> stored.value.kind == Resistance && stored.value.distance == 0)
  {
  }

  /** PUT /api/workouts/:id. The store applies the schema to the pushed exercise;
      a rejection reaches the handler's catch and becomes status 500. */
  method PutExercise(db: WorkoutCollection, id: nat, body: ExerciseDoc) returns (response: PutResponse)
    requires db.Valid()
    modifies db
    ensures db.Valid() && db.nextId == old(db.nextId)
    ensures NewExercise(body).None? ==> response == NotImplemented && db.workouts == old(db.workouts)
    ensures NewExercise(body).Some? && ApplySchema(NewExercise(body).value).Failure? ==>
      response == ServerError(ValidationErrors(NewExercise(body).value)) && db.workouts == old(db.workouts)
    ensures NewExercise(body).Some? && ApplySchema(NewExercise(body).value).Success? ==>
      && response == UpdateResult(if id in Ids(old(db.workouts)) then 1 else 0)
      && db.workouts == PushExercise(old(db.workouts), id, ApplySchema(NewExercise(body).value).value)
  {
    var newExercise := NewExercise(body);
    if newExercise.None? {
      // Neither cardio nor resistance: answer 501 before touching the store.
      return NotImplemented;
    }
    var stored := ApplySchema(newExercise.value);
    if stored.Failure? {
      return ServerError(stored.error);
    }
    var matchedCount := db.UpdateOnePush(id, stored.value);
    response := UpdateResult(matchedCount);
  }

  // ---------------------------------------------------------------- POST /

  /** POST /api/workouts: a blank workout dated now. */
  method PostWorkout(db: WorkoutCollection, now: Instant) returns (created: Workout)
    requires db.Valid()
    modifies db
    ensures db.Valid()
    ensures created.day == now && created.exercises == [] && created.id !in Ids(old(db.workouts))
    ensures db.workouts == old(db.workouts) + [created]
  {
    created := db.Create(now, []);
  }
}

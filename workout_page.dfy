/** The workout page script, public/assets/js/workout.js: the summary of the
    workout shown (tallyExercises) and the page state that moves between days. */
module WorkoutPage {
  import opened Wrappers
  import opened Time

  /** An exercise as it arrives in the JSON of a workout. */
  datatype ExerciseJson = ExerciseJson(
    kind: string, name: string, duration: int, distance: int, weight: int, reps: int, sets: int)

  /** A workout as it arrives in JSON, including the totalDuration virtual. */
  datatype WorkoutJson = WorkoutJson(id: string, day: Instant, totalDuration: int, exercises: seq<ExerciseJson>)

  /** The reduce accumulator: a key is absent until an exercise of its type is seen. */
  datatype Tally = Tally(totalWeight: Option<int>, totalSets: Option<int>, totalReps: Option<int>, totalDistance: Option<int>)

  const NoKeys := Tally(None, None, None, None)

  /** `(acc.key || 0) + value`: an absent (or 0) key counts as 0. */
  function AddTo(key: Option<int>, value: int): int {
    key.GetOr(0) + value
  }

  /** The reducer's body, one exercise at a time. */
  function TallyStep(acc: Tally, curr: ExerciseJson): Tally {
    if curr.kind == "resistance" then
      acc.(totalWeight := Some(AddTo(acc.totalWeight, curr.weight)),
           totalSets := Some(AddTo(acc.totalSets, curr.sets)),
           totalReps := Some(AddTo(acc.totalReps, curr.reps)))
    else if curr.kind == "cardio" then
      acc.(totalDistance := Some(AddTo(acc.totalDistance, curr.distance)))
    else acc
  }

  /** exercises.reduce(step, acc), left to right. */
  function TallyFrom(acc: Tally, exercises: seq<ExerciseJson>): Tally
    decreases |exercises|
  {
    if exercises == [] then acc else TallyFrom(TallyStep(acc, exercises[0]), exercises[1..])
  }

  /** tallyExercises: the reduce started from the empty object. */
  function TallyExercises(exercises: seq<ExerciseJson>): Tally {
    TallyFrom(NoKeys, exercises)
  }

  // Sums of each field over the exercises of one type.

  predicate HasKind(exercises: seq<ExerciseJson>, kind: string) {
    exists i :: 0 <= i < |exercises| && exercises[i].kind == kind
  }

  function ResistanceWeight(exercises: seq<ExerciseJson>): int {
    if exercises == [] then 0
    else (if exercises[0].kind == "resistance" then exercises[0].weight else 0) + ResistanceWeight(exercises[1..])
  }

  function ResistanceSets(exercises: seq<ExerciseJson>): int {
    if exercises == [] then 0
    else (if exercises[0].kind == "resistance" then exercises[0].sets else 0) + ResistanceSets(exercises[1..])
  }

  function ResistanceReps(exercises: seq<ExerciseJson>): int {
    if exercises == [] then 0
    else (if exercises[0].kind == "resistance" then exercises[0].reps else 0) + ResistanceReps(exercises[1..])
  }

  function CardioDistance(exercises: seq<ExerciseJson>): int {
    if exercises == [] then 0
    else (if exercises[0].kind == "cardio" then exercises[0].distance else 0) + CardioDistance(exercises[1..])
  }

  lemma {:induction false} NoKindSumsZero(exercises: seq<ExerciseJson>)
    ensures !HasKind(exercises, "resistance") ==>
      ResistanceWeight(exercises) == 0 && ResistanceSets(exercises) == 0 && ResistanceReps(exercises) == 0
    ensures !HasKind(exercises, "cardio") ==> CardioDistance(exercises) == 0
  {
    if exercises != [] {
      NoKindSumsZero(exercises[1..]);
      forall i | 0 <= i < |exercises[1..]| ensures exercises[1..][i] == exercises[i + 1] { }
    }
  }

  /** A key that starts at `start` and receives `sum` when `seen` holds. */
  function Accumulated(start: Option<int>, seen: bool, sum: int): Option<int> {
    if seen then Some(start.GetOr(0) + sum) else start
  }

  lemma {:induction false} TallyFromTotals(acc: Tally, exercises: seq<ExerciseJson>)
    ensures var t := TallyFrom(acc, exercises);
      && t.totalWeight == Accumulated(acc.totalWeight, HasKind(exercises, "resistance"), ResistanceWeight(exercises))
      && t.totalSets == Accumulated(acc.totalSets, HasKind(exercises, "resistance"), ResistanceSets(exercises))
      && t.totalReps == Accumulated(acc.totalReps, HasKind(exercises, "resistance"), ResistanceReps(exercises))
      && t.totalDistance == Accumulated(acc.totalDistance, HasKind(exercises, "cardio"), CardioDistance(exercises))
    decreases |exercises|
  {
    if exercises != [] {
      var rest := exercises[1..];
      NoKindSumsZero(rest);
      TallyFromTotals(TallyStep(acc, exercises[0]), rest);
      assert HasKind(exercises, "resistance") <==> exercises[0].kind == "resistance" || HasKind(rest, "resistance") by {
        if HasKind(rest, "resistance") {
          var i :| 0 <= i < |rest| && rest[i].kind == "resistance";
          assert exercises[i + 1].kind == "resistance";
        }
        if HasKind(exercises, "resistance") && exercises[0].kind != "resistance" {
          var i :| 0 <= i < |exercises| && exercises[i].kind == "resistance";
          assert rest[i - 1].kind == "resistance";
        }
      }
      assert HasKind(exercises, "cardio") <==> exercises[0].kind == "cardio" || HasKind(rest, "cardio") by {
        if HasKind(rest, "cardio") {
          var i :| 0 <= i < |rest| && rest[i].kind == "cardio";
          assert exercises[i + 1].kind == "cardio";
        }
        if HasKind(exercises, "cardio") && exercises[0].kind != "cardio" {
          var i :| 0 <= i < |exercises| && exercises[i].kind == "cardio";
          assert rest[i - 1].kind == "cardio";
        }
      }
    }
  }

  /** totalWeight, totalSets and totalReps are present exactly when there is a
      resistance exercise and then sum that field over resistance exercises only;
      totalDistance likewise for cardio. An empty list tallies to no keys at all. */
  lemma TallyMeaning(exercises: seq<ExerciseJson>)
    ensures var t := TallyExercises(exercises);
      && t.totalWeight == (if HasKind(exercises, "resistance") then Some(ResistanceWeight(exercises)) else None)
      && t.totalSets == (if HasKind(exercises, "resistance") then Some(ResistanceSets(exercises)) else None)
      && t.totalReps == (if HasKind(exercises, "resistance") then Some(ResistanceReps(exercises)) else None)
      && t.totalDistance == (if HasKind(exercises, "cardio") then Some(CardioDistance(exercises)) else None)
  {
    TallyFromTotals(NoKeys, exercises);
  }

  /** Exercises of any other type are skipped: inserting one anywhere changes nothing. */
  lemma {:induction false} OtherKindIgnored(acc: Tally, before: seq<ExerciseJson>, e: ExerciseJson, after: seq<ExerciseJson>)
    requires e.kind != "resistance" && e.kind != "cardio"
    ensures TallyFrom(acc, before + [e] + after) == TallyFrom(acc, before + after)
    decreases |before|
  {
    if before == [] {
      assert before + [e] + after == [e] + after;
      assert ([e] + after)[1..] == after;
      assert before + after == after;
    } else {
      assert (before + [e] + after)[0] == before[0];
      assert (before + [e] + after)[1..] == before[1..] + [e] + after;
      assert (before + after)[1..] == before[1..] + after;
      OtherKindIgnored(TallyStep(acc, before[0]), before[1..], e, after);
    }
  }

  /** The object passed to renderWorkoutSummary. */
  datatype WorkoutSummary = WorkoutSummary(date: Instant, totalDuration: int, numExercises: int, tally: Tally)

  /** The date shown when no workout was found: one day back (start of day)
      after "P", one day on after anything else, today when there is no date yet. */
  function DateWithoutWorkout(current: Option<Instant>, operation: Option<string>, now: Instant): (r: Instant)
    ensures MsOfDay(r) == 0
    ensures current.None? ==> Day(r) == Day(now)
    ensures current.Some? && operation == Some("P") ==> Day(r) == Day(current.value) - 1
    ensures current.Some? && operation != Some("P") ==> Day(r) == Day(current.value) + 1
  {
    if current.Some? then
      if operation == Some("P") then StartOfDay(AddDays(current.value, -1))
      else StartOfDay(AddDays(current.value, 1))
    else StartOfDay(now)
  }

  /** The module-level state of the page script. */
  class Page {
    var currentWorkoutDate: Option<Instant>
    var currentOperation: Option<string>
    var currentWorkoutId: Option<string>

    constructor ()
      ensures currentWorkoutDate == None && currentOperation == None && currentWorkoutId == None
    {
      currentWorkoutDate, currentOperation, currentWorkoutId := None, None, None;
    }

    /** initWorkout, given what getLastWorkout returned and the current time:
        the summary rendered, if a workout was found. */
    method InitWorkout(lastWorkout: Option<WorkoutJson>, now: Instant) returns (summary: Option<WorkoutSummary>)
      modifies this
      ensures currentOperation == old(currentOperation)
      ensures lastWorkout.Some? ==>
        && currentWorkoutDate == Some(lastWorkout.value.day)
        && currentWorkoutId == Some(lastWorkout.value.id)
        && summary == Some(WorkoutSummary(lastWorkout.value.day, lastWorkout.value.totalDuration,
                                          |lastWorkout.value.exercises|, TallyExercises(lastWorkout.value.exercises)))
      ensures lastWorkout.None? ==>
        && currentWorkoutId == None && summary == None
        && currentWorkoutDate == Some(DateWithoutWorkout(old(currentWorkoutDate), currentOperation, now))
    {
      if lastWorkout.Some? {
        var w := lastWorkout.value;
        currentWorkoutDate := Some(w.day);
        currentWorkoutId := Some(w.id);
        summary := Some(WorkoutSummary(w.day, w.totalDuration, |w.exercises|, TallyExercises(w.exercises)));
      } else {
        currentWorkoutId := None;
        currentWorkoutDate := Some(DateWithoutWorkout(currentWorkoutDate, currentOperation, now));
        summary := None;
      }
    }

    /** previousButtonClicked: look for the previous workout. */
    method PreviousButtonClicked(lastWorkout: Option<WorkoutJson>, now: Instant) returns (summary: Option<WorkoutSummary>)
      modifies this
      ensures currentOperation == Some("P")
      ensures lastWorkout.Some? ==>
        && currentWorkoutDate == Some(lastWorkout.value.day)
        && currentWorkoutId == Some(lastWorkout.value.id)
        && summary == Some(WorkoutSummary(lastWorkout.value.day, lastWorkout.value.totalDuration,
                                          |lastWorkout.value.exercises|, TallyExercises(lastWorkout.value.exercises)))
      ensures lastWorkout.None? ==>
        && currentWorkoutId == None && summary == None
        && currentWorkoutDate == Some(DateWithoutWorkout(old(currentWorkoutDate), Some("P"), now))
    {
      currentOperation := Some("P");
      summary := InitWorkout(lastWorkout, now);
    }

    /** nextButtonClicked: look for the next workout. */
    method NextButtonClicked(lastWorkout: Option<WorkoutJson>, now: Instant) returns (summary: Option<WorkoutSummary>)
      modifies this
      ensures currentOperation == Some("N")
      ensures lastWorkout.Some? ==>
        && currentWorkoutDate == Some(lastWorkout.value.day)
        && currentWorkoutId == Some(lastWorkout.value.id)
        && summary == Some(WorkoutSummary(lastWorkout.value.day, lastWorkout.value.totalDuration,
                                          |lastWorkout.value.exercises|, TallyExercises(lastWorkout.value.exercises)))
      ensures lastWorkout.None? ==>
        && currentWorkoutId == None && summary == None
        && currentWorkoutDate == Some(DateWithoutWorkout(old(currentWorkoutDate), Some("N"), now))
    {
      currentOperation := Some("N");
      summary := InitWorkout(lastWorkout, now);
    }
  }
}

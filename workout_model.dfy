/** The Workout document of models/Workout.js: the exercise schema (type enum,
    required fields, defaults, integer validators) and the totalDuration virtual. */
module WorkoutModel {
  import opened Wrappers
  import opened Time

  datatype ExerciseType = Cardio | Resistance

  /** A numeric value in an exercise payload: absent, an integer, or a number
      that is not an integer (Number.isInteger is false for it). */
  datatype NumField = Absent | Int(n: int) | NonInteger

  /** An exercise as handed to the store, before the schema is applied: every
      field may be missing. */
  datatype ExerciseDoc = ExerciseDoc(
    kind: Option<string>,
    name: Option<string>,
    duration: NumField,
    distance: NumField,
    weight: NumField,
    reps: NumField,
    sets: NumField)

  /** A stored exercise: the schema guarantees every field is present. */
  datatype Exercise = Exercise(
    kind: ExerciseType,
    name: string,
    duration: int,
    distance: int,
    weight: int,
    reps: int,
    sets: int)

  datatype Workout = Workout(id: nat, day: Instant, exercises: seq<Exercise>)

  /** The schema paths a validation error can name. */
  datatype Path = TypePath | NamePath | DurationPath | DistancePath | WeightPath | RepsPath | SetsPath

  /** The enum ['cardio', 'resistance'] of the type path. */
  function ParseType(s: string): (r: Option<ExerciseType>)
    ensures r == Some(Cardio) <==> s == "cardio"
    ensures r == Some(Resistance) <==> s == "resistance"
  {
    if s == "cardio" then Some(Cardio)
    else if s == "resistance" then Some(Resistance)
    else None
  }

  /** A numeric path after its `default: 0` is applied. */
  function WithDefault(f: NumField): NumField {
    if f.Absent? then Int(0) else f
  }

  /** The Number.isInteger validator, which every numeric path carries. Absent
      values have been replaced by the default before it runs. */
  predicate IsIntegerValue(f: NumField) {
    WithDefault(f).Int?
  }

  /** The paths of `doc` that break the schema: a type outside the enum or
      missing, a missing or empty name (String `required`), or a numeric value
      that is not an integer. There is no range check. */
  function ValidationErrors(doc: ExerciseDoc): (errs: set<Path>)
    ensures TypePath !in errs <==> doc.kind == Some("cardio") || doc.kind == Some("resistance")
    ensures NamePath !in errs <==> doc.name.Some? && doc.name.value != ""
    ensures DurationPath !in errs <==> !doc.duration.NonInteger?
    ensures DistancePath !in errs <==> !doc.distance.NonInteger?
    ensures WeightPath !in errs <==> !doc.weight.NonInteger?
    ensures RepsPath !in errs <==> !doc.reps.NonInteger?
    ensures SetsPath !in errs <==> !doc.sets.NonInteger?
  {
    (if doc.kind.Some? && ParseType(doc.kind.value).Some? then {} else {TypePath})
    + (if doc.name.Some? && doc.name.value != "" then {} else {NamePath})
    + (if IsIntegerValue(doc.duration) then {} else {DurationPath})
    + (if IsIntegerValue(doc.distance) then {} else {DistancePath})
    + (if IsIntegerValue(doc.weight) then {} else {WeightPath})
    + (if IsIntegerValue(doc.reps) then {} else {RepsPath})
    + (if IsIntegerValue(doc.sets) then {} else {SetsPath})
  }

  /** The value stored for a numeric path that passed validation. */
  function StoredValue(f: NumField): int
    requires !f.NonInteger?
  {
    WithDefault(f).n
  }

  /** Casting a document through the schema: either the stored exercise, with
      defaults filled in, or every path that failed. */
  function ApplySchema(doc: ExerciseDoc): (r: Result<Exercise, set<Path>>)
    ensures r.Success? <==> ValidationErrors(doc) == {}
    ensures r.Failure? ==> r.error == ValidationErrors(doc) && r.error != {}
    ensures r.Success? ==>
      && Some(r.value.kind) == ParseType(doc.kind.value)
      && Some(r.value.name) == doc.name
      && r.value.duration == (if doc.duration.Int? then doc.duration.n else 0)
      && r.value.distance == (if doc.distance.Int? then doc.distance.n else 0)
      && r.value.weight == (if doc.weight.Int? then doc.weight.n else 0)
      && r.value.reps == (if doc.reps.Int? then doc.reps.n else 0)
      && r.value.sets == (if doc.sets.Int? then doc.sets.n else 0)
  {
    var errs := ValidationErrors(doc);
    if errs != {} then Failure(errs)
    else
      Success(Exercise(
        ParseType(doc.kind.value).value,
        doc.name.value,
        StoredValue(doc.duration),
        StoredValue(doc.distance),
        StoredValue(doc.weight),
        StoredValue(doc.reps),
        StoredValue(doc.sets)))
  }

  /** Integrality is the only numeric rule: any integers at all, negative or
      large, are accepted once type and name are right. */
  lemma OnlyIntegralityChecked(kind: string, name: string, duration: int, distance: int,
                               weight: int, reps: int, sets: int)
    requires kind == "cardio" || kind == "resistance"
    requires name != ""
    ensures ApplySchema(ExerciseDoc(Some(kind), Some(name), Int(duration), Int(distance),
                                    Int(weight), Int(reps), Int(sets))).Success?
  {
  }

  /** An exercise whose numeric fields are all omitted stores zeros for all of them. */
  lemma DefaultsAreZero(kind: string, name: string)
    requires kind == "cardio" || kind == "resistance"
    requires name != ""
    ensures var r := ApplySchema(ExerciseDoc(Some(kind), Some(name), Absent, Absent, Absent, Absent, Absent));
      r.Success? && r.value.duration == 0 && r.value.distance == 0
      && r.value.weight == 0 && r.value.reps == 0 && r.value.sets == 0
  {
  }

  /** Sum of the durations of a list of stored exercises, left to right. */
  function SumDurations(exercises: seq<Exercise>): int
  {
    if exercises == [] then 0
    else SumDurations(exercises[..|exercises| - 1]) + exercises[|exercises| - 1].duration
  }

  /** The totalDuration virtual: a forEach adding `element.duration || 0`.
      Stored exercises always carry an integer duration (default 0), so the
      `|| 0` fallback only ever replaces a falsy 0 by 0. */
  method TotalDuration(w: Workout) returns (totalDuration: int)
    ensures totalDuration == SumDurations(w.exercises)
  {
    totalDuration := 0;
    var i := 0;
    while i < |w.exercises|
      invariant 0 <= i <= |w.exercises|
      invariant totalDuration == SumDurations(w.exercises[..i])
    {
      var d := w.exercises[i].duration;
      totalDuration := totalDuration + (if d != 0 then d else 0);
      assert w.exercises[..i + 1][..i] == w.exercises[..i];
      i := i + 1;
    }
    assert w.exercises[..i] == w.exercises;
  }

  /** A workout without exercises totals 0. */
  lemma TotalOfEmpty(id: nat, day: Instant)
    ensures SumDurations(Workout(id, day, []).exercises) == 0
  {
  }

  /** The total of a concatenation is the sum of the totals. */
  lemma {:induction false} SumDurationsConcat(a: seq<Exercise>, b: seq<Exercise>)
    ensures SumDurations(a + b) == SumDurations(a) + SumDurations(b)
  {
    if b == [] {
      assert a + b == a;
    } else {
      var b' := b[..|b| - 1];
      assert (a + b)[..|a + b| - 1] == a + b';
      SumDurationsConcat(a, b');
    }
  }

  /** Appending an exercise raises the total by exactly that exercise's duration. */
  lemma AppendRaisesTotal(exercises: seq<Exercise>, e: Exercise)
    ensures SumDurations(exercises + [e]) == SumDurations(exercises) + e.duration
  {
    assert (exercises + [e])[..|exercises|] == exercises;
  }

  /** The total does not depend on the order in which exercises were entered. */
  lemma TotalIgnoresOrder(a: seq<Exercise>, b: seq<Exercise>)
    ensures SumDurations(a + b) == SumDurations(b + a)
  {
    SumDurationsConcat(a, b);
    SumDurationsConcat(b, a);
  }
}

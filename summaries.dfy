/** Reference semantics of the two aggregation pipelines of
    routes/workoutRoutes.js ($match the window, $unwind the exercises, $group
    with $sum, $project, $sort), written as functions over an in-memory list of
    workouts. */
module Summaries {
  import opened Wrappers
  import opened Time
  import opened WorkoutModel
  import opened Weeks

  /** One document after `$unwind: "$exercises"`: the workout's day and one of its exercises. */
  datatype Entry = Entry(day: Instant, exercise: Exercise)

  /** A row of the weekday summary. `null` in the JSON is None. */
  datatype WeekdayRow = WeekdayRow(weekDay: int, duration: Option<int>, weight: Option<int>)

  /** A row of the exercise summary. */
  datatype ExerciseRow = ExerciseRow(exerciseName: string, duration: int, weight: int)

  // ---------------------------------------------------------------- $match, $unwind

  /** The $match stage: the workouts whose day lies in the window, in store order. */
  function Match(workouts: seq<Workout>, w: Window): (r: seq<Workout>)
    ensures forall x :: x in r <==> x in workouts && InWindow(w, x.day)
  {
    if workouts == [] then []
    else (if InWindow(w, workouts[0].day) then [workouts[0]] else []) + Match(workouts[1..], w)
  }

  /** A single workout is kept exactly when its day is in the window. */
  lemma MatchOne(x: Workout, w: Window)
    ensures Match([x], w) == if InWindow(w, x.day) then [x] else []
  {
    assert [x][1..] == [];
  }

  /** The match goes through the store in order: matching a concatenation
      matches each part and keeps them in sequence. */
  lemma {:induction false} MatchConcat(a: seq<Workout>, b: seq<Workout>, w: Window)
    ensures Match(a + b, w) == Match(a, w) + Match(b, w)
  {
    if a == [] {
      assert a + b == b;
    } else {
      assert (a + b)[0] == a[0];
      assert (a + b)[1..] == a[1..] + b;
      MatchConcat(a[1..], b, w);
    }
  }

  /** Each workout in the window occurs in the result as often as in the store;
      every other workout does not occur at all. */
  lemma {:induction false} MatchCounts(workouts: seq<Workout>, w: Window)
    ensures forall x :: multiset(Match(workouts, w))[x] == if InWindow(w, x.day) then multiset(workouts)[x] else 0
  {
    if workouts != [] {
      var head, tail := workouts[0], workouts[1..];
      MatchCounts(tail, w);
      assert workouts == [head] + tail;
      assert multiset(workouts) == multiset([head]) + multiset(tail);
      var m := if InWindow(w, head.day) then [head] else [];
      assert Match(workouts, w) == m + Match(tail, w);
      assert multiset(Match(workouts, w)) == multiset(m) + multiset(Match(tail, w));
    }
  }

  /** The $unwind stage: one entry per exercise; a workout without exercises yields nothing. */
  function Unwind(workouts: seq<Workout>): seq<Entry>
  {
    if workouts == [] then []
    else UnwindOne(workouts[0]) + Unwind(workouts[1..])
  }

  function UnwindOne(w: Workout): (r: seq<Entry>)
    ensures |r| == |w.exercises|
    ensures forall i :: 0 <= i < |r| ==> r[i] == Entry(w.day, w.exercises[i])
  {
    seq(|w.exercises|, i requires 0 <= i < |w.exercises| => Entry(w.day, w.exercises[i]))
  }

  lemma {:induction false} UnwindConcat(a: seq<Workout>, b: seq<Workout>)
    ensures Unwind(a + b) == Unwind(a) + Unwind(b)
  {
    if a == [] {
      assert a + b == b;
    } else {
      assert (a + b)[1..] == a[1..] + b;
      UnwindConcat(a[1..], b);
    }
  }

  /** A workout with no exercises disappears at the unwind stage, wherever it stands. */
  lemma EmptyWorkoutVanishes(before: seq<Workout>, w: Workout, after: seq<Workout>)
    requires w.exercises == []
    ensures Unwind(before + [w] + after) == Unwind(before + after)
  {
    UnwindConcat(before + [w], after);
    UnwindConcat(before, [w]);
    UnwindConcat(before, after);
    assert Unwind([w]) == [] by {
      assert [w][1..] == [];
    }
  }

  /** The entries the pipelines group, for the window of `fromDate`. */
  function WindowEntries(workouts: seq<Workout>, fromDate: Instant): seq<Entry> {
    Unwind(Match(workouts, WeekWindow(fromDate)))
  }

  // ---------------------------------------------------------------- sums

  function SumDuration(entries: seq<Entry>): int {
    if entries == [] then 0 else entries[0].exercise.duration + SumDuration(entries[1..])
  }

  function SumWeight(entries: seq<Entry>): int {
    if entries == [] then 0 else entries[0].exercise.weight + SumWeight(entries[1..])
  }

  // ---------------------------------------------------------------- weekday summary

  /** The entries whose day falls on weekday `wd` ($dayOfWeek). */
  function EntriesOn(entries: seq<Entry>, wd: int): seq<Entry>
  {
    if entries == [] then []
    else (if DayOfWeek(entries[0].day) == wd then [entries[0]] else []) + EntriesOn(entries[1..], wd)
  }

  /** The group for weekday `wd` as the pipeline emits it. */
  function GroupRow(entries: seq<Entry>, wd: int): WeekdayRow {
    var on := EntriesOn(entries, wd);
    WeekdayRow(wd, Some(SumDuration(on)), Some(SumWeight(on)))
  }

  /** Weekdays whose rows appear in a summary. */
  function Weekdays(rows: seq<WeekdayRow>): set<int> {
    set r | r in rows :: r.weekDay
  }

  /** Strictly ascending weekdays, all in 1..7. */
  predicate SortedWeekdays(rows: seq<WeekdayRow>) {
    && (forall i :: 0 <= i < |rows| ==> 1 <= rows[i].weekDay <= 7)
    && (forall i, j :: 0 <= i < j < |rows| ==> rows[i].weekDay < rows[j].weekDay)
  }

  /** The groups for weekdays wd..7 that have at least one entry, ascending. */
  function WeekdayRowsFrom(entries: seq<Entry>, wd: int): (rows: seq<WeekdayRow>)
    requires 1 <= wd <= 8
    ensures forall i :: 0 <= i < |rows| ==> wd <= rows[i].weekDay <= 7
    ensures forall i, j :: 0 <= i < j < |rows| ==> rows[i].weekDay < rows[j].weekDay
    decreases 8 - wd
  {
    if wd == 8 then []
    else
      var rest := WeekdayRowsFrom(entries, wd + 1);
      if EntriesOn(entries, wd) != [] then [GroupRow(entries, wd)] + rest else rest
  }

  /** One step of WeekdayRowsFrom, stated on its own so the lemmas below need not unfold it. */
  lemma RowsFromStep(entries: seq<Entry>, wd: int)
    requires 1 <= wd < 8
    ensures EntriesOn(entries, wd) != [] ==>
      WeekdayRowsFrom(entries, wd) == [GroupRow(entries, wd)] + WeekdayRowsFrom(entries, wd + 1)
    ensures EntriesOn(entries, wd) == [] ==> WeekdayRowsFrom(entries, wd) == WeekdayRowsFrom(entries, wd + 1)
  {
  }

  /** Each row is the group of its weekday. */
  lemma {:induction false} WeekdayRowsAreGroups(entries: seq<Entry>, wd: int, i: int)
    requires 1 <= wd <= 8
    requires 0 <= i < |WeekdayRowsFrom(entries, wd)|
    ensures WeekdayRowsFrom(entries, wd)[i] == GroupRow(entries, WeekdayRowsFrom(entries, wd)[i].weekDay)
    decreases 8 - wd
  {
    RowsFromStep(entries, wd);
    if EntriesOn(entries, wd) == [] {
      WeekdayRowsAreGroups(entries, wd + 1, i);
    } else if i > 0 {
      WeekdayRowsAreGroups(entries, wd + 1, i - 1);
    }
  }

  /** A weekday from wd on has a row exactly when some entry falls on it. */
  lemma {:induction false} WeekdayRowsCover(entries: seq<Entry>, wd: int, d: int)
    requires 1 <= wd <= 8
    requires wd <= d <= 7
    ensures d in Weekdays(WeekdayRowsFrom(entries, wd)) <==> EntriesOn(entries, d) != []
    decreases 8 - wd
  {
    RowsFromStep(entries, wd);
    var rest := WeekdayRowsFrom(entries, wd + 1);
    AboveFirstWeekday(rest, wd);
    if EntriesOn(entries, wd) != [] {
      WeekdaysCons(GroupRow(entries, wd), rest);
    }
    if d != wd {
      WeekdayRowsCover(entries, wd + 1, d);
    }
  }

  lemma WeekdaysCons(row: WeekdayRow, rest: seq<WeekdayRow>)
    ensures Weekdays([row] + rest) == {row.weekDay} + Weekdays(rest)
  {
    var rows := [row] + rest;
    assert forall r :: r in rows <==> r == row || r in rest;
  }

  lemma AboveFirstWeekday(rows: seq<WeekdayRow>, wd: int)
    requires forall i :: 0 <= i < |rows| ==> wd < rows[i].weekDay
    ensures wd !in Weekdays(rows)
  {
    assert forall r | r in rows :: r.weekDay != wd;
  }

  /** fetchSummaryByDayOfWeek: one row per weekday that has at least one exercise
      in the window, sorted by weekDay. */
  function WeekdaySummary(entries: seq<Entry>): (rows: seq<WeekdayRow>)
    ensures SortedWeekdays(rows)
  {
    WeekdayRowsFrom(entries, 1)
  }

  /** The weekday summary holds exactly the groups of the weekdays that have entries. */
  lemma WeekdaySummaryMeaning(entries: seq<Entry>)
    ensures var rows := WeekdaySummary(entries);
      && (forall i :: 0 <= i < |rows| ==> rows[i] == GroupRow(entries, rows[i].weekDay))
      && (forall d :: 1 <= d <= 7 ==> (d in Weekdays(rows) <==> EntriesOn(entries, d) != []))
  {
    forall i | 0 <= i < |WeekdaySummary(entries)| {
      WeekdayRowsAreGroups(entries, 1, i);
    }
    forall d | 1 <= d <= 7 {
      WeekdayRowsCover(entries, 1, d);
    }
  }

  // ---------------------------------------------------------------- exercise summary

  /** The $sort order on strings: lexicographic by character code. */
  predicate Less(a: string, b: string) {
    if a == [] then b != []
    else if b == [] then false
    else if a[0] == b[0] then Less(a[1..], b[1..])
    else a[0] < b[0]
  }

  lemma {:induction false} LessIrreflexive(a: string)
    ensures !Less(a, a)
  {
    if a != [] { LessIrreflexive(a[1..]); }
  }

  lemma {:induction false} LessTransitive(a: string, b: string, c: string)
    requires Less(a, b) && Less(b, c)
    ensures Less(a, c)
  {
    if a != [] && b != [] && c != [] && a[0] == b[0] && b[0] == c[0] {
      LessTransitive(a[1..], b[1..], c[1..]);
    }
  }

  lemma {:induction false} LessTotal(a: string, b: string)
    requires a != b
    ensures Less(a, b) || Less(b, a)
  {
    if a != [] && b != [] && a[0] == b[0] {
      assert a == [a[0]] + a[1..] && b == [b[0]] + b[1..];
      LessTotal(a[1..], b[1..]);
    }
  }

  /** Strictly ascending by name, hence one row per name. */
  predicate SortedNames(rows: seq<ExerciseRow>) {
    forall i, j :: 0 <= i < j < |rows| ==> Less(rows[i].exerciseName, rows[j].exerciseName)
  }

  function RowNames(rows: seq<ExerciseRow>): set<string> {
    set r | r in rows :: r.exerciseName
  }

  function EntryNames(entries: seq<Entry>): set<string> {
    set x | x in entries :: x.exercise.name
  }

  /** Summed duration and weight of the rows carrying `name` (0 when there are none). */
  function DurationOf(rows: seq<ExerciseRow>, name: string): int {
    if rows == [] then 0
    else (if rows[0].exerciseName == name then rows[0].duration else 0) + DurationOf(rows[1..], name)
  }

  function WeightOf(rows: seq<ExerciseRow>, name: string): int {
    if rows == [] then 0
    else (if rows[0].exerciseName == name then rows[0].weight else 0) + WeightOf(rows[1..], name)
  }

  function DurationColumn(rows: seq<ExerciseRow>): int {
    if rows == [] then 0 else rows[0].duration + DurationColumn(rows[1..])
  }

  /** Adds one unwound exercise to groups kept in name order: into its group,
      or as a new group at its place in the order. */
  function AddToGroups(rows: seq<ExerciseRow>, e: Exercise): seq<ExerciseRow>
  {
    if rows == [] then
      [ExerciseRow(e.name, e.duration, e.weight)]
    else if rows[0].exerciseName == e.name then
      [ExerciseRow(e.name, rows[0].duration + e.duration, rows[0].weight + e.weight)] + rows[1..]
    else if Less(e.name, rows[0].exerciseName) then
      [ExerciseRow(e.name, e.duration, e.weight)] + rows
    else
      [rows[0]] + AddToGroups(rows[1..], e)
  }

  lemma {:induction false} AddToGroupsNames(rows: seq<ExerciseRow>, e: Exercise)
    ensures RowNames(AddToGroups(rows, e)) == RowNames(rows) + {e.name}
  {
    if rows != [] {
      assert rows == [rows[0]] + rows[1..];
      assert RowNames(rows) == {rows[0].exerciseName} + RowNames(rows[1..]);
      if rows[0].exerciseName != e.name && !Less(e.name, rows[0].exerciseName) {
        AddToGroupsNames(rows[1..], e);
        var tail := AddToGroups(rows[1..], e);
        assert RowNames([rows[0]] + tail) == {rows[0].exerciseName} + RowNames(tail);
      } else if rows[0].exerciseName == e.name {
        var r := AddToGroups(rows, e);
        assert RowNames(r) == {e.name} + RowNames(rows[1..]);
      } else {
        var r := AddToGroups(rows, e);
        assert RowNames(r) == {e.name} + RowNames(rows);
      }
    }
  }

  /** Adding an exercise keeps the groups strictly ordered by name. */
  lemma {:induction false} AddToGroupsSorted(rows: seq<ExerciseRow>, e: Exercise)
    requires SortedNames(rows)
    ensures SortedNames(AddToGroups(rows, e))
  {
    if rows == [] {
    } else if rows[0].exerciseName == e.name {
      FirstAbsentFromRest(rows);
      var r := AddToGroups(rows, e);
      assert forall i :: 0 <= i < |r| ==> r[i].exerciseName == rows[i].exerciseName;
    } else if Less(e.name, rows[0].exerciseName) {
      NewFirst(rows, e);
    } else {
      LessTotal(e.name, rows[0].exerciseName);
      assert SortedNames(rows[1..]);
      AddToGroupsSorted(rows[1..], e);
      AddToGroupsNames(rows[1..], e);
      KeepFirst(rows, e, AddToGroups(rows[1..], e));
    }
  }

  /** Adding an exercise adds its duration and weight to its own name's group
      and to nothing else. */
  lemma {:induction false} AddToGroupsSums(rows: seq<ExerciseRow>, e: Exercise, n: string)
    ensures var r := AddToGroups(rows, e);
      && DurationOf(r, n) == DurationOf(rows, n) + (if n == e.name then e.duration else 0)
      && WeightOf(r, n) == WeightOf(rows, n) + (if n == e.name then e.weight else 0)
      && DurationColumn(r) == DurationColumn(rows) + e.duration
  {
    if rows != [] && rows[0].exerciseName != e.name && !Less(e.name, rows[0].exerciseName) {
      var r := AddToGroups(rows, e);
      var tail := AddToGroups(rows[1..], e);
      assert r == [rows[0]] + tail;
      assert r[1..] == tail;
      AddToGroupsSums(rows[1..], e, n);
    } else if rows != [] && rows[0].exerciseName == e.name {
      var r := AddToGroups(rows, e);
      assert r[1..] == rows[1..];
    } else if rows != [] {
      var r := AddToGroups(rows, e);
      assert r[1..] == rows;
    }
  }

  lemma FirstAbsentFromRest(rows: seq<ExerciseRow>)
    requires SortedNames(rows) && rows != []
    ensures rows[0].exerciseName !in RowNames(rows[1..])
  {
    if rows[0].exerciseName in RowNames(rows[1..]) {
      var j :| 0 <= j < |rows[1..]| && rows[1..][j].exerciseName == rows[0].exerciseName;
      assert Less(rows[0].exerciseName, rows[j + 1].exerciseName);
      LessIrreflexive(rows[0].exerciseName);
    }
  }

  lemma NewFirst(rows: seq<ExerciseRow>, e: Exercise)
    requires SortedNames(rows) && rows != [] && Less(e.name, rows[0].exerciseName)
    ensures SortedNames([ExerciseRow(e.name, e.duration, e.weight)] + rows)
  {
    var r := [ExerciseRow(e.name, e.duration, e.weight)] + rows;
    forall i, j | 0 <= i < j < |r| ensures Less(r[i].exerciseName, r[j].exerciseName) {
      if i == 0 && j > 1 {
        LessTransitive(e.name, rows[0].exerciseName, rows[j - 1].exerciseName);
      }
    }
  }

  lemma KeepFirst(rows: seq<ExerciseRow>, e: Exercise, tail: seq<ExerciseRow>)
    requires SortedNames(rows) && rows != [] && Less(rows[0].exerciseName, e.name)
    requires SortedNames(tail)
    requires RowNames(tail) == RowNames(rows[1..]) + {e.name}
    ensures SortedNames([rows[0]] + tail)
  {
    var r := [rows[0]] + tail;
    forall i, j | 0 <= i < j < |r| ensures Less(r[i].exerciseName, r[j].exerciseName) {
      if i == 0 {
        assert tail[j - 1] in tail;
        var n := tail[j - 1].exerciseName;
        assert n in RowNames(tail);
        if n != e.name {
          var k :| 0 <= k < |rows[1..]| && rows[1..][k].exerciseName == n;
          assert Less(rows[0].exerciseName, rows[k + 1].exerciseName);
        }
      }
    }
  }

  /** $group by exercise name with $sum, then $sort by name: the entries folded
      into the ordered groups in pipeline order. */
  function GroupByName(entries: seq<Entry>): seq<ExerciseRow>
  {
    if entries == [] then []
    else AddToGroups(GroupByName(entries[..|entries| - 1]), entries[|entries| - 1].exercise)
  }

  /** What the fold keeps: ordered groups, one per name in the entries, each
      holding its name's summed duration and weight. */
  lemma {:induction false} GroupByNameFacts(entries: seq<Entry>)
    ensures SortedNames(GroupByName(entries))
    ensures RowNames(GroupByName(entries)) == EntryNames(entries)
    ensures forall n :: DurationOf(GroupByName(entries), n) == SumDuration(Named(entries, n))
    ensures forall n :: WeightOf(GroupByName(entries), n) == SumWeight(Named(entries, n))
    ensures DurationColumn(GroupByName(entries)) == SumDuration(entries)
  {
    if entries != [] {
      var init := entries[..|entries| - 1];
      var last := entries[|entries| - 1];
      assert entries == init + [last];
      GroupByNameFacts(init);
      var before := GroupByName(init);
      var rows := GroupByName(entries);
      assert rows == AddToGroups(before, last.exercise);
      AddToGroupsSorted(before, last.exercise);
      AddToGroupsNames(before, last.exercise);
      forall n ensures DurationOf(rows, n) == SumDuration(Named(entries, n))
                    && WeightOf(rows, n) == SumWeight(Named(entries, n)) {
        AddToGroupsSums(before, last.exercise, n);
        NamedConcat(init, [last], n);
        SumsConcat(Named(init, n), Named([last], n));
      }
      AddToGroupsSums(before, last.exercise, "");
      SumsConcat(init, [last]);
      assert EntryNames(entries) == EntryNames(init) + {last.exercise.name};
    }
  }

  /** The entries for one exercise name. */
  function Named(entries: seq<Entry>, name: string): seq<Entry> {
    if entries == [] then []
    else (if entries[0].exercise.name == name then [entries[0]] else []) + Named(entries[1..], name)
  }

  lemma {:induction false} NamedConcat(a: seq<Entry>, b: seq<Entry>, n: string)
    ensures Named(a + b, n) == Named(a, n) + Named(b, n)
  {
    if a == [] {
      assert a + b == b;
    } else {
      assert (a + b)[1..] == a[1..] + b;
      assert (a + b)[0] == a[0];
      NamedConcat(a[1..], b, n);
      var head := if a[0].exercise.name == n then [a[0]] else [];
      assert Named(a + b, n) == head + Named(a[1..] + b, n);
      assert Named(a, n) == head + Named(a[1..], n);
    }
  }

  lemma {:induction false} SumsConcat(a: seq<Entry>, b: seq<Entry>)
    ensures SumDuration(a + b) == SumDuration(a) + SumDuration(b)
    ensures SumWeight(a + b) == SumWeight(a) + SumWeight(b)
  {
    if a == [] {
      assert a + b == b;
    } else {
      assert (a + b)[1..] == a[1..] + b;
      SumsConcat(a[1..], b);
    }
  }

  /** In rows with distinct names, a row's own duration is all the rows say about its name. */
  lemma {:induction false} DurationOfRow(rows: seq<ExerciseRow>, i: int)
    requires SortedNames(rows) && 0 <= i < |rows|
    ensures DurationOf(rows, rows[i].exerciseName) == rows[i].duration
    ensures WeightOf(rows, rows[i].exerciseName) == rows[i].weight
  {
    var n := rows[i].exerciseName;
    if i == 0 {
      FirstAbsentFromRest(rows);
      AbsentNameSumsZero(rows[1..], n);
    } else {
      assert Less(rows[0].exerciseName, n);
      LessIrreflexive(n);
      DurationOfRow(rows[1..], i - 1);
    }
  }

  lemma {:induction false} AbsentNameSumsZero(rows: seq<ExerciseRow>, n: string)
    requires n !in RowNames(rows)
    ensures DurationOf(rows, n) == 0 && WeightOf(rows, n) == 0
  {
    if rows != [] {
      assert rows[0] in rows;
      assert RowNames(rows[1..]) <= RowNames(rows);
      AbsentNameSumsZero(rows[1..], n);
    }
  }

  /** fetchSummaryByExerciseName: one row per distinct exercise name in the
      window, strictly ascending by name, holding that name's summed duration
      and weight; the duration column adds up to the window's total duration. */
  lemma ExerciseSummaryMeaning(entries: seq<Entry>)
    ensures var rows := GroupByName(entries);
      && SortedNames(rows)
      && RowNames(rows) == EntryNames(entries)
      && DurationColumn(rows) == SumDuration(entries)
      && forall i :: 0 <= i < |rows| ==>
           rows[i].duration == SumDuration(Named(entries, rows[i].exerciseName))
           && rows[i].weight == SumWeight(Named(entries, rows[i].exerciseName))
  {
    GroupByNameFacts(entries);
    var rows := GroupByName(entries);
    forall i | 0 <= i < |rows|
      ensures rows[i].duration == SumDuration(Named(entries, rows[i].exerciseName))
           && rows[i].weight == SumWeight(Named(entries, rows[i].exerciseName))
    {
      DurationOfRow(rows, i);
    }
  }

  // ---------------------------------------------------------------- link to totalDuration

  /** The durations of a workout's unwound entries add up to its totalDuration. */
  lemma {:induction false} UnwindOneDuration(w: Workout)
    ensures SumDuration(UnwindOne(w)) == SumDurations(w.exercises)
    decreases |w.exercises|
  {
    if w.exercises != [] {
      var n := |w.exercises|;
      var shorter := w.(exercises := w.exercises[..n - 1]);
      var last := Entry(w.day, w.exercises[n - 1]);
      UnwindOneDuration(shorter);
      assert UnwindOne(w) == UnwindOne(shorter) + [last];
      SumsConcat(UnwindOne(shorter), [last]);
      assert [last][1..] == [];
    }
  }

  /** The sum of the totalDuration virtuals of a list of workouts. */
  function SumOfTotals(workouts: seq<Workout>): int {
    if workouts == [] then 0 else SumDurations(workouts[0].exercises) + SumOfTotals(workouts[1..])
  }

  /** The summed duration after the unwind is the sum of the workouts' totalDuration. */
  lemma {:induction false} UnwindDuration(workouts: seq<Workout>)
    ensures SumDuration(Unwind(workouts)) == SumOfTotals(workouts)
  {
    if workouts != [] {
      UnwindDuration(workouts[1..]);
      UnwindOneDuration(workouts[0]);
      SumsConcat(UnwindOne(workouts[0]), Unwind(workouts[1..]));
    }
  }

  /** The exercise summary's duration column equals the totalDuration of the
      workouts in the window, added up. */
  lemma WeekDurationIsTotals(workouts: seq<Workout>, fromDate: Instant)
    ensures DurationColumn(GroupByName(WindowEntries(workouts, fromDate)))
         == SumOfTotals(Match(workouts, WeekWindow(fromDate)))
  {
    GroupByNameFacts(WindowEntries(workouts, fromDate));
    UnwindDuration(Match(workouts, WeekWindow(fromDate)));
  }
}

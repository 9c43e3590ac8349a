/** populateMissingWeekdays of routes/workoutRoutes.js: a forEach records the
    weekdays present in the dataset, then a loop over indices 0..6 splices a
    row with null duration and weight in at every index whose weekday is
    missing. */
module GapFill {
  import opened Wrappers
  import opened Summaries

  /** The JavaScript array the aggregation returns, which the function updates in place. */
  class DataSet {
    var rows: seq<WeekdayRow>

    constructor (rows: seq<WeekdayRow>)
      ensures this.rows == rows
    {
      this.rows := rows;
    }
  }

  /** The placeholder spliced in for a missing weekday. */
  function NullRow(weekDay: int): WeekdayRow {
    WeekdayRow(weekDay, None, None)
  }

  /** Array.prototype.splice(index, 0, x): inserts x before position index, or
      appends it when index is past the end. */
  function Splice(s: seq<WeekdayRow>, index: nat, x: WeekdayRow): (r: seq<WeekdayRow>)
    ensures |r| == |s| + 1
    ensures index <= |s| ==> r[..index] == s[..index] && r[index] == x && r[index + 1..] == s[index..]
  {
    if index <= |s| then s[..index] + [x] + s[index..] else s + [x]
  }

  /** One pass of the for loop: index k tests weekday k + 1. */
  function Step(s: seq<WeekdayRow>, present: set<int>, k: nat): seq<WeekdayRow> {
    if k + 1 in present then s else Splice(s, k, NullRow(k + 1))
  }

  /** The dataset after the first k passes of the for loop. */
  function FillUpTo(s: seq<WeekdayRow>, present: set<int>, k: nat): seq<WeekdayRow> {
    if k == 0 then s else Step(FillUpTo(s, present, k - 1), present, k - 1)
  }

  /** The dataset after the whole function has run on a non-null dataset. */
  function Filled(s: seq<WeekdayRow>): seq<WeekdayRow> {
    FillUpTo(s, Weekdays(s), 7)
  }

  method PopulateMissingWeekdays(dataSet: DataSet?)
    modifies dataSet
    ensures dataSet == null || dataSet.rows == Filled(old(dataSet.rows))
  {
    if dataSet == null {
      return;
    }
    // First pass: record every weekday code that has a row.
    var weekdayMap: map<int, bool> := map[];
    var i := 0;
    while i < |dataSet.rows|
      invariant 0 <= i <= |dataSet.rows|
      invariant dataSet.rows == old(dataSet.rows)
      invariant weekdayMap.Keys == Weekdays(dataSet.rows[..i])
      invariant forall d :: d in weekdayMap ==> weekdayMap[d]
    {
      assert dataSet.rows[..i + 1] == dataSet.rows[..i] + [dataSet.rows[i]];
      weekdayMap := weekdayMap[dataSet.rows[i].weekDay := true];
      i := i + 1;
    }
    assert dataSet.rows[..i] == dataSet.rows;
    ghost var present := Weekdays(dataSet.rows);
    // Second pass: insert a null row at position index for each unrecorded code index + 1.
    for index := 0 to 7
      invariant dataSet.rows == FillUpTo(old(dataSet.rows), present, index)
    {
      var seen := index + 1 in weekdayMap && weekdayMap[index + 1];
      if !seen {
        dataSet.rows := Splice(dataSet.rows, index, NullRow(index + 1));
      }
    }
  }

  // ---------------------------------------------------------------- what the loop achieves

  /** The rows of s with weekday above k, in order. */
  function Above(s: seq<WeekdayRow>, k: int): seq<WeekdayRow>
  {
    if s == [] then []
    else (if s[0].weekDay > k then [s[0]] else []) + Above(s[1..], k)
  }

  lemma {:induction false} AboveFrom(s: seq<WeekdayRow>, k: int)
    ensures forall x :: x in Above(s, k) ==> x in s
  {
    if s != [] {
      AboveFrom(s[1..], k);
    }
  }

  lemma {:induction false} AboveAll(s: seq<WeekdayRow>, k: int)
    requires forall i :: 0 <= i < |s| ==> s[i].weekDay > k
    ensures Above(s, k) == s
  {
    if s != [] {
      AboveAll(s[1..], k);
    }
  }

  lemma {:induction false} AboveNone(s: seq<WeekdayRow>, k: int)
    requires forall i :: 0 <= i < |s| ==> s[i].weekDay <= k
    ensures Above(s, k) == []
  {
    if s != [] {
      AboveNone(s[1..], k);
    }
  }

  /** Passing weekday k + 1: in sorted rows, the rows above k are the row for
      k + 1 (when there is one) followed by the rows above k + 1. */
  lemma {:induction false} AboveNext(s: seq<WeekdayRow>, k: int)
    requires SortedWeekdays(s)
    ensures k + 1 in Weekdays(s) ==>
      Above(s, k) != [] && Above(s, k)[0].weekDay == k + 1 && Above(s, k)[1..] == Above(s, k + 1)
    ensures k + 1 !in Weekdays(s) ==> Above(s, k) == Above(s, k + 1)
  {
    if s == [] {
      assert Weekdays(s) == {};
    } else {
      var t := s[1..];
      assert SortedWeekdays(t);
      assert Weekdays(s) == {s[0].weekDay} + Weekdays(t) by {
        assert s == [s[0]] + t;
      }
      if s[0].weekDay > k + 1 {
        AboveHigh(s, k);
      } else if s[0].weekDay == k + 1 {
        AboveAt(s, k);
      } else {
        AboveNext(t, k);
        assert Above(s, k) == Above(t, k);
        assert Above(s, k + 1) == Above(t, k + 1);
      }
    }
  }

  lemma AboveHigh(s: seq<WeekdayRow>, k: int)
    requires SortedWeekdays(s) && s != [] && s[0].weekDay > k + 1
    ensures k + 1 !in Weekdays(s) && Above(s, k) == s && Above(s, k + 1) == s
  {
    assert forall i :: 0 <= i < |s| ==> s[i].weekDay > k + 1 by {
      forall i | 0 < i < |s| ensures s[i].weekDay > k + 1 {
        assert s[0].weekDay < s[i].weekDay;
      }
    }
    AboveAll(s, k + 1);
    AboveAll(s, k);
  }

  lemma AboveAt(s: seq<WeekdayRow>, k: int)
    requires SortedWeekdays(s) && s != [] && s[0].weekDay == k + 1
    ensures Above(s, k) == [s[0]] + s[1..] && Above(s, k + 1) == s[1..]
  {
    var t := s[1..];
    assert forall i :: 0 <= i < |t| ==> t[i].weekDay > k + 1 by {
      forall i | 0 <= i < |t| ensures t[i].weekDay > k + 1 {
        assert s[0].weekDay < s[i + 1].weekDay;
      }
    }
    AboveAll(t, k + 1);
    AboveAll(t, k);
  }

  /** The state after k passes, for sorted rows with distinct weekdays in 1..7:
      positions 0..k-1 hold weekdays 1..k, each either its original row or a
      null row, and the rest is the original rows above k. */
  ghost predicate FillState(s: seq<WeekdayRow>, t: seq<WeekdayRow>, k: nat) {
    && |t| == k + |Above(s, k)| && t[k..] == Above(s, k)
    && (forall j :: 0 <= j < k ==> t[j].weekDay == j + 1)
    && (forall j :: 0 <= j < k && j + 1 !in Weekdays(s) ==> t[j] == NullRow(j + 1))
    && (forall i :: 0 <= i < |s| && 1 <= s[i].weekDay <= k ==> t[s[i].weekDay - 1] == s[i])
  }

  lemma {:induction false} FillInvariant(s: seq<WeekdayRow>, k: nat)
    requires SortedWeekdays(s) && k <= 7
    ensures FillState(s, FillUpTo(s, Weekdays(s), k), k)
  {
    if k == 0 {
      AboveAll(s, 0);
    } else {
      FillInvariant(s, k - 1);
      var t := FillUpTo(s, Weekdays(s), k - 1);
      if k in Weekdays(s) {
        KeepStep(s, t, k - 1);
      } else {
        InsertStep(s, t, k - 1);
      }
    }
  }

  /** Weekday k + 1 is present: its row is already next in line. */
  lemma KeepStep(s: seq<WeekdayRow>, t: seq<WeekdayRow>, k: nat)
    requires SortedWeekdays(s) && FillState(s, t, k) && k + 1 in Weekdays(s)
    ensures FillState(s, t, k + 1)
  {
    AboveNext(s, k);
    AboveFrom(s, k);
    var x := Above(s, k)[0];
    assert x == t[k];
    assert x in Above(s, k);
    var ix :| 0 <= ix < |s| && s[ix] == x;
    forall i | 0 <= i < |s| && s[i].weekDay == k + 1
      ensures t[k] == s[i]
    {
      assert !(i < ix) && !(ix < i);
    }
    assert t[k + 1..] == t[k..][1..];
  }

  /** Weekday k + 1 is missing: a null row goes in at index k. */
  lemma InsertStep(s: seq<WeekdayRow>, t: seq<WeekdayRow>, k: nat)
    requires SortedWeekdays(s) && FillState(s, t, k) && k + 1 !in Weekdays(s)
    ensures FillState(s, Splice(t, k, NullRow(k + 1)), k + 1)
  {
    AboveNext(s, k);
    var t' := Splice(t, k, NullRow(k + 1));
    assert t'[k + 1..] == t[k..];
    forall j | 0 <= j < k
      ensures t'[j] == t[j]
    {
      assert t'[j] == t'[..k][j];
    }
    forall i | 0 <= i < |s| && s[i].weekDay <= k + 1
      ensures t'[s[i].weekDay - 1] == s[i]
    {
      assert s[i] in s;
      assert s[i].weekDay != k + 1;
    }
  }

  /** Gap-filling a sorted dataset with distinct weekdays in 1..7 yields exactly
      seven rows, the i-th for weekday i + 1; every original row keeps its
      values and lands at its weekday's position (so their order is kept), and
      every other position is a null row. */
  lemma FilledWeek(s: seq<WeekdayRow>)
    requires SortedWeekdays(s)
    ensures |Filled(s)| == 7
    ensures forall j :: 0 <= j < 7 ==> Filled(s)[j].weekDay == j + 1
    ensures forall i :: 0 <= i < |s| ==> Filled(s)[s[i].weekDay - 1] == s[i]
    ensures forall j :: 0 <= j < 7 && j + 1 !in Weekdays(s) ==> Filled(s)[j] == NullRow(j + 1)
  {
    FillInvariant(s, 7);
    AboveNone(s, 7);
  }

  /** With no data in the week, the result is seven null rows. */
  lemma FilledEmpty()
    ensures Filled([]) == [NullRow(1), NullRow(2), NullRow(3), NullRow(4), NullRow(5), NullRow(6), NullRow(7)]
  {
    FilledWeek([]);
  }

  /** A complete week is left as it is: gap-filling twice is gap-filling once. */
  lemma FilledIdempotent(s: seq<WeekdayRow>)
    requires SortedWeekdays(s)
    ensures Filled(Filled(s)) == Filled(s)
  {
    FilledWeek(s);
    var t := Filled(s);
    assert SortedWeekdays(t);
    forall d | 1 <= d <= 7 ensures d in Weekdays(t) {
      assert t[d - 1] in t;
    }
    NothingInserted(t, Weekdays(t), 7);
  }

  lemma {:induction false} NothingInserted(t: seq<WeekdayRow>, present: set<int>, k: nat)
    requires forall d :: 1 <= d <= k ==> d in present
    ensures FillUpTo(t, present, k) == t
  {
    if k > 0 {
      NothingInserted(t, present, k - 1);
    }
  }
}

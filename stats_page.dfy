/** The statistics page script, public/assets/js/stats.js: the selected date,
    its one-week stepping, and how the weekday summary becomes chart data. */
module StatsPage {
  import opened Wrappers
  import opened Time
  import opened Weeks
  import opened Summaries
  import opened GapFill
  import opened WorkoutRoutes

  /** fetchFromDataSet: the values of one column, or [] for a null dataset. */
  function FetchFromDataSet<R, V>(dataSet: Option<seq<R>>, column: R -> V): (values: seq<V>)
    ensures dataSet.None? ==> values == []
    ensures dataSet.Some? ==> |values| == |dataSet.value|
    ensures dataSet.Some? ==> forall i :: 0 <= i < |values| ==> values[i] == column(dataSet.value[i])
    decreases if dataSet.Some? then |dataSet.value| else 0
  {
    if dataSet.None? || dataSet.value == [] then []
    else [column(dataSet.value[0])] + FetchFromDataSet(Some(dataSet.value[1..]), column)
  }

  /** The labels of the line and bar charts, in order. */
  const WeekdayLabels: seq<string> := ["Sunday", "Monday", "Tuesday", "Wednesday", "Thursday", "Friday", "Saturday"]

  /** The name of a day counted from day 0, a Thursday. */
  function CalendarName(d: int): string {
    ["Thursday", "Friday", "Saturday", "Sunday", "Monday", "Tuesday", "Wednesday"][d % 7]
  }

  /** The label at position $dayOfWeek - 1 is the real name of the day, so
      label i and weekday row i (weekDay i + 1) speak of the same day. */
  lemma LabelsNameWeekdays(t: Instant)
    ensures WeekdayLabels[DayOfWeek(t) - 1] == CalendarName(Day(t))
  {
    var d := Day(t);
    var r := d % 7;
    assert d == 7 * (d / 7) + r;
    assert (d + 4) % 7 == (r + 4) % 7 by {
      assert d + 4 == 7 * (d / 7) + (r + 4);
    }
  }

  /** The duration and weight series drawn against the labels: one value per
      label, the value for label i being weekday i + 1's summed duration
      (weight), or null when nothing was logged that weekday. */
  lemma WeekdayChartSeries(entries: seq<Entry>)
    ensures var durations := FetchFromDataSet(Some(Filled(WeekdaySummary(entries))), (r: WeekdayRow) => r.duration);
      && |durations| == |WeekdayLabels|
      && forall i :: 0 <= i < |durations| ==>
           durations[i] == (if EntriesOn(entries, i + 1) != [] then Some(SumDuration(EntriesOn(entries, i + 1))) else None)
    ensures var weights := FetchFromDataSet(Some(Filled(WeekdaySummary(entries))), (r: WeekdayRow) => r.weight);
      && |weights| == |WeekdayLabels|
      && forall i :: 0 <= i < |weights| ==>
           weights[i] == (if EntriesOn(entries, i + 1) != [] then Some(SumWeight(EntriesOn(entries, i + 1))) else None)
  {
    FilledSummary(entries);
  }

  /** The page's module-level state. */
  class Stats {
    var selectedDate: Instant

    /** selectedDate starts as today at the start of the day. */
    constructor (now: Instant)
      ensures selectedDate == StartOfDay(now)
    {
      selectedDate := StartOfDay(now);
    }

    /** The week loadStats asks the server for. */
    function ShownWeek(): Window
      reads this
    {
      WeekWindow(selectedDate)
    }

    /** previousButtonClicked: one week back, and the shown window with it. */
    method PreviousButtonClicked()
      modifies this
      ensures selectedDate == old(selectedDate) - MsPerWeek
      ensures ShownWeek() == Window(old(ShownWeek()).start - MsPerWeek, old(ShownWeek()).end - MsPerWeek)
    {
      WindowShift(selectedDate, -1);
      selectedDate := selectedDate - MsPerWeek;
    }

    /** nextButtonClicked: one week on, and the shown window with it. */
    method NextButtonClicked()
      modifies this
      ensures selectedDate == old(selectedDate) + MsPerWeek
      ensures ShownWeek() == Window(old(ShownWeek()).start + MsPerWeek, old(ShownWeek()).end + MsPerWeek)
    {
      WindowShift(selectedDate, 1);
      selectedDate := selectedDate + MsPerWeek;
    }
  }

  /** Previous then next puts the page back on the date it started from. */
  method PreviousThenNext(page: Stats)
    modifies page
    ensures page.selectedDate == old(page.selectedDate)
  {
    page.PreviousButtonClicked();
    page.NextButtonClicked();
  }
}

/** The reporting week computed by the range handler of routes/workoutRoutes.js.
    The handler takes the ISO-week Monday of `fromDate`, steps back one day and
    goes to the start of that day, so the window it matches runs from Sunday
    00:00:00.000 to the following Saturday 23:59:59.999, both ends inclusive. */
module Weeks {
  import opened Time

  datatype Window = Window(start: Instant, end: Instant)

  /** moment(t).startOf('isoWeek'): 00:00 on the Monday of t's ISO week. */
  function IsoWeekStart(t: Instant): (r: Instant)
    ensures IsoWeekday(r) == 1 && MsOfDay(r) == 0
    ensures 0 <= Day(t) - Day(r) < 7
  {
    StartOfDay(AddDays(t, -(IsoWeekday(t) - 1)))
  }

  /** The number of ISO weeks (Monday to Sunday) since the one holding day 0. */
  function IsoWeekNumber(t: Instant): int {
    (Day(t) + 3) / 7
  }

  /** weekStartDate and weekEndDate of the range handler. */
  function WeekWindow(fromDate: Instant): (w: Window)
    ensures DayOfWeek(w.start) == 1 && MsOfDay(w.start) == 0
    ensures DayOfWeek(w.end) == 7 && MsOfDay(w.end) == MsPerDay - 1
    ensures Day(w.start) == Day(IsoWeekStart(fromDate)) - 1
    ensures Day(w.end) == Day(w.start) + 6
  {
    var weekStartDate := StartOfDay(AddDays(IsoWeekStart(fromDate), -1));
    var weekEndDate := EndOfDay(AddDays(AddDays(weekStartDate, 7), -1));
    Window(weekStartDate, weekEndDate)
  }

  /** The store's match: $gte the start and $lte the end. */
  predicate InWindow(w: Window, t: Instant) {
    w.start <= t <= w.end
  }

  /** The first day of the window is 7 * IsoWeekNumber - 4, a Sunday. */
  lemma {:induction false} WindowStartDay(fromDate: Instant)
    ensures Day(WeekWindow(fromDate).start) == 7 * IsoWeekNumber(fromDate) - 4
  {
    var d := Day(fromDate);
    assert d + 3 == 7 * ((d + 3) / 7) + (d + 3) % 7;
    assert Day(IsoWeekStart(fromDate)) == d - (IsoWeekday(fromDate) - 1);
  }

  /** The window always spans exactly six days and 23:59:59.999. */
  lemma WindowLength(fromDate: Instant)
    ensures WeekWindow(fromDate).end - WeekWindow(fromDate).start == MsPerWeek - 1
  {
    var w := WeekWindow(fromDate);
    SplitAt(w.start);
    SplitAt(w.end);
  }

  /** Two dates give the same window exactly when they lie in the same ISO week. */
  lemma SameIsoWeekSameWindow(t1: Instant, t2: Instant)
    ensures WeekWindow(t1) == WeekWindow(t2) <==> IsoWeekNumber(t1) == IsoWeekNumber(t2)
  {
    WindowStartDay(t1);
    WindowStartDay(t2);
    var w1, w2 := WeekWindow(t1), WeekWindow(t2);
    SplitAt(w1.start);
    SplitAt(w2.start);
    SplitAt(w1.end);
    SplitAt(w2.end);
  }

  /** An instant lies in a window exactly when its day is one of the window's seven days. */
  lemma InWindowByDay(fromDate: Instant, t: Instant)
    ensures InWindow(WeekWindow(fromDate), t)
        <==> Day(WeekWindow(fromDate).start) <= Day(t) <= Day(WeekWindow(fromDate).start) + 6
  {
    var w := WeekWindow(fromDate);
    SplitAt(w.start);
    SplitAt(w.end);
    SplitAt(t);
  }

  /** A date lies inside its own window unless it is a Sunday: a Sunday's window
      is the one that ended the Saturday before. */
  lemma {:induction false} OwnWindow(t: Instant)
    ensures InWindow(WeekWindow(t), t) <==> DayOfWeek(t) != 1
  {
    InWindowByDay(t, t);
    WindowStartDay(t);
    var d := Day(t);
    assert d + 3 == 7 * IsoWeekNumber(t) + (d + 3) % 7;
    assert d + 4 == 7 * IsoWeekNumber(t) + (d + 3) % 7 + 1;
    if (d + 3) % 7 == 6 {
      assert (d + 4) % 7 == 0;
    } else {
      assert (d + 4) % 7 == (d + 3) % 7 + 1;
    }
  }

  /** Moving the date by a whole week moves its window by exactly one week. */
  lemma {:induction false} WindowShift(t: Instant, weeks: int)
    ensures WeekWindow(t + weeks * MsPerWeek).start == WeekWindow(t).start + weeks * MsPerWeek
    ensures WeekWindow(t + weeks * MsPerWeek).end == WeekWindow(t).end + weeks * MsPerWeek
  {
    var t' := t + weeks * MsPerWeek;
    assert t' == AddDays(t, 7 * weeks);
    assert Day(t') == Day(t) + 7 * weeks;
    assert IsoWeekNumber(t') == IsoWeekNumber(t) + weeks by {
      assert Day(t') + 3 == (Day(t) + 3) + 7 * weeks;
    }
    WindowStartDay(t);
    WindowStartDay(t');
    var w, w' := WeekWindow(t), WeekWindow(t');
    SplitAt(w.start);
    SplitAt(w'.start);
    SplitAt(w.end);
    SplitAt(w'.end);
  }
}

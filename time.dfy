/** Instants and calendar days, standing in for the moment.js values the
    application works with. An instant is a whole number of milliseconds since
    00:00:00.000 UTC of day 0; day 0 is a Thursday (1970-01-01). Time zones and
    daylight-saving shifts are not modelled: every day has exactly MsPerDay
    milliseconds. */
module Time {

  type Instant = int

  const MsPerDay: int := 86_400_000
  const MsPerWeek: int := 7 * MsPerDay

  /** The day number an instant falls on (division rounds down, also before day 0). */
  function Day(t: Instant): int {
    t / MsPerDay
  }

  /** Milliseconds elapsed since the start of the instant's day. */
  function MsOfDay(t: Instant): int {
    t % MsPerDay
  }

  /** The instant `ms` milliseconds into day `d`. */
  function At(d: int, ms: int): Instant {
    d * MsPerDay + ms
  }

  /** Every instant splits uniquely into a day and a millisecond of that day. */
  lemma AtSplits(d: int, ms: int)
    requires 0 <= ms < MsPerDay
    ensures Day(At(d, ms)) == d && MsOfDay(At(d, ms)) == ms
  {
  }

  lemma SplitAt(t: Instant)
    ensures 0 <= MsOfDay(t) < MsPerDay && t == At(Day(t), MsOfDay(t))
  {
  }

  /** moment(t).startOf('day') */
  function StartOfDay(t: Instant): (r: Instant)
    ensures Day(r) == Day(t) && MsOfDay(r) == 0
    ensures r <= t < r + MsPerDay
  {
    AtSplits(Day(t), 0);
    At(Day(t), 0)
  }

  /** moment(t).endOf('day'): the last millisecond of the instant's day. */
  function EndOfDay(t: Instant): (r: Instant)
    ensures Day(r) == Day(t) && MsOfDay(r) == MsPerDay - 1
    ensures t <= r < t + MsPerDay
  {
    AtSplits(Day(t), MsPerDay - 1);
    At(Day(t), MsPerDay - 1)
  }

  /** moment(t).add(n, 'days'); a negative n subtracts. */
  function AddDays(t: Instant, n: int): (r: Instant)
    ensures Day(r) == Day(t) + n && MsOfDay(r) == MsOfDay(t)
  {
    AtSplits(Day(t) + n, MsOfDay(t));
    t + n * MsPerDay
  }

  /** The store's $dayOfWeek: 1 = Sunday, 2 = Monday, ..., 7 = Saturday. */
  function DayOfWeek(t: Instant): (w: int)
    ensures 1 <= w <= 7
  {
    (Day(t) + 4) % 7 + 1
  }

  /** moment's isoWeekday(): 1 = Monday, ..., 7 = Sunday. */
  function IsoWeekday(t: Instant): (w: int)
    ensures 1 <= w <= 7
  {
    (Day(t) + 3) % 7 + 1
  }

  /** The two weekday numberings name the same day. */
  lemma {:induction false} WeekdayNumberings(t: Instant)
    ensures DayOfWeek(t) == IsoWeekday(t) % 7 + 1
  {
    var d := Day(t);
    var q := (d + 3) / 7;
    var r := (d + 3) % 7;
    assert d + 4 == 7 * q + (r + 1);
    if r == 6 {
      assert d + 4 == 7 * (q + 1) + 0;
    } else {
      assert 0 <= r + 1 < 7;
    }
  }
}

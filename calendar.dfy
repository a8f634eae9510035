/**
 * The proleptic Gregorian calendar arithmetic the schedule relies on: weekdays, month
 * lengths, the n-th weekday of a month (as chrono's `NaiveDate::from_weekday_of_month_opt`
 * computes it) and the local time of day.
 */
module Calendar {
  import opened Wrappers

  datatype Weekday = Mon | Tue | Wed | Thu | Fri | Sat | Sun

  /** chrono's `num_days_from_monday`. */
  function DaysFromMonday(w: Weekday): (r: nat)
    ensures r < 7
  {
    match w
    case Mon => 0
    case Tue => 1
    case Wed => 2
    case Thu => 3
    case Fri => 4
    case Sat => 5
    case Sun => 6
  }

  function WeekdayFromMonday(i: nat): (w: Weekday)
    requires i < 7
    ensures DaysFromMonday(w) == i
  {
    if i == 0 then Mon
    else if i == 1 then Tue
    else if i == 2 then Wed
    else if i == 3 then Thu
    else if i == 4 then Fri
    else if i == 5 then Sat
    else Sun
  }

  /** chrono's `Month`, as its `number_from_month`. */
  type Month = m: nat | 1 <= m <= 12 witness 1

  predicate IsLeapYear(y: int) {
    y % 4 == 0 && (y % 100 != 0 || y % 400 == 0)
  }

  function DaysInMonth(y: int, m: Month): (r: nat)
    ensures 28 <= r <= 31
  {
    if m == 2 then (if IsLeapYear(y) then 29 else 28)
    else if m == 4 || m == 6 || m == 9 || m == 11 then 30
    else 31
  }

  /** Days in the months of year `y` before month `m`. */
  function DaysBeforeMonth(y: int, m: Month): nat {
    if m == 1 then 0 else DaysBeforeMonth(y, m - 1) + DaysInMonth(y, m - 1)
  }

  /** Days from 0001-01-01 to the first of January of year `y` (negative before year 1). */
  function DaysBeforeYear(y: int): int {
    var p := y - 1;
    365 * p + p / 4 - p / 100 + p / 400
  }

  /** Days from 0001-01-01, a Monday, to the given day. */
  function DayNumber(y: int, m: Month, d: int): int {
    DaysBeforeYear(y) + DaysBeforeMonth(y, m) + d - 1
  }

  function WeekdayOf(y: int, m: Month, d: int): Weekday {
    WeekdayFromMonday(DayNumber(y, m, d) % 7)
  }

  /** A local calendar date as chrono's `Date<Local>` carries it. */
  datatype CalendarDate = CalendarDate(year: int, month: Month, day: nat)
  {
    predicate Valid() {
      1 <= day <= DaysInMonth(year, month)
    }

    function Weekday(): Weekday {
      WeekdayOf(year, month, day)
    }
  }

  /**
   * The day of month of the `n`-th `wd` of month `m` in year `y`, or None when `n` is 0
   * or the month has fewer than `n` such weekdays.
   */
  function NthWeekdayOfMonth(y: int, m: Month, wd: Weekday, n: nat): (r: Option<nat>)
    ensures r.Some? ==> 1 <= r.value <= DaysInMonth(y, m)
    ensures r.Some? ==> WeekdayOf(y, m, r.value) == wd && (r.value - 1) / 7 + 1 == n
  {
    if n == 0 then None
    else
      var first := 1 + (DaysFromMonday(wd) - DaysFromMonday(WeekdayOf(y, m, 1)) + 7) % 7;
      var d := first + 7 * (n - 1);
      if d <= DaysInMonth(y, m) then
        NthWeekdayHasWeekday(y, m, wd, n);
        Some(d)
      else None
  }

  lemma NthWeekdayHasWeekday(y: int, m: Month, wd: Weekday, n: nat)
    requires n >= 1
    ensures var first := 1 + (DaysFromMonday(wd) - DaysFromMonday(WeekdayOf(y, m, 1)) + 7) % 7;
            var d := first + 7 * (n - 1);
            WeekdayOf(y, m, d) == wd && (d - 1) / 7 + 1 == n
  {
    var w1 := DaysFromMonday(WeekdayOf(y, m, 1));
    var k := (DaysFromMonday(wd) - w1 + 7) % 7;
    var n1 := DayNumber(y, m, 1);
    var d := 1 + k + 7 * (n - 1);
    DayNumberShift(y, m, d);
    ShiftMod7(n1, w1, DaysFromMonday(wd), k, n - 1);
    WeekdayRoundTrip(wd);
  }

  /** Moving `d - 1` days on within a month moves the day number by as much. */
  lemma DayNumberShift(y: int, m: Month, d: int)
    ensures DayNumber(y, m, d) == DayNumber(y, m, 1) + d - 1
  {
  }

  lemma WeekdayRoundTrip(w: Weekday)
    ensures WeekdayFromMonday(DaysFromMonday(w)) == w
  {
  }

  lemma ShiftMod7(n1: int, w1: nat, t: nat, k: int, j: nat)
    requires n1 % 7 == w1 && t < 7 && w1 < 7
    requires k == (t - w1 + 7) % 7
    ensures (n1 + k + 7 * j) % 7 == t
    ensures (k + 7 * j) / 7 == j
  {
  }

  /**
   * Conversely, every day that is the `n`-th `wd` of its month is found by
   * NthWeekdayOfMonth: the search misses no date.
   */
  lemma NthWeekdayComplete(date: CalendarDate)
    requires date.Valid()
    ensures NthWeekdayOfMonth(date.year, date.month, date.Weekday(), (date.day - 1) / 7 + 1)
            == Some(date.day)
  {
    var y, m, d := date.year, date.month, date.day;
    var wd := date.Weekday();
    var w1 := DaysFromMonday(WeekdayOf(y, m, 1));
    var n1 := DayNumber(y, m, 1);
    DayNumberShift(y, m, d);
    assert DaysFromMonday(wd) == (n1 + d - 1) % 7;
    var k := (DaysFromMonday(wd) - w1 + 7) % 7;
    CompleteMod7(n1, w1, d, k);
  }

  lemma CompleteMod7(n1: int, w1: nat, d: nat, k: int)
    requires n1 % 7 == w1 && w1 < 7 && d >= 1
    requires k == ((n1 + d - 1) % 7 - w1 + 7) % 7
    ensures 1 + k + 7 * ((d - 1) / 7) == d
  {
  }

  type Hour = h: nat | h < 24
  type Sixty = x: nat | x < 60

  /** Local wall-clock time of day in whole seconds (chrono `Timelike`). */
  datatype Clock = Clock(hour: Hour, minute: Sixty, second: Sixty)
  {
    function SecondOfDay(): (r: nat)
      ensures r < 86400
    {
      hour * 3600 + minute * 60 + second
    }
  }

  /** The clock that reads `t` seconds after midnight. */
  function ClockAt(t: nat): (c: Clock)
    requires t < 86400
    ensures c.SecondOfDay() == t
  {
    Clock(t / 3600, (t % 3600) / 60, t % 60)
  }
}

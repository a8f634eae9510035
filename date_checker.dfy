/**
 * The schedule engine's hour-based draft: windows in whole hours, three decisions
 * (monitoring starts, monitoring ends, the day ends).
 */
module DateChecker {
  import opened Wrappers
  import opened Calendar
  import opened DateConfig
  import opened DateRules

  /** What happens next, and in how many seconds. */
  datatype StartStopTimes =
    | EndOfDay(duration: nat)
    | StartOfMonitoring(duration: nat)
    | EndOfMonitoring(duration: nat)

  /** Window `i` is the first one configured for `weekday`. */
  predicate FirstFor(hs: seq<Hours>, weekday: Weekday, i: nat) {
    i < |hs| && hs[i].weekday == weekday && forall j :: 0 <= j < i ==> hs[j].weekday != weekday
  }

  /** The index of the first window configured for `weekday`. */
  function FindHours(hs: seq<Hours>, weekday: Weekday): (r: Option<nat>)
    ensures r.Some? ==> FirstFor(hs, weekday, r.value)
    ensures r.None? ==> forall j :: 0 <= j < |hs| ==> hs[j].weekday != weekday
  {
    if hs == [] then None
    else if hs[0].weekday == weekday then Some(0)
    else match FindHours(hs[1..], weekday)
      case Some(i) => assert forall j :: 1 <= j <= i ==> hs[j] == hs[1..][j - 1]; Some(i + 1)
      case None => assert forall j :: 1 <= j < |hs| ==> hs[j] == hs[1..][j - 1]; None
  }

  /**
   * `weekdays_hours`: the (start, stop) of the first window configured for `weekday`, or
   * those of `Hours::default` when the weekday has none.
   */
  function WeekdaysHours(weekday: Weekday, config: DateTimeConfig): (r: (U32, U32))
    ensures forall i: nat :: FirstFor(config.startHours, weekday, i) ==>
              r == (config.startHours[i].start, config.startHours[i].stop)
    ensures (forall j :: 0 <= j < |config.startHours| ==> config.startHours[j].weekday != weekday)
            ==> r == (0, 24)
  {
    match FindHours(config.startHours, weekday)
    case Some(i) =>
      assert forall k: nat :: FirstFor(config.startHours, weekday, k) ==> k == i;
      (config.startHours[i].start, config.startHours[i].stop)
    case None => (DefaultHours().start, DefaultHours().stop)
  }

  /** No weekday has two windows. */
  predicate DistinctWeekdays(hs: seq<Hours>) {
    forall i, j :: 0 <= i < j < |hs| ==> hs[i].weekday != hs[j].weekday
  }

  /** Every window opens before it closes and neither end is past hour 24. */
  predicate WindowsInRange(hs: seq<Hours>) {
    forall i :: 0 <= i < |hs| ==> hs[i].start < hs[i].stop <= 24
  }

  /** The error of the window loop of `sanity_check`, given the weekdays already `seen`. */
  function HoursCheck(hs: seq<Hours>, seen: set<Weekday>): (r: Option<DateError>)
    ensures r.Some? ==>
              r.value.RepeatedWeekdayError? || r.value.FlipFlopTimeError? || r.value.HoursTooHighError?
  {
    if hs == [] then None
    else if hs[0].weekday in seen then Some(RepeatedWeekdayError(hs[0].weekday))
    else if hs[0].start >= hs[0].stop then Some(FlipFlopTimeError(hs[0].weekday))
    else if hs[0].start > 24 || hs[0].stop > 24 then Some(HoursTooHighError)
    else HoursCheck(hs[1..], seen + {hs[0].weekday})
  }

  /** What `sanity_check` returns: the first rule error, else the first window error. */
  function Check(config: DateTimeConfig, year: int): (r: Result<(), DateError>)
    ensures (r.Err? && (r.error.DayOfMonthError? || r.error.WeekdayOfMonthError?))
            <==> !AllExist(config.disabledDays, year)
  {
    match RulesCheck(config.disabledDays, year)
    case Some(e) => Err(e)
    case None =>
      match HoursCheck(config.startHours, {})
      case Some(e) => Err(e)
      case None => Ok(())
  }

  /**
   * The check validates the rules against the year it runs in only: a 29 February rule
   * passes in a leap year, yet makes `should_run` panic on a day of the following year.
   */
  lemma CheckedYearOnly()
    ensures Check(DateTimeConfig([MonthDay(2, 29)], []), 2024).Ok?
    ensures ShouldRun([MonthDay(2, 29)], CalendarDate(2025, 3, 1)).None?
  {
    assert DaysInMonth(2024, 2) == 29;
    assert DaysInMonth(2025, 2) == 28;
  }

  /** `sanity_check`, validating against the rules of the current `year`. */
  method SanityCheck(config: DateTimeConfig, year: int) returns (r: Result<(), DateError>)
    ensures r == Check(config, year)
    ensures r.Ok? <==> AllExist(config.disabledDays, year)
                       && DistinctWeekdays(config.startHours) && WindowsInRange(config.startHours)
  {
    CheckOkIff(config, year);
    var ruleError := CheckRules(config.disabledDays, year);
    if ruleError.Some? {
      return Err(ruleError.value);
    }
    var hs := config.startHours;
    var weekdaySet: set<Weekday> := {};
    var i := 0;
    while i < |hs|
      invariant 0 <= i <= |hs|
      invariant HoursCheck(hs, {}) == HoursCheck(hs[i..], weekdaySet)
    {
      assert hs[i..][1..] == hs[i + 1..];
      var hours := hs[i];
      if hours.weekday !in weekdaySet {
        weekdaySet := weekdaySet + {hours.weekday};
      } else {
        return Err(RepeatedWeekdayError(hours.weekday));
      }
      if hours.start >= hours.stop {
        return Err(FlipFlopTimeError(hours.weekday));
      } else if hours.start > 24 || hours.stop > 24 {
        return Err(HoursTooHighError);
      }
      i := i + 1;
    }
    return Ok(());
  }

  lemma {:induction false} HoursCheckNoneIff(hs: seq<Hours>, seen: set<Weekday>)
    ensures HoursCheck(hs, seen).None? <==>
              (forall i :: 0 <= i < |hs| ==> hs[i].weekday !in seen)
              && DistinctWeekdays(hs) && WindowsInRange(hs)
  {
    if hs != [] {
      var seen' := seen + {hs[0].weekday};
      HoursCheckNoneIff(hs[1..], seen');
      assert forall i :: 1 <= i < |hs| ==> hs[i] == hs[1..][i - 1];
    }
  }

  /** `sanity_check` accepts exactly the configurations whose rules exist and windows are sound. */
  lemma CheckOkIff(config: DateTimeConfig, year: int)
    ensures Check(config, year).Ok? <==>
              AllExist(config.disabledDays, year)
              && DistinctWeekdays(config.startHours) && WindowsInRange(config.startHours)
  {
    HoursCheckNoneIff(config.startHours, {});
  }

  /**
   * Every window error names a real defect: a repeated weekday occurs twice (or was seen
   * before), a flip-flop window opens no earlier than it closes, and a too-high error only
   * comes from a window that opens before it closes (the flip-flop test runs first).
   */
  lemma {:induction false} HoursCheckSound(hs: seq<Hours>, seen: set<Weekday>)
    ensures var r := HoursCheck(hs, seen);
      && (r.Some? && r.value.RepeatedWeekdayError? ==>
            exists i :: 0 <= i < |hs| && hs[i].weekday == r.value.weekday
                        && (r.value.weekday in seen
                            || exists j :: 0 <= j < i && hs[j].weekday == r.value.weekday))
      && (r.Some? && r.value.FlipFlopTimeError? ==>
            exists i :: 0 <= i < |hs| && hs[i].weekday == r.value.weekday
                        && hs[i].start >= hs[i].stop)
      && (r == Some(HoursTooHighError) ==>
            exists i :: 0 <= i < |hs| && hs[i].start < hs[i].stop && hs[i].stop > 24)
      && (r.Some? ==> !r.value.DayOfMonthError? && !r.value.WeekdayOfMonthError?)
  {
    if hs != [] && hs[0].weekday !in seen && hs[0].start < hs[0].stop
       && !(hs[0].start > 24 || hs[0].stop > 24) {
      var w0 := hs[0].weekday;
      var seen' := seen + {w0};
      HoursCheckSound(hs[1..], seen');
      var r := HoursCheck(hs[1..], seen');
      assert forall i :: 1 <= i < |hs| ==> hs[i] == hs[1..][i - 1];
      if r.Some? && r.value.RepeatedWeekdayError? {
        var w := r.value.weekday;
        var i :| 0 <= i < |hs[1..]| && hs[1..][i].weekday == w
                 && (w in seen' || exists j :: 0 <= j < i && hs[1..][j].weekday == w);
        assert hs[i + 1].weekday == w;
        if w !in seen {
          if w == w0 {
            assert hs[0].weekday == w;
          } else {
            var j :| 0 <= j < i && hs[1..][j].weekday == w;
            assert hs[j + 1].weekday == w;
          }
        }
      }
      if r.Some? && r.value.FlipFlopTimeError? {
        var i :| 0 <= i < |hs[1..]| && hs[1..][i].weekday == r.value.weekday
                 && hs[1..][i].start >= hs[1..][i].stop;
        assert hs[i + 1] == hs[1..][i];
      }
      if r == Some(HoursTooHighError) {
        var i :| 0 <= i < |hs[1..]| && hs[1..][i].start < hs[1..][i].stop && hs[1..][i].stop > 24;
        assert hs[i + 1] == hs[1..][i];
      }
    }
  }

  /**
   * Error priority and soundness of `sanity_check`: a rule whose date does not exist is
   * reported before any window problem, and each window error points at a real defect.
   */
  lemma CheckErrors(config: DateTimeConfig, year: int)
    ensures !AllExist(config.disabledDays, year) ==>
              Check(config, year).Err?
              && (Check(config, year).error.DayOfMonthError?
                  || Check(config, year).error.WeekdayOfMonthError?)
    ensures var r := Check(config, year); var hs := config.startHours;
      && (r.Err? && r.error.RepeatedWeekdayError? ==>
            exists i, j :: 0 <= j < i < |hs| && hs[i].weekday == r.error.weekday
                           && hs[j].weekday == r.error.weekday)
      && (r.Err? && r.error.FlipFlopTimeError? ==>
            exists i :: 0 <= i < |hs| && hs[i].weekday == r.error.weekday
                        && hs[i].start >= hs[i].stop)
      && (r == Err(HoursTooHighError) ==>
            exists i :: 0 <= i < |hs| && hs[i].start < hs[i].stop && hs[i].stop > 24)
  {
    var rc := RulesCheck(config.disabledDays, year);
    if rc.Some? {
      var i :| 0 <= i < |config.disabledDays| && !Exists(config.disabledDays[i], year)
               && rc.value == RuleError(config.disabledDays[i])
               && forall j :: 0 <= j < i ==> Exists(config.disabledDays[j], year);
    }
    HoursCheckSound(config.startHours, {});
  }

  /** The day is not disabled and the clock's hour lies inside the weekday's window. */
  predicate InWindow(config: DateTimeConfig, date: CalendarDate, now: Clock) {
    var w := WeekdaysHours(date.Weekday(), config);
    ShouldRun(config.disabledDays, date) == Some(true) && w.0 <= now.hour < w.1
  }

  /**
   * `next_time` at local `date` and time `now`: before the window it waits for the start of
   * monitoring, inside it for its end (for the end of the day when the window closes at 24),
   * and on a disabled day or after the window for midnight. Only defined where `should_run`
   * does not panic.
   */
  function NextTime(config: DateTimeConfig, date: CalendarDate, now: Clock): (r: StartStopTimes)
    requires ShouldRun(config.disabledDays, date).Some?
    ensures r.duration >= 1
    ensures var w := WeekdaysHours(date.Weekday(), config);
            var run := ShouldRun(config.disabledDays, date).value;
            && (r.StartOfMonitoring? <==> run && now.hour < w.0)
            && (r.EndOfMonitoring? <==> run && w.0 <= now.hour < w.1 && w.1 != 24)
            && (r.StartOfMonitoring? ==> now.SecondOfDay() + r.duration == w.0 * 3600)
            && (r.EndOfMonitoring? ==> now.SecondOfDay() + r.duration == w.1 * 3600)
            && (r.EndOfDay? ==> now.SecondOfDay() + r.duration == 86400)
  {
    var hours := WeekdaysHours(date.Weekday(), config);
    var runToday := ShouldRun(config.disabledDays, date).value;
    var h, m, s := now.hour, now.minute, now.second;
    if runToday && h < hours.0 then
      StartOfMonitoring((hours.0 - h) * 3600 - m * 60 - s)
    else if runToday && h >= hours.0 && h < hours.1 then
      var time := (hours.1 - h) * 3600 - m * 60 - s;
      if hours.1 == 24 then EndOfDay(time) else EndOfMonitoring(time)
    else
      EndOfDay((24 - h) * 3600 - m * 60 - s)
  }

  lemma SaneHours(config: DateTimeConfig, weekday: Weekday)
    requires DistinctWeekdays(config.startHours) && WindowsInRange(config.startHours)
    ensures var w := WeekdaysHours(weekday, config); w.0 < w.1 <= 24
  {
    match FindHours(config.startHours, weekday)
    case Some(i) =>
    case None =>
  }

  /**
   * For a configuration `sanity_check` accepted in the date's year, `next_time` never
   * panics, every duration is between one second and one day, and every intermediate
   * product of the u32 arithmetic fits in 32 bits.
   */
  lemma NextTimeBounded(config: DateTimeConfig, date: CalendarDate, now: Clock)
    requires Check(config, date.year).Ok?
    ensures ShouldRun(config.disabledDays, date).Some?
    ensures 1 <= NextTime(config, date, now).duration <= 86400
    ensures var w := WeekdaysHours(date.Weekday(), config);
            w.0 * 3600 < 0x1_0000_0000 && w.1 * 3600 < 0x1_0000_0000
  {
    CheckOkIff(config, date.year);
    ExistingRulesNeverPanic(config.disabledDays, date);
    SaneHours(config, date.Weekday());
  }

  /**
   * StartOfMonitoring(d) is exact: monitoring is off now and on once `d` seconds have passed,
   * the same day.
   */
  lemma StartOfMonitoringIsExact(config: DateTimeConfig, date: CalendarDate, now: Clock)
    requires Check(config, date.year).Ok?
    requires ShouldRun(config.disabledDays, date).Some?
    requires NextTime(config, date, now).StartOfMonitoring?
    ensures var t := now.SecondOfDay() + NextTime(config, date, now).duration;
            t < 86400 && !InWindow(config, date, now) && InWindow(config, date, ClockAt(t))
  {
    CheckOkIff(config, date.year);
    SaneHours(config, date.Weekday());
  }

  /**
   * EndOfMonitoring(d) is exact: monitoring stays on for each of the next `d` seconds and is
   * off once they have passed.
   */
  lemma EndOfMonitoringIsExact(config: DateTimeConfig, date: CalendarDate, now: Clock)
    requires Check(config, date.year).Ok?
    requires ShouldRun(config.disabledDays, date).Some?
    requires NextTime(config, date, now).EndOfMonitoring?
    ensures var t := now.SecondOfDay() + NextTime(config, date, now).duration;
            && t < 86400
            && (forall u :: now.SecondOfDay() <= u < t ==> InWindow(config, date, ClockAt(u)))
            && !InWindow(config, date, ClockAt(t))
  {
    CheckOkIff(config, date.year);
    SaneHours(config, date.Weekday());
    var w := WeekdaysHours(date.Weekday(), config);
    var t := now.SecondOfDay() + NextTime(config, date, now).duration;
    forall u | now.SecondOfDay() <= u < t
      ensures InWindow(config, date, ClockAt(u))
    {
      assert w.0 * 3600 <= u < w.1 * 3600;
    }
  }

  /**
   * A day named by a month/nth-weekday rule (the third Monday of March, say) ends
   * monitoring for the whole day, whatever the weekday's window.
   */
  lemma DisabledDayWaitsForMidnight(config: DateTimeConfig, date: CalendarDate, now: Clock)
    requires date.Valid() && Check(config, date.year).Ok?
    requires MonthWeekDay(date.month, (date.day - 1) / 7 + 1, date.Weekday()) in config.disabledDays
    ensures ShouldRun(config.disabledDays, date) == Some(false)
    ensures NextTime(config, date, now) == EndOfDay(86400 - now.SecondOfDay())
  {
    var rule := MonthWeekDay(date.month, (date.day - 1) / 7 + 1, date.Weekday());
    MatchesIff(rule, date);
    CheckOkIff(config, date.year);
    ExistingRulesNeverPanic(config.disabledDays, date);
  }

  /** With the default configuration every day is monitored from midnight to midnight. */
  lemma DefaultConfigMonitorsAllDay(date: CalendarDate, now: Clock)
    ensures ShouldRun(DefaultDateTimeConfig().disabledDays, date) == Some(true)
    ensures InWindow(DefaultDateTimeConfig(), date, now)
    ensures NextTime(DefaultDateTimeConfig(), date, now) == EndOfDay(86400 - now.SecondOfDay())
  {
    var w := WeekdaysHours(date.Weekday(), DefaultDateTimeConfig());
    assert w == (0, 24);
  }
}

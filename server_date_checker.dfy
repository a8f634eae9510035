/**
 * The server's schedule task. Its windows are times of day, it has no too-high check, and
 * its loop switches the shared `alerts_on` flag each time a wait ends.
 */
module ServerDateChecker {
  import opened Wrappers
  import opened Calendar
  import opened DateConfig
  import opened DateRules
  import opened Client

  /** A time of day in whole seconds after midnight (chrono's `NaiveTime`). */
  type TimeOfDay = t: nat | t < 86400

  /** 23:59:59, the stop time that means "until the end of the day". */
  const LastSecond: TimeOfDay := 86399

  /**
   * A monitoring window of one weekday, from time `start` to time `stop`. The configured
   * `Hours` carry whole hours while `weekdays_hours` returns `NaiveTime`s; the window is
   * read as the two times of day.
   */
  datatype TimedHours = TimedHours(weekday: Weekday, start: TimeOfDay, stop: TimeOfDay)

  /** The window of a weekday that has none: the whole day, 00:00:00 to 23:59:59. */
  function DefaultTimedHours(): (h: TimedHours)
    ensures h.start == 0 && h.stop == LastSecond
  {
    TimedHours(Mon, 0, LastSecond)
  }

  datatype ServerDateConfig = ServerDateConfig(disabledDays: seq<Date>, startHours: seq<TimedHours>)

  /** What happens next, in how many seconds, and (at the end of a day) whether alerts stay on. */
  datatype StartStopTimes =
    | EndOfDay(duration: nat, isRunning: bool)
    | StartOfAlerts(duration: nat)
    | EndOfAlerts(duration: nat)

  /** The error of the window loop, given the weekdays already `seen`. */
  function HoursCheck(hs: seq<TimedHours>, seen: set<Weekday>): (r: Option<DateError>)
    ensures r.Some? ==> r.value.RepeatedWeekdayError? || r.value.FlipFlopTimeError?
  {
    if hs == [] then None
    else if hs[0].weekday in seen then Some(RepeatedWeekdayError(hs[0].weekday))
    else if hs[0].start >= hs[0].stop then Some(FlipFlopTimeError(hs[0].weekday))
    else HoursCheck(hs[1..], seen + {hs[0].weekday})
  }

  /** What `sanity_check` returns: the first rule error, else the first window error. */
  function Check(config: ServerDateConfig, year: int): (r: Result<(), DateError>)
    ensures (r.Err? && (r.error.DayOfMonthError? || r.error.WeekdayOfMonthError?))
            <==> !AllExist(config.disabledDays, year)
  {
    match RulesCheck(config.disabledDays, year)
    case Some(e) => Err(e)
    case None =>
      match HoursCheck(config.startHours, {})
      case Some(e) => Err(e)
      case None => Ok(())
  }

  predicate DistinctWeekdays(hs: seq<TimedHours>) {
    forall i, j :: 0 <= i < j < |hs| ==> hs[i].weekday != hs[j].weekday
  }

  predicate WindowsOrdered(hs: seq<TimedHours>) {
    forall i :: 0 <= i < |hs| ==> hs[i].start < hs[i].stop
  }

  /** `DateChecker::sanity_check`, validating against the rules of the current `year`. */
  method SanityCheck(config: ServerDateConfig, year: int) returns (r: Result<(), DateError>)
    ensures r == Check(config, year)
    ensures r.Ok? <==> AllExist(config.disabledDays, year)
                       && DistinctWeekdays(config.startHours) && WindowsOrdered(config.startHours)
  {
    CheckOkIff(config, year);
    var ruleError := CheckRules(config.disabledDays, year);
    if ruleError.Some? {
      return Err(ruleError.value);
    }
    var hs := config.startHours;
    var weekdaySet: set<Weekday> := {};
    var i := 0;
    while i < |hs|
      invariant 0 <= i <= |hs|
      invariant HoursCheck(hs, {}) == HoursCheck(hs[i..], weekdaySet)
    {
      assert hs[i..][1..] == hs[i + 1..];
      var hours := hs[i];
      if hours.weekday !in weekdaySet {
        weekdaySet := weekdaySet + {hours.weekday};
      } else {
        return Err(RepeatedWeekdayError(hours.weekday));
      }
      if hours.start >= hours.stop {
        return Err(FlipFlopTimeError(hours.weekday));
      }
      i := i + 1;
    }
    return Ok(());
  }

  lemma {:induction false} HoursCheckNoneIff(hs: seq<TimedHours>, seen: set<Weekday>)
    ensures HoursCheck(hs, seen).None? <==>
              (forall i :: 0 <= i < |hs| ==> hs[i].weekday !in seen)
              && DistinctWeekdays(hs) && WindowsOrdered(hs)
  {
    if hs != [] {
      HoursCheckNoneIff(hs[1..], seen + {hs[0].weekday});
      assert forall i :: 1 <= i < |hs| ==> hs[i] == hs[1..][i - 1];
    }
  }

  /**
   * The server's check accepts exactly the configurations whose rules exist and whose
   * windows are distinct and ordered; it never reports HoursTooHighError.
   */
  lemma CheckOkIff(config: ServerDateConfig, year: int)
    ensures Check(config, year).Ok? <==>
              AllExist(config.disabledDays, year)
              && DistinctWeekdays(config.startHours) && WindowsOrdered(config.startHours)
    ensures Check(config, year) != Err(HoursTooHighError)
  {
    HoursCheckNoneIff(config.startHours, {});
  }

  /** `weekdays_hours`: the first window configured for `weekday`, else the whole day. */
  function WeekdaysHours(weekday: Weekday, config: ServerDateConfig): (r: (TimeOfDay, TimeOfDay))
    ensures forall i :: 0 <= i < |config.startHours| && config.startHours[i].weekday == weekday
                        && (forall j :: 0 <= j < i ==> config.startHours[j].weekday != weekday)
                        ==> r == (config.startHours[i].start, config.startHours[i].stop)
    ensures (forall j :: 0 <= j < |config.startHours| ==> config.startHours[j].weekday != weekday)
            ==> r == (0, LastSecond)
    decreases |config.startHours|
  {
    if config.startHours == [] then (DefaultTimedHours().start, DefaultTimedHours().stop)
    else if config.startHours[0].weekday == weekday then
      (config.startHours[0].start, config.startHours[0].stop)
    else
      var rest := config.(startHours := config.startHours[1..]);
      assert forall i :: 1 <= i < |config.startHours| ==>
               config.startHours[i] == rest.startHours[i - 1];
      WeekdaysHours(weekday, rest)
  }

  /** Nanoseconds past the whole second of a reading (chrono's `nanosecond()`, leap seconds aside). */
  type Nanos = n: nat | n < 1_000_000_000

  const NanosPerSecond: nat := 1_000_000_000

  /** `now.time()`: the reading in nanoseconds since midnight. */
  function TimeOfDayNanos(now: Clock, nanos: Nanos): (r: nat)
    ensures now.SecondOfDay() * NanosPerSecond <= r < (now.SecondOfDay() + 1) * NanosPerSecond
  {
    now.SecondOfDay() * NanosPerSecond + nanos
  }

  /**
   * A wait of `d` whole seconds started at `time` (in nanoseconds) ends at the time of day
   * `edge` (in seconds) or less than a second before it.
   */
  predicate EndsJustBefore(time: nat, d: nat, edge: nat) {
    time + d * NanosPerSecond <= edge * NanosPerSecond < time + (d + 1) * NanosPerSecond
  }

  /**
   * `next_time` at local `date` and reading `now` + `nanos`: the next transition and the wait
   * until it. A window edge is compared with the full reading and the wait is the difference
   * truncated to whole seconds (`num_seconds()`); the wait until midnight uses whole seconds.
   */
  function NextTime(config: ServerDateConfig, date: CalendarDate, now: Clock, nanos: Nanos)
    : (r: StartStopTimes)
    requires ShouldRun(config.disabledDays, date).Some?
    ensures r.duration <= 86400
    ensures r.EndOfDay? && !r.isRunning ==> r.duration >= 1
  {
    var (start, stop) := WeekdaysHours(date.Weekday(), config);
    var runToday := ShouldRun(config.disabledDays, date).value;
    var time := TimeOfDayNanos(now, nanos);
    if runToday && time < start * NanosPerSecond then
      StartOfAlerts((start * NanosPerSecond - time) / NanosPerSecond)
    else if runToday && time >= start * NanosPerSecond && time < stop * NanosPerSecond then
      var left := (stop * NanosPerSecond - time) / NanosPerSecond;
      if stop == LastSecond then EndOfDay(left, true) else EndOfAlerts(left)
    else
      EndOfDay((24 - now.hour) * 3600 - now.minute * 60 - now.second, false)
  }

  /**
   * The decision of `next_time`: before the window the wait ends at its start, inside it at
   * its stop (a stop at 23:59:59 is reported as the end of a day whose alerts stay on), each
   * of these up to a second early because the wait is truncated to whole seconds; otherwise
   * the wait ends at midnight, measured in whole seconds, with alerts off.
   */
  lemma NextTimeDecides(config: ServerDateConfig, date: CalendarDate, now: Clock, nanos: Nanos)
    requires ShouldRun(config.disabledDays, date).Some?
    ensures var r := NextTime(config, date, now, nanos);
            var w := WeekdaysHours(date.Weekday(), config);
            var run := ShouldRun(config.disabledDays, date).value;
            var time := TimeOfDayNanos(now, nanos);
            && (r.StartOfAlerts? <==> run && time < w.0 * NanosPerSecond)
            && (r.EndOfAlerts? <==>
                  run && w.0 * NanosPerSecond <= time < w.1 * NanosPerSecond && w.1 != LastSecond)
            && (r == EndOfDay(r.duration, true) <==>
                  run && w.0 * NanosPerSecond <= time < w.1 * NanosPerSecond && w.1 == LastSecond)
            && (r.StartOfAlerts? ==> EndsJustBefore(time, r.duration, w.0))
            && (r.EndOfAlerts? || (r.EndOfDay? && r.isRunning) ==> EndsJustBefore(time, r.duration, w.1))
            && (r.EndOfDay? && !r.isRunning ==> now.SecondOfDay() + r.duration == 86400)
  {
  }

  /**
   * In the last second before a window opens, a reading past the whole second gets a wait of
   * zero seconds: the truncated difference.
   */
  lemma ZeroWaitBeforeWindow(config: ServerDateConfig, date: CalendarDate, now: Clock, nanos: Nanos)
    requires ShouldRun(config.disabledDays, date) == Some(true)
    requires WeekdaysHours(date.Weekday(), config).0 == now.SecondOfDay() + 1 && nanos > 0
    ensures NextTime(config, date, now, nanos) == StartOfAlerts(0)
  {
  }

  /** The value the schedule task stores in `alerts_on` for a decision. */
  function AlertsOnFor(next: StartStopTimes): bool {
    match next
    case StartOfAlerts(_) => false
    case EndOfAlerts(_) => true
    case EndOfDay(_, isRunning) => isRunning
  }

  /** Alerts are wanted: the day is not disabled and the reading lies inside the weekday's window. */
  predicate InAlertWindow(config: ServerDateConfig, date: CalendarDate, now: Clock, nanos: Nanos) {
    var w := WeekdaysHours(date.Weekday(), config);
    var time := TimeOfDayNanos(now, nanos);
    ShouldRun(config.disabledDays, date) == Some(true)
    && w.0 * NanosPerSecond <= time < w.1 * NanosPerSecond
  }

  /** The flag the schedule task stores is on exactly inside the alert window. */
  lemma AlertsOnMeansInWindow(config: ServerDateConfig, date: CalendarDate, now: Clock, nanos: Nanos)
    requires ShouldRun(config.disabledDays, date).Some?
    ensures AlertsOnFor(NextTime(config, date, now, nanos)) <==> InAlertWindow(config, date, now, nanos)
  {
    var r := NextTime(config, date, now, nanos);
    NextTimeDecides(config, date, now, nanos);
    if r.EndOfDay? && r.isRunning {
      assert r == EndOfDay(r.duration, true);
    }
  }

  /**
   * The wait after an "alerts on" decision ends when the window closes, and the wait after an
   * "alerts off" decision when the window opens, each up to a second early; or, alerts off,
   * at midnight in whole seconds.
   */
  lemma WaitsEndAtTransitions(config: ServerDateConfig, date: CalendarDate, now: Clock, nanos: Nanos)
    requires ShouldRun(config.disabledDays, date).Some?
    ensures var r := NextTime(config, date, now, nanos);
            var time := TimeOfDayNanos(now, nanos);
            var w := WeekdaysHours(date.Weekday(), config);
            && (AlertsOnFor(r) ==> EndsJustBefore(time, r.duration, w.1))
            && (!AlertsOnFor(r) ==>
                  EndsJustBefore(time, r.duration, w.0) || now.SecondOfDay() + r.duration == 86400)
  {
    NextTimeDecides(config, date, now, nanos);
    AlertsOnMeansInWindow(config, date, now, nanos);
  }

  /** The environment seen by one pass of the schedule task's loop. */
  datatype Tick = Tick(running: bool, date: CalendarDate, now: Clock, nanos: Nanos, wait: WaitOutcome)

  /** Every tick before `j` ran and waited out its whole wait. */
  predicate WaitedOut(ticks: seq<Tick>, j: nat) {
    forall k :: 0 <= k < j && k < |ticks| ==> ticks[k].running && ticks[k].wait == Elapsed
  }

  /** Tick `j` is one the loop asks about: it runs, and every tick before it waited out its wait. */
  predicate Reaches(ticks: seq<Tick>, j: nat) {
    j < |ticks| && ticks[j].running && WaitedOut(ticks, j)
  }

  /** No tick the loop asks about makes `should_run` panic. */
  predicate NeverPanics(config: ServerDateConfig, ticks: seq<Tick>) {
    forall j {:trigger Reaches(ticks, j)} :: 0 <= j < |ticks| && Reaches(ticks, j) ==> ShouldRun(config.disabledDays, ticks[j].date).Some?
  }

  /**
   * The flag each tick's decision stores in `alerts_on`. A tick on which `should_run` would
   * panic gets `false`, a value the loop never stores, since it never asks about such a tick.
   */
  function Flags(config: ServerDateConfig, ticks: seq<Tick>): (r: seq<bool>)
    ensures |r| == |ticks|
    ensures forall j :: 0 <= j < |ticks| && ShouldRun(config.disabledDays, ticks[j].date).Some? ==>
              r[j] == AlertsOnFor(NextTime(config, ticks[j].date, ticks[j].now, ticks[j].nanos))
  {
    seq(|ticks|, j requires 0 <= j < |ticks| =>
      if ShouldRun(config.disabledDays, ticks[j].date).Some?
      then AlertsOnFor(NextTime(config, ticks[j].date, ticks[j].now, ticks[j].nanos))
      else false)
  }

  /**
   * The loop of `start` from tick `i` on, given each tick's flag: the flag left in
   * `alerts_on` and the result. The loop stops when `running` is false (or the ticks run
   * out) and fails on an interrupted wait.
   */
  function RunFlags(flags: seq<bool>, ticks: seq<Tick>, i: nat, alertsOn: bool)
    : (r: (bool, Result<(), ClientError>))
    requires |flags| == |ticks| && i <= |ticks|
    ensures r.1.Err? ==> r.1.error == TimeoutError
    decreases |ticks| - i
  {
    if i == |ticks| || !ticks[i].running then (alertsOn, Ok(()))
    else
      match WaitTimeout(ticks[i].wait)
      case Err(e) => (flags[i], Err(e))
      case Ok(_) => RunFlags(flags, ticks, i + 1, flags[i])
  }

  /** The loop of `start` over `ticks`, from tick `i` on. */
  function Run(config: ServerDateConfig, ticks: seq<Tick>, i: nat, alertsOn: bool)
    : (r: (bool, Result<(), ClientError>))
    requires i <= |ticks|
    ensures Acted(ticks, i) == 0 ==> r == (alertsOn, Ok(()))
  {
    RunFlags(Flags(config, ticks), ticks, i, alertsOn)
  }

  /** The number of ticks from `i` on that the loop acts on. */
  function Acted(ticks: seq<Tick>, i: nat): (n: nat)
    requires i <= |ticks|
    ensures i + n <= |ticks|
    decreases |ticks| - i
  {
    if i == |ticks| || !ticks[i].running then 0
    else if ticks[i].wait == Notified then 1
    else 1 + Acted(ticks, i + 1)
  }

  /** The ticks the loop acts on are exactly those it reaches. */
  lemma {:induction false} ActedAreReached(ticks: seq<Tick>, i: nat, j: nat)
    requires i <= |ticks|
    requires WaitedOut(ticks, i)
    ensures i <= j < i + Acted(ticks, i) <==> i <= j && Reaches(ticks, j)
    decreases |ticks| - i
  {
    if i < |ticks| && ticks[i].running && ticks[i].wait == Elapsed {
      assert WaitedOut(ticks, i + 1);
      ActedAreReached(ticks, i + 1, j);
    } else if i < j && j < |ticks| {
      assert !WaitedOut(ticks, j) by {
        assert 0 <= i < j && !(ticks[i].running && ticks[i].wait == Elapsed);
      }
    }
  }

  /** After the loop, `alerts_on` holds the flag of the last tick acted on. */
  lemma {:induction false} RunKeepsLastFlag(flags: seq<bool>, ticks: seq<Tick>, i: nat, alertsOn: bool)
    requires |flags| == |ticks| && i <= |ticks|
    ensures var (flag, r) := RunFlags(flags, ticks, i, alertsOn);
            var n := Acted(ticks, i);
            && (n == 0 ==> flag == alertsOn && r.Ok?)
            && (n > 0 ==> flag == flags[i + n - 1])
            && (r.Err? <==> n > 0 && ticks[i + n - 1].wait == Notified)
    decreases |ticks| - i
  {
    if i < |ticks| && ticks[i].running && ticks[i].wait == Elapsed {
      RunKeepsLastFlag(flags, ticks, i + 1, flags[i]);
    }
  }

  /** Whether each tick lies in the alert window of an enabled day. */
  function Windows(config: ServerDateConfig, ticks: seq<Tick>): (r: seq<bool>)
    ensures |r| == |ticks|
    ensures forall j :: 0 <= j < |ticks| ==> r[j] == InAlertWindow(config, ticks[j].date, ticks[j].now, ticks[j].nanos)
  {
    seq(|ticks|, j requires 0 <= j < |ticks| => InAlertWindow(config, ticks[j].date, ticks[j].now, ticks[j].nanos))
  }

  /** Each tick's flag is on exactly when that tick lies in the alert window. */
  lemma FlagsAreWindows(config: ServerDateConfig, ticks: seq<Tick>, k: nat)
    requires k < |ticks| && ShouldRun(config.disabledDays, ticks[k].date).Some?
    ensures Flags(config, ticks)[k] == Windows(config, ticks)[k]
  {
    AlertsOnMeansInWindow(config, ticks[k].date, ticks[k].now, ticks[k].nanos);
  }

  /**
   * After the loop, `alerts_on` tells whether the last tick acted on lay in the alert window
   * (unchanged when none was), and the schedule task fails exactly when that tick's wait was
   * interrupted.
   */
  lemma RunTracksWindow(config: ServerDateConfig, ticks: seq<Tick>, alertsOn: bool)
    requires NeverPanics(config, ticks)
    ensures var (flag, r) := Run(config, ticks, 0, alertsOn);
            var n := Acted(ticks, 0);
            && (n == 0 ==> flag == alertsOn && r.Ok?)
            && (n > 0 ==> flag == Windows(config, ticks)[n - 1])
            && (r.Err? <==> n > 0 && ticks[n - 1].wait == Notified)
            && (r.Err? ==> r.error == TimeoutError)
  {
    var n := Acted(ticks, 0);
    var flags := Flags(config, ticks);
    RunKeepsLastFlag(flags, ticks, 0, alertsOn);
    var (flag, r) := RunFlags(flags, ticks, 0, alertsOn);
    assert Run(config, ticks, 0, alertsOn) == (flag, r);
    assert r.Err? <==> n > 0 && ticks[n - 1].wait == Notified;
    if n > 0 {
      ActedAreReached(ticks, 0, n - 1);
      FlagsAreWindows(config, ticks, n - 1);
      assert flag == flags[n - 1] == Windows(config, ticks)[n - 1];
    }
  }

  /** One pass of the loop of `start` at a tick it reaches. */
  lemma StartStep(config: ServerDateConfig, ticks: seq<Tick>, i: nat, alertsOn: bool)
    requires NeverPanics(config, ticks) && WaitedOut(ticks, i) && i < |ticks| && ticks[i].running
    ensures ShouldRun(config.disabledDays, ticks[i].date).Some?
    ensures var flag := AlertsOnFor(NextTime(config, ticks[i].date, ticks[i].now, ticks[i].nanos));
            Run(config, ticks, i, alertsOn) ==
              match WaitTimeout(ticks[i].wait)
              case Err(e) => (flag, Err(e))
              case Ok(_) => Run(config, ticks, i + 1, flag)
    ensures ticks[i].wait == Elapsed ==> WaitedOut(ticks, i + 1)
  {
    assert Reaches(ticks, i);
  }

  /** The schedule task: its configuration and the `alerts_on` flag it shares with the alerter. */
  class DateChecker {
    const config: ServerDateConfig
    var alertsOn: bool

    /** `DateChecker::new` after `sanity_check` accepted the configuration. */
    constructor (config: ServerDateConfig, alertsOn: bool)
      ensures this.config == config && this.alertsOn == alertsOn
    {
      this.config := config;
      this.alertsOn := alertsOn;
    }

    /** `DateChecker::new`: the checker exists only if `sanity_check` accepts `config` in `year`. */
    static method New(config: ServerDateConfig, year: int, alertsOn: bool)
      returns (r: Result<DateChecker, DateError>)
      ensures r.Err? <==> Check(config, year).Err?
      ensures r.Err? ==> r.error == Check(config, year).error
      ensures r.Ok? ==> fresh(r.value) && r.value.config == config && r.value.alertsOn == alertsOn
    {
      var checked := SanityCheck(config, year);
      if checked.Err? {
        return Err(checked.error);
      }
      var checker := new DateChecker(config, alertsOn);
      return Ok(checker);
    }

    /** The match of the loop body: store the flag the decision calls for. */
    method Store(next: StartStopTimes)
      modifies this`alertsOn
      ensures alertsOn == AlertsOnFor(next)
    {
      match next {
        case StartOfAlerts(d) =>
          alertsOn := false;
        case EndOfAlerts(d) =>
          alertsOn := true;
        case EndOfDay(d, isRunning) =>
          alertsOn := isRunning;
      }
    }

    /**
     * `start`: decide, store the flag, wait; repeat while `running`, stop on an interrupted
     * wait. Only the ticks the loop reaches are asked about, so only they must not panic.
     */
    method Start(ticks: seq<Tick>) returns (r: Result<(), ClientError>)
      requires NeverPanics(config, ticks)
      modifies this
      ensures (alertsOn, r) == Run(config, ticks, 0, old(alertsOn))
    {
      var i := 0;
      while i < |ticks| && ticks[i].running
        invariant i <= |ticks| && WaitedOut(ticks, i)
        invariant Run(config, ticks, 0, old(alertsOn)) == Run(config, ticks, i, alertsOn)
        decreases |ticks| - i
      {
        StartStep(config, ticks, i, alertsOn);
        var next := NextTime(config, ticks[i].date, ticks[i].now, ticks[i].nanos);
        Store(next);
        var waited := WaitTimeout(ticks[i].wait);
        if waited.Err? {
          return Err(waited.error);
        }
        i := i + 1;
      }
      return Ok(());
    }
  }
}

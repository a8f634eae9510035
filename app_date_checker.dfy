/**
 * The application draft of the schedule engine. Its windows are plain
 * (weekday, start hour, stop hour) triples and a weekday without one gets the triple
 * (weekday, 0, 24); otherwise it decides exactly as the hour-based draft does.
 */
module AppDateChecker {
  import opened Wrappers
  import opened Calendar
  import opened DateConfig
  import opened DateRules
  import DateChecker

  /** A window as the application draft keeps it: (weekday, start hour, stop hour). */
  type HoursTriple = (Weekday, U32, U32)

  datatype DateTimeConfig = DateTimeConfig(dates: seq<Date>, startHours: seq<HoursTriple>)

  /** The same configuration with its windows as `Hours` records. */
  function AsHours(config: DateTimeConfig): (c: DateConfig.DateTimeConfig)
    ensures c.disabledDays == config.dates && |c.startHours| == |config.startHours|
    ensures forall i :: 0 <= i < |config.startHours| ==>
              c.startHours[i] == Hours(config.startHours[i].0, config.startHours[i].1,
                                       config.startHours[i].2)
  {
    DateConfig.DateTimeConfig(
      config.dates,
      seq(|config.startHours|, i requires 0 <= i < |config.startHours| =>
        Hours(config.startHours[i].0, config.startHours[i].1, config.startHours[i].2)))
  }

  /** `weekdays_hours`: the first triple for `weekday`, else (weekday, 0, 24). */
  function WeekdaysHours(weekday: Weekday, config: DateTimeConfig): (r: HoursTriple)
    ensures r.0 == weekday
    ensures forall i :: 0 <= i < |config.startHours| && config.startHours[i].0 == weekday
                        && (forall j :: 0 <= j < i ==> config.startHours[j].0 != weekday)
                        ==> r == config.startHours[i]
    ensures (forall j :: 0 <= j < |config.startHours| ==> config.startHours[j].0 != weekday)
            ==> r == (weekday, 0, 24)
    decreases |config.startHours|
  {
    if config.startHours == [] then (weekday, 0, 24)
    else if config.startHours[0].0 == weekday then config.startHours[0]
    else
      var rest := config.(startHours := config.startHours[1..]);
      assert forall i :: 1 <= i < |config.startHours| ==>
               config.startHours[i] == rest.startHours[i - 1];
      WeekdaysHours(weekday, rest)
  }

  /** The triple form picks the same window as the record form of the hour-based draft. */
  lemma WeekdaysHoursAgree(weekday: Weekday, config: DateTimeConfig)
    ensures var r := WeekdaysHours(weekday, config);
            (r.1, r.2) == DateChecker.WeekdaysHours(weekday, AsHours(config))
  {
    var c := AsHours(config);
    match DateChecker.FindHours(c.startHours, weekday)
    case Some(i) =>
      assert DateChecker.FirstFor(c.startHours, weekday, i);
    case None =>
  }

  /** `sanity_check` of the application draft. */
  method SanityCheck(config: DateTimeConfig, year: int) returns (r: Result<(), DateError>)
    ensures r == DateChecker.Check(AsHours(config), year)
    ensures r.Ok? <==>
              AllExist(config.dates, year)
              && (forall i, j :: 0 <= i < j < |config.startHours| ==>
                    config.startHours[i].0 != config.startHours[j].0)
              && (forall i :: 0 <= i < |config.startHours| ==>
                    config.startHours[i].1 < config.startHours[i].2 <= 24)
  {
    var c := AsHours(config);
    r := DateChecker.SanityCheck(c, year);
    assert DateChecker.DistinctWeekdays(c.startHours) <==>
             forall i, j :: 0 <= i < j < |config.startHours| ==>
               config.startHours[i].0 != config.startHours[j].0;
  }

  /**
   * `next_time` of the application draft at local `date` and time `now`: the decision of
   * the hour-based draft for the same windows.
   */
  function NextTime(config: DateTimeConfig, date: CalendarDate, now: Clock)
    : (r: DateChecker.StartStopTimes)
    requires ShouldRun(config.dates, date).Some?
    ensures var w := WeekdaysHours(date.Weekday(), config);
            var run := ShouldRun(config.dates, date).value;
            && (r.StartOfMonitoring? <==> run && now.hour < w.1)
            && (r.EndOfMonitoring? <==> run && w.1 <= now.hour < w.2 && w.2 != 24)
            && (r.StartOfMonitoring? ==> now.SecondOfDay() + r.duration == w.1 * 3600)
            && (r.EndOfMonitoring? ==> now.SecondOfDay() + r.duration == w.2 * 3600)
            && (r.EndOfDay? ==> now.SecondOfDay() + r.duration == 86400)
  {
    var hours := WeekdaysHours(date.Weekday(), config);
    var runToday := ShouldRun(config.dates, date).value;
    var h, m, s := now.hour, now.minute, now.second;
    if runToday && h < hours.1 then
      DateChecker.StartOfMonitoring((hours.1 - h) * 3600 - m * 60 - s)
    else if runToday && h >= hours.1 && h < hours.2 then
      var time := (hours.2 - h) * 3600 - m * 60 - s;
      if hours.2 == 24 then DateChecker.EndOfDay(time) else DateChecker.EndOfMonitoring(time)
    else
      DateChecker.EndOfDay((24 - h) * 3600 - m * 60 - s)
  }

  /** The two drafts agree on every decision. */
  lemma NextTimeAgrees(config: DateTimeConfig, date: CalendarDate, now: Clock)
    requires ShouldRun(config.dates, date).Some?
    ensures NextTime(config, date, now) == DateChecker.NextTime(AsHours(config), date, now)
  {
    WeekdaysHoursAgree(date.Weekday(), config);
  }
}

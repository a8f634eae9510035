/**
 * The configuration types of the application draft: byte-sized calendar rules with
 * optional parts, a single start/stop hour pair, and getters that fall back to defaults.
 */
module AppConfig {
  import opened Wrappers

  /** Rust's `u8`. */
  type U8 = x: nat | x < 256

  /** A calendar rule: month and nth weekday, month and day, or nth weekday of any month. */
  datatype Date =
    | MonthWeekDay(month: U8, week: U8, day: U8)
    | MonthDay(month: U8, day: U8)
    | WeekDay(week: U8, day: U8)
  {
    /** The `Month` accessor: present unless the rule is a bare weekday rule. */
    function Month(): (r: Option<U8>)
      ensures r.Some? <==> !this.WeekDay?
      ensures r.Some? ==> r.value == this.month
    {
      match this
      case MonthWeekDay(month, _, _) => Some(month)
      case MonthDay(month, _) => Some(month)
      case WeekDay(_, _) => None
    }

    /** The `Week` accessor: present unless the rule names a day of the month. */
    function Week(): (r: Option<U8>)
      ensures r.Some? <==> !this.MonthDay?
      ensures r.Some? ==> r.value == this.week
    {
      match this
      case MonthWeekDay(_, week, _) => Some(week)
      case MonthDay(_, _) => None
      case WeekDay(week, _) => Some(week)
    }

    /** The `Day` accessor: always present (a weekday, or a day of the month for MonthDay). */
    function Day(): (r: Option<U8>)
      ensures r == Some(this.day)
    {
      match this
      case MonthWeekDay(_, _, day) => Some(day)
      case MonthDay(_, day) => Some(day)
      case WeekDay(_, day) => Some(day)
    }
  }

  /** The rule whose accessors give these parts, if any: the inverse of the three accessors. */
  function FromParts(month: Option<U8>, week: Option<U8>, day: Option<U8>): (r: Option<Date>)
    ensures r.Some? ==> r.value.Month() == month && r.value.Week() == week && r.value.Day() == day
  {
    if day.None? then None
    else if month.Some? && week.Some? then Some(MonthWeekDay(month.value, week.value, day.value))
    else if month.Some? then Some(MonthDay(month.value, day.value))
    else if week.Some? then Some(WeekDay(week.value, day.value))
    else None
  }

  /** The three accessors together identify the rule. */
  lemma AccessorsIdentify(d: Date)
    ensures FromParts(d.Month(), d.Week(), d.Day()) == Some(d)
  {
    match d
    case MonthWeekDay(_, _, _) =>
    case MonthDay(_, _) =>
    case WeekDay(_, _) =>
  }

  datatype DateTimeConfig = DateTimeConfig(dates: seq<Date>, startHour: Option<U8>, stopHour: Option<U8>)
  {
    /** `start_hour`: the configured hour, or 0 when unset. */
    function StartHour(): (r: U8)
      ensures startHour.Some? ==> r == startHour.value
      ensures startHour.None? ==> r == 0
    {
      startHour.GetOr(0)
    }

    /** `stop_hour`: the configured hour, or 0 when unset. */
    function StopHour(): (r: U8)
      ensures stopHour.Some? ==> r == stopHour.value
      ensures stopHour.None? ==> r == 0
    {
      stopHour.GetOr(0)
    }
  }

  /** The derived `Default`: no rule and no hours. */
  function DefaultDateTimeConfig(): (c: DateTimeConfig)
    ensures c.dates == [] && c.StartHour() == 0 && c.StopHour() == 0
  {
    DateTimeConfig([], None, None)
  }

  datatype EventHandlerConfig = EventHandlerConfig(minFocusTime: U8)

  /** `EventHandlerConfig::default`: a minimum focus time of 10. */
  function DefaultEventHandlerConfig(): (c: EventHandlerConfig)
    ensures c.minFocusTime == 10
  {
    EventHandlerConfig(10)
  }

  datatype RecorderConfig = RecorderConfig(productive: seq<string>, unproductive: seq<string>)

  datatype Config = Config(
    sharedDir: Option<string>,
    blacklist: Option<DateTimeConfig>,
    eventHandler: Option<EventHandlerConfig>,
    recorder: RecorderConfig)
  {
    /** `blacklists_dates`: the configured table, or the empty default when it is absent. */
    function BlacklistsDates(): (r: DateTimeConfig)
      ensures blacklist.Some? ==> r == blacklist.value
      ensures blacklist.None? ==> r.dates == [] && r.StartHour() == 0 && r.StopHour() == 0
    {
      blacklist.GetOr(DefaultDateTimeConfig())
    }

    /** `event_handler_config`: the configured table, or a minimum focus time of 10. */
    function EventHandlerSettings(): (r: EventHandlerConfig)
      ensures eventHandler.Some? ==> r == eventHandler.value
      ensures eventHandler.None? ==> r.minFocusTime == 10
    {
      eventHandler.GetOr(DefaultEventHandlerConfig())
    }

    /** `recorder_config`: the recorder table unchanged. */
    function RecorderSettings(): (r: RecorderConfig)
      ensures r.productive == recorder.productive && r.unproductive == recorder.unproductive
    {
      recorder
    }
  }
}

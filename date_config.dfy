/**
 * The schedule configuration read from the `[date]` table: calendar rules that disable a
 * whole day and per-weekday monitoring windows in whole hours.
 * `dates()` and `start_hours()` are the field selectors `disabledDays` and `startHours`.
 */
module DateConfig {
  import opened Calendar

  /** Rust's `u32`. */
  type U32 = x: nat | x < 0x1_0000_0000

  /** A disabled day: the `week`-th `weekday` of `month`, or day `day` of `month`. */
  datatype Date =
    | MonthWeekDay(month: Month, week: U32, weekday: Weekday)
    | MonthDay(month: Month, day: U32)

  /** The monitoring window of one weekday, from hour `start` to hour `stop`. */
  datatype Hours = Hours(weekday: Weekday, start: U32, stop: U32)

  /** `Hours::default`: Monday, monitored from hour 0 to hour 24. */
  function DefaultHours(): (h: Hours)
    ensures h.weekday == Mon && h.start == 0 && h.stop == 24
  {
    Hours(Mon, 0, 24)
  }

  datatype DateTimeConfig = DateTimeConfig(disabledDays: seq<Date>, startHours: seq<Hours>)

  /** The derived `Default`: no disabled day and no window. */
  function DefaultDateTimeConfig(): (c: DateTimeConfig)
    ensures c.disabledDays == [] && c.startHours == []
  {
    DateTimeConfig([], [])
  }
}

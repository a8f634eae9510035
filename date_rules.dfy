/**
 * The calendar-rule half of the schedule engine, written identically in all three
 * date-checker drafts: the first loop of `sanity_check` (every rule must name a date that
 * exists in the current year) and `should_run` (is the given day disabled by a rule).
 */
module DateRules {
  import opened Wrappers
  import opened Calendar
  import opened DateConfig

  /** The errors of the date checkers; the server draft never reports HoursTooHighError. */
  datatype DateError =
    | DayOfMonthError(month: Month, day: U32)
    | WeekdayOfMonthError(month: Month, weekday: Weekday, week: U32)
    | FlipFlopTimeError(weekday: Weekday)
    | RepeatedWeekdayError(weekday: Weekday)
    | HoursTooHighError

  /**
   * The day of the rule's month that the rule names in `year`, as chrono's
   * `from_weekday_of_month_opt(year, month, day, week as u8)` or `from_ymd_opt(year, month, day)`
   * finds it; None when that date does not exist.
   */
  function RuleDay(rule: Date, year: int): (r: Option<nat>)
    ensures r.Some? ==> 1 <= r.value <= DaysInMonth(year, rule.month)
  {
    match rule
    case MonthWeekDay(month, week, weekday) => NthWeekdayOfMonth(year, month, weekday, week % 256)
    case MonthDay(month, day) => if 1 <= day <= DaysInMonth(year, month) then Some(day) else None
  }

  /** The error `sanity_check` reports for a rule whose date does not exist. */
  function RuleError(rule: Date): DateError {
    match rule
    case MonthWeekDay(month, week, weekday) => WeekdayOfMonthError(month, weekday, week)
    case MonthDay(month, day) => DayOfMonthError(month, day)
  }

  predicate Exists(rule: Date, year: int) {
    RuleDay(rule, year).Some?
  }

  predicate AllExist(rules: seq<Date>, year: int) {
    forall i :: 0 <= i < |rules| ==> Exists(rules[i], year)
  }

  /** The rule disables `date`: it names that very day in the date's own year. */
  predicate Matches(rule: Date, date: CalendarDate) {
    rule.month == date.month && RuleDay(rule, date.year) == Some(date.day)
  }

  /** The error of the first rule whose date does not exist in `year`, if any. */
  function RulesCheck(rules: seq<Date>, year: int): (r: Option<DateError>)
    ensures r.None? <==> AllExist(rules, year)
    ensures r.Some? ==> exists i :: 0 <= i < |rules| && !Exists(rules[i], year)
                                    && r.value == RuleError(rules[i])
                                    && forall j :: 0 <= j < i ==> Exists(rules[j], year)
  {
    if rules == [] then None
    else if !Exists(rules[0], year) then Some(RuleError(rules[0]))
    else
      var r := RulesCheck(rules[1..], year);
      if r.Some? then
        var i :| 0 <= i < |rules[1..]| && !Exists(rules[1..][i], year)
                 && r.value == RuleError(rules[1..][i])
                 && forall j :: 0 <= j < i ==> Exists(rules[1..][j], year);
        assert rules[i + 1] == rules[1..][i];
        r
      else r
  }

  /** The rule loop at the top of `sanity_check`. */
  method CheckRules(rules: seq<Date>, year: int) returns (r: Option<DateError>)
    ensures r == RulesCheck(rules, year)
  {
    var i := 0;
    while i < |rules|
      invariant 0 <= i <= |rules|
      invariant RulesCheck(rules, year) == RulesCheck(rules[i..], year)
    {
      assert rules[i..][1..] == rules[i + 1..];
      if RuleDay(rules[i], year).None? {
        return Some(RuleError(rules[i]));
      }
      i := i + 1;
    }
    return None;
  }

  /**
   * `should_run`: Some(false) when a rule names `date`, Some(true) when none does, and None
   * where the source panics: chrono's `from_weekday_of_month` and `from_ymd` panic on a
   * rule whose date does not exist in the date's year, reached before any matching rule.
   */
  function ShouldRun(rules: seq<Date>, date: CalendarDate): (r: Option<bool>)
    ensures r == Some(false) <==>
              exists i :: 0 <= i < |rules| && Matches(rules[i], date)
                          && forall j :: 0 <= j < i ==> Exists(rules[j], date.year)
    ensures r == Some(true) <==>
              AllExist(rules, date.year) && forall i :: 0 <= i < |rules| ==> !Matches(rules[i], date)
  {
    if rules == [] then Some(true)
    else match RuleDay(rules[0], date.year)
      case None => None
      case Some(d) =>
        if rules[0].month == date.month && d == date.day then Some(false)
        else
          var r := ShouldRun(rules[1..], date);
          assert forall i :: 1 <= i < |rules| ==> rules[i] == rules[1..][i - 1];
          if r == Some(false) then
            var i :| 0 <= i < |rules[1..]| && Matches(rules[1..][i], date)
                     && forall j :: 0 <= j < i ==> Exists(rules[1..][j], date.year);
            assert Matches(rules[i + 1], date);
            r
          else r
  }

  /** A configuration whose rules all exist in the date's year never makes `should_run` panic. */
  lemma ExistingRulesNeverPanic(rules: seq<Date>, date: CalendarDate)
    requires RulesCheck(rules, date.year).None?
    ensures ShouldRun(rules, date).Some?
    ensures ShouldRun(rules, date) == Some(false) <==>
              exists i :: 0 <= i < |rules| && Matches(rules[i], date)
  {
  }

  /**
   * For a real date, a month/nth-weekday rule matches exactly the `week`-th occurrence of its
   * weekday in its month (`week` truncated to a byte, as `week as u8` does), and a
   * month/day rule exactly that day.
   */
  lemma MatchesIff(rule: Date, date: CalendarDate)
    requires date.Valid()
    ensures rule.MonthWeekDay? ==>
              (Matches(rule, date) <==>
                 rule.month == date.month && rule.weekday == date.Weekday()
                 && (date.day - 1) / 7 + 1 == rule.week % 256)
    ensures rule.MonthDay? ==>
              (Matches(rule, date) <==> rule.month == date.month && rule.day == date.day)
  {
    if rule.MonthWeekDay? && rule.month == date.month && rule.weekday == date.Weekday()
       && (date.day - 1) / 7 + 1 == rule.week % 256 {
      NthWeekdayComplete(date);
    }
  }
}

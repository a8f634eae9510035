# Septem, modelled in Dafny

Septem is an activity tracker for X11 desktops. A recorder asks which process owns the
focused window and adds up focused seconds per process name in a table. That table is
written to `data.csv` in the share directory at most once every `write_delay` seconds.
An alerter keeps two counters, productive and unproductive time. It prints a configured
message when an unproductive streak reaches its threshold, and forgives everything when a
productive streak reaches its own. A schedule engine, the date checker, decides from
weekly windows and calendar rules when monitoring (or alerting) is on. A supervisor
builds these clients in a fixed order and starts them.

The model covers:

- the schedule engine in its three drafts:
  - the hour-based `src/date_checker.rs` (module `DateChecker`);
  - the application draft `src/application/date_checker.rs` (`AppDateChecker`);
  - the server draft `src/server/date_checker.rs` (`ServerDateChecker`), which works on
    seconds of the day and has the loop that publishes `alerts_on`.
- their shared calendar-rule logic (`DateRules`), on top of Gregorian arithmetic
  (`Calendar`). This arithmetic includes the n-th weekday of a month, computed as chrono
  computes it.
- the configuration types and defaults: `DateConfig`, `AlertConfiguration` and
  `AppConfig`.
- the server's recorder (`Recorder`), as a class whose fields the event loop updates in
  place. Each method is proved equal to a value-level specification (`Handle`, `Run`), and
  the properties are proved about that specification.
- both alerters (`Alert`, `AppAlert`), as classes with counter fields and a tick loop.
- the supervisor fragments of `src/server.rs` (`Supervisor`):
  - the start-up order;
  - the `Init` → `Running` transition;
  - the loop that waits until alerts are on.

Inputs that come from the outside world are parameters:

- wall-clock readings (a `CalendarDate` and a `Clock`; milliseconds for the recorder);
- what the pid channel delivers, and the process-name lookup;
- how each interruptible wait ends;
- how each awaited write task ends;
- the `running` and `shutdown` flags as read at each loop head;
- whether the configuration, the event handler and the signal handler could be built.

Every loop that runs until a flag changes is driven by a finite trace of such inputs.

Where the source is incomplete or does not compile as written, the model reads it as
follows:

- At shutdown the recorder awaits the pending write; it does not write the table again
  (`src/server/recorder.rs:228-229`).
- The server draft imports `Hours` from `src/config/date_config.rs`, whose `start` and
  `stop` are whole hours (`u32`), yet `weekdays_hours` returns them as a
  `(NaiveTime, NaiveTime)` pair (`src/server/date_checker.rs:101-109`). This fails to
  type-check for a configured window as much as for the default. The model reads every configured window as two times of day in
  whole seconds after midnight (`TimedHours`), and the default window as
  00:00:00–23:59:59, the end of day that `next_time` tests for.
- `src/server.rs` names the decisions `StartOfMonitoring`/`EndOfMonitoring` with a boolean
  `EndOfDay`. These are the server draft's `StartOfAlerts`/`EndOfAlerts`/`EndOfDay(_, bool)`.
- `Server::start` uses an undefined `d`. It is modelled as the duration carried by `next`.
- `src/application/alert.rs` reads an undefined `shutdown`. It is modelled as the
  alerter's own shutdown flag.
- `src/application/date_checker.rs` imports `Hours` and calls `start_hours()`, which
  `src/application/config.rs` does not define. Its windows are modelled as the triples
  (weekday, start hour, stop hour) that `weekdays_hours` returns.
- The application configuration's `Date` has `u8` fields and a `WeekDay` variant that the
  application date checker never matches. The model uses the rule type of
  `src/config/date_config.rs` instead, whose two variants are the ones matched.
- `src/server.rs` calls `date_checker::sanity_check` and `date_checker::next_time` as free
  functions, while the server draft has them as methods. They are modelled as the server
  draft's `sanity_check` and `next_time`, given the configuration.
- `src/server.rs` calls `Alerter::new` with three arguments, while it takes four. It is
  modelled as `Alerter::new` with the configuration; only the message check can fail.
- The server draft's `next_time` compares the current time, nanoseconds included, with
  the window edges and truncates the remaining wait to whole seconds. The model keeps the
  nanoseconds, so a wait toward a window edge ends up to a second before that edge.

## Model

| member | source | states |
|---|---|---|
| `Calendar.NthWeekdayOfMonth` | src/date_checker.rs:96-97 | the day of the n-th given weekday of a month, or None when n is 0 or the month has fewer (chrono's `from_weekday_of_month_opt`) |
| `Calendar.NthWeekdayHasWeekday` | src/date_checker.rs:96-97 | the candidate day of the n-th weekday (first such weekday plus n-1 weeks) falls on that weekday and in the n-th week of the month |
| `Calendar.NthWeekdayComplete` | src/date_checker.rs:96-97 | every real date is found as the n-th occurrence of its own weekday: the search misses no date |
| `Calendar.DaysInMonth` | src/date_checker.rs:103 | month lengths of the Gregorian calendar, with 29 days in February of a leap year (what `from_ymd_opt` accepts) |
| `Client.WaitTimeout` | src/server/client.rs:109-120 | a wait cut short by a notification is a `TimeoutError`; a wait whose sleep ran out is Ok |
| `DateConfig.DefaultHours` | src/config/date_config.rs:34-41 | `Hours::default` is Monday from hour 0 to hour 24 |
| `DateConfig.DefaultDateTimeConfig` | src/config/date_config.rs:44-48 | the default schedule has no disabled day and no window |
| `AlertConfiguration.DefaultAlertConfig` | src/config/alert_config.rs:16-24 | the default ticks every 500 ms, with 5 productive and 20 unproductive minutes and a non-empty message |
| `AppConfig.Date.Month` | src/application/config.rs:93-101 | Some month for month/weekday and month/day rules, None for a bare weekday rule |
| `AppConfig.Date.Week` | src/application/config.rs:103-111 | Some week for month/weekday and bare weekday rules, None for a month/day rule |
| `AppConfig.Date.Day` | src/application/config.rs:115-123 | always Some, carrying the rule's weekday or day of the month |
| `AppConfig.FromParts` | src/application/config.rs:87-123 | a rule built from parts has exactly those parts under the three accessors: the inverse of the accessors |
| `AppConfig.AccessorsIdentify` | src/application/config.rs:93-123 | the month, week and day accessors together give back the rule |
| `AppConfig.DateTimeConfig.StartHour` | src/application/config.rs:137-139 | the configured start hour, or 0 when unset |
| `AppConfig.DateTimeConfig.StopHour` | src/application/config.rs:141-143 | the configured stop hour, or 0 when unset |
| `AppConfig.DefaultDateTimeConfig` | src/application/config.rs:125-130 | the derived default has no rule and both hours read 0 |
| `AppConfig.DefaultEventHandlerConfig` | src/application/config.rs:63-67 | the default minimum focus time is 10 |
| `AppConfig.Config.BlacklistsDates` | src/application/config.rs:178-180 | the configured date table, or an empty one with both hours 0 when absent |
| `AppConfig.Config.EventHandlerSettings` | src/application/config.rs:182-184 | the configured event table, or a minimum focus time of 10 when absent |
| `AppConfig.Config.RecorderSettings` | src/application/config.rs:186-188 | the recorder table with its productive and unproductive lists unchanged |
| `DateRules.RuleDay` | src/date_checker.rs:53-68 | the day a rule names in a year, None exactly when that date does not exist (`week` taken modulo 256, as `week as u8` truncates) |
| `DateRules.RulesCheck` | src/date_checker.rs:53-68 | None exactly when every rule names an existing date; otherwise the error of a rule whose date does not exist |
| `DateRules.CheckRules` | src/date_checker.rs:53-68 | the rule loop of `sanity_check` returns the error of the first rule whose date does not exist, else nothing |
| `DateRules.ShouldRun` | src/date_checker.rs:89-110 | false exactly when a rule names the date, true exactly when every rule exists and none names it, and None where chrono would panic |
| `DateRules.ExistingRulesNeverPanic` | src/date_checker.rs:89-110 | once the rules passed the rule check for the date's year, `should_run` never panics and is false exactly when some rule names the date |
| `DateRules.MatchesIff` | src/date_checker.rs:94-106 | a month/nth-weekday rule matches exactly the `week`-th occurrence of its weekday in its month, and a month/day rule exactly that day |
| `DateChecker.FindHours` | src/date_checker.rs:37-43 | the index of the first window configured for the weekday, None when there is none |
| `DateChecker.WeekdaysHours` | src/date_checker.rs:37-46 | the first window configured for the weekday, or (0, 24) from `Hours::default` |
| `DateChecker.SanityCheck` | src/date_checker.rs:48-87 | Ok exactly when every rule exists, no weekday repeats and every window opens before it closes with both ends at most 24 |
| `DateChecker.HoursCheckNoneIff` | src/date_checker.rs:70-84 | the window loop finds no error exactly when weekdays are distinct (and unseen) and every window is in range |
| `DateChecker.CheckOkIff` | src/date_checker.rs:48-87 | `sanity_check` accepts exactly the configurations with existing rules, distinct weekdays and sound windows |
| `DateChecker.HoursCheckSound` | src/date_checker.rs:70-84 | each window error names a real defect; a flip-flop window is reported before a too-high one |
| `DateChecker.CheckErrors` | src/date_checker.rs:53-84 | a rule error is reported before any window error, and every error returned points at a real defect |
| `DateChecker.NextTime` | src/date_checker.rs:112-135 | before the window: start of monitoring; inside it: end of monitoring, or end of day when it closes at 24; otherwise end of day at midnight |
| `DateChecker.HoursCheck` | src/date_checker.rs:70-84 | the window loop only reports repeated weekdays, flip-flop windows and too-high hours |
| `DateChecker.Check` | src/date_checker.rs:48-87 | the check reports a rule error exactly when some rule names a date that does not exist in the year |
| `DateChecker.CheckedYearOnly` | src/date_checker.rs:51-66 | the rules are checked against the current year only: a 29 February rule passes in 2024, yet `should_run` panics on it on 1 March 2025 |
| `DateChecker.SaneHours` | src/date_checker.rs:37-46 | for a configuration with sound windows the weekday's window opens before it closes, by hour 24 |
| `DateChecker.NextTimeBounded` | src/date_checker.rs:121-134 | for an accepted configuration `should_run` does not panic, every duration lies in [1, 86400], and both window hours times 3600 fit in a u32 |
| `DateChecker.StartOfMonitoringIsExact` | src/date_checker.rs:119-122 | monitoring is off now and on once the returned seconds have passed, the same day |
| `DateChecker.EndOfMonitoringIsExact` | src/date_checker.rs:123-129 | monitoring stays on for each of the returned seconds and is off once they have passed |
| `DateChecker.DisabledDayWaitsForMidnight` | src/date_checker.rs:133-134 | a day named by a month/nth-weekday rule is not run and waits until midnight, whatever its window |
| `DateChecker.DefaultConfigMonitorsAllDay` | src/date_checker.rs:112-135 | with the default configuration every moment waits until midnight, monitored |
| `AppDateChecker.WeekdaysHours` | src/application/date_checker.rs:37-44 | the first triple for the weekday, else (weekday, 0, 24) |
| `AppDateChecker.WeekdaysHoursAgree` | src/application/date_checker.rs:37-44 | the triple form picks the same window as the hour-based draft |
| `AppDateChecker.SanityCheck` | src/application/date_checker.rs:46-85 | the same verdict as the hour-based draft: rules first, then distinct weekdays and windows in range |
| `AppDateChecker.NextTime` | src/application/date_checker.rs:110-133 | the same three-way decision over the triple windows |
| `AppDateChecker.NextTimeAgrees` | src/application/date_checker.rs:110-133 | the application draft decides exactly as the hour-based draft on every date and time |
| `ServerDateChecker.DefaultTimedHours` | src/server/date_checker.rs:108 | the default window covers the whole day, 00:00:00 to 23:59:59 |
| `ServerDateChecker.SanityCheck` | src/server/date_checker.rs:62-99 | Ok exactly when every rule exists, no weekday repeats and every window opens before it closes |
| `ServerDateChecker.HoursCheckNoneIff` | src/server/date_checker.rs:84-96 | the window loop finds no error exactly when weekdays are distinct and windows ordered |
| `ServerDateChecker.HoursCheck` | src/server/date_checker.rs:84-96 | the window loop only reports repeated weekdays and flip-flop windows |
| `ServerDateChecker.Check` | src/server/date_checker.rs:62-99 | the check reports a rule error exactly when some rule names a date that does not exist in the year |
| `ServerDateChecker.CheckOkIff` | src/server/date_checker.rs:62-99 | `sanity_check` accepts exactly the sound configurations and never reports HoursTooHighError |
| `ServerDateChecker.WeekdaysHours` | src/server/date_checker.rs:101-110 | the first window configured for the weekday, else the whole day |
| `ServerDateChecker.NextTime` | src/server/date_checker.rs:135-165 | no wait lasts more than a day, and the wait until midnight of a day that is off lasts at least one second |
| `ServerDateChecker.ZeroWaitBeforeWindow` | src/server/date_checker.rs:143-147 | less than a second before the window opens, the wait is zero seconds |
| `ServerDateChecker.NextTimeDecides` | src/server/date_checker.rs:143-164 | start of alerts before the window; end of alerts inside it, or end of a day that stays on when it closes at 23:59:59; otherwise end of a day that is off. A wait toward a window edge is the whole seconds left, so it ends within the last second before that edge; the wait of a day that is off ends at midnight |
| `ServerDateChecker.AlertsOnMeansInWindow` | src/server/date_checker.rs:173-186 | the flag stored for a decision is on exactly when the day is enabled and now, nanoseconds included, lies inside its window |
| `ServerDateChecker.WaitsEndAtTransitions` | src/server/date_checker.rs:143-164 | after an on decision the wait ends within the last second before the window closes; after an off decision within the last second before it opens, or at midnight |
| `ServerDateChecker.Flags` | src/server/date_checker.rs:173-186 | the flag each tick's decision stores in `alerts_on`, for every tick on which `should_run` does not panic |
| `ServerDateChecker.RunFlags` | src/server/date_checker.rs:170-189 | the loop only ever fails with TimeoutError |
| `ServerDateChecker.Run` | src/server/date_checker.rs:170-189 | when the loop acts on no tick, the flag is unchanged and the result is Ok |
| `ServerDateChecker.ActedAreReached` | src/server/date_checker.rs:170-189 | the ticks the loop acts on are exactly those it reaches: it runs at them and every wait before them ran out |
| `ServerDateChecker.StartStep` | src/server/date_checker.rs:172-186 | at a reached tick `should_run` does not panic, and one pass stores the tick's flag, then stops on an interrupted wait or goes on with the next tick |
| `ServerDateChecker.RunKeepsLastFlag` | src/server/date_checker.rs:170-189 | after the loop `alerts_on` holds the flag of the last tick acted on; it fails exactly when that tick's wait was interrupted |
| `ServerDateChecker.FlagsAreWindows` | src/server/date_checker.rs:173-186 | the flag of a tick on which `should_run` does not panic is on exactly when that tick lies in the alert window |
| `ServerDateChecker.RunTracksWindow` | src/server/date_checker.rs:170-189 | when no reached tick makes `should_run` panic, after the loop `alerts_on` tells whether the last tick acted on lay in the alert window, and is unchanged when no tick was acted on; the loop fails exactly on an interrupted wait, with TimeoutError |
| `ServerDateChecker.DateChecker.New` | src/server/date_checker.rs:47-60 | the checker exists exactly when `sanity_check` accepts its configuration, otherwise that error |
| `ServerDateChecker.DateChecker.Store` | src/server/date_checker.rs:173-186 | the match stores the flag that the decision calls for |
| `ServerDateChecker.DateChecker.Start` | src/server/date_checker.rs:170-189 | when no tick the loop reaches makes `should_run` panic, the flag and result of the loop are those of `Run` over the ticks |
| `Alert.SanityCheckConf` | src/server/alert.rs:30-36 | refused with EmptyMessageError exactly when the message is empty |
| `Alert.DefaultConfAccepted` | src/config/alert_config.rs:16-24 | the default configuration passes the alerter's check |
| `Alert.CountCases` | src/server/alert.rs:62-75 | prints exactly when an unproductive tick reaches its threshold; below its threshold a tick grows only its own counter; reaching either threshold resets both; with positive thresholds both stay below |
| `Alert.Count` | src/server/alert.rs:61-74 | a counted tick prints only when it is unproductive, and then both counters are reset |
| `Alert.Step` | src/server/alert.rs:60-75 | a tick prints only while alerts are on and the user is unproductive; while alerts are off the counters stay as they were |
| `Alert.Run` | src/server/alert.rs:58-76 | the loop prints at most once per tick |
| `Alert.RunWhileOff` | src/server/alert.rs:58-76 | while alerts stay off the loop leaves the counters as they were and prints nothing |
| `Alert.FinishStep` | src/server/alert.rs:59-76 | one pass of the loop moves on by one observation without changing the counters and lines the loop ends with |
| `Alert.RunStaysBelow` | src/server/alert.rs:59-76 | with positive thresholds both counters stay below them through any run |
| `Alert.StreakSilent` | src/server/alert.rs:67-70 | while the delays of a streak of unproductive ticks keep the unproductive counter under its threshold, the streak only grows that counter and prints nothing |
| `Alert.StreakAlerts` | src/server/alert.rs:67-73 | the tick of an unproductive streak that brings the counter to its threshold prints the message once and resets both counters |
| `Alert.DefaultStreak` | src/server/alert.rs:68-74 | under the default configuration 2399 unproductive ticks stay silent and the 2400th, at 20 minutes, prints |
| `Alert.Alerter.New` | src/server/alert.rs:38-53 | refused exactly on an empty message; otherwise both counters start at zero and nothing is printed |
| `Alert.Alerter.Tick` | src/server/alert.rs:61-75 | the counters and the printed lines move as `Step` says; nothing moves while alerts are off |
| `Alert.Alerter.Start` | src/server/alert.rs:58-80 | Ok, with the counters and printed lines of `Run` over the observations |
| `AppAlert.Run` | src/application/alert.rs:51-72 | the loop prints at most once per tick, and never while the user stays productive |
| `AppAlert.FinishStep` | src/application/alert.rs:52-69 | one counted tick moves the loop on by one observation without changing where it ends |
| `AppAlert.RunIsAlwaysOnServerRun` | src/application/alert.rs:51-72 | the application alerter behaves as the server's with alerts always on and `running` the negation of `shutdown` |
| `AppAlert.RunStaysBelow` | src/application/alert.rs:55-67 | with positive thresholds both counters stay below them through any run |
| `AppAlert.Alerter.New` | src/application/alert.rs:37-46 | refused exactly on an empty message; otherwise both counters start at zero |
| `AppAlert.Alerter.Tick` | src/application/alert.rs:53-67 | every tick counts: the counters and the printed lines move as `Count` says |
| `AppAlert.Alerter.Start` | src/application/alert.rs:51-72 | Ok, with the counters and printed lines of `Run` until shutdown |
| `Recorder.AddRecord` | src/server/recorder.rs:70-80 | the table's names become the old names plus the record's name |
| `Recorder.AddRecordEntries` | src/server/recorder.rs:70-80 | a known name gains the record's time and takes its flag; a new name enters with them; every other entry is unchanged and no total drops |
| `Recorder.ReplayTotals` | src/server/recorder.rs:70-80 | after any sequence of credits each total is the starting one plus everything credited to the name, and each flag is that of the name's last credit |
| `Recorder.ReplayGrows` | src/server/recorder.rs:73 | a name's total never decreases along a sequence of credits |
| `Recorder.Load` | src/server/recorder.rs:103-110 | the only way loading fails is CsvError |
| `Recorder.LoadFailsIff` | src/server/recorder.rs:103-110 | loading fails exactly when some record is malformed |
| `Recorder.LoadKeys` | src/server/recorder.rs:103-110 | a successful load holds exactly the names of the well-formed records |
| `Recorder.LoadLastWins` | src/server/recorder.rs:105-109 | each name carries the time of its last record and the flag "listed as productive"; the stored flag is ignored |
| `Recorder.LoadRows` | src/server/recorder.rs:103-110 | the record loop returns the value of `Load` |
| `Recorder.LoadErrorPropagates` | src/server/recorder.rs:106 | once a malformed record is read the whole load fails with CsvError |
| `Recorder.CreateData` | src/server/recorder.rs:82-93 | in a directory a header-only data file is created; otherwise PathDoesNotExistError and nothing changes |
| `Recorder.ParseData` | src/server/recorder.rs:95-115 | an unreadable file is CsvError; an existing file is loaded; a missing one is created in a directory and gives the empty table, and in a path that is not a directory gives PathDoesNotExistError |
| `Recorder.WriteRows` | src/server/recorder.rs:142-155 | the rows written are a snapshot of the table: one per entry with its time and flag, no name twice |
| `Recorder.WriteThenLoad` | src/server/recorder.rs:105-109 | loading a snapshot gives back exactly the table's names, each with its time and with its flag recomputed from the productive list |
| `Recorder.SnapshotEntriesLoaded` | src/server/recorder.rs:147-153 | every entry of the table comes back from its snapshot |
| `Recorder.SnapshotNamesOnly` | src/server/recorder.rs:147-153 | nothing but the table's names comes back from its snapshot |
| `Recorder.AwaitWrite` | src/server/recorder.rs:211 | awaiting a write is Ok exactly when it was written |
| `Recorder.ElapsedSecs` | src/server/recorder.rs:205-208 | the whole seconds in the milliseconds between two readings, truncated |
| `Recorder.Handle` | src/server/recorder.rs:183-226 | the process that was current becomes the previous one; the pass stops the loop exactly on a closed channel, and fails only with RecorderClientError (a failed lookup or write) or JoinThreadError (a failed write task) |
| `Recorder.Proceed` | src/server/recorder.rs:194-226 | after a delivered event the new process is current and the published flag is whether it is listed; this part of the pass never stops the loop, and fails only with the errors of awaiting a write |
| `Recorder.Run` | src/server/recorder.rs:182-226 | the loop fails only with RecorderClientError or JoinThreadError |
| `Recorder.Credit` | src/server/recorder.rs:202-206 | the previous process is credited under its own name with the flag "listed as productive" |
| `Recorder.HandleTable` | src/server/recorder.rs:201-206 | after a delivered event the previous process, if any, is credited with the whole seconds since the last event; otherwise the table is unchanged |
| `Recorder.HandleOutcome` | src/server/recorder.rs:183-226 | a pass stops the loop exactly on a closed channel, fails on a failed lookup, and fails after a delivered event exactly when a due write's await fails |
| `Recorder.HandleCredits` | src/server/recorder.rs:194-206 | the new process is current and the published flag is on exactly when it is listed; only the previous process gains time; every other total stays |
| `Recorder.HandleWrites` | src/server/recorder.rs:201-225 | a write starts only after a credited event once `write_delay` seconds passed and the pending write was awaited, with the table just credited; the start time is reset after every completed pass |
| `Recorder.HandleGrows` | src/server/recorder.rs:201-206 | a pass never lowers a total |
| `Recorder.HandleKeepsWrites` | src/server/recorder.rs:208-217 | a pass keeps the writes at least `write_delay` seconds apart, the last one at `write_time`, and never losing recorded time |
| `Recorder.HandleClocks` | src/server/recorder.rs:201-225 | with clock readings that never go backwards, both clocks stay at or before every later event |
| `Recorder.RunKeeps` | src/server/recorder.rs:182-226 | the loop never lowers a total, only appends writes, and keeps them spaced and growing |
| `Recorder.HandleReplays` | src/server/recorder.rs:201-206 | a pass credits exactly the records `StepCredits` lists |
| `Recorder.ReplayAppend` | src/server/recorder.rs:70-80 | crediting two runs one after the other is crediting them joined |
| `Recorder.RunReplays` | src/server/recorder.rs:182-226 | the table the loop leaves is the starting table credited with exactly the records of `RunCredits`, in order |
| `Recorder.Recorder.New` | src/server/recorder.rs:117-138 | fails exactly as `parse_data` does; otherwise no process yet, both clocks at now and the parsed table; the share directory changes only by the created data file |
| `Recorder.Recorder.AddData` | src/server/recorder.rs:70-80 | the table becomes `AddRecord` of the old one |
| `Recorder.Recorder.WaitForEvent` | src/server/recorder.rs:157-172 | the current process becomes the previous one; a closed channel is PidChannelError and a failed lookup GetProcessError; otherwise the delivered process is current |
| `Recorder.Recorder.StartWrite` | src/server/recorder.rs:212-216 | a write of the current table starts now and `write_time` becomes now |
| `Recorder.Recorder.HandleEvent` | src/server/recorder.rs:183-226 | the new state and the outcome are those of `Handle` |
| `Recorder.Recorder.Start` | src/server/recorder.rs:177-231 | after the first write, the state is that of `Run` over the events; the result is that error, else the outcome of awaiting the pending write |
| `Supervisor.StartUpError` | src/server.rs:80-100 | a later step's error implies every earlier step passed: a date error needs the configuration, a recorder or alerter error needs the date check and both handlers, and an alerter error needs the recorder |
| `Supervisor.StartUpOkIff` | src/server.rs:80-114 | start-up succeeds exactly when the configuration loads, the date settings pass the sanity check, both handlers build, the data file parses and the message is non-empty; then `should_run` never panics on any date of that year |
| `Supervisor.DatesCheckedBeforeClients` | src/server.rs:81-99 | with the configuration loaded a bad date rule is the error whatever the clients would do, and the recorder never touches the share directory |
| `Supervisor.FirstOn` | src/server.rs:173-191 | the first decision that leaves the waiting loop: one that turns alerts on, with none before it |
| `Supervisor.Decisions` | src/server.rs:173-190 | the date checker's decision for each moment the loop asks |
| `Supervisor.ExitsAtFirstWindow` | src/server.rs:172-191 | fed by the date checker, the waiting loop leaves at the first moment inside the alert window of an enabled day, and keeps waiting while none is |
| `Supervisor.Server.New` | src/server.rs:80-114 | fails with the first start-up error in source order; on success the state is `Init` holding fresh alerter and recorder; the share directory is untouched unless start-up reaches the recorder |
| `Supervisor.Server.Start` | src/server.rs:116-142 | the state becomes `Running` with the wait of `next` before anything is checked; from `Init` it holds the alert, event and recorder tasks in that order and the result is Ok; from any other state it holds none and the result is ServerStateError |
| `Supervisor.Server.Stop` | src/server.rs:144-154 | returns Ok and changes nothing |
| `Supervisor.Server.Restart` | src/server.rs:156-167 | returns Ok and changes nothing |
| `Supervisor.Server.Run` | src/server.rs:170-216 | returns Ok exactly when some decision turns alerts on (`EndOfAlerts` or `EndOfDay(_, true)`), after waiting out every earlier one; it waits on the others whatever ends the wait |

## Left out

- X11 window watching, the event handler and the signal handler are not part of this model; their effects are inputs (the pid channel's deliveries, the `running`/`shutdown` flags, whether each handler can be built).
- The process-name lookup (`Process::new`, the C helper in `src/server/recorder/proc_name.c` and `/proc`) is an input: a found `Process` or a failed lookup.
- Configuration file loading (toml, `HOME`, `Config::new`, `share`) is an input: loaded or not.
- CSV encoding, the I/O errors of `File::create`, `write_all` and the CSV writer, and the concurrent write task are left out; a write is recorded as the table it copies, and how its await ends is an input.
- Concurrency (tokio tasks, `Notify`, atomics, `select`) is left out; each interruptible wait's outcome is an input, and each loop is driven by a finite trace of inputs.
- Clock reads within one pass of a loop are taken as one instant; the recorder requires clock readings that never go backwards, since `elapsed().unwrap()` panics otherwise.
- `println!` output is left out, except the alert message, which is the alerter's `printed` field.
- The alerters' `f64` counters are exact integer milliseconds compared against exact real thresholds; floating-point rounding is left out.
- chrono's panicking `from_weekday_of_month`/`from_ymd` inside `should_run` is modelled as the result None, so `next_time` requires that `should_run` does not panic, and the server draft's loop requires it of every tick it reaches.
- A leap second, which chrono represents with a nanosecond field of one second or more, is not modelled: the nanoseconds of a reading lie below one second.
- Unsigned overflow is not modelled: `u64` totals in the recorder, and the `u32` window arithmetic outside `DateChecker.NextTimeBounded`.
- The rest of `Server::run` after the waiting loop is a comment in the source, and `stop`/`restart` are stubs; only what the code does is modelled.
- Supervisor.Server.New: the event handler, signal handler and configuration outcomes are inputs rather than computed, so the contract states the order of the checks but not what those steps do.
- Supervisor.Server.Run: the decisions are an input sequence rather than read from the clock; `Supervisor.ExitsAtFirstWindow` ties them to the date checker.

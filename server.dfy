/**
 * The server: it validates its configuration and builds its clients in a fixed order, moves
 * from `Init` to `Running` when it starts them, and before that waits, decision by decision,
 * until the date checker says alerts are on.
 */
module Supervisor {
  import opened Wrappers
  import opened Calendar
  import opened DateRules
  import opened Client
  import opened AlertConfiguration
  import ServerDateChecker
  import Alert
  import Recorder

  /** Every way the server fails, each start-up error carrying the failing step's own error. */
  datatype ServerError =
    | ServerStateError
    | JoinAllError
    | RunningClientError(client: ClientError)
    | StartUpAlertError(alert: Alert.AlertError)
    | StartUpConfigError
    | StartUpDateError(date: DateError)
    | StartUpRecorderError(recorder: Recorder.RecorderError)
    | StartUpEventError
    | StartUpSignalError

  /** The client tasks the server spawns, by the client each one runs. */
  datatype Task = AlertTask | EventTask | RecorderTask

  /** The tasks spawned when the server starts, in spawn order. */
  const Spawned: seq<Task> := [AlertTask, EventTask, RecorderTask]

  /**
   * The server's state machine. `Init` holds the built clients (the event handler, whose
   * construction is an input here, holds nothing the model follows); `Running` holds the
   * spawned tasks and the length of the pending stop wait.
   */
  datatype ServerState =
    | Init(alerter: Alert.Alerter, recorder: Recorder.Recorder)
    | Running(clients: seq<Task>, wait: nat)
    | Selected
    | Stopped(wait: nat)

  /**
   * What start-up reads or is told: whether the configuration file and the share directory
   * load, the date settings with the current year, whether the event and signal handlers can be
   * built, the share directory, the recorder's settings and the alert settings.
   */
  datatype Setup = Setup(
    configLoaded: bool,
    dates: ServerDateChecker.ServerDateConfig,
    year: int,
    eventBuilt: bool,
    signalBuilt: bool,
    share: Recorder.ShareDir,
    productive: seq<string>,
    writeDelay: nat,
    alerts: AlertConfig)

  /**
   * The first error of start-up, in the order the steps run: configuration, date sanity
   * check, event handler, signal handler, recorder, alerter.
   */
  function StartUpError(s: Setup): (r: Option<ServerError>)
    ensures r.Some? && r.value.StartUpDateError? ==> s.configLoaded
    ensures r.Some? && (r.value.StartUpRecorderError? || r.value.StartUpAlertError?) ==>
              ReachesRecorder(s)
    ensures r.Some? && r.value.StartUpAlertError? ==> Recorder.ParseDataResult(s.share, s.productive).Ok?
  {
    if !s.configLoaded then Some(StartUpConfigError)
    else if ServerDateChecker.Check(s.dates, s.year).Err? then
      Some(StartUpDateError(ServerDateChecker.Check(s.dates, s.year).error))
    else if !s.eventBuilt then Some(StartUpEventError)
    else if !s.signalBuilt then Some(StartUpSignalError)
    else if Recorder.ParseDataResult(s.share, s.productive).Err? then
      Some(StartUpRecorderError(Recorder.ParseDataResult(s.share, s.productive).error))
    else if Alert.SanityCheckConf(s.alerts).Err? then
      Some(StartUpAlertError(Alert.SanityCheckConf(s.alerts).error))
    else None
  }

  /** Whether start-up gets as far as building the recorder, which may create the data file. */
  predicate ReachesRecorder(s: Setup) {
    s.configLoaded && ServerDateChecker.Check(s.dates, s.year).Ok? && s.eventBuilt && s.signalBuilt
  }

  /**
   * Start-up succeeds exactly when every step does; then the date rules cannot make the date
   * checker panic in the configured year.
   */
  lemma StartUpOkIff(s: Setup)
    ensures StartUpError(s).None? <==>
              && s.configLoaded
              && ServerDateChecker.Check(s.dates, s.year).Ok?
              && s.eventBuilt && s.signalBuilt
              && Recorder.ParseDataResult(s.share, s.productive).Ok?
              && |s.alerts.message| > 0
    ensures StartUpError(s).None? ==>
              forall d: CalendarDate :: d.year == s.year ==>
                ShouldRun(s.dates.disabledDays, d).Some?
  {
    if StartUpError(s).None? {
      forall d: CalendarDate | d.year == s.year
        ensures ShouldRun(s.dates.disabledDays, d).Some?
      {
        ExistingRulesNeverPanic(s.dates.disabledDays, d);
      }
    }
  }

  /**
   * The date settings are checked before any client is built: with the configuration loaded,
   * a bad date rule is the error whatever the clients would have done, and the recorder never
   * touches the share directory.
   */
  lemma DatesCheckedBeforeClients(s: Setup)
    requires s.configLoaded
    requires ServerDateChecker.Check(s.dates, s.year).Err?
    ensures StartUpError(s) == Some(StartUpDateError(ServerDateChecker.Check(s.dates, s.year).error))
    ensures forall s': Setup ::
              s'.configLoaded && s'.dates == s.dates && s'.year == s.year ==>
                StartUpError(s') == StartUpError(s)
    ensures !ReachesRecorder(s)
  {
  }

  /** The first index from `i` on whose decision leaves the waiting loop, if any. */
  function FirstOn(decisions: seq<ServerDateChecker.StartStopTimes>, i: nat): (k: Option<nat>)
    requires i <= |decisions|
    ensures k.Some? ==> && i <= k.value < |decisions|
                        && ServerDateChecker.AlertsOnFor(decisions[k.value])
                        && forall j :: i <= j < k.value ==> !ServerDateChecker.AlertsOnFor(decisions[j])
    ensures k.None? ==> forall j :: i <= j < |decisions| ==> !ServerDateChecker.AlertsOnFor(decisions[j])
    decreases |decisions| - i
  {
    if i == |decisions| then None
    else if ServerDateChecker.AlertsOnFor(decisions[i]) then Some(i)
    else FirstOn(decisions, i + 1)
  }

  /** How many decisions the waiting loop consumes: up to its exit, or all of them. */
  function Consumed(decisions: seq<ServerDateChecker.StartStopTimes>): (n: nat)
    ensures n <= |decisions|
  {
    var k := FirstOn(decisions, 0);
    if k.Some? then k.value else |decisions|
  }

  /** The durations of `decisions`, in order. */
  function Durations(decisions: seq<ServerDateChecker.StartStopTimes>): (r: seq<nat>)
    ensures |r| == |decisions|
    ensures forall j :: 0 <= j < |decisions| ==> r[j] == decisions[j].duration
  {
    if |decisions| == 0 then [] else Durations(decisions[..|decisions| - 1]) + [decisions[|decisions| - 1].duration]
  }

  /** A moment the date checker is asked about, with the nanoseconds past its whole second. */
  datatype Sample = Sample(date: CalendarDate, now: Clock, nanos: ServerDateChecker.Nanos)

  /** The sample lies in the alert window of an enabled day. */
  predicate InWindowAt(config: ServerDateChecker.ServerDateConfig, sample: Sample) {
    ServerDateChecker.InAlertWindow(config, sample.date, sample.now, sample.nanos)
  }

  /** The date checker's decision for each sample. */
  function Decisions(config: ServerDateChecker.ServerDateConfig, samples: seq<Sample>)
    : (r: seq<ServerDateChecker.StartStopTimes>)
    requires forall j :: 0 <= j < |samples| ==> ShouldRun(config.disabledDays, samples[j].date).Some?
    ensures |r| == |samples|
    ensures forall j :: 0 <= j < |samples| ==>
              r[j] == ServerDateChecker.NextTime(config, samples[j].date, samples[j].now, samples[j].nanos)
  {
    seq(|samples|, j requires 0 <= j < |samples| =>
                     ServerDateChecker.NextTime(config, samples[j].date, samples[j].now,
                                                samples[j].nanos))
  }

  /**
   * Fed by the date checker, the waiting loop leaves at the first moment that lies inside
   * the alert window of an enabled day, and keeps waiting while none does.
   */
  lemma ExitsAtFirstWindow(config: ServerDateChecker.ServerDateConfig, samples: seq<Sample>)
    requires forall j :: 0 <= j < |samples| ==> ShouldRun(config.disabledDays, samples[j].date).Some?
    ensures var k := FirstOn(Decisions(config, samples), 0);
            && (k.Some? ==> && k.value < |samples| && InWindowAt(config, samples[k.value])
                            && forall j :: 0 <= j < k.value ==> !InWindowAt(config, samples[j]))
            && (k.None? ==> forall j :: 0 <= j < |samples| ==> !InWindowAt(config, samples[j]))
  {
    var ds := Decisions(config, samples);
    forall j | 0 <= j < |samples|
      ensures ServerDateChecker.AlertsOnFor(ds[j]) <==> InWindowAt(config, samples[j])
    {
      ServerDateChecker.AlertsOnMeansInWindow(config, samples[j].date, samples[j].now, samples[j].nanos);
    }
  }

  class Server {
    var state: ServerState

    constructor (alerter: Alert.Alerter, recorder: Recorder.Recorder)
      ensures state == Init(alerter, recorder)
    {
      state := Init(alerter, recorder);
    }

    /**
     * `Server::new`: the steps of `StartUpError` in order, stopping at the first error; on
     * success the server holds the freshly built clients in state `Init`. The share directory
     * is left alone unless start-up reaches the recorder.
     */
    static method New(s: Setup, now: nat) returns (r: Result<Server, ServerError>, after: Recorder.ShareDir)
      ensures r.Err? <==> StartUpError(s).Some?
      ensures r.Err? ==> r.error == StartUpError(s).value
      ensures r.Ok? ==> && fresh(r.value) && r.value.state.Init?
                        && fresh(r.value.state.alerter) && fresh(r.value.state.recorder)
                        && r.value.state.alerter.config == s.alerts
                        && r.value.state.recorder.State()
                           == Recorder.Loop(None, None, false, now, now,
                                            Recorder.ParseDataResult(s.share, s.productive).value, [])
      ensures !ReachesRecorder(s) ==> after == s.share
    {
      after := s.share;
      if !s.configLoaded {
        return Err(StartUpConfigError), after;
      }
      var checked := ServerDateChecker.SanityCheck(s.dates, s.year);
      if checked.Err? {
        return Err(StartUpDateError(checked.error)), after;
      }
      if !s.eventBuilt {
        return Err(StartUpEventError), after;
      }
      if !s.signalBuilt {
        return Err(StartUpSignalError), after;
      }
      var recorder;
      recorder, after := Recorder.Recorder.New(s.share, s.productive, s.writeDelay, now);
      if recorder.Err? {
        return Err(StartUpRecorderError(recorder.error)), after;
      }
      var alerter := Alert.Alerter.New(s.alerts);
      if alerter.Err? {
        return Err(StartUpAlertError(alerter.error)), after;
      }
      var server := new Server(alerter.value, recorder.value);
      return Ok(server), after;
    }

    /**
     * `start`: the state becomes `Running` with the stop wait of `next` before anything is
     * checked; from `Init` the three clients are spawned in it, from any other state the call
     * fails with `ServerStateError` and the server holds no client handles.
     */
    method Start(next: ServerDateChecker.StartStopTimes) returns (r: Result<(), ServerError>)
      modifies this
      ensures state == Running(if old(state).Init? then Spawned else [], next.duration)
      ensures r.Ok? <==> old(state).Init?
      ensures r.Err? ==> r.error == ServerStateError
    {
      var init := state;
      state := Running([], next.duration);
      if init.Init? {
        state := state.(clients := state.clients + Spawned);
        r := Ok(());
      } else {
        r := Err(ServerStateError);
      }
    }

    /** `stop`: not yet written; it succeeds and changes nothing. */
    method Stop() returns (r: Result<(), ServerError>)
      ensures r == Ok(())
    {
      r := Ok(());
    }

    /** `restart`: not yet written; it succeeds and changes nothing. */
    method Restart() returns (r: Result<(), ServerError>)
      ensures r == Ok(())
    {
      r := Ok(());
    }

    /**
     * `run`: take the date checker's successive decisions, waiting out each start of alerts
     * and each end of a day that leaves alerts off (whatever ends the wait), until a decision
     * says alerts are on; then return `Ok`. `None` means the decisions ran out while it was
     * still waiting. `waits` are the waits it started, in order.
     */
    method Run(decisions: seq<ServerDateChecker.StartStopTimes>)
      returns (r: Option<Result<(), ServerError>>, waits: seq<nat>)
      ensures r == if FirstOn(decisions, 0).Some? then Some(Ok(())) else None
      ensures waits == Durations(decisions[..Consumed(decisions)])
    {
      waits := [];
      var i := 0;
      while i < |decisions|
        invariant i <= |decisions|
        invariant FirstOn(decisions, 0) == FirstOn(decisions, i)
        invariant waits == Durations(decisions[..i])
      {
        assert decisions[..i + 1][..i] == decisions[..i];
        match decisions[i] {
          case EndOfDay(d, isOn) =>
            if isOn {
              return Some(Ok(())), waits;
            }
            waits := waits + [d];
          case EndOfAlerts(_) =>
            return Some(Ok(())), waits;
          case StartOfAlerts(d) =>
            waits := waits + [d];
        }
        i := i + 1;
      }
      r := None;
    }
  }
}

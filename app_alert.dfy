/**
 * The application draft of the alerter: the same two counters, but every tick counts (there
 * is no `alerts_on` gate) and the loop runs until the shutdown flag is raised.
 */
module AppAlert {
  import opened Wrappers
  import opened AlertConfiguration
  import opened Client
  import Alert

  /** The flags the loop reads before one tick. */
  datatype Observation = Observation(shutdown: bool, isProd: bool)

  /** The loop of `start` from observation `i` on: final counters and messages printed. */
  function Run(conf: AlertConfig, obs: seq<Observation>, i: nat, c: Alert.Counters)
    : (r: (Alert.Counters, nat))
    requires i <= |obs|
    ensures r.1 <= |obs| - i
    ensures (forall j :: i <= j < |obs| ==> obs[j].isProd) ==> r.1 == 0
    decreases |obs| - i
  {
    if i == |obs| || obs[i].shutdown then (c, 0)
    else
      var (next, alerted) := Alert.Count(c, conf, obs[i].isProd);
      var (final, alerts) := Run(conf, obs, i + 1, next);
      (final, alerts + if alerted then 1 else 0)
  }

  /** The counters and the printed lines at the end of the loop, from observation `i` on. */
  function Finish(conf: AlertConfig, obs: seq<Observation>, i: nat, c: Alert.Counters,
                  printed: seq<string>): (Alert.Counters, seq<string>)
    requires i <= |obs|
  {
    var (final, alerts) := Run(conf, obs, i, c);
    (final, printed + Alert.Copies(conf.message, alerts))
  }

  /** One counted tick moves the loop on by one observation without changing where it ends. */
  lemma FinishStep(conf: AlertConfig, obs: seq<Observation>, i: nat, c: Alert.Counters,
                   printed: seq<string>)
    requires i < |obs| && !obs[i].shutdown
    ensures var (next, alerted) := Alert.Count(c, conf, obs[i].isProd);
            Finish(conf, obs, i, c, printed)
            == Finish(conf, obs, i + 1, next, printed + if alerted then [conf.message] else [])
  {
    var (next, alerted) := Alert.Count(c, conf, obs[i].isProd);
    var (final, alerts) := Run(conf, obs, i + 1, next);
    var line := if alerted then [conf.message] else [];
    assert Run(conf, obs, i, c) == (final, alerts + if alerted then 1 else 0);
    Alert.CopiesSplit(conf.message, alerted, alerts);
    assert printed + Alert.Copies(conf.message, alerts + if alerted then 1 else 0)
           == (printed + line) + Alert.Copies(conf.message, alerts);
  }

  /** The server's observation that this one amounts to: running unless shut down, alerts on. */
  function AsServer(o: Observation): Alert.Observation {
    Alert.Observation(!o.shutdown, true, o.isProd)
  }

  /**
   * The application alerter behaves as the server's would with alerts always on and
   * `running` the negation of `shutdown`; so its counters stay below positive thresholds
   * and its unproductive streaks print exactly as the server's do.
   */
  lemma {:induction false} RunIsAlwaysOnServerRun(conf: AlertConfig, obs: seq<Observation>, i: nat,
                                                  c: Alert.Counters)
    requires i <= |obs|
    ensures var server := seq(|obs|, j requires 0 <= j < |obs| => AsServer(obs[j]));
            Run(conf, obs, i, c) == Alert.Run(conf, server, i, c)
    decreases |obs| - i
  {
    var server := seq(|obs|, j requires 0 <= j < |obs| => AsServer(obs[j]));
    if i < |obs| && !obs[i].shutdown {
      RunIsAlwaysOnServerRun(conf, obs, i + 1, Alert.Count(c, conf, obs[i].isProd).0);
    }
  }

  /** With positive thresholds both counters stay below them through any run. */
  lemma RunStaysBelow(conf: AlertConfig, obs: seq<Observation>, c: Alert.Counters)
    requires Alert.PositiveLimits(conf) && Alert.Below(c, conf)
    ensures Alert.Below(Run(conf, obs, 0, c).0, conf)
  {
    RunIsAlwaysOnServerRun(conf, obs, 0, c);
    Alert.RunStaysBelow(conf, seq(|obs|, j requires 0 <= j < |obs| => AsServer(obs[j])), 0, c);
  }

  /** The application's alerter task. `printed` holds the lines written to standard output. */
  class Alerter {
    const config: AlertConfig
    var productive: nat
    var unproductive: nat
    var printed: seq<string>

    function Counts(): Alert.Counters
      reads this
    {
      Alert.Counters(productive, unproductive)
    }

    constructor (config: AlertConfig)
      ensures this.config == config && Counts() == Alert.Counters(0, 0) && printed == []
    {
      this.config := config;
      productive := 0;
      unproductive := 0;
      printed := [];
    }

    /** `Alerter::new`: refused on an empty message, otherwise both counters start at zero. */
    static method New(config: AlertConfig) returns (r: Result<Alerter, Alert.AlertError>)
      ensures r.Err? <==> |config.message| == 0
      ensures r.Err? ==> r.error == Alert.EmptyMessageError
      ensures r.Ok? ==> fresh(r.value) && r.value.config == config
                        && r.value.Counts() == Alert.Counters(0, 0) && r.value.printed == []
    {
      var checked := Alert.SanityCheckConf(config);
      if checked.Err? {
        return Err(checked.error);
      }
      var alerter := new Alerter(config);
      return Ok(alerter);
    }

    /** One pass of the loop body after the sleep: every tick counts. */
    method Tick(isProd: bool)
      modifies this
      ensures Counts() == Alert.Count(old(Counts()), config, isProd).0
      ensures printed == old(printed)
                         + if Alert.Count(old(Counts()), config, isProd).1 then [config.message] else []
    {
      if isProd {
        productive := productive + config.delay;
        if productive as real >= Alert.ProductiveLimit(config) {
          productive := 0;
          unproductive := 0;
        }
      } else {
        unproductive := unproductive + config.delay;
        if unproductive as real >= Alert.UnproductiveLimit(config) {
          productive := 0;
          unproductive := 0;
          printed := printed + [config.message];
        }
      }
    }

    /** `start`: tick until the shutdown flag is raised. */
    method Start(obs: seq<Observation>) returns (r: Result<(), ClientError>)
      modifies this
      ensures r.Ok?
      ensures Counts() == Run(config, obs, 0, old(Counts())).0
      ensures printed == old(printed)
                         + Alert.Copies(config.message, Run(config, obs, 0, old(Counts())).1)
    {
      var i := 0;
      while i < |obs| && !obs[i].shutdown
        invariant 0 <= i <= |obs|
        invariant Finish(config, obs, i, Counts(), printed)
                  == Finish(config, obs, 0, old(Counts()), old(printed))
        decreases |obs| - i
      {
        FinishStep(config, obs, i, Counts(), printed);
        Tick(obs[i].isProd);
        i := i + 1;
      }
      return Ok(());
    }
  }
}

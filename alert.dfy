/**
 * The server's alerter: two counters of focused time, ticked every `delay` milliseconds
 * while alerts are on. Reaching the productive threshold forgives everything; reaching the
 * unproductive threshold prints the configured message and starts over.
 */
module Alert {
  import opened Wrappers
  import opened AlertConfiguration
  import opened Client

  datatype AlertError = EmptyMessageError

  /** `sanity_check_conf`: a configuration is refused exactly when its message is empty. */
  function SanityCheckConf(conf: AlertConfig): (r: Result<(), AlertError>)
    ensures r.Err? <==> |conf.message| == 0
    ensures r.Err? ==> r.error == EmptyMessageError
  {
    if |conf.message| == 0 then Err(EmptyMessageError) else Ok(())
  }

  /** The default configuration is accepted. */
  lemma DefaultConfAccepted()
    ensures SanityCheckConf(DefaultAlertConfig()) == Ok(())
  {
    assert |DefaultAlertConfig().message| > 0;
  }

  /** Milliseconds of productive and of unproductive time since the last reset. */
  datatype Counters = Counters(productive: nat, unproductive: nat)

  /** The thresholds in milliseconds. */
  function ProductiveLimit(conf: AlertConfig): real {
    conf.productiveTime * 60000.0
  }

  function UnproductiveLimit(conf: AlertConfig): real {
    conf.unproductiveTime * 60000.0
  }

  predicate PositiveLimits(conf: AlertConfig) {
    ProductiveLimit(conf) > 0.0 && UnproductiveLimit(conf) > 0.0
  }

  /** Each counter lies below its threshold. */
  predicate Below(c: Counters, conf: AlertConfig) {
    (c.productive as real) < ProductiveLimit(conf) && (c.unproductive as real) < UnproductiveLimit(conf)
  }

  /**
   * One counted tick, without the `alerts_on` gate: the tick's kind adds `delay` to its own
   * counter, and reaching that counter's threshold resets both. The boolean says whether
   * the message is printed, which only the unproductive threshold does.
   */
  function Count(c: Counters, conf: AlertConfig, isProd: bool): (r: (Counters, bool))
    ensures r.1 ==> !isProd && r.0 == Counters(0, 0)
  {
    if isProd then
      var productive := c.productive + conf.delay;
      if productive as real >= ProductiveLimit(conf) then (Counters(0, 0), false)
      else (Counters(productive, c.unproductive), false)
    else
      var unproductive := c.unproductive + conf.delay;
      if unproductive as real >= UnproductiveLimit(conf) then (Counters(0, 0), true)
      else (Counters(c.productive, unproductive), false)
  }

  /**
   * What one counted tick does: it prints exactly when an unproductive tick reaches the
   * unproductive threshold; below its threshold a tick only grows its own counter; reaching
   * either threshold resets both; and with positive thresholds both counters stay below them.
   */
  lemma CountCases(c: Counters, conf: AlertConfig, isProd: bool)
    ensures var r := Count(c, conf, isProd);
            var p, u := c.productive + conf.delay, c.unproductive + conf.delay;
            && (r.1 <==> !isProd && u as real >= UnproductiveLimit(conf))
            && (isProd && p as real < ProductiveLimit(conf) ==> r.0 == Counters(p, c.unproductive))
            && (!isProd && u as real < UnproductiveLimit(conf) ==> r.0 == Counters(c.productive, u))
            && (isProd && p as real >= ProductiveLimit(conf) ==> r.0 == Counters(0, 0))
            && (PositiveLimits(conf) && Below(c, conf) ==> Below(r.0, conf))
  {
  }

  /** One tick of the server's loop: nothing moves while alerts are off. */
  function Step(c: Counters, conf: AlertConfig, alertsOn: bool, isProd: bool): (r: (Counters, bool))
    ensures r.1 ==> alertsOn && !isProd
    ensures !alertsOn ==> r.0 == c
  {
    if alertsOn then Count(c, conf, isProd) else (c, false)
  }

  /** The flags the loop reads before one tick. */
  datatype Observation = Observation(running: bool, alertsOn: bool, isProd: bool)

  /**
   * The loop of `start` from observation `i` on: the counters it ends with and how many
   * times it printed the message. It runs while `running` holds (or observations last).
   */
  function Run(conf: AlertConfig, obs: seq<Observation>, i: nat, c: Counters): (r: (Counters, nat))
    requires i <= |obs|
    ensures r.1 <= |obs| - i
    decreases |obs| - i
  {
    if i == |obs| || !obs[i].running then (c, 0)
    else
      var (next, alerted) := Step(c, conf, obs[i].alertsOn, obs[i].isProd);
      var (final, alerts) := Run(conf, obs, i + 1, next);
      (final, alerts + if alerted then 1 else 0)
  }

  /** While alerts stay off the loop leaves the counters as they were and prints nothing. */
  lemma {:induction false} RunWhileOff(conf: AlertConfig, obs: seq<Observation>, i: nat, c: Counters)
    requires i <= |obs|
    requires forall j :: i <= j < |obs| ==> !obs[j].alertsOn
    ensures Run(conf, obs, i, c) == (c, 0)
    decreases |obs| - i
  {
    if i < |obs| && obs[i].running {
      RunWhileOff(conf, obs, i + 1, c);
    }
  }

  /** The counters and the printed lines at the end of the loop, from observation `i` on. */
  function Finish(conf: AlertConfig, obs: seq<Observation>, i: nat, c: Counters,
                  printed: seq<string>): (Counters, seq<string>)
    requires i <= |obs|
  {
    var (final, alerts) := Run(conf, obs, i, c);
    (final, printed + Copies(conf.message, alerts))
  }

  /** One pass of the loop moves it on by one observation without changing where it ends. */
  lemma FinishStep(conf: AlertConfig, obs: seq<Observation>, i: nat, c: Counters,
                   printed: seq<string>)
    requires i < |obs| && obs[i].running
    ensures var (next, alerted) := Step(c, conf, obs[i].alertsOn, obs[i].isProd);
            Finish(conf, obs, i, c, printed)
            == Finish(conf, obs, i + 1, next, printed + if alerted then [conf.message] else [])
  {
    var (next, alerted) := Step(c, conf, obs[i].alertsOn, obs[i].isProd);
    var (final, alerts) := Run(conf, obs, i + 1, next);
    var line := if alerted then [conf.message] else [];
    assert Run(conf, obs, i, c) == (final, alerts + if alerted then 1 else 0);
    CopiesSplit(conf.message, alerted, alerts);
    assert printed + Copies(conf.message, alerts + if alerted then 1 else 0)
           == (printed + line) + Copies(conf.message, alerts);
  }

  /** With positive thresholds the counters stay below them through any run. */
  lemma {:induction false} RunStaysBelow(conf: AlertConfig, obs: seq<Observation>, i: nat, c: Counters)
    requires i <= |obs| && PositiveLimits(conf) && Below(c, conf)
    ensures Below(Run(conf, obs, i, c).0, conf)
    decreases |obs| - i
  {
    if i < |obs| && obs[i].running {
      RunStaysBelow(conf, obs, i + 1, Step(c, conf, obs[i].alertsOn, obs[i].isProd).0);
    }
  }

  /** Running, alerts on, and the focused process is not productive. */
  predicate Wasting(o: Observation) {
    o.running && o.alertsOn && !o.isProd
  }

  /** The unproductive counter after `k` more delays of `d`, starting from `u`. */
  function Grown(u: nat, k: nat, d: nat): nat
    decreases k
  {
    if k == 0 then u else Grown(u, k - 1, d) + d
  }

  /** Starting one delay later adds one delay to the end; growing never shrinks the start. */
  lemma {:induction false} GrownShift(u: nat, k: nat, d: nat)
    ensures Grown(u + d, k, d) == Grown(u, k, d) + d
    ensures u <= Grown(u, k, d)
    decreases k
  {
    if k > 0 {
      GrownShift(u, k - 1, d);
    }
  }

  /** `k` delays add `k * d`. */
  lemma {:induction false} GrownIsProduct(u: nat, k: nat, d: nat)
    ensures Grown(u, k, d) == u + k * d
    decreases k
  {
    if k > 0 {
      GrownIsProduct(u, k - 1, d);
      assert k * d == (k - 1) * d + d;
    }
  }

  /**
   * While `k` more delays keep the unproductive counter under its threshold, a streak of `k`
   * unproductive ticks only grows that counter and prints nothing.
   */
  lemma {:induction false} StreakSilent(conf: AlertConfig, obs: seq<Observation>, i: nat, c: Counters)
    requires i <= |obs| && forall j :: i <= j < |obs| ==> Wasting(obs[j])
    requires (Grown(c.unproductive, |obs| - i, conf.delay) as real) < UnproductiveLimit(conf)
    ensures Run(conf, obs, i, c) == (Counters(c.productive, Grown(c.unproductive, |obs| - i, conf.delay)), 0)
    decreases |obs| - i
  {
    if i < |obs| {
      var d, u := conf.delay, c.unproductive;
      var k1 := |obs| - (i + 1);
      var next := Counters(c.productive, u + d);
      GrownShift(u, k1, d);
      GrownShift(u + d, k1, d);
      assert Grown(u + d, k1, d) == Grown(u, |obs| - i, d);
      CountCases(c, conf, false);
      assert Wasting(obs[i]);
      assert Step(c, conf, true, false) == (next, false);
      StreakSilent(conf, obs, i + 1, next);
    }
  }

  /**
   * The tick of an unproductive streak that brings the unproductive counter to its threshold
   * prints the message once and resets both counters; the streak ends there.
   */
  lemma {:induction false} StreakAlerts(conf: AlertConfig, obs: seq<Observation>, i: nat, c: Counters)
    requires i < |obs| && forall j :: i <= j < |obs| ==> Wasting(obs[j])
    requires (Grown(c.unproductive, |obs| - i - 1, conf.delay) as real) < UnproductiveLimit(conf)
    requires (Grown(c.unproductive, |obs| - i, conf.delay) as real) >= UnproductiveLimit(conf)
    ensures Run(conf, obs, i, c) == (Counters(0, 0), 1)
    decreases |obs| - i
  {
    var d, u := conf.delay, c.unproductive;
    var k1 := |obs| - (i + 1);
    CountCases(c, conf, false);
    assert Wasting(obs[i]);
    if k1 == 0 {
      assert Step(c, conf, true, false) == (Counters(0, 0), true);
      assert Run(conf, obs, i + 1, Counters(0, 0)) == (Counters(0, 0), 0);
    } else {
      var next := Counters(c.productive, u + d);
      GrownShift(u, k1, d);
      GrownShift(u, k1 - 1, d);
      GrownShift(u + d, k1 - 1, d);
      StreakAlerts(conf, obs, i + 1, next);
    }
  }

  /**
   * With the default configuration, 2399 unproductive ticks of 500 ms from zero stay silent
   * and the 2400th, at 20 minutes, prints the message.
   */
  lemma DefaultStreak(obs: seq<Observation>)
    requires |obs| == 2400 && forall j :: 0 <= j < |obs| ==> Wasting(obs[j])
    ensures Run(DefaultAlertConfig(), obs, 0, Counters(0, 0)) == (Counters(0, 0), 1)
  {
    var conf := DefaultAlertConfig();
    GrownIsProduct(0, 2399, conf.delay);
    GrownIsProduct(0, 2400, conf.delay);
    StreakAlerts(conf, obs, 0, Counters(0, 0));
  }

  /** The server's alerter task. `printed` holds the lines it has written to standard output. */
  class Alerter {
    const config: AlertConfig
    var productive: nat
    var unproductive: nat
    var printed: seq<string>

    function Counts(): Counters
      reads this
    {
      Counters(productive, unproductive)
    }

    constructor (config: AlertConfig)
      ensures this.config == config && Counts() == Counters(0, 0) && printed == []
    {
      this.config := config;
      productive := 0;
      unproductive := 0;
      printed := [];
    }

    /** `Alerter::new`: refused on an empty message, otherwise both counters start at zero. */
    static method New(config: AlertConfig) returns (r: Result<Alerter, AlertError>)
      ensures r.Err? <==> |config.message| == 0
      ensures r.Err? ==> r.error == EmptyMessageError
      ensures r.Ok? ==> fresh(r.value) && r.value.config == config
                        && r.value.Counts() == Counters(0, 0) && r.value.printed == []
    {
      var checked := SanityCheckConf(config);
      if checked.Err? {
        return Err(checked.error);
      }
      var alerter := new Alerter(config);
      return Ok(alerter);
    }

    /** One pass of the loop body after the sleep. */
    method Tick(alertsOn: bool, isProd: bool)
      modifies this
      ensures Counts() == Step(old(Counts()), config, alertsOn, isProd).0
      ensures printed == old(printed)
                         + if Step(old(Counts()), config, alertsOn, isProd).1 then [config.message] else []
    {
      if alertsOn {
        if isProd {
          productive := productive + config.delay;
          if productive as real >= ProductiveLimit(config) {
            productive := 0;
            unproductive := 0;
          }
        } else {
          unproductive := unproductive + config.delay;
          if unproductive as real >= UnproductiveLimit(config) {
            productive := 0;
            unproductive := 0;
            printed := printed + [config.message];
          }
        }
      }
    }

    /** `start`: tick while `running` holds. */
    method Start(obs: seq<Observation>) returns (r: Result<(), ClientError>)
      modifies this
      ensures r.Ok?
      ensures Counts() == Run(config, obs, 0, old(Counts())).0
      ensures printed == old(printed) + Copies(config.message, Run(config, obs, 0, old(Counts())).1)
    {
      var i := 0;
      while i < |obs| && obs[i].running
        invariant 0 <= i <= |obs|
        invariant Finish(config, obs, i, Counts(), printed)
                  == Finish(config, obs, 0, old(Counts()), old(printed))
        decreases |obs| - i
      {
        FinishStep(config, obs, i, Counts(), printed);
        Tick(obs[i].alertsOn, obs[i].isProd);
        i := i + 1;
      }
      return Ok(());
    }
  }

  /** `n` copies of `line`. */
  function Copies(line: string, n: nat): (r: seq<string>)
    ensures |r| == n && forall j :: 0 <= j < n ==> r[j] == line
  {
    if n == 0 then [] else Copies(line, n - 1) + [line]
  }

  lemma CopiesSplit(line: string, first: bool, n: nat)
    ensures (if first then [line] else []) + Copies(line, n)
            == Copies(line, n + if first then 1 else 0)
  {
  }
}

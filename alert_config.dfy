/**
 * The alerter's settings from the `[alert]` table. `delay()`, `productive_time()`,
 * `unproductive_time()` and `message()` are the field selectors of AlertConfig.
 */
module AlertConfiguration {

  /** Rust's `u64`. */
  type U64 = x: nat | x < 0x1_0000_0000_0000_0000

  /**
   * `delay` is the tick period in milliseconds; `productiveTime` and `unproductiveTime`
   * are the two thresholds in minutes (an `f64` in the source, an exact real here).
   */
  datatype AlertConfig = AlertConfig(
    delay: U64,
    productiveTime: real,
    unproductiveTime: real,
    message: string)

  const DefaultMessage: string := "You have been wasting time.\nPlease start being productive."

  /** `AlertConfig::default`: a 500 ms tick, 5 productive and 20 unproductive minutes. */
  function DefaultAlertConfig(): (c: AlertConfig)
    ensures c.delay == 500 && c.productiveTime == 5.0 && c.unproductiveTime == 20.0
    ensures c.message == DefaultMessage && |c.message| > 0
  {
    AlertConfig(500, 5.0, 20.0, DefaultMessage)
  }
}

/** The monitor's fixed configuration: window lengths, RSI thresholds and the refresh interval. */
module Settings {

  /** The `config` dictionary the main block hands to the indicator and signal functions. */
  datatype Config = Config(
    maShort: nat,
    maMedium: nat,
    maLong: nat,
    rsiPeriod: nat,
    rsiOverbought: real,
    rsiOversold: real,
    rsiMidpoint: real)

  /** MA 5/8/13, RSI 14, thresholds 70/30/50. */
  const DefaultConfig := Config(5, 8, 13, 14, 70.0, 30.0, 50.0)

  /** Seconds that must pass between two refresh cycles. */
  const CheckIntervalSeconds: real := 1.0

  function Max(a: int, b: int): int {
    if a >= b then a else b
  }

  /** Rows the indicator step needs: the longest window plus five. */
  function MinRequired(cfg: Config): (r: nat)
    ensures r >= cfg.maShort + 5 && r >= cfg.maMedium + 5
    ensures r >= cfg.maLong + 5 && r >= cfg.rsiPeriod + 5
    ensures r == cfg.maShort + 5 || r == cfg.maMedium + 5 || r == cfg.maLong + 5 || r == cfg.rsiPeriod + 5
  {
    Max(Max(cfg.maShort, cfg.maMedium), Max(cfg.maLong, cfg.rsiPeriod)) + 5
  }

  lemma DefaultMinRequired()
    ensures MinRequired(DefaultConfig) == 19
  {
  }

  /** The ordering the RSI thresholds are meant to have; nothing in the program checks it. */
  predicate ThresholdsOrdered(cfg: Config) {
    cfg.rsiOversold < cfg.rsiMidpoint < cfg.rsiOverbought
  }
}

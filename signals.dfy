/** `check_ma_signals` and `check_rsi_status`: the latest row of the indicator table mapped to
    a trend label and a momentum label. */
module Signals {
  import opened Wrappers
  import opened Settings
  import opened Frames
  import opened Indicators

  /** The labels of `check_ma_signals`. */
  datatype MaSignal = MaNoData | MaMissing | MaNaN | Buy | Sell | Hold

  /** The labels of `check_rsi_status`. */
  datatype RsiStatus = RsiNoData | RsiNaN | Overbought | Oversold | Bullish | Bearish | Neutral

  ghost predicate StrictlyIncreasing(s: seq<real>) {
    forall i, j :: 0 <= i < j < |s| ==> s[i] < s[j]
  }

  lemma Increasing3(a: real, b: real, c: real)
    ensures StrictlyIncreasing([a, b, c]) <==> a < b < c
  {
    var s := [a, b, c];
    if StrictlyIncreasing(s) {
      assert s[0] < s[1] && s[1] < s[2];
    }
  }

  /** The trend of three defined moving averages. */
  function Trend(short: real, medium: real, long: real): (r: MaSignal)
    ensures r == Buy <==> StrictlyIncreasing([long, medium, short])
    ensures r == Sell <==> StrictlyIncreasing([short, medium, long])
    ensures r == Hold <==> !StrictlyIncreasing([long, medium, short]) && !StrictlyIncreasing([short, medium, long])
  {
    Increasing3(long, medium, short);
    Increasing3(short, medium, long);
    var isBuy := short > medium && medium > long;
    var isSell := short < medium && medium < long;
    if isBuy then Buy else if isSell then Sell else Hold
  }

  /** `check_ma_signals`: the label, and the row itself except when there is no row. */
  function CheckMaSignals(latest: Option<Row>, cfg: Config): (r: (MaSignal, Option<Row>))
    ensures r.0 == MaNoData <==> latest.None?
    ensures r.1 == latest
    ensures latest.Some? ==>
      var cols := latest.value.columns;
      var s, m, l := MovingAverage(cfg.maShort), MovingAverage(cfg.maMedium), MovingAverage(cfg.maLong);
      && (r.0 == MaMissing <==> !(s in cols && m in cols && l in cols))
      && (r.0 == MaNaN <==> s in cols && m in cols && l in cols && (cols[s].None? || cols[m].None? || cols[l].None?))
      && (r.0 in {Buy, Sell, Hold} <==> Defined(latest.value, s) && Defined(latest.value, m) && Defined(latest.value, l))
      && (r.0 in {Buy, Sell, Hold} ==> r.0 == Trend(cols[s].value, cols[m].value, cols[l].value))
  {
    if latest.None? then (MaNoData, None)
    else
      var cols := latest.value.columns;
      var s, m, l := MovingAverage(cfg.maShort), MovingAverage(cfg.maMedium), MovingAverage(cfg.maLong);
      if !(s in cols && m in cols && l in cols) then (MaMissing, latest)
      else if cols[s].None? || cols[m].None? || cols[l].None? then (MaNaN, latest)
      else (Trend(cols[s].value, cols[m].value, cols[l].value), latest)
  }

  /** The first-match chain of `check_rsi_status` over a defined RSI value, as written: no
      ordering of the thresholds is assumed. */
  function RsiLabel(v: real, cfg: Config): (r: RsiStatus)
    ensures r == Overbought <==> v > cfg.rsiOverbought
    ensures r == Oversold <==> v <= cfg.rsiOverbought && v < cfg.rsiOversold
    ensures r == Bullish <==> cfg.rsiOversold <= v <= cfg.rsiOverbought && v > cfg.rsiMidpoint
    ensures r == Bearish <==> cfg.rsiOversold <= v <= cfg.rsiOverbought && v < cfg.rsiMidpoint
    ensures r == Neutral <==> cfg.rsiOversold <= v <= cfg.rsiOverbought && v == cfg.rsiMidpoint
  {
    if v > cfg.rsiOverbought then Overbought
    else if v < cfg.rsiOversold then Oversold
    else if v > cfg.rsiMidpoint then Bullish
    else if v < cfg.rsiMidpoint then Bearish
    else Neutral
  }

  /** `check_rsi_status`: the label and the raw RSI value, the value only with a real label. */
  function CheckRsiStatus(latest: Option<Row>, cfg: Config): (r: (RsiStatus, Option<real>))
    ensures latest.None? ==> r == (RsiNoData, None)
    ensures latest.Some? && !Defined(latest.value, Rsi(cfg.rsiPeriod)) ==> r == (RsiNaN, None)
    ensures latest.Some? && Defined(latest.value, Rsi(cfg.rsiPeriod)) ==>
      r.1 == latest.value.columns[Rsi(cfg.rsiPeriod)] && r.0 == RsiLabel(r.1.value, cfg)
    ensures r.1.Some? <==> r.0 != RsiNoData && r.0 != RsiNaN
  {
    if latest.None? then (RsiNoData, None)
    else
      var column := Rsi(cfg.rsiPeriod);
      if column !in latest.value.columns || latest.value.columns[column].None? then (RsiNaN, None)
      else
        var v := latest.value.columns[column].value;
        (RsiLabel(v, cfg), Some(v))
  }

  /** Swapping the short and long averages swaps BUY and SELL. */
  lemma TrendMirror(short: real, medium: real, long: real)
    ensures Trend(short, medium, long) == Buy <==> Trend(long, medium, short) == Sell
    ensures Trend(short, medium, long) == Hold <==> Trend(long, medium, short) == Hold
  {
  }

  lemma ScaleKeepsOrder(x: real, y: real, scale: real)
    requires scale > 0.0
    ensures x * scale < y * scale <==> x < y
  {
    assert y * scale - x * scale == (y - x) * scale;
  }

  /** The signal depends only on how the averages are ordered: shifting all three by the
      same amount leaves it unchanged. */
  lemma TrendShift(short: real, medium: real, long: real, shift: real)
    ensures Trend(short + shift, medium + shift, long + shift) == Trend(short, medium, long)
  {
  }

  /** Scaling all three averages by the same positive factor leaves the signal unchanged. */
  lemma TrendScale(short: real, medium: real, long: real, scale: real)
    requires scale > 0.0
    ensures Trend(short * scale, medium * scale, long * scale) == Trend(short, medium, long)
  {
    var s, m, l := short * scale, medium * scale, long * scale;
    ScaleKeepsOrder(short, medium, scale);
    ScaleKeepsOrder(medium, short, scale);
    ScaleKeepsOrder(medium, long, scale);
    ScaleKeepsOrder(long, medium, scale);
    assert (s > m && m > l) == (short > medium && medium > long);
    assert (s < m && m < l) == (short < medium && medium < long);
  }

  /** With oversold < midpoint < overbought the five labels cover disjoint ranges. */
  lemma RsiBands(v: real, cfg: Config)
    requires ThresholdsOrdered(cfg)
    ensures RsiLabel(v, cfg) == Overbought <==> v > cfg.rsiOverbought
    ensures RsiLabel(v, cfg) == Oversold <==> v < cfg.rsiOversold
    ensures RsiLabel(v, cfg) == Bullish <==> cfg.rsiMidpoint < v <= cfg.rsiOverbought
    ensures RsiLabel(v, cfg) == Bearish <==> cfg.rsiOversold <= v < cfg.rsiMidpoint
    ensures RsiLabel(v, cfg) == Neutral <==> v == cfg.rsiMidpoint
  {
  }

  function RsiRank(s: RsiStatus): int {
    match s
    case Oversold => 0
    case Bearish => 1
    case Neutral => 2
    case Bullish => 3
    case Overbought => 4
    case _ => -1
  }

  /** With ordered thresholds a higher RSI never gets a lower label. */
  lemma RsiLabelMonotone(v: real, w: real, cfg: Config)
    requires ThresholdsOrdered(cfg) && v <= w
    ensures 0 <= RsiRank(RsiLabel(v, cfg)) <= RsiRank(RsiLabel(w, cfg))
  {
  }

  /** With overbought below oversold the chain as written calls every value between the two
      "Overbought", although it is also below the oversold line. */
  lemma RsiInvertedThresholds(v: real, cfg: Config)
    requires cfg.rsiOverbought < v < cfg.rsiOversold
    ensures RsiLabel(v, cfg) == Overbought
  {
  }

  /** With 30/50/70 the boundaries fall on the inner labels. */
  lemma RsiDefaultBoundaries()
    ensures RsiLabel(70.0, DefaultConfig) == Bullish
    ensures RsiLabel(30.0, DefaultConfig) == Bearish
    ensures RsiLabel(50.0, DefaultConfig) == Neutral
    ensures RsiLabel(75.0, DefaultConfig) == Overbought
    ensures RsiLabel(25.0, DefaultConfig) == Oversold
    ensures RsiLabel(55.0, DefaultConfig) == Bullish
    ensures RsiLabel(45.0, DefaultConfig) == Bearish
  {
  }

  /** A row that survived the indicator step always gets a trend label and an RSI value. */
  lemma DefinedRowClassifies(row: Row, cfg: Config)
    requires IndicatorsDefined(row, cfg)
    ensures CheckMaSignals(Some(row), cfg).0 in {Buy, Sell, Hold}
    ensures CheckRsiStatus(Some(row), cfg).1 == row.columns[Rsi(cfg.rsiPeriod)]
    ensures CheckRsiStatus(Some(row), cfg).1.Some?
  {
  }
}

/** The Streamlit session state and the main block that drives it on every rerun: the ticker
    text box, the refresh gate and the price-flash decision of `format_elements`. */
module Session {
  import opened Wrappers
  import opened Settings
  import opened Frames
  import opened Indicators
  import opened Signals
  import opened Ticker

  const DefaultTicker: string := "AAPL"

  /** `price_flash`: the empty string, or the rising or falling animation. */
  datatype Flash = NoFlash | FlashUp | FlashDown

  /** The row `format_elements` reads its close from (`latest_row`), as the bar it shows;
      NoRow when no row was ever bound (the lookup then fails and the error is swallowed). */
  datatype Observed = NoRow | Latest(bar: Bar)

  /** The status string of the fetch. */
  datatype FetchStatus = FetchOk | FetchFailed(reason: string)

  /** What the panel shows, without its markup. */
  datatype Readout =
    | Initial                                         // "MA: INIT" / "RSI: INIT"
    | FetchError(reason: string)                      // "Data Error: <fetch status>"
    | CalcError(status: CalcStatus)                   // "Data Error: <outcome status>"
    | Readings(price: Option<real>, maShort: Option<real>, maMedium: Option<real>, maLong: Option<real>,
               ma: MaSignal, rsi: RsiStatus, rsiValue: Option<real>)

  datatype Elements = Elements(ticker: string, readout: Readout, flash: Flash)

  /** The branches of `format_elements` that choose what is shown. */
  function ReadoutFor(data: Option<seq<Row>>, cfg: Config, fetchStatus: FetchStatus, lib: Library): (r: Readout)
    ensures r.Readings? <==> data.Some? && data.value != [] && IndicatorTable(data, cfg, lib).status == Ok
    ensures r.Readings? ==>
      var row := Last(IndicatorTable(data, cfg, lib).table.value);
      var cols := row.columns;
      && r.price == row.close && r.price.Some?
      && r.maShort == cols[MovingAverage(cfg.maShort)] && r.maShort.Some?
      && r.maMedium == cols[MovingAverage(cfg.maMedium)] && r.maMedium.Some?
      && r.maLong == cols[MovingAverage(cfg.maLong)] && r.maLong.Some?
      && r.ma == Trend(cols[MovingAverage(cfg.maShort)].value, cols[MovingAverage(cfg.maMedium)].value,
                       cols[MovingAverage(cfg.maLong)].value)
      && r.rsiValue == cols[Rsi(cfg.rsiPeriod)] && r.rsiValue.Some?
      && r.rsi == RsiLabel(r.rsiValue.value, cfg)
    ensures r.CalcError? <==> data.Some? && data.value != [] && IndicatorTable(data, cfg, lib).status != Ok
    ensures r.CalcError? ==> r.status == IndicatorTable(data, cfg, lib).status
    ensures r.FetchError? <==> (data.None? || data.value == []) && fetchStatus.FetchFailed?
    ensures r.FetchError? ==> r.reason == fetchStatus.reason
    ensures r.Initial? <==> (data.None? || data.value == []) && fetchStatus == FetchOk
  {
    if data.Some? && data.value != [] then
      var outcome := IndicatorTable(data, cfg, lib);
      if outcome.status == Ok && outcome.table.Some? && outcome.table.value != [] then
        var row := Last(outcome.table.value);
        DefinedRowClassifies(row, cfg);
        var rsi := CheckRsiStatus(Some(row), cfg);
        var cols := row.columns;
        Readings(row.close, cols[MovingAverage(cfg.maShort)], cols[MovingAverage(cfg.maMedium)],
                 cols[MovingAverage(cfg.maLong)], CheckMaSignals(Some(row), cfg).0, rsi.0, rsi.1)
      else
        CalcError(outcome.status)
    else if fetchStatus.FetchFailed? then FetchError(fetchStatus.reason)
    else Initial
  }

  /** The row the flash compares: the last usable row when the indicators were computed,
      otherwise the last fetched row; the newest of its table when the frame is chronological. */
  function LatestClose(data: Option<seq<Row>>, cfg: Config, lib: Library): (r: Observed)
    ensures r.NoRow? <==> data.None? || data.value == []
    ensures r.Latest? ==> r.bar in Origins(data.value)
    ensures r.Latest? && IndicatorTable(data, cfg, lib).status == Ok ==>
      var t := Origins(IndicatorTable(data, cfg, lib).table.value);
      && r.bar == Last(t) && r.bar.close.Some?
      && (Chronological(data.value) ==> forall b :: b in t ==> b.time <= r.bar.time)
    ensures r.Latest? && IndicatorTable(data, cfg, lib).status != Ok ==>
      && r.bar == Last(Origins(data.value))
      && (Chronological(data.value) ==> forall b :: b in Origins(data.value) ==> b.time <= r.bar.time)
  {
    if data.Some? && data.value != [] then
      var outcome := IndicatorTable(data, cfg, lib);
      if outcome.status == Ok && outcome.table.Some? && outcome.table.value != [] then
        var t := outcome.table.value;
        assert Last(t) in t;
        IndicatorTableOrder(data, cfg, lib);
        assert Origins(t)[|t| - 1] == Origin(Last(t));
        SubseqMembers(Origins(t), Origins(data.value), Origin(Last(t)));
        LastIsNewest(t);
        Latest(Origin(Last(t)))
      else
        var rows := data.value;
        assert Origins(rows)[|rows| - 1] == Origin(Last(rows));
        LastIsNewest(rows);
        Latest(Origin(Last(rows)))
    else NoRow
  }

  /** The price-flash decision: with a remembered price and a numeric close the flash is up
      exactly when the close rose and down exactly when it fell; empty otherwise. The
      remembered price becomes the close whenever a row was read. */
  ghost predicate FlashStep(before: Option<real>, current: Observed, flash: Flash, after: Option<real>) {
    && (flash == FlashUp <==>
          before.Some? && current.Latest? && current.bar.close.Some? && current.bar.close.value > before.value)
    && (flash == FlashDown <==>
          before.Some? && current.Latest? && current.bar.close.Some? && current.bar.close.value < before.value)
    && after == (if current.Latest? then current.bar.close else before)
  }

  /** The price-flash decision leaves no choice: one flash and one stored price per case. */
  lemma FlashStepUnique(before: Option<real>, current: Observed, flash1: Flash, after1: Option<real>,
                        flash2: Flash, after2: Option<real>)
    requires FlashStep(before, current, flash1, after1) && FlashStep(before, current, flash2, after2)
    ensures flash1 == flash2 && after1 == after2
  {
  }

  /** Without a remembered price there is no flash; the close is only stored. */
  lemma FlashAfterReset(current: Observed, flash: Flash, after: Option<real>)
    requires FlashStep(None, current, flash, after)
    ensures flash == NoFlash
    ensures after == (if current.Latest? then current.bar.close else None)
  {
  }

  /** The text box's input replaces the ticker: it is non-empty and its normal form differs. */
  predicate ChangesTicker(input: string, ticker: string) {
    input != [] && Normalize(input) != ticker
  }

  /** The refresh gate: a full interval has passed since the last cycle, or none has run. */
  predicate CycleDue(now: real, lastUpdateTime: real, elementsInitialized: bool) {
    now - lastUpdateTime >= CheckIntervalSeconds || !elementsInitialized
  }

  class SessionState {
    var ticker: string
    var lastUpdateTime: real
    var tickerChangeTime: real
    var lastPrice: Option<real>
    var elementsInitialized: bool

    /** The stored ticker is always in normal form. */
    predicate Valid()
      reads this
    {
      ticker == Normalize(ticker)
    }

    /** `initialize_session_state` for a session started at `now`. */
    constructor (now: real)
      ensures Valid()
      ensures ticker == DefaultTicker && lastPrice == None && !elementsInitialized
      ensures lastUpdateTime == now && tickerChangeTime == now
    {
      ticker := DefaultTicker;
      lastUpdateTime := now;
      tickerChangeTime := now;
      lastPrice := None;
      elementsInitialized := false;
      DefaultTickerNormal();
    }

    /** The ticker text box: a non-empty input whose normal form differs from the stored
        ticker replaces it and forgets the remembered price. */
    method ChangeTicker(input: string, now: real)
      requires Valid()
      modifies this
      ensures Valid()
      ensures ChangesTicker(input, old(ticker)) ==>
        ticker == Normalize(input) && lastPrice == None && tickerChangeTime == now
      ensures !ChangesTicker(input, old(ticker)) ==>
        ticker == old(ticker) && lastPrice == old(lastPrice) && tickerChangeTime == old(tickerChangeTime)
      ensures lastUpdateTime == old(lastUpdateTime) && elementsInitialized == old(elementsInitialized)
      ensures input == old(ticker) ==> !ChangesTicker(input, old(ticker))
    {
      if input != [] {
        var normalized := Normalize(input);
        if normalized != ticker {
          NormalizeIdempotent(input);
          ticker := normalized;
          tickerChangeTime := now;
          lastPrice := None;
        }
      }
    }

    /** The price-flash block of `format_elements`. */
    method PriceFlash(current: Observed) returns (flash: Flash)
      modifies this`lastPrice
      ensures FlashStep(old(lastPrice), current, flash, lastPrice)
    {
      if lastPrice.Some? {
        match current
        case NoRow =>
          flash := NoFlash;
        case Latest(bar) =>
          var close := bar.close;
          if close.Some? && close.value > lastPrice.value {
            flash := FlashUp;
          } else if close.Some? && close.value < lastPrice.value {
            flash := FlashDown;
          } else {
            flash := NoFlash;
          }
          lastPrice := close;
      } else {
        flash := NoFlash;
        lastPrice := if current.Latest? then current.bar.close else None;
      }
    }

    /** `format_elements`: the readout, then the flash against the remembered price. */
    method Format(data: Option<seq<Row>>, cfg: Config, fetchStatus: FetchStatus, lib: Library)
      returns (e: Elements)
      modifies this`lastPrice
      ensures e.ticker == ticker
      ensures e.readout == ReadoutFor(data, cfg, fetchStatus, lib)
      ensures FlashStep(old(lastPrice), LatestClose(data, cfg, lib), e.flash, lastPrice)
    {
      var readout := Initial;
      var latest := NoRow;
      if data.Some? && data.value != [] {
        latest := Latest(Origin(Last(data.value)));
        var indicators, calcStatus := CalculateIndicators(data, cfg, lib);
        if calcStatus == Ok && indicators.Some? && indicators.value != [] {
          var row := Last(indicators.value);
          latest := Latest(Origin(row));
          var ma := CheckMaSignals(Some(row), cfg);
          var rsi := CheckRsiStatus(Some(row), cfg);
          readout := Readings(row.close, row.columns[MovingAverage(cfg.maShort)],
                              row.columns[MovingAverage(cfg.maMedium)], row.columns[MovingAverage(cfg.maLong)],
                              ma.0, rsi.0, rsi.1);
        } else {
          readout := CalcError(calcStatus);
        }
      } else if fetchStatus.FetchFailed? {
        readout := FetchError(fetchStatus.reason);
      }
      var flash := PriceFlash(latest);
      e := Elements(ticker, readout, flash);
    }

    /** One pass of the refresh gate: a cycle runs when a full interval has passed since the
        last one, or when none has run yet, and records the time it ran. */
    method Tick(now: real, data: Option<seq<Row>>, fetchStatus: FetchStatus, lib: Library)
      returns (shown: Option<Elements>)
      requires Valid()
      modifies this
      ensures Valid()
      ensures shown.Some? <==> CycleDue(now, old(lastUpdateTime), old(elementsInitialized))
      ensures shown.None? ==> unchanged(this)
      ensures shown.Some? ==> lastUpdateTime == now && elementsInitialized
      ensures ticker == old(ticker) && tickerChangeTime == old(tickerChangeTime)
      ensures shown.Some? ==>
        && shown.value.ticker == ticker
        && shown.value.readout == ReadoutFor(data, DefaultConfig, fetchStatus, lib)
        && FlashStep(old(lastPrice), LatestClose(data, DefaultConfig, lib), shown.value.flash, lastPrice)
    {
      var timeSinceLast := now - lastUpdateTime;
      if timeSinceLast >= CheckIntervalSeconds || !elementsInitialized {
        var elements := Format(data, DefaultConfig, fetchStatus, lib);
        lastUpdateTime := now;
        elementsInitialized := true;
        shown := Some(elements);
      } else {
        shown := None;
      }
    }

    /** One rerun of the main block: the ticker text box, then the refresh gate. A changed
        ticker does not force a cycle, but the next cycle shows no flash. */
    method Rerun(input: string, now: real, data: Option<seq<Row>>, fetchStatus: FetchStatus, lib: Library)
      returns (shown: Option<Elements>)
      requires Valid()
      modifies this
      ensures Valid()
      ensures ticker == if ChangesTicker(input, old(ticker)) then Normalize(input) else old(ticker)
      ensures tickerChangeTime == if ChangesTicker(input, old(ticker)) then now else old(tickerChangeTime)
      ensures shown.Some? <==> CycleDue(now, old(lastUpdateTime), old(elementsInitialized))
      ensures shown.Some? ==>
        && lastUpdateTime == now && elementsInitialized
        && shown.value.ticker == ticker
        && shown.value.readout == ReadoutFor(data, DefaultConfig, fetchStatus, lib)
        && FlashStep(if ChangesTicker(input, old(ticker)) then None else old(lastPrice),
                     LatestClose(data, DefaultConfig, lib), shown.value.flash, lastPrice)
      ensures shown.None? ==>
        && lastUpdateTime == old(lastUpdateTime) && elementsInitialized == old(elementsInitialized)
        && lastPrice == if ChangesTicker(input, old(ticker)) then None else old(lastPrice)
      ensures ChangesTicker(input, old(ticker)) && shown.Some? ==> shown.value.flash == NoFlash
    {
      ChangeTicker(input, now);
      shown := Tick(now, data, fetchStatus, lib);
      if ChangesTicker(input, old(ticker)) && shown.Some? {
        FlashAfterReset(LatestClose(data, DefaultConfig, lib), shown.value.flash, lastPrice);
      }
    }
  }

  /** A demonstration, not part of the program: what a caller of the session can conclude
      from the contracts alone over three ticks and a re-submitted ticker. */
  method RefreshScenario(data: Option<seq<Row>>, lib: Library)
  {
    var session := new SessionState(0.0);
    var first := session.Tick(0.0, data, FetchOk, lib);
    assert first.Some?;
    var second := session.Tick(0.5, data, FetchOk, lib);
    assert second.None?;
    var third := session.Tick(1.0, data, FetchOk, lib);
    assert third.Some?;
    var price := session.lastPrice;
    session.ChangeTicker(session.ticker, 1.5);
    assert session.ticker == DefaultTicker && session.lastPrice == price;
  }
}

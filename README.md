# MA/RSI stock monitor: a Dafny model of its signal logic

The monitor polls one ticker's one-minute bars about once a second. It adds three simple
moving averages (5/8/13 bars) and a 14-bar RSI to the price table. It then labels the latest row
with a trend signal (BUY, SELL, HOLD) and a momentum status (Overbought, Oversold, Bullish,
Bearish, Neutral). This project models the rule-based core of `MA_RSI_stock_monitor.py`:

- `Settings` (settings.dfy): the configuration constants and the required history,
  `max(periods) + 5`.
- `Frames` (frames.dfy): the price table as a sequence of rows, oldest first. Each row has a
  timestamp, a close (`None` when missing or not a number) and a map from indicator columns
  (`MA_<n>`, `RSI_<n>`) to values (`None` for NaN). This module also holds `Filter` (pandas
  `dropna`) and the order facts about it.
- `Indicators` (indicators.dfy): `calculate_indicators`. `IndicatorTable` is its specification
  function. `CalculateIndicators` is the step-by-step method proved equal to it. The library's
  `sma` and `rsi` are function values passed in, not computed.
- `Signals` (signals.dfy): `check_ma_signals` and `check_rsi_status`, total over an optional row.
- `Ticker` (ticker.dfy): the `upper().strip()` normalisation of the ticker text box.
- `Session` (session.dfy): the session state as a class `SessionState` with the fields
  `ticker`, `lastUpdateTime`, `tickerChangeTime`, `lastPrice` and `elementsInitialized`. Its
  methods are the main block's steps: `ChangeTicker` (the text box), `Tick` (the refresh gate),
  `Format` (`format_elements` without markup), `PriceFlash` (the price-direction decision) and
  `Rerun` (one whole rerun). The constructor is `initialize_session_state`. The class invariant
  is that the stored ticker is always in normal form. `RefreshScenario` is not part of the program: it
  demonstrates what a caller can conclude from the contracts alone.

The session clock is a `real` number of seconds; bar timestamps are integers. Prices and indicator values are `real`; there is no floating
point.

Four behaviours of the program are easy to get wrong, and the model keeps them as the code has them:

- A ticker change does not force the next refresh cycle. The code clears `last_price` and
  records `ticker_change_time`, but it leaves `elements_initialized` and `last_update_time`
  alone. The next cycle still waits for the interval.
- When there is too little history, the code still returns a table: the unmodified copy, or the
  copy with non-numeric closes dropped. It has no indicator columns. `IndicatorTable` returns it
  in the same way.
- Nothing checks `oversold < midpoint < overbought`. `RsiLabel` is the first-match chain as
  written. `RsiBands` and `RsiLabelMonotone` assume the ordering. `RsiInvertedThresholds` shows
  what the chain does without it.
- Input made only of whitespace counts as an input. It normalises to the empty string, which
  then becomes the ticker (`NormalizeBlank`).

In the price-flash block, a NaN close, a non-numeric close and a missing price all become
`None`. The program behaves the same in all three cases: there is no flash, and the close read
this cycle is stored. A NaN stored price takes the program's first branch and `None` takes the
second, but both branches do the same thing here.

## Model

| member | source | states |
|---|---|---|
| Settings.MinRequired | MA_RSI_stock_monitor.py:78 | the required row count is the largest of the four window lengths plus five: at least each length plus five, and equal to one of them plus five |
| Settings.DefaultMinRequired | MA_RSI_stock_monitor.py:19-22 | with windows 5/8/13 and RSI 14 the required count is 19 |
| Frames.Filter | MA_RSI_stock_monitor.py:82 | `dropna` keeps a row if and only if the predicate accepts it, and never grows the table |
| Frames.FilterIsSubseq | MA_RSI_stock_monitor.py:90-93 | the rows kept by `dropna` are the input with rows left out and none reordered |
| Frames.FilterCounts | MA_RSI_stock_monitor.py:82 | `dropna` keeps every copy of an accepted row and no copy of a rejected one, so repeated rows are not merged |
| Frames.FilterChronological | MA_RSI_stock_monitor.py:82 | a table whose timestamps strictly increase still has strictly increasing timestamps after `dropna` |
| Indicators.Clean | MA_RSI_stock_monitor.py:81-82 | the first `dropna`: a row is kept if and only if its close is a number |
| Indicators.WithIndicators | MA_RSI_stock_monitor.py:86-89 | the four column assignments: same length and the same bar in every row; each row's columns gain MA_<short>, MA_<medium>, MA_<long> and RSI_<period>, each the library's value at that row's position over the table's closes (NaN past the end of the library's sequence) |
| Indicators.Usable | MA_RSI_stock_monitor.py:81-93 | the rows both `dropna` calls keep: a row is kept if and only if it is a row of the extended, cleaned table with all four indicators defined |
| Indicators.WithIndicatorsKeepsBars | MA_RSI_stock_monitor.py:86-89 | assigning the four indicator columns changes no timestamp or close, keeps the order, and keeps every close numeric |
| Indicators.UsableRows | MA_RSI_stock_monitor.py:81-93 | after both `dropna` calls every row has a numeric close and all four indicators defined; every row of the extended table with all four defined is kept; the rows are the input's bars with some left out and none reordered; they stay chronological |
| Indicators.IndicatorTable | MA_RSI_stock_monitor.py:73-98 | each status occurs exactly under its condition: `Data_Empty` for a missing or empty frame; `Need <min> (Have n)` when the frame is shorter than the minimum; `Need <min> (Have n clean)` when the frame is long enough but its numeric closes are not; `No data after indicator calc` when both counts pass and the second `dropna` leaves nothing; `OK` when both pass and rows remain. The table is none on `Data_Empty` and `No data after indicator calc`, the unmodified frame on the first shortage, the frame without non-numeric closes on the second, and on `OK` exactly the fully defined rows, and the last row has all four indicators defined |
| Indicators.IndicatorTableOrder | MA_RSI_stock_monitor.py:79-96 | any table returned (raw, cleaned or filtered) is the input's bars with rows left out and none reordered, and is chronological when the input is |
| Indicators.CalculateIndicators | MA_RSI_stock_monitor.py:73-98 | the copy-check-clean-extend-clean sequence returns exactly what `IndicatorTable` specifies, so every status and table above; on `OK` the table is non-empty and both length checks passed |
| Signals.Trend | MA_RSI_stock_monitor.py:107-110 | BUY exactly when long, medium, short strictly increase; SELL exactly when short, medium, long strictly increase; HOLD exactly when neither holds, so the three labels partition all defined triples |
| Signals.CheckMaSignals | MA_RSI_stock_monitor.py:100-110 | `NO_DATA` exactly for no row, returned without the row; otherwise the row is returned; `MA_MISSING` exactly when an MA column is absent; `MA_NAN` exactly when all are present and one is NaN, so absence is checked first; BUY/SELL/HOLD exactly when all three are numbers, and then the label is the trend of their values |
| Signals.TrendMirror | MA_RSI_stock_monitor.py:107-110 | swapping the short and long averages turns BUY into SELL and back, and keeps HOLD |
| Signals.TrendShift | MA_RSI_stock_monitor.py:107 | adding the same amount to all three averages does not change the signal |
| Signals.TrendScale | MA_RSI_stock_monitor.py:107 | scaling all three averages by the same positive factor does not change the signal |
| Signals.RsiLabel | MA_RSI_stock_monitor.py:117-122 | first match wins with strict comparisons: Overbought exactly above overbought; Oversold exactly when not above overbought and below oversold; Bullish, Bearish and Neutral exactly when neither, and above, below or at the midpoint |
| Signals.CheckRsiStatus | MA_RSI_stock_monitor.py:112-123 | `NO_DATA` with no value for no row; `RSI_NAN` with no value when the RSI column is absent or NaN; otherwise the chain's label together with the raw RSI value, unchanged; a value is returned exactly when a real label is |
| Signals.RsiBands | MA_RSI_stock_monitor.py:117-122 | with oversold < midpoint < overbought the five labels are the disjoint ranges above overbought, below oversold, (midpoint, overbought], [oversold, midpoint) and the midpoint itself |
| Signals.RsiLabelMonotone | MA_RSI_stock_monitor.py:117-122 | with ordered thresholds a higher RSI never gets a lower label in the order Oversold < Bearish < Neutral < Bullish < Overbought |
| Signals.RsiInvertedThresholds | MA_RSI_stock_monitor.py:119-120 | when overbought is below oversold, every value between the two is labelled Overbought although it is below the oversold line |
| Signals.RsiDefaultBoundaries | MA_RSI_stock_monitor.py:23-25 | with 30/50/70: exactly 70 is Bullish, exactly 30 Bearish, 50 Neutral; 75, 25, 55 and 45 are Overbought, Oversold, Bullish and Bearish |
| Signals.DefinedRowClassifies | MA_RSI_stock_monitor.py:159-200 | a row that survived the indicator step always gets BUY, SELL or HOLD and a numeric RSI value, the row's own RSI |
| Ticker.Upper | MA_RSI_stock_monitor.py:341 | `upper()`, restricted to ASCII letters; what it computes is stated by `UpperChars` |
| Ticker.UpperChars | MA_RSI_stock_monitor.py:341 | upper-casing keeps the length, maps each ASCII lower-case letter to its capital and leaves every other character alone, so no lower-case ASCII letter remains |
| Ticker.LeadingSpaces | MA_RSI_stock_monitor.py:341 | `strip()` removes a leading run of whitespace, all of it and only that |
| Ticker.TrailingSpaces | MA_RSI_stock_monitor.py:341 | `strip()` removes a trailing run of whitespace, all of it and only that |
| Ticker.Strip | MA_RSI_stock_monitor.py:341 | `strip()`: the result is no longer than the input, holds only characters of the input, and is empty or neither starts nor ends with whitespace |
| Ticker.StripSlice | MA_RSI_stock_monitor.py:341 | the stripped text is a slice of the input, everything cut off is whitespace, and it neither starts nor ends with whitespace |
| Ticker.Normalize | MA_RSI_stock_monitor.py:341 | `upper()` then `strip()`; what it computes is stated by `NormalizeIdempotent`, `NormalizeBlank` and `UpperOfNormalized` |
| Ticker.UpperOfNormalized | MA_RSI_stock_monitor.py:341 | upper-casing a normalised ticker gives it back, so no lower-case ASCII letter is left in it |
| Ticker.NormalizeIdempotent | MA_RSI_stock_monitor.py:339-341 | upper-casing and stripping a normalised ticker gives it back, so the stored ticker shown again in the text box never counts as a change |
| Ticker.NormalizeBlank | MA_RSI_stock_monitor.py:340-342 | a non-empty input made only of whitespace normalises to the empty string |
| Ticker.DefaultTickerNormal | MA_RSI_stock_monitor.py:130 | the default ticker `AAPL` is already in normal form |
| Session.ReadoutFor | MA_RSI_stock_monitor.py:153-231 | signals are shown exactly when a non-empty frame was fetched and the indicator status is `OK`; they are then the last row of the indicator table: its close as the price, its three moving averages as shown next to it, the trend of those averages, its own RSI value and that value's label. The calculation error is shown, with its status, exactly when a frame was fetched and the status is not `OK`; the fetch error, with the fetch status's text, exactly when no frame came and the fetch failed; the initial placeholders otherwise |
| Session.LatestClose | MA_RSI_stock_monitor.py:153-160 | the row the flash compares is missing exactly when no frame was fetched; it is always a bar of the fetched frame; on `OK` it is the last row of the indicator table and has a numeric close, otherwise the last fetched row; in a chronological frame it is the newest row of the table it comes from |
| Session.FlashStep | MA_RSI_stock_monitor.py:234-279 | the price-flash relation: with a stored price and a numeric close, up exactly when the close rose and down exactly when it fell, otherwise none; the stored price becomes the close read, or stays when no row was read |
| Session.FlashStepUnique | MA_RSI_stock_monitor.py:234-279 | the price-flash decision is a function: for one stored price and one row there is one flash and one new stored price |
| Session.FlashAfterReset | MA_RSI_stock_monitor.py:273-279 | without a stored price there is no flash, and the current close is only stored |
| Session.ChangesTicker | MA_RSI_stock_monitor.py:340-341 | the text box changes the ticker exactly when its input is non-empty and its normal form differs from the stored ticker |
| Session.CycleDue | MA_RSI_stock_monitor.py:366-367 | a cycle is due exactly when at least the check interval has passed since the last one or none has run |
| Session.SessionState.constructor | MA_RSI_stock_monitor.py:125-140 | a new session has ticker `AAPL`, no stored price, no cycle run yet, and both times set to the start |
| Session.SessionState.ChangeTicker | MA_RSI_stock_monitor.py:339-344 | a non-empty input whose upper-cased, stripped form differs from the ticker replaces it, clears the stored price and records the change time; an empty or equal input changes nothing, and re-submitting the stored ticker is always such an input; the refresh fields are never touched; the ticker stays normalised |
| Session.SessionState.PriceFlash | MA_RSI_stock_monitor.py:233-279 | with a stored price and a numeric close the flash is up exactly when the close rose and down exactly when it fell, otherwise empty; the stored price becomes the close whenever a row was read, and is kept when none was |
| Session.SessionState.Format | MA_RSI_stock_monitor.py:142-281 | the panel shows the current ticker and the readout `ReadoutFor` gives (the last row's values); the flash and the new stored price follow the price-flash decision against the row `LatestClose` picks |
| Session.SessionState.Tick | MA_RSI_stock_monitor.py:365-382 | a cycle runs exactly when at least one second has passed since the last one or none has run; a cycle records the time and marks the session initialised; a skipped tick changes nothing; the ticker is never touched |
| Session.SessionState.Rerun | MA_RSI_stock_monitor.py:339-382 | the text box is handled first, then the gate: the new ticker and change time are those of the text box; a cycle runs exactly when the gate opens on the old times, then records the time, marks the session initialised, shows the new ticker and `ReadoutFor`'s readout, and flashes against no stored price after a change and against the old one otherwise, so a change never flashes; a skipped tick keeps both refresh fields and leaves the stored price cleared after a change and as it was otherwise |

## Left out

- The market-data fetch (`get_stock_data`, lines 56-71) is not modelled: its network client, its cache with a 0.9 s lifetime, the time-zone conversion and `tail(150)`. Each cycle receives the fetched frame and fetch status as parameters.
- The internals of the indicator library (`ta.sma`, `ta.rsi` with Wilder smoothing) are not modelled. They are the parameter `Library`. By convention, positions past the end of a sequence the library returns count as NaN. No lemma fixes indicator values for particular closes, since `sma` and `rsi` are parameters.
- `pd.to_numeric(errors='coerce')` is not modelled. Each close arrives already parsed, as a number or `None`.
- Only the `Close` column of the fetched frame is modelled. The open, high, low and volume columns are never read by the core.
- The `Calc_Error` exception path (lines 97-98) is not modelled. The fetch guarantees a `Close` column, and the model has no other source of exceptions.
- The Streamlit page is not modelled: sidebar widgets, captions, `st.stop`, `st.rerun`, `time.sleep`, placeholders, `create_display_html` and all HTML and CSS strings. The time and candle-time strings are left out too, and the price, averages and RSI are kept as numbers rather than rounded to two decimals.
- The password gate and `logged_in` (lines 318-328) are not modelled, nor the environment-variable lookup.
- `update_counter` is not modelled. It is initialised and never read.
- The catch-all error handler of the main block (lines 390-394) is not modelled.
- The status names at line 202 that no classifier produces are not modelled. In the model, a row with a label always has a value.
- The two clock readings of a rerun (lines 343 and 362) are one `now`.
- Upper-casing covers the ASCII letters only. Python's `upper()` also maps other cased letters, some of them to several characters. Stripping uses Python's full whitespace set.
- Closes are taken to be floating-point values, as pandas delivers them. An integer-typed close would fail the flash's `isinstance` test; this is not modelled.
- Repeat calls of the indicator step with the same input give the same result, because `IndicatorTable` is a function.

/** The guards and filters of `calculate_indicators`: the history check before and after
    non-numeric closes are dropped, the four indicator columns, and the final `dropna`. */
module Indicators {
  import opened Wrappers
  import opened Settings
  import opened Frames

  /** The indicator library the program calls: `sma` and `rsi` each map the series of closes
      and a window length to one value per close, None where the indicator is undefined. */
  datatype Library = Library(
    sma: (seq<real>, nat) -> seq<Option<real>>,
    rsi: (seq<real>, nat) -> seq<Option<real>>)

  /** The status string returned next to the table. */
  datatype CalcStatus =
    | DataEmpty                                   // "Data_Empty"
    | NeedRows(required: nat, have: nat, clean: bool) // "Need <required> (Have <have>[ clean])"
    | NoDataAfterCalc                             // "No data after indicator calc"
    | Ok                                          // "OK"

  datatype Calc = Calc(table: Option<seq<Row>>, status: CalcStatus)

  predicate HasClose(row: Row) {
    row.close.Some?
  }

  /** The rows left once non-numeric closes are dropped. */
  function Clean(rows: seq<Row>): (r: seq<Row>)
    ensures forall row :: row in r ==> row in rows && HasClose(row)
    ensures forall row :: row in rows && HasClose(row) ==> row in r
  {
    Filter(HasClose, rows)
  }

  function Closes(t: seq<Row>): seq<real>
    requires forall row :: row in t ==> HasClose(row)
  {
    seq(|t|, i requires 0 <= i < |t| && HasClose(t[i]) => t[i].close.value)
  }

  /** Value number `i` of a column returned by the library; NaN past its end, as a shorter
      column is aligned on the table's index. */
  function At(column: seq<Option<real>>, i: nat): Option<real> {
    if i < |column| then column[i] else None
  }

  /** The table with MA_<short>, MA_<medium>, MA_<long> and RSI_<period> assigned, in that order. */
  function WithIndicators(t: seq<Row>, cfg: Config, lib: Library): (r: seq<Row>)
    requires forall row :: row in t ==> HasClose(row)
    ensures |r| == |t|
    ensures forall i :: 0 <= i < |t| ==>
      && Origin(r[i]) == Origin(t[i])
      && r[i].columns.Keys == t[i].columns.Keys + {MovingAverage(cfg.maShort), MovingAverage(cfg.maMedium),
                                                     MovingAverage(cfg.maLong), Rsi(cfg.rsiPeriod)}
      && r[i].columns[MovingAverage(cfg.maShort)] == At(lib.sma(Closes(t), cfg.maShort), i)
      && r[i].columns[MovingAverage(cfg.maMedium)] == At(lib.sma(Closes(t), cfg.maMedium), i)
      && r[i].columns[MovingAverage(cfg.maLong)] == At(lib.sma(Closes(t), cfg.maLong), i)
      && r[i].columns[Rsi(cfg.rsiPeriod)] == At(lib.rsi(Closes(t), cfg.rsiPeriod), i)
  {
    var closes := Closes(t);
    var short := lib.sma(closes, cfg.maShort);
    var medium := lib.sma(closes, cfg.maMedium);
    var long := lib.sma(closes, cfg.maLong);
    var rsi := lib.rsi(closes, cfg.rsiPeriod);
    seq(|t|, i requires 0 <= i < |t| =>
      t[i].(columns := t[i].columns[MovingAverage(cfg.maShort) := At(short, i)]
                                   [MovingAverage(cfg.maMedium) := At(medium, i)]
                                   [MovingAverage(cfg.maLong) := At(long, i)]
                                   [Rsi(cfg.rsiPeriod) := At(rsi, i)]))
  }

  /** The column is present and holds a number. */
  predicate Defined(row: Row, column: Column) {
    column in row.columns && row.columns[column].Some?
  }

  /** All four indicator columns of `cfg` are present and numeric. */
  predicate IndicatorsDefined(row: Row, cfg: Config) {
    && Defined(row, MovingAverage(cfg.maShort))
    && Defined(row, MovingAverage(cfg.maMedium))
    && Defined(row, MovingAverage(cfg.maLong))
    && Defined(row, Rsi(cfg.rsiPeriod))
  }

  function IndicatorsDefinedUnder(cfg: Config): Row -> bool {
    row => IndicatorsDefined(row, cfg)
  }

  /** The rows that survive both `dropna` calls. */
  function Usable(rows: seq<Row>, cfg: Config, lib: Library): (r: seq<Row>)
    ensures forall row :: row in r <==> row in WithIndicators(Clean(rows), cfg, lib) && IndicatorsDefined(row, cfg)
  {
    Filter(IndicatorsDefinedUnder(cfg), WithIndicators(Clean(rows), cfg, lib))
  }

  lemma WithIndicatorsKeepsBars(t: seq<Row>, cfg: Config, lib: Library)
    requires forall row :: row in t ==> HasClose(row)
    ensures Origins(WithIndicators(t, cfg, lib)) == Origins(t)
    ensures Chronological(t) ==> Chronological(WithIndicators(t, cfg, lib))
    ensures forall row :: row in WithIndicators(t, cfg, lib) ==> HasClose(row)
  {
    var w := WithIndicators(t, cfg, lib);
    forall row | row in w
      ensures HasClose(row)
    {
      var i :| 0 <= i < |w| && w[i] == row;
      assert t[i] in t;
    }
  }

  /** Every surviving row has a numeric close and all four indicators defined; they are the
      input's bars with some left out and none reordered, and stay chronological. */
  lemma {:induction false} UsableRows(rows: seq<Row>, cfg: Config, lib: Library)
    ensures forall row :: row in Usable(rows, cfg, lib) ==> IndicatorsDefined(row, cfg) && HasClose(row)
    ensures Subseq(Origins(Usable(rows, cfg, lib)), Origins(rows))
    ensures Chronological(rows) ==> Chronological(Usable(rows, cfg, lib))
    ensures forall row :: row in WithIndicators(Clean(rows), cfg, lib) && IndicatorsDefined(row, cfg) ==>
      row in Usable(rows, cfg, lib)
  {
    var clean := Clean(rows);
    var w := WithIndicators(clean, cfg, lib);
    WithIndicatorsKeepsBars(clean, cfg, lib);
    FilterIsSubseq(HasClose, rows);
    SubseqOrigins(clean, rows);
    FilterIsSubseq(IndicatorsDefinedUnder(cfg), w);
    SubseqOrigins(Usable(rows, cfg, lib), w);
    SubseqTransitive(Origins(Usable(rows, cfg, lib)), Origins(clean), Origins(rows));
    if Chronological(rows) {
      FilterChronological(HasClose, rows);
      FilterChronological(IndicatorsDefinedUnder(cfg), w);
    }
  }

  /** What `calculate_indicators` returns for `data` (None stands for a missing frame). */
  function IndicatorTable(data: Option<seq<Row>>, cfg: Config, lib: Library): (r: Calc)
    ensures r.status == DataEmpty <==> data.None? || data.value == []
    ensures r.table.None? <==> r.status == DataEmpty || r.status == NoDataAfterCalc
    ensures r.status.NeedRows? ==> r.status.required == MinRequired(cfg) && r.status.have < r.status.required
    ensures data.Some? ==>
      (r.status == NeedRows(MinRequired(cfg), |data.value|, false) <==> 0 < |data.value| < MinRequired(cfg))
    ensures data.Some? ==>
      (r.status == NeedRows(MinRequired(cfg), |Clean(data.value)|, true) <==>
         |data.value| >= MinRequired(cfg) && |Clean(data.value)| < MinRequired(cfg))
    ensures r.status == NoDataAfterCalc <==>
      && data.Some? && |data.value| >= MinRequired(cfg) && |Clean(data.value)| >= MinRequired(cfg)
      && Usable(data.value, cfg, lib) == []
    ensures r.status == Ok <==>
      && data.Some? && |data.value| >= MinRequired(cfg) && |Clean(data.value)| >= MinRequired(cfg)
      && Usable(data.value, cfg, lib) != []
    ensures r.status.NeedRows? && !r.status.clean ==> r.table == data
    ensures r.status.NeedRows? && r.status.clean ==> r.table == Some(Clean(data.value))
    ensures r.status == Ok ==> r.table == Some(Usable(data.value, cfg, lib))
    ensures r.status == Ok ==> forall row :: row in r.table.value ==> IndicatorsDefined(row, cfg) && HasClose(row)
    ensures r.status == Ok ==> IndicatorsDefined(Last(r.table.value), cfg)
  {
    if data.None? || data.value == [] then Calc(None, DataEmpty)
    else
      var minRequired := MinRequired(cfg);
      if |data.value| < minRequired then Calc(data, NeedRows(minRequired, |data.value|, false))
      else
        var clean := Clean(data.value);
        if |clean| < minRequired then Calc(Some(clean), NeedRows(minRequired, |clean|, true))
        else
          var usable := Usable(data.value, cfg, lib);
          UsableRows(data.value, cfg, lib);
          if usable == [] then Calc(None, NoDataAfterCalc)
          else
            assert Last(usable) in usable;
            Calc(Some(usable), Ok)
  }

  /** Any table returned is the input's bars with rows dropped and none reordered, and it is
      chronological when the input is. */
  lemma {:induction false} IndicatorTableOrder(data: Option<seq<Row>>, cfg: Config, lib: Library)
    requires IndicatorTable(data, cfg, lib).table.Some?
    ensures Subseq(Origins(IndicatorTable(data, cfg, lib).table.value), Origins(data.value))
    ensures Chronological(data.value) ==> Chronological(IndicatorTable(data, cfg, lib).table.value)
  {
    var rows := data.value;
    var t := IndicatorTable(data, cfg, lib).table.value;
    if |rows| < MinRequired(cfg) {
      SubseqReflexive(Origins(rows));
    } else if |Clean(rows)| < MinRequired(cfg) {
      FilterIsSubseq(HasClose, rows);
      SubseqOrigins(Clean(rows), rows);
      if Chronological(rows) {
        FilterChronological(HasClose, rows);
      }
    } else {
      UsableRows(rows, cfg, lib);
    }
  }

  /** `calculate_indicators`: the table is copied, checked, cleaned, extended and cleaned again
      step by step, returning at the first guard that fails. */
  method CalculateIndicators(data: Option<seq<Row>>, cfg: Config, lib: Library)
    returns (table: Option<seq<Row>>, status: CalcStatus)
    ensures Calc(table, status) == IndicatorTable(data, cfg, lib)
    ensures status == Ok ==> table.Some? && table.value != []
    ensures status == Ok ==> |data.value| >= MinRequired(cfg) && |Clean(data.value)| >= MinRequired(cfg)
  {
    if data.None? || data.value == [] {
      return None, DataEmpty;
    }
    var rows := data.value;
    var minRequired := MinRequired(cfg);
    if |rows| < minRequired {
      return Some(rows), NeedRows(minRequired, |rows|, false);
    }
    rows := Filter(HasClose, rows);
    if |rows| < minRequired {
      return Some(rows), NeedRows(minRequired, |rows|, true);
    }
    rows := WithIndicators(rows, cfg, lib);
    rows := Filter(IndicatorsDefinedUnder(cfg), rows);
    if rows == [] {
      return None, NoDataAfterCalc;
    }
    return Some(rows), Ok;
  }
}

// analysis/technical_indicators.py (with the copies of its column mapping in
// autotrading.py and enhanced_trading_with_indicators.py): which column
// labels the indicator frame ends up with, the latest indicator values and
// the threshold signals read from the last row. The indicator numerics of
// the `ta` library are not part of this model.
module Indicators {
  import opened Wrappers
  import opened JsonCleaner
  import Text

  /**
   * A pandas frame: its column labels and its rows, each row giving the
   * cell under a label; a cell a row does not hold reads as NaN.
   */
  datatype Frame = Frame(columns: seq<string>, rows: seq<map<string, Float>>)

  /** `df.empty`: no rows or no columns. */
  predicate Empty(df: Frame)
  {
    df.columns == [] || df.rows == []
  }

  function Cell(row: map<string, Float>, name: string): Float
  {
    if name in row then row[name] else NaN
  }

  const Required: seq<string> := ["open", "high", "low", "close", "volume"]

  /** The columns the indicator code reads after renaming; 'Open' is never read. */
  const ReadColumns: seq<string> := ["High", "Low", "Close", "Volume"]

  /** The columns assigned by the indicator code, in assignment order. */
  const IndicatorColumns: seq<string> := [
    "SMA_20", "SMA_50", "EMA_12", "EMA_26",
    "MACD", "MACD_Signal", "MACD_Histogram",
    "RSI",
    "BB_Upper", "BB_Middle", "BB_Lower", "BB_Width", "BB_Position",
    "Stoch_K", "Stoch_D",
    "Williams_R", "ATR",
    "ADX", "ADX_Pos", "ADX_Neg",
    "OBV", "ROC", "CCI"
  ]

  /** `req in col.lower()`. */
  predicate Matches(col: string, req: string)
  {
    Text.Contains(Text.Lower(col), req)
  }

  /** Position of the first column whose lower-cased label contains `req`. */
  function FirstMatch(req: string, cols: seq<string>): (r: Option<nat>)
    ensures r.Some? ==>
      && r.value < |cols| && Matches(cols[r.value], req)
      && forall j :: 0 <= j < r.value ==> !Matches(cols[j], req)
    ensures r.None? ==> forall j :: 0 <= j < |cols| ==> !Matches(cols[j], req)
  {
    if cols == [] then None
    else if Matches(cols[0], req) then Some(0)
    else match FirstMatch(req, cols[1..])
      case None => None
      case Some(k) => Some(k + 1)
  }

  /** How many of `reqs` some column contains: `len(column_mapping)` when `reqs` are distinct. */
  function MatchCount(reqs: seq<string>, cols: seq<string>): (n: nat)
  {
    if reqs == [] then 0
    else MatchCount(reqs[..|reqs| - 1], cols) + (if FirstMatch(reqs[|reqs| - 1], cols).Some? then 1 else 0)
  }

  /** The count reaches the number of names exactly when every name found a column. */
  lemma {:induction false} MatchCountFull(reqs: seq<string>, cols: seq<string>)
    ensures MatchCount(reqs, cols) <= |reqs|
    ensures MatchCount(reqs, cols) == |reqs| <==> forall i :: 0 <= i < |reqs| ==> FirstMatch(reqs[i], cols).Some?
  {
    if reqs != [] {
      var init := reqs[..|reqs| - 1];
      MatchCountFull(init, cols);
      assert forall i :: 0 <= i < |init| ==> init[i] == reqs[i];
    }
  }

  /** The five names start with different letters, so none is written twice. */
  lemma RequiredDistinct()
    ensures forall a, b :: 0 <= a < b < |Required| ==> Required[a] != Required[b]
  {
    assert Required[0][0] == 'o' && Required[1][0] == 'h' && Required[2][0] == 'l';
    assert Required[3][0] == 'c' && Required[4][0] == 'v';
  }

  /** The inner loop: scan the columns until one contains `req`, then `break`. */
  method FindColumn(req: string, cols: seq<string>) returns (found: Option<nat>)
    ensures found == FirstMatch(req, cols)
  {
    found := None;
    var j := 0;
    while j < |cols|
      invariant 0 <= j <= |cols|
      invariant forall k :: 0 <= k < j ==> !Matches(cols[k], req)
    {
      if Matches(cols[j], req) {
        found := Some(j);
        break;
      }
      j := j + 1;
    }
  }

  /**
   * The nested loop of calculate_technical_indicators
   * (analysis/technical_indicators.py:25-30): for each required name, the
   * first column containing it, then `break`.
   */
  method ColumnMapping(cols: seq<string>) returns (m: map<string, string>)
    ensures forall req :: req in m <==> req in Required && FirstMatch(req, cols).Some?
    ensures forall req :: req in m ==> m[req] == cols[FirstMatch(req, cols).value]
    ensures |m| == MatchCount(Required, cols)
  {
    RequiredDistinct();
    m := MapNames(Required, cols);
  }

  /** The outer loop over a list of distinct names. */
  method MapNames(names: seq<string>, cols: seq<string>) returns (m: map<string, string>)
    requires forall a, b :: 0 <= a < b < |names| ==> names[a] != names[b]
    ensures forall req :: req in m <==> req in names && FirstMatch(req, cols).Some?
    ensures forall req :: req in m ==> m[req] == cols[FirstMatch(req, cols).value]
    ensures |m| == MatchCount(names, cols)
  {
    m := map[];
    for i := 0 to |names|
      invariant forall req :: req in m <==> req in names[..i] && FirstMatch(req, cols).Some?
      invariant forall req :: req in m ==> m[req] == cols[FirstMatch(req, cols).value]
      invariant |m| == MatchCount(names[..i], cols)
    {
      var req := names[i];
      PrefixStep(names, i);
      var found := FindColumn(req, cols);
      if found.Some? {
        m := m[req := cols[found.value]];
      }
    }
    assert names[..|names|] == names;
  }

  /** Extending a prefix of distinct names by one adds a name it did not hold. */
  lemma PrefixStep(names: seq<string>, i: int)
    requires 0 <= i < |names|
    requires forall a, b :: 0 <= a < b < |names| ==> names[a] != names[b]
    ensures forall r :: r in names[..i + 1] <==> r in names[..i] || r == names[i]
    ensures names[i] !in names[..i]
    ensures names[..i + 1][..i] == names[..i]
    ensures names[..i + 1] == names[..i] + [names[i]]
  {
    assert names[..i + 1] == names[..i] + [names[i]];
  }

  predicate AllMapped(cols: seq<string>)
  {
    forall req :: req in Required ==> FirstMatch(req, cols).Some?
  }

  /** column_mapping[req] when every name found a column. */
  function Column(req: string, cols: seq<string>): (c: string)
    requires AllMapped(cols) && req in Required
    ensures c in cols && Matches(c, req)
  {
    cols[FirstMatch(req, cols).value]
  }

  /**
   * The dict handed to `df.rename`, from the five mapped columns: written
   * key by key, so a later name wins when two names share a column.
   */
  function RenameMap(open: string, high: string, low: string, close: string, volume: string): (r: map<string, string>)
    ensures forall k :: k in r ==> r[k] in ["Open", "High", "Low", "Close", "Volume"]
  {
    map[open := "Open"][high := "High"][low := "Low"][close := "Close"][volume := "Volume"]
  }

  function RenameFor(cols: seq<string>): map<string, string>
    requires AllMapped(cols)
  {
    RenameMap(Column("open", cols), Column("high", cols), Column("low", cols), Column("close", cols), Column("volume", cols))
  }

  function Renamed(cols: seq<string>, rename: map<string, string>): (r: seq<string>)
    ensures |r| == |cols|
  {
    seq(|cols|, i requires 0 <= i < |cols| => if cols[i] in rename then rename[cols[i]] else cols[i])
  }

  /** Assigning `df[name]` replaces an existing column in place and appends a new one. */
  function Assigned(cols: seq<string>, names: seq<string>): (r: seq<string>)
    decreases names
    ensures |cols| <= |r| && r[..|cols|] == cols
    ensures forall n :: n in r <==> n in cols || n in names
  {
    if names == [] then cols
    else if names[0] in cols then Assigned(cols, names[1..])
    else Assigned(cols + [names[0]], names[1..])
  }

  /** Why the input frame came back unchanged, if it did. */
  datatype Outcome = Computed | EmptyFrame | Unmapped | LibraryError

  /**
   * calculate_technical_indicators on column labels
   * (analysis/technical_indicators.py:15-103): the labels of the frame it
   * returns. `libraryRaises` says whether the `ta` computations raised on
   * these rows; reading a column that the renaming did not produce raises
   * KeyError inside the same try, so it is caught the same way.
   */
  function Labels(df: Frame, libraryRaises: bool): (r: (Outcome, seq<string>))
  {
    if Empty(df) then (EmptyFrame, df.columns)
    else if MatchCount(Required, df.columns) < 5 then (Unmapped, df.columns)
    else
      assert AllMapped(df.columns) by {
        MatchCountFull(Required, df.columns);
      }
      var renamed := Renamed(df.columns, RenameFor(df.columns));
      if libraryRaises || !Resolves(renamed) then (LibraryError, df.columns)
      else (Computed, WithIndicators(renamed))
  }

  /** The renamed labels once the indicator columns are assigned. */
  function WithIndicators(renamed: seq<string>): (r: seq<string>)
    ensures |renamed| <= |r| && r[..|renamed|] == renamed
    ensures forall n :: n in r <==> n in renamed || n in IndicatorColumns
  {
    Assigned(renamed, IndicatorColumns)
  }

  /** Every column the indicator code reads is there after renaming. */
  predicate Resolves(renamed: seq<string>)
  {
    forall n :: n in ReadColumns ==> n in renamed
  }

  /** The loop's dict names the same columns as the first-match search. */
  lemma MappedColumns(m: map<string, string>, cols: seq<string>)
    requires AllMapped(cols)
    requires forall req :: req in m <==> req in Required && FirstMatch(req, cols).Some?
    requires forall req :: req in m ==> m[req] == cols[FirstMatch(req, cols).value]
    ensures "open" in m && "high" in m && "low" in m && "close" in m && "volume" in m
    ensures m["open"] == Column("open", cols) && m["high"] == Column("high", cols)
    ensures m["low"] == Column("low", cols) && m["close"] == Column("close", cols)
    ensures m["volume"] == Column("volume", cols)
  {
    assert "open" in Required && "high" in Required && "low" in Required;
    assert "close" in Required && "volume" in Required;
  }

  /** calculate_technical_indicators, with its mapping loop. */
  method CalculateTechnicalIndicators(df: Frame, libraryRaises: bool) returns (outcome: Outcome, labels: seq<string>)
    ensures (outcome, labels) == Labels(df, libraryRaises)
  {
    if Empty(df) {
      return EmptyFrame, df.columns;
    }
    var m := ColumnMapping(df.columns);
    if |m| < 5 {
      return Unmapped, df.columns;
    }
    assert AllMapped(df.columns) by {
      MatchCountFull(Required, df.columns);
    }
    var cols := df.columns;
    MappedColumns(m, cols);
    var renamed := Renamed(cols, RenameMap(m["open"], m["high"], m["low"], m["close"], m["volume"]));
    if libraryRaises || !Resolves(renamed) {
      return LibraryError, df.columns;
    }
    return Computed, WithIndicators(renamed);
  }

  /** The input comes back unchanged when the frame is empty, a name found no column, or a read failed. */
  lemma LabelsFallback(df: Frame, libraryRaises: bool)
    ensures var (outcome, labels) := Labels(df, libraryRaises);
      && (outcome != Computed ==> labels == df.columns)
      && (outcome == EmptyFrame <==> Empty(df))
      && (outcome == Unmapped <==> !Empty(df) && !AllMapped(df.columns))
      && (outcome == Computed ==> !libraryRaises)
  {
    if !Empty(df) {
      MatchCountFull(Required, df.columns);
      if !AllMapped(df.columns) {
        var req :| req in Required && FirstMatch(req, df.columns).None?;
        var i :| 0 <= i < |Required| && Required[i] == req;
      }
    }
  }

  /**
   * On success every column stays in place, possibly renamed to an OHLCV
   * name, and every indicator column is present.
   */
  lemma LabelsComputed(df: Frame, libraryRaises: bool)
    requires Labels(df, libraryRaises).0 == Computed
    ensures var labels := Labels(df, libraryRaises).1;
      && |labels| >= |df.columns|
      && (forall i :: 0 <= i < |df.columns| ==>
            labels[i] == df.columns[i] || labels[i] in ["Open", "High", "Low", "Close", "Volume"])
      && (forall n :: n in ReadColumns ==> n in labels)
      && (forall n :: n in IndicatorColumns ==> n in labels)
  {
    MatchCountFull(Required, df.columns);
    var renamed := Renamed(df.columns, RenameFor(df.columns));
    var labels := WithIndicators(renamed);
    assert Labels(df, libraryRaises).1 == labels;
    forall i | 0 <= i < |df.columns|
      ensures labels[i] == df.columns[i] || labels[i] in ["Open", "High", "Low", "Close", "Volume"]
    {
      assert labels[i] == labels[..|renamed|][i] == renamed[i];
    }
  }

  /**
   * When the five names found five different columns, the renaming
   * produces all four columns the indicators read, so the only way back to
   * the input is the library raising.
   */
  lemma DistinctColumnsCompute(df: Frame, libraryRaises: bool)
    requires !Empty(df) && AllMapped(df.columns)
    requires var cols := df.columns;
      var o, h, l, c, v := Column("open", cols), Column("high", cols), Column("low", cols),
                           Column("close", cols), Column("volume", cols);
      o != h && o != l && o != c && o != v && h != l && h != c && h != v && l != c && l != v && c != v
    ensures Labels(df, libraryRaises).0 == (if libraryRaises then LibraryError else Computed)
  {
    var cols := df.columns;
    MatchCountFull(Required, cols);
    var o, h, l, c, v := Column("open", cols), Column("high", cols), Column("low", cols),
                         Column("close", cols), Column("volume", cols);
    DistinctRenamesResolve(cols, o, h, l, c, v);
  }

  lemma DistinctRenamesResolve(cols: seq<string>, o: string, h: string, l: string, c: string, v: string)
    requires h in cols && l in cols && c in cols && v in cols
    requires o != h && o != l && o != c && o != v && h != l && h != c && h != v && l != c && l != v && c != v
    ensures Resolves(Renamed(cols, RenameMap(o, h, l, c, v)))
  {
    var rename := RenameMap(o, h, l, c, v);
    assert rename[h] == "High" && rename[l] == "Low" && rename[c] == "Close" && rename[v] == "Volume";
    var renamed := Renamed(cols, rename);
    var ih :| 0 <= ih < |cols| && cols[ih] == h;
    var il :| 0 <= il < |cols| && cols[il] == l;
    var ic :| 0 <= ic < |cols| && cols[ic] == c;
    var iv :| 0 <= iv < |cols| && cols[iv] == v;
    assert renamed[ih] == "High" && renamed[il] == "Low" && renamed[ic] == "Close" && renamed[iv] == "Volume";
  }

  /**
   * A column holding both "close" and "volume" (say 'close_volume') is the
   * first match for both names, so the mapping is complete; the rename dict
   * then keeps only that column's later entry, 'Volume', no 'Close' column
   * exists, and the KeyError inside the try sends the input back unchanged.
   */
  lemma SharedCloseVolumeFallsBack(df: Frame, libraryRaises: bool)
    requires !Empty(df) && AllMapped(df.columns)
    requires Column("close", df.columns) == Column("volume", df.columns)
    requires "Close" !in df.columns
    ensures MatchCount(Required, df.columns) == 5
    ensures Labels(df, libraryRaises) == (LibraryError, df.columns)
  {
    var cols := df.columns;
    MatchCountFull(Required, cols);
    var rename := RenameFor(cols);
    SharedColumnNotClose(Column("open", cols), Column("high", cols), Column("low", cols), Column("close", cols));
    RenamedWithoutClose(cols, rename);
    LabelsUnresolved(df, libraryRaises);
  }

  /** A complete mapping whose renaming misses a read column sends the input back. */
  lemma LabelsUnresolved(df: Frame, libraryRaises: bool)
    requires !Empty(df) && AllMapped(df.columns)
    requires "Close" !in Renamed(df.columns, RenameFor(df.columns))
    ensures Labels(df, libraryRaises) == (LibraryError, df.columns)
  {
    MatchCountFull(Required, df.columns);
    assert ReadColumns[2] == "Close";
    assert !Resolves(Renamed(df.columns, RenameFor(df.columns)));
  }

  /** Renaming never produces 'Close' when neither the labels nor the new names hold it. */
  lemma RenamedWithoutClose(cols: seq<string>, rename: map<string, string>)
    requires "Close" !in cols
    requires forall k :: k in rename ==> rename[k] != "Close"
    ensures "Close" !in Renamed(cols, rename)
  {
    var renamed := Renamed(cols, rename);
    forall i | 0 <= i < |cols|
      ensures renamed[i] != "Close"
    {
      assert cols[i] in cols;
    }
  }

  /** The five OHLCV labels differ: they start with different letters. */
  lemma OhlcvDistinct()
    ensures "Close" != "Open" && "Close" != "High" && "Close" != "Low" && "Close" != "Volume"
  {
    assert "Close"[0] != "Open"[0] && "Close"[0] != "High"[0];
    assert "Close"[0] != "Low"[0] && "Close"[0] != "Volume"[0];
  }

  /** When 'close' and 'volume' share a column, the later 'Volume' entry wins and nothing is renamed to 'Close'. */
  lemma SharedColumnNotClose(o: string, h: string, l: string, c: string)
    ensures forall k :: k in RenameMap(o, h, l, c, c) ==> RenameMap(o, h, l, c, c)[k] != "Close"
  {
    OhlcvDistinct();
  }

  const BasicIndicators: seq<string> := ["SMA_20", "SMA_50", "EMA_12", "EMA_26", "RSI", "MACD", "MACD_Signal"]
  const BandIndicators: seq<string> := ["BB_Upper", "BB_Middle", "BB_Lower", "BB_Position"]
  const OtherIndicators: seq<string> := ["Stoch_K", "Stoch_D", "Williams_R", "ATR", "ADX", "CCI", "ROC"]

  /** The listed names that are columns of the frame, each with its cell in `row`, in list order. */
  function Present(names: seq<string>, cols: seq<string>, row: map<string, Float>): seq<(string, Float)>
  {
    if names == [] then []
    else
      var last := names[|names| - 1];
      Present(names[..|names| - 1], cols, row) + (if last in cols then [(last, Cell(row, last))] else [])
  }

  /** One of the three loops of get_latest_indicators: `if indicator in latest` adds its value. */
  method AddPresent(indicators: seq<(string, Float)>, names: seq<string>, cols: seq<string>, row: map<string, Float>)
    returns (out: seq<(string, Float)>)
    ensures out == indicators + Present(names, cols, row)
  {
    out := indicators;
    for i := 0 to |names|
      invariant out == indicators + Present(names[..i], cols, row)
    {
      assert names[..i + 1][..i] == names[..i];
      if names[i] in cols {
        out := out + [(names[i], Cell(row, names[i]))];
      }
    }
    assert names[..|names|] == names;
  }

  /**
   * get_latest_indicators (analysis/technical_indicators.py:105-134): None
   * for an empty frame, otherwise the listed indicators the frame has, read
   * from its last row, in the order of the three lists.
   */
  method GetLatestIndicators(df: Frame) returns (r: Option<seq<(string, Float)>>)
    ensures r.None? <==> Empty(df)
    ensures r.Some? ==> r.value == Present(BasicIndicators + BandIndicators + OtherIndicators, df.columns, df.rows[|df.rows| - 1])
  {
    if Empty(df) {
      return None;
    }
    var latest := df.rows[|df.rows| - 1];
    var indicators := [];
    indicators := AddPresent(indicators, BasicIndicators, df.columns, latest);
    indicators := AddPresent(indicators, BandIndicators, df.columns, latest);
    indicators := AddPresent(indicators, OtherIndicators, df.columns, latest);
    PresentAppend(BasicIndicators, BandIndicators, df.columns, latest);
    PresentAppend(BasicIndicators + BandIndicators, OtherIndicators, df.columns, latest);
    return Some(indicators);
  }

  /** Filtering a concatenation filters each part. */
  lemma {:induction false} PresentAppend(x: seq<string>, y: seq<string>, cols: seq<string>, row: map<string, Float>)
    ensures Present(x + y, cols, row) == Present(x, cols, row) + Present(y, cols, row)
  {
    if y != [] {
      var init := y[..|y| - 1];
      assert (x + y)[..|x + y| - 1] == x + init;
      PresentAppend(x, init, cols, row);
    } else {
      assert x + y == x;
    }
  }

  /** Exactly the listed names that are columns appear, each once with its cell. */
  lemma {:induction false} PresentExact(names: seq<string>, cols: seq<string>, row: map<string, Float>)
    ensures var p := Present(names, cols, row);
      && |p| <= |names|
      && (forall k :: 0 <= k < |p| ==> p[k].0 in names && p[k].0 in cols && p[k].1 == Cell(row, p[k].0))
      && (forall n :: n in names && n in cols ==> exists k :: 0 <= k < |p| && p[k].0 == n)
  {
    if names != [] {
      var init := names[..|names| - 1];
      var last := names[|names| - 1];
      PresentExact(init, cols, row);
      assert forall n :: n in names <==> n in init || n == last;
      var p := Present(names, cols, row);
      var q := Present(init, cols, row);
      assert p[..|q|] == q;
      forall n | n in names && n in cols
        ensures exists k :: 0 <= k < |p| && p[k].0 == n
      {
        if n in init {
          var k :| 0 <= k < |q| && q[k].0 == n;
          assert p[k] == q[k];
        } else {
          assert p[|q|].0 == n;
        }
      }
    }
  }

  /** Python's `a > b` on floats: false whenever NaN is involved. */
  predicate Greater(a: Float, b: Float)
  {
    if a.NaN? || b.NaN? then false
    else if a.PosInf? then !b.PosInf?
    else if a.NegInf? || b.PosInf? then false
    else b.NegInf? || a.value > b.value
  }

  /** Two floats compare neither way exactly when they are equal or one is NaN; never both ways. */
  lemma GreaterTrichotomy(a: Float, b: Float)
    ensures !(Greater(a, b) && Greater(b, a))
    ensures !Greater(a, b) && !Greater(b, a) <==> a == b || a.NaN? || b.NaN?
  {
    if a.Finite? && b.Finite? && a.value == b.value {
      assert a == b;
    }
  }

  /** `latest.get(name, default)`: the cell when the frame has that column, the default otherwise. */
  function ValueOr(df: Frame, name: string, default: real): Float
    requires df.rows != []
  {
    if name in df.columns then Cell(df.rows[|df.rows| - 1], name) else Finite(default)
  }

  datatype Signals = Signals(rsiSignal: string, macdSignal: string, bbSignal: string, trendStrength: string)

  function RsiSignal(rsi: Float): string
  {
    if Greater(rsi, Finite(70.0)) then "overbought"
    else if Greater(Finite(30.0), rsi) then "oversold"
    else "neutral"
  }

  function MacdSignal(macd: Float, signal: Float): string
  {
    if Greater(macd, signal) then "bullish"
    else if Greater(signal, macd) then "bearish"
    else "neutral"
  }

  function BandSignal(position: Float): string
  {
    if Greater(position, Finite(0.8)) then "upper_band"
    else if Greater(Finite(0.2), position) then "lower_band"
    else "middle"
  }

  function TrendStrength(adx: Float): string
  {
    if Greater(adx, Finite(25.0)) then "strong"
    else if Greater(adx, Finite(15.0)) then "weak"
    else "neutral"
  }

  /**
   * analyze_technical_signals (analysis/technical_indicators.py:136-184):
   * None stands for the empty dict returned for an empty frame.
   */
  function AnalyzeTechnicalSignals(df: Frame): (r: Option<Signals>)
    ensures r.None? <==> Empty(df)
  {
    if Empty(df) then None
    else Some(Signals(
      RsiSignal(ValueOr(df, "RSI", 50.0)),
      MacdSignal(ValueOr(df, "MACD", 0.0), ValueOr(df, "MACD_Signal", 0.0)),
      BandSignal(ValueOr(df, "BB_Position", 0.5)),
      TrendStrength(ValueOr(df, "ADX", 25.0))))
  }

  /**
   * A frame without the indicator columns reads the defaults: RSI 50 and
   * MACD 0 against 0 are neutral, position 0.5 is middle, and ADX 25 is not
   * above 25, so the trend is 'weak'.
   */
  lemma SignalDefaults(df: Frame)
    requires !Empty(df)
    requires "RSI" !in df.columns && "MACD" !in df.columns && "MACD_Signal" !in df.columns
    requires "BB_Position" !in df.columns && "ADX" !in df.columns
    ensures AnalyzeTechnicalSignals(df) == Some(Signals("neutral", "neutral", "middle", "weak"))
  {
  }

  /** NaN compares false both ways, so NaN indicators give the fall-through labels, trend included. */
  lemma NaNSignals(df: Frame)
    requires !Empty(df)
    requires "RSI" in df.columns && "MACD" in df.columns && "MACD_Signal" in df.columns
    requires "BB_Position" in df.columns && "ADX" in df.columns
    requires var latest := df.rows[|df.rows| - 1];
      && Cell(latest, "RSI").NaN? && Cell(latest, "MACD").NaN? && Cell(latest, "MACD_Signal").NaN?
      && Cell(latest, "BB_Position").NaN? && Cell(latest, "ADX").NaN?
    ensures AnalyzeTechnicalSignals(df) == Some(Signals("neutral", "neutral", "middle", "neutral"))
  {
  }

  /** Swapping MACD and its signal line swaps bullish and bearish and keeps neutral. */
  lemma MacdMirror(macd: Float, signal: Float)
    ensures MacdSignal(macd, signal) == "bullish" <==> MacdSignal(signal, macd) == "bearish"
    ensures MacdSignal(macd, signal) == "neutral" <==> MacdSignal(signal, macd) == "neutral"
    ensures MacdSignal(macd, signal) == "neutral" <==> macd == signal || macd.NaN? || signal.NaN?
  {
    GreaterTrichotomy(macd, signal);
    assert "bullish"[1] != "bearish"[1] && "bullish"[0] != "neutral"[0] && "bearish"[0] != "neutral"[0];
  }

  function RsiRank(signal: string): int
  {
    if signal == "oversold" then 0 else if signal == "neutral" then 1 else 2
  }

  /** A higher RSI never gives a lower band: oversold below 30, neutral from 30 to 70, overbought above. */
  lemma RsiMonotone(a: real, b: real)
    requires a <= b
    ensures RsiRank(RsiSignal(Finite(a))) <= RsiRank(RsiSignal(Finite(b)))
    ensures RsiSignal(Finite(a)) == "neutral" <==> 30.0 <= a <= 70.0
  {
    assert "oversold"[0] != "neutral"[0] && "overbought"[4] != "oversold"[4] && "overbought"[0] != "neutral"[0];
  }
}

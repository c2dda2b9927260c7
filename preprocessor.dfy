/** `Preprocessor`: the cleaning pass over the loader's table. It sorts by (timestamp, symbol),
    drops duplicate keys keeping the first row, drops rows without positive volume, winsorises the
    price series of symbols that show extreme outliers, and drops symbols with too short a
    history. The rolling median, the rolling standard deviation and scipy's `winsorize` are
    parameters. */
module Preprocessor {
  import opened Wrappers
  import opened Frames
  import Loader

  datatype PreprocessConfig = PreprocessConfig(
    removeZeroVolume: bool,
    winsorizeEnabled: bool,
    winsorizeLimits: (real, real),
    outlierDetectionWindow: int,
    outlierThreshold: real,
    minTradingDays: int)

  const DefaultPreprocessConfig := PreprocessConfig(true, true, (0.01, 0.99), 60, 10.0, 20)

  /** The library routines the outlier step relies on: the median and the sample standard
      deviation of a window's non-missing values, and `scipy.stats.mstats.winsorize` called with
      the configured limits. */
  datatype Stats = Stats(
    median: seq<real> -> real,
    std: seq<real> -> real,
    winsorize: (seq<real>, (real, real)) -> seq<real>)

  /** `min_periods=10` of both rolling statistics. */
  const MinPeriods := 10

  // ---------------------------------------------------------------------------------------------
  // Sorting and duplicates.

  /** `_sort_data`: a stable sort by (timestamp, symbol). */
  function SortData(rows: seq<Row>): (r: seq<Row>)
    ensures SortedBy(r, TsSymKey)
    ensures multiset(r) == multiset(rows)
  {
    SortSorted(rows, TsSymKey);
    Sort(rows, TsSymKey)
  }

  function KeyOf(r: Row): (int, string)
  {
    (r.ts, r.sym)
  }

  function Keys(rows: seq<Row>): set<(int, string)>
  {
    set r | r in rows :: KeyOf(r)
  }

  predicate KeysDistinct(rows: seq<Row>)
  {
    forall i, j :: 0 <= i < j < |rows| ==> KeyOf(rows[i]) != KeyOf(rows[j])
  }

  /** `drop_duplicates(subset=["timestamp", "symbol"], keep="first")`. The result has every key of
      the input exactly once, and its rows are input rows. */
  function RemoveDuplicates(rows: seq<Row>): (r: seq<Row>)
    ensures |r| <= |rows|
    ensures forall i :: 0 <= i < |r| ==> r[i] in rows
    ensures Keys(r) == Keys(rows)
    ensures KeysDistinct(r)
  {
    if |rows| == 0 then [] else
      var init := rows[..|rows| - 1];
      var last := rows[|rows| - 1];
      var d := RemoveDuplicates(init);
      assert rows == init + [last];
      assert Keys(rows) == Keys(init) + {KeyOf(last)};
      if KeyOf(last) in Keys(init) then d
      else
        assert forall i :: 0 <= i < |d| ==> KeyOf(d[i]) in Keys(d);
        d + [last]
  }

  /** Row j is the first row with its key. */
  predicate FirstOccurrence(rows: seq<Row>, j: int)
  {
    0 <= j < |rows| && KeyOf(rows[j]) !in Keys(rows[..j])
  }

  /** The first row of every key survives de-duplication. */
  lemma {:induction false} DedupKeepsFirst(rows: seq<Row>, j: int)
    requires FirstOccurrence(rows, j)
    ensures rows[j] in RemoveDuplicates(rows)
    decreases |rows|
  {
    var init := rows[..|rows| - 1];
    if j < |rows| - 1 {
      assert init[..j] == rows[..j];
      DedupKeepsFirst(init, j);
    } else {
      assert init == rows[..j];
    }
  }

  /** Every surviving row is the first row of its key. */
  lemma {:induction false} DedupOnlyFirst(rows: seq<Row>, x: Row)
    requires x in RemoveDuplicates(rows)
    ensures exists j :: FirstOccurrence(rows, j) && rows[j] == x
    decreases |rows|
  {
    var init := rows[..|rows| - 1];
    var last := rows[|rows| - 1];
    if x in RemoveDuplicates(init) {
      DedupOnlyFirst(init, x);
      var j :| FirstOccurrence(init, j) && init[j] == x;
      assert init[..j] == rows[..j];
      assert FirstOccurrence(rows, j);
    } else {
      assert x == last && KeyOf(last) !in Keys(init);
      assert FirstOccurrence(rows, |rows| - 1);
    }
  }

  /** De-duplicating sorted rows leaves them sorted. */
  lemma {:induction false} DedupSorted(rows: seq<Row>)
    requires SortedBy(rows, TsSymKey)
    ensures SortedBy(RemoveDuplicates(rows), TsSymKey)
    decreases |rows|
  {
    if |rows| > 0 {
      var init := rows[..|rows| - 1];
      DedupSorted(init);
      var d := RemoveDuplicates(init);
      forall i | 0 <= i < |d| ensures KeyLeq(TsSymKey(d[i]), TsSymKey(rows[|rows| - 1])) {
        var j :| 0 <= j < |init| && init[j] == d[i];
        assert rows[j] == init[j];
      }
    }
  }

  // ---------------------------------------------------------------------------------------------
  // Zero volume.

  predicate HasVolume(x: Row)
  {
    Gt(Get(x, "volume"), 0.0)
  }

  /** `_remove_zero_volume`: skipped without a "volume" column; otherwise keeps exactly the rows
      whose volume is greater than zero (so negative and missing volumes go too). */
  function RemoveZeroVolume(f: Frame): (r: Frame)
    ensures r.columns == f.columns
    ensures "volume" !in f.columns ==> r == f
    ensures "volume" in f.columns ==> forall i :: 0 <= i < |r.rows| ==> Get(r.rows[i], "volume").Num? && Get(r.rows[i], "volume").v > 0.0
    ensures "volume" in f.columns ==> forall x :: x in r.rows <==> x in f.rows && HasVolume(x)
  {
    if "volume" !in f.columns then f
    else
      FilterMembers(f.rows, HasVolume);
      Frame(f.columns, Filter(f.rows, HasVolume))
  }

  // ---------------------------------------------------------------------------------------------
  // Outliers.

  /** `series.rolling(window, min_periods=10).<stat>()` at row i: the statistic of the window's
      non-missing values, or NaN when there are fewer than ten of them. */
  function RollingStat(stat: seq<real> -> real, series: seq<Cell>, i: nat, window: int): (r: Cell)
    requires i < |series|
    ensures r.Num? ==> |NonMissing(series[WindowStart(i, window)..i + 1])| >= MinPeriods
  {
    var vals := NonMissing(series[WindowStart(i, window)..i + 1]);
    if |vals| >= MinPeriods then Num(stat(vals)) else NaN
  }

  /** Row i lies outside median +- threshold * std (every comparison with NaN is false). */
  predicate OutlierAt(series: seq<Cell>, i: nat, cfg: PreprocessConfig, st: Stats)
    requires i < |series|
  {
    var med := RollingStat(st.median, series, i, cfg.outlierDetectionWindow);
    var sd := RollingStat(st.std, series, i, cfg.outlierDetectionWindow);
    med.Num? && sd.Num? && series[i].Num? &&
    (series[i].v > med.v + cfg.outlierThreshold * sd.v || series[i].v < med.v - cfg.outlierThreshold * sd.v)
  }

  predicate AnyOutlier(series: seq<Cell>, cfg: PreprocessConfig, st: Stats)
  {
    exists i | 0 <= i < |series| :: OutlierAt(series, i, cfg, st)
  }

  /** The bounds are undefined until ten observations have been seen, so none of the first nine
      points of a series is ever flagged. */
  lemma EarlyPointsNeverFlagged(series: seq<Cell>, i: nat, cfg: PreprocessConfig, st: Stats)
    requires i < |series| && i < MinPeriods - 1
    ensures !OutlierAt(series, i, cfg, st)
  {
    var w := series[WindowStart(i, cfg.outlierDetectionWindow)..i + 1];
    assert |NonMissing(w)| <= |w| <= i + 1;
  }

  /** A flagged series has an outlier at or after its tenth point. */
  lemma FlaggedLate(series: seq<Cell>, cfg: PreprocessConfig, st: Stats)
    requires AnyOutlier(series, cfg, st)
    ensures exists i :: MinPeriods - 1 <= i < |series| && OutlierAt(series, i, cfg, st)
  {
    var i :| 0 <= i < |series| && OutlierAt(series, i, cfg, st);
    if i < MinPeriods - 1 {
      EarlyPointsNeverFlagged(series, i, cfg, st);
    }
  }

  /** Writes `w` onto the non-missing points of `series`, in order; missing points stay missing. */
  function ReplaceNonMissing(series: seq<Cell>, w: seq<real>): (r: seq<Cell>)
    ensures |r| == |series|
    ensures forall i :: 0 <= i < |series| ==> (series[i].Num? <==> r[i].Num?)
    ensures forall i :: 0 <= i < |series| && !series[i].Num? ==> r[i] == series[i]
    ensures |w| >= |NonMissing(series)| ==> NonMissing(r) == w[..|NonMissing(series)|]
  {
    if |series| == 0 then [] else
      var init := series[..|series| - 1];
      var last := series[|series| - 1];
      var p := ReplaceNonMissing(init, w);
      var k := |NonMissing(init)|;
      var x := if last.Num? && k < |w| then Num(w[k]) else last;
      assert (p + [x])[..|p|] == p;
      p + [x]
  }

  /** The winsorised series: `winsorize(series.dropna())` written back onto the non-missing
      points. */
  function Winsorized(series: seq<Cell>, cfg: PreprocessConfig, st: Stats): (r: seq<Cell>)
    ensures |r| == |series|
    ensures forall i :: 0 <= i < |series| && !series[i].Num? ==> r[i] == series[i]
  {
    ReplaceNonMissing(series, st.winsorize(NonMissing(series), cfg.winsorizeLimits))
  }

  function SetCell(x: Row, c: string, v: Cell): Row
  {
    x.(cells := x.cells[c := v])
  }

  /** `df.loc[df["symbol"] == sym, c] = vals`: the k-th row of the symbol gets vals[k]. */
  function SetSeries(rows: seq<Row>, sym: string, c: string, vals: seq<Cell>): (r: seq<Row>)
    ensures SameKeys(r, rows)
    ensures forall i :: 0 <= i < |rows| && rows[i].sym != sym ==> r[i] == rows[i]
    ensures forall i, d :: 0 <= i < |rows| && d != c ==> Get(r[i], d) == Get(rows[i], d)
  {
    if |rows| == 0 then [] else
      var init := rows[..|rows| - 1];
      var last := rows[|rows| - 1];
      var k := CountOf(init, sym);
      SetSeries(init, sym, c, vals) + [if last.sym == sym && k < |vals| then SetCell(last, c, vals[k]) else last]
  }

  /** Reading the column back from the symbol's rows gives the values written. */
  lemma {:induction false} SetSeriesReadBack(rows: seq<Row>, sym: string, c: string, vals: seq<Cell>)
    requires |vals| >= CountOf(rows, sym)
    ensures Col(RowsOf(SetSeries(rows, sym, c, vals), sym), c) == vals[..CountOf(rows, sym)]
    decreases |rows|
  {
    if |rows| > 0 {
      var init := rows[..|rows| - 1];
      var last := rows[|rows| - 1];
      var p := SetSeries(init, sym, c, vals);
      var k := CountOf(init, sym);
      var x := if last.sym == sym && k < |vals| then SetCell(last, c, vals[k]) else last;
      assert SetSeries(rows, sym, c, vals) == p + [x];
      assert (p + [x])[..|p|] == p;
      SameKeysCount(p, init, sym);
      SetSeriesReadBack(init, sym, c, vals);
      if last.sym == sym {
        assert Col(RowsOf(p + [x], sym), c) == Col(RowsOf(p, sym), c) + [vals[k]];
        assert vals[..k + 1] == vals[..k] + [vals[k]];
      } else {
        assert RowsOf(p + [x], sym) == RowsOf(p, sym);
      }
    }
  }

  /** Cell (i, d) differs between the two tables. */
  predicate Changed(a: seq<Row>, b: seq<Row>, i: int, d: string)
  {
    0 <= i < |a| && 0 <= i < |b| && Get(a[i], d) != Get(b[i], d)
  }

  /** Two tables that agree on every row of symbol `s` have the same rows of `s`. */
  lemma {:induction false} RowsOfUnchanged(a: seq<Row>, b: seq<Row>, s: string)
    requires SameKeys(a, b)
    requires forall i :: 0 <= i < |b| && b[i].sym == s ==> a[i] == b[i]
    ensures RowsOf(a, s) == RowsOf(b, s)
    decreases |a|
  {
    if |a| > 0 {
      RowsOfUnchanged(a[..|a| - 1], b[..|b| - 1], s);
    }
  }

  /** One column of one symbol: winsorised when the snapshot of that column has an outlier. */
  function ColumnUpdate(rows: seq<Row>, snap: seq<Row>, sym: string, c: string, cfg: PreprocessConfig, st: Stats): seq<Row>
  {
    var series := Col(snap, c);
    if AnyOutlier(series, cfg, st) then SetSeries(rows, sym, c, Winsorized(series, cfg, st)) else rows
  }

  /** The loop over the available price columns of one symbol. */
  function FoldColumns(rows: seq<Row>, snap: seq<Row>, sym: string, cols: seq<string>, cfg: PreprocessConfig, st: Stats): seq<Row>
  {
    if |cols| == 0 then rows
    else ColumnUpdate(FoldColumns(rows, snap, sym, cols[..|cols| - 1], cfg, st), snap, sym, cols[|cols| - 1], cfg, st)
  }

  /** One pass of the loop over symbols: symbols with fewer rows than the window are skipped. */
  function SymbolStep(rows: seq<Row>, sym: string, cols: seq<string>, cfg: PreprocessConfig, st: Stats): seq<Row>
  {
    if CountOf(rows, sym) < cfg.outlierDetectionWindow then rows
    else FoldColumns(rows, RowsOf(rows, sym), sym, cols, cfg, st)
  }

  /** The loop over `df_clean["symbol"].unique()`. */
  function FoldSymbols(rows: seq<Row>, syms: seq<string>, cols: seq<string>, cfg: PreprocessConfig, st: Stats): seq<Row>
    requires Distinct(syms)
  {
    if |syms| == 0 then rows else
      assert Distinct(syms[..|syms| - 1]);
      SymbolStep(FoldSymbols(rows, syms[..|syms| - 1], cols, cfg, st), syms[|syms| - 1], cols, cfg, st)
  }

  /** Updating one column keeps every key, leaves other symbols alone, and changes only that
      column, and only when its series has an outlier. */
  lemma ColumnUpdateFacts(rows: seq<Row>, snap: seq<Row>, sym: string, c: string, cfg: PreprocessConfig, st: Stats)
    ensures var r := ColumnUpdate(rows, snap, sym, c, cfg, st);
      SameKeys(r, rows) &&
      (forall i :: 0 <= i < |rows| && rows[i].sym != sym ==> r[i] == rows[i]) &&
      (forall i, d :: Changed(r, rows, i, d) ==> rows[i].sym == sym && d == c && AnyOutlier(Col(snap, c), cfg, st))
  {
  }

  /** The column loop changes only the listed columns of its symbol, each only if flagged. */
  lemma {:induction false} FoldColumnsFacts(rows: seq<Row>, snap: seq<Row>, sym: string, cols: seq<string>, cfg: PreprocessConfig, st: Stats)
    ensures var r := FoldColumns(rows, snap, sym, cols, cfg, st);
      SameKeys(r, rows) &&
      (forall i :: 0 <= i < |rows| && rows[i].sym != sym ==> r[i] == rows[i]) &&
      (forall i, d :: Changed(r, rows, i, d) ==> rows[i].sym == sym && d in cols && AnyOutlier(Col(snap, d), cfg, st))
  {
    if |cols| > 0 {
      var init := cols[..|cols| - 1];
      var c := cols[|cols| - 1];
      FoldColumnsFacts(rows, snap, sym, init, cfg, st);
      var p := FoldColumns(rows, snap, sym, init, cfg, st);
      ColumnUpdateFacts(p, snap, sym, c, cfg, st);
      var r := ColumnUpdate(p, snap, sym, c, cfg, st);
      forall i, d | Changed(r, rows, i, d) ensures rows[i].sym == sym && d in cols && AnyOutlier(Col(snap, d), cfg, st) {
        if Changed(p, rows, i, d) {
          assert d in init;
        } else {
          assert Changed(r, p, i, d);
        }
      }
    }
  }

  /** One symbol's pass: nothing changes unless the symbol has at least a window of rows, and then
      only flagged price series of that symbol. */
  lemma SymbolStepFacts(rows: seq<Row>, sym: string, cols: seq<string>, cfg: PreprocessConfig, st: Stats)
    ensures var r := SymbolStep(rows, sym, cols, cfg, st);
      SameKeys(r, rows) &&
      (forall i :: 0 <= i < |rows| && rows[i].sym != sym ==> r[i] == rows[i]) &&
      (forall i, d :: Changed(r, rows, i, d) ==>
        rows[i].sym == sym && CountOf(rows, sym) >= cfg.outlierDetectionWindow && d in cols &&
        AnyOutlier(Col(RowsOf(rows, sym), d), cfg, st))
  {
    if CountOf(rows, sym) >= cfg.outlierDetectionWindow {
      FoldColumnsFacts(rows, RowsOf(rows, sym), sym, cols, cfg, st);
    }
  }

  /** The symbol loop keeps every row and key; a cell changes only in one of the price columns, in
      a row whose symbol has at least a window of rows and whose own original series of that
      column has an outlier. */
  lemma {:induction false} FoldSymbolsFacts(rows: seq<Row>, syms: seq<string>, cols: seq<string>, cfg: PreprocessConfig, st: Stats)
    requires Distinct(syms)
    ensures var r := FoldSymbols(rows, syms, cols, cfg, st);
      SameKeys(r, rows) &&
      (forall i :: 0 <= i < |rows| && rows[i].sym !in syms ==> r[i] == rows[i]) &&
      (forall i, d :: Changed(r, rows, i, d) ==>
        rows[i].sym in syms && CountOf(rows, rows[i].sym) >= cfg.outlierDetectionWindow && d in cols &&
        AnyOutlier(Col(RowsOf(rows, rows[i].sym), d), cfg, st))
  {
    if |syms| > 0 {
      var init := syms[..|syms| - 1];
      var sym := syms[|syms| - 1];
      assert Distinct(init);
      FoldSymbolsFacts(rows, init, cols, cfg, st);
      var p := FoldSymbols(rows, init, cols, cfg, st);
      assert sym !in init;
      SymbolStepFacts(p, sym, cols, cfg, st);
      SymbolStepAfter(rows, p, syms, cols, cfg, st);
      assert syms == init + [sym];
    }
  }

  /** The inductive step of `FoldSymbolsFacts`: the rows of the last symbol are still the input's
      when its turn comes, so its outlier test sees its own original series. */
  lemma SymbolStepAfter(rows: seq<Row>, p: seq<Row>, syms: seq<string>, cols: seq<string>, cfg: PreprocessConfig, st: Stats)
    requires |syms| > 0 && syms[|syms| - 1] !in syms[..|syms| - 1]
    requires SameKeys(p, rows)
    requires forall i :: 0 <= i < |rows| && rows[i].sym !in syms[..|syms| - 1] ==> p[i] == rows[i]
    requires forall i, d :: Changed(p, rows, i, d) ==>
      rows[i].sym in syms[..|syms| - 1] && CountOf(rows, rows[i].sym) >= cfg.outlierDetectionWindow && d in cols &&
      AnyOutlier(Col(RowsOf(rows, rows[i].sym), d), cfg, st)
    ensures var r := SymbolStep(p, syms[|syms| - 1], cols, cfg, st);
      forall i, d :: Changed(r, rows, i, d) ==>
        rows[i].sym in syms && CountOf(rows, rows[i].sym) >= cfg.outlierDetectionWindow && d in cols &&
        AnyOutlier(Col(RowsOf(rows, rows[i].sym), d), cfg, st)
  {
    var init := syms[..|syms| - 1];
    var sym := syms[|syms| - 1];
    RowsOfUnchanged(p, rows, sym);
    SameKeysCount(p, rows, sym);
    SymbolStepFacts(p, sym, cols, cfg, st);
    var r := SymbolStep(p, sym, cols, cfg, st);
    forall i, d | Changed(r, rows, i, d)
      ensures rows[i].sym in syms && CountOf(rows, rows[i].sym) >= cfg.outlierDetectionWindow && d in cols &&
        AnyOutlier(Col(RowsOf(rows, rows[i].sym), d), cfg, st)
    {
      if Changed(p, rows, i, d) {
        assert rows[i].sym in init;
        assert syms == init + [sym];
      } else {
        assert Changed(r, p, i, d);
        assert rows[i].sym == p[i].sym == sym;
      }
    }
  }

  /** `[col for col in price_columns if col in df.columns]`. */
  function AvailablePriceColumns(columns: seq<string>): (r: seq<string>)
    ensures forall c :: c in r <==> c in Loader.PriceColumns && c in columns
  {
    FilterMembers(Loader.PriceColumns, (c: string) => c in columns);
    Filter(Loader.PriceColumns, (c: string) => c in columns)
  }

  /** pandas refuses `rolling(window, min_periods=10)` when the window is below ten; the call is
      reached for the first symbol with at least a window of rows. */
  predicate RollingFails(rows: seq<Row>, cfg: PreprocessConfig)
  {
    cfg.outlierDetectionWindow < MinPeriods &&
    exists i | 0 <= i < |rows| :: CountOf(rows, rows[i].sym) >= cfg.outlierDetectionWindow
  }

  /** What `_handle_outliers` computes. */
  function Outliers(f: Frame, cfg: PreprocessConfig, st: Stats): Result<Frame>
  {
    var cols := AvailablePriceColumns(f.columns);
    if |cols| == 0 then Ok(f)
    else if RollingFails(f.rows, cfg) then Err(ValueError("min_periods must be <= window"))
    else Ok(Frame(f.columns, FoldSymbols(f.rows, Symbols(f.rows), cols, cfg, st)))
  }

  /** `_handle_outliers`: nested loops over symbols and price columns that overwrite winsorised
      series in a copy of the table. */
  method HandleOutliers(f: Frame, cfg: PreprocessConfig, st: Stats) returns (r: Result<Frame>)
    ensures r == Outliers(f, cfg, st)
  {
    var cols := AvailablePriceColumns(f.columns);
    if |cols| == 0 {
      return Ok(f);
    }
    var syms := Symbols(f.rows);
    var rows := f.rows;
    var k := 0;
    while k < |syms|
      invariant 0 <= k <= |syms|
      invariant rows == FoldSymbols(f.rows, syms[..k], cols, cfg, st)
      invariant cfg.outlierDetectionWindow < MinPeriods ==> forall j :: 0 <= j < k ==> CountOf(f.rows, syms[j]) < cfg.outlierDetectionWindow
    {
      SymbolTurn(f.rows, syms, k, cols, cfg, st);
      var fails;
      fails, rows := OutlierSymbol(rows, syms[k], cols, cfg, st);
      if fails {
        SymbolFails(f, k, cfg, st);
        return Err(ValueError("min_periods must be <= window"));
      }
      k := k + 1;
    }
    NoSymbolFails(f, rows, cfg, st);
    return Ok(Frame(f.columns, rows));
  }

  /** One turn of the symbol loop: the rolling statistics fail when the symbol is long enough to be
      handled and the window is shorter than the minimum period count; otherwise the symbol's
      price columns are winsorised where they have outliers. */
  method OutlierSymbol(rows: seq<Row>, sym: string, cols: seq<string>, cfg: PreprocessConfig, st: Stats)
    returns (fails: bool, r: seq<Row>)
    ensures fails <==> CountOf(rows, sym) >= cfg.outlierDetectionWindow && cfg.outlierDetectionWindow < MinPeriods
    ensures !fails ==> r == SymbolStep(rows, sym, cols, cfg, st)
  {
    r := rows;
    fails := false;
    if CountOf(rows, sym) >= cfg.outlierDetectionWindow {
      if cfg.outlierDetectionWindow < MinPeriods {
        fails := true;
        return;
      }
      r := WinsorizeSymbol(rows, sym, cols, cfg, st);
    }
  }

  /** The state of the symbol loop when the k-th symbol's turn comes. */
  lemma SymbolTurn(rows: seq<Row>, syms: seq<string>, k: nat, cols: seq<string>, cfg: PreprocessConfig, st: Stats)
    requires syms == Symbols(rows) && k < |syms|
    ensures Distinct(syms[..k]) && Distinct(syms[..k + 1])
    ensures CountOf(FoldSymbols(rows, syms[..k], cols, cfg, st), syms[k]) == CountOf(rows, syms[k])
    ensures FoldSymbols(rows, syms[..k + 1], cols, cfg, st) ==
      SymbolStep(FoldSymbols(rows, syms[..k], cols, cfg, st), syms[k], cols, cfg, st)
  {
    assert syms[..k + 1][..k] == syms[..k];
    FoldSymbolsFacts(rows, syms[..k], cols, cfg, st);
    SameKeysCount(FoldSymbols(rows, syms[..k], cols, cfg, st), rows, syms[k]);
  }

  lemma SymbolFails(f: Frame, k: nat, cfg: PreprocessConfig, st: Stats)
    requires |AvailablePriceColumns(f.columns)| > 0 && k < |Symbols(f.rows)|
    requires cfg.outlierDetectionWindow < MinPeriods && CountOf(f.rows, Symbols(f.rows)[k]) >= cfg.outlierDetectionWindow
    ensures Outliers(f, cfg, st) == Err(ValueError("min_periods must be <= window"))
  {
    assert Symbols(f.rows)[k] in Symbols(f.rows);
    var i :| 0 <= i < |f.rows| && f.rows[i].sym == Symbols(f.rows)[k];
    assert RollingFails(f.rows, cfg);
  }

  lemma NoSymbolFails(f: Frame, rows: seq<Row>, cfg: PreprocessConfig, st: Stats)
    requires |AvailablePriceColumns(f.columns)| > 0
    requires var syms := Symbols(f.rows);
      rows == FoldSymbols(f.rows, syms[..|syms|], AvailablePriceColumns(f.columns), cfg, st)
    requires cfg.outlierDetectionWindow < MinPeriods ==>
      forall j :: 0 <= j < |Symbols(f.rows)| ==> CountOf(f.rows, Symbols(f.rows)[j]) < cfg.outlierDetectionWindow
    ensures Outliers(f, cfg, st) == Ok(Frame(f.columns, rows))
  {
    var syms := Symbols(f.rows);
    assert syms[..|syms|] == syms;
  }

  /** The inner loop of `_handle_outliers`, over the price columns of one symbol. */
  method WinsorizeSymbol(rows: seq<Row>, sym: string, cols: seq<string>, cfg: PreprocessConfig, st: Stats) returns (r: seq<Row>)
    ensures r == FoldColumns(rows, RowsOf(rows, sym), sym, cols, cfg, st)
  {
    var snap := RowsOf(rows, sym);
    r := rows;
    var j := 0;
    while j < |cols|
      invariant 0 <= j <= |cols|
      invariant r == FoldColumns(rows, snap, sym, cols[..j], cfg, st)
    {
      FoldColumnsStep(rows, snap, sym, cols, j, cfg, st);
      var series := Col(snap, cols[j]);
      if AnyOutlier(series, cfg, st) {
        r := SetSeries(r, sym, cols[j], Winsorized(series, cfg, st));
      }
      j := j + 1;
    }
    assert cols[..j] == cols;
  }

  lemma FoldColumnsStep(rows: seq<Row>, snap: seq<Row>, sym: string, cols: seq<string>, j: nat, cfg: PreprocessConfig, st: Stats)
    requires j < |cols|
    ensures FoldColumns(rows, snap, sym, cols[..j + 1], cfg, st) ==
      ColumnUpdate(FoldColumns(rows, snap, sym, cols[..j], cfg, st), snap, sym, cols[j], cfg, st)
  {
    assert cols[..j + 1][..j] == cols[..j];
  }

  /** Outlier handling keeps every row and its key, and changes only price cells of symbols with
      at least a window of rows, in columns whose series of that symbol has an outlier. */
  lemma OutliersPreserve(f: Frame, cfg: PreprocessConfig, st: Stats)
    requires Outliers(f, cfg, st).Ok?
    ensures var g := Outliers(f, cfg, st).value;
      g.columns == f.columns && SameKeys(g.rows, f.rows) &&
      (forall i, d :: Changed(g.rows, f.rows, i, d) ==>
        d in Loader.PriceColumns && CountOf(f.rows, f.rows[i].sym) >= cfg.outlierDetectionWindow &&
        AnyOutlier(Col(RowsOf(f.rows, f.rows[i].sym), d), cfg, st))
  {
    var cols := AvailablePriceColumns(f.columns);
    if |cols| > 0 {
      FoldSymbolsFacts(f.rows, Symbols(f.rows), cols, cfg, st);
    }
  }

  /** A symbol with fewer rows than the window is left exactly as it was. */
  lemma ShortSymbolsUntouched(f: Frame, cfg: PreprocessConfig, st: Stats, i: int, d: string)
    requires Outliers(f, cfg, st).Ok?
    requires 0 <= i < |f.rows| && CountOf(f.rows, f.rows[i].sym) < cfg.outlierDetectionWindow
    ensures var g := Outliers(f, cfg, st).value; |g.rows| == |f.rows| && Get(g.rows[i], d) == Get(f.rows[i], d)
  {
    OutliersPreserve(f, cfg, st);
    assert !Changed(Outliers(f, cfg, st).value.rows, f.rows, i, d);
  }

  // ---------------------------------------------------------------------------------------------
  // Minimum history.

  /** `_validate_min_trading_days`: keeps the rows of the symbols with at least `minDays` rows. */
  function ValidateMinTradingDays(rows: seq<Row>, minDays: int): (r: seq<Row>)
    ensures forall x :: x in r <==> x in rows && CountOf(rows, x.sym) >= minDays
  {
    FilterMembers(rows, (x: Row) => CountOf(rows, x.sym) >= minDays);
    Filter(rows, (x: Row) => CountOf(rows, x.sym) >= minDays)
  }

  /** Symbols are kept or dropped whole: a kept symbol keeps all of its rows, in order. */
  lemma WholeSymbols(rows: seq<Row>, minDays: int, s: string)
    ensures RowsOf(ValidateMinTradingDays(rows, minDays), s) == if CountOf(rows, s) >= minDays then RowsOf(rows, s) else []
  {
    var keep := (x: Row) => CountOf(rows, x.sym) >= minDays;
    var isS := (x: Row) => x.sym == s;
    assert RowsOf(ValidateMinTradingDays(rows, minDays), s) == Filter(Filter(rows, keep), isS);
    if CountOf(rows, s) >= minDays {
      FilterFilterStronger(rows, keep, isS);
    } else {
      FilterFilterDisjoint(rows, keep, isS);
    }
  }

  // ---------------------------------------------------------------------------------------------
  // The whole pass.

  /** `_final_validation`: only logs, but the per-symbol summary reads the "symbol", "timestamp"
      and "volume" columns of a non-empty table. */
  function FinalValidation(f: Frame): (r: Result<()>)
    ensures r.Err? <==> !IsEmpty(f) && ("symbol" !in f.columns || "timestamp" !in f.columns || "volume" !in f.columns)
    ensures r.Err? ==> r.error.KeyError?
  {
    if IsEmpty(f) then Ok(())
    else if "symbol" !in f.columns then Err(KeyError("symbol"))
    else if "timestamp" !in f.columns then Err(KeyError("timestamp"))
    else if "volume" !in f.columns then Err(KeyError("volume"))
    else Ok(())
  }

  /** The table after the zero-volume step (steps 1 to 3 of `clean`). */
  function Filtered(f: Frame, cfg: PreprocessConfig): Frame
  {
    var deduped := Frame(f.columns, RemoveDuplicates(SortData(f.rows)));
    if cfg.removeZeroVolume then RemoveZeroVolume(deduped) else deduped
  }

  /** The table after the outlier step (steps 1 to 4 of `clean`). */
  function Handled(f: Frame, cfg: PreprocessConfig, st: Stats): Result<Frame>
  {
    if cfg.winsorizeEnabled then Outliers(Filtered(f, cfg), cfg, st) else Ok(Filtered(f, cfg))
  }

  /** What `clean` returns. An empty table comes back unchanged; the sort raises a KeyError when
      "timestamp" or "symbol" is missing. */
  function Cleaned(f: Frame, cfg: PreprocessConfig, st: Stats): Result<Frame>
  {
    if IsEmpty(f) then Ok(f)
    else if "timestamp" !in f.columns then Err(KeyError("timestamp"))
    else if "symbol" !in f.columns then Err(KeyError("symbol"))
    else
      var handled := Handled(f, cfg, st);
      if handled.Err? then handled
      else
        var kept := Frame(f.columns, ValidateMinTradingDays(handled.value.rows, cfg.minTradingDays));
        var v := FinalValidation(kept);
        if v.Err? then Err(v.error) else Ok(kept)
  }

  /** `Preprocessor.clean`. */
  method Clean(f: Frame, cfg: PreprocessConfig, st: Stats) returns (r: Result<Frame>)
    ensures r == Cleaned(f, cfg, st)
    ensures IsEmpty(f) ==> r == Ok(f)
  {
    if IsEmpty(f) {
      return Ok(f);
    }
    if "timestamp" !in f.columns {
      return Err(KeyError("timestamp"));
    }
    if "symbol" !in f.columns {
      return Err(KeyError("symbol"));
    }
    var clean := Filtered(f, cfg);
    if cfg.winsorizeEnabled {
      var handled := HandleOutliers(clean, cfg, st);
      if handled.Err? {
        return handled;
      }
      clean := handled.value;
    }
    clean := Frame(f.columns, ValidateMinTradingDays(clean.rows, cfg.minTradingDays));
    var v := FinalValidation(clean);
    if v.Err? {
      return Err(v.error);
    }
    return Ok(clean);
  }

  /** Outlier handling changes no key, so the sort order survives it. */
  lemma SameKeysSorted(a: seq<Row>, b: seq<Row>)
    requires SameKeys(a, b) && SortedBy(b, TsSymKey)
    ensures SortedBy(a, TsSymKey)
  {
    assert forall i :: 0 <= i < |a| ==> TsSymKey(a[i]) == TsSymKey(b[i]);
  }

  /** What holds of the rows between the steps of `clean`: sorted by (timestamp, symbol), one row
      per key, only input keys, no more rows than the input, and positive volume once zero-volume
      removal has run on a table with a volume column. */
  predicate Stage(rows: seq<Row>, f: Frame, cfg: PreprocessConfig)
  {
    SortedBy(rows, TsSymKey) && KeysDistinct(rows) && Keys(rows) <= Keys(f.rows) && |rows| <= |f.rows| &&
    (cfg.removeZeroVolume && "volume" in f.columns ==> forall i :: 0 <= i < |rows| ==> HasVolume(rows[i]))
  }

  /** Sorting then de-duplicating gives sorted rows with distinct keys, all of them input keys. */
  lemma DedupFacts(rows: seq<Row>)
    ensures var d := RemoveDuplicates(SortData(rows));
      SortedBy(d, TsSymKey) && KeysDistinct(d) && Keys(d) == Keys(rows) && |d| <= |rows|
  {
    var sorted := SortData(rows);
    DedupSorted(sorted);
    assert Keys(sorted) == Keys(rows) by {
      forall x | x in sorted ensures x in rows { assert x in multiset(sorted); }
      forall x | x in rows ensures x in sorted { assert x in multiset(rows); }
    }
  }

  /** Steps 1 to 3 of `clean`. */
  lemma FilteredFacts(f: Frame, cfg: PreprocessConfig)
    ensures Filtered(f, cfg).columns == f.columns && Stage(Filtered(f, cfg).rows, f, cfg)
  {
    var deduped := RemoveDuplicates(SortData(f.rows));
    DedupFacts(f.rows);
    if cfg.removeZeroVolume && "volume" in f.columns {
      VolumeFilterFacts(deduped);
    }
  }

  /** Dropping rows without volume keeps the rows sorted and their keys distinct, and adds no key. */
  lemma VolumeFilterFacts(d: seq<Row>)
    requires SortedBy(d, TsSymKey) && KeysDistinct(d)
    ensures var g := Filter(d, HasVolume);
      SortedBy(g, TsSymKey) && KeysDistinct(g) && Keys(g) <= Keys(d) && |g| <= |d| &&
      forall i :: 0 <= i < |g| ==> HasVolume(g[i])
  {
    var g := Filter(d, HasVolume);
    FilterSorted(d, HasVolume, TsSymKey);
    FilterKeepsKeysDistinct(d, HasVolume, KeyOf);
    FilterMembers(d, HasVolume);
    KeysSubset(g, d);
  }

  lemma KeysSubset(a: seq<Row>, b: seq<Row>)
    requires forall x :: x in a ==> x in b
    ensures Keys(a) <= Keys(b)
  {
  }

  /** Outlier handling changes neither a key nor a volume, so what held before it holds after. */
  lemma OutliersKeepStage(h: Frame, f: Frame, cfg: PreprocessConfig, st: Stats)
    requires Stage(h.rows, f, cfg) && Outliers(h, cfg, st).Ok?
    ensures Outliers(h, cfg, st).value.columns == h.columns && Stage(Outliers(h, cfg, st).value.rows, f, cfg)
  {
    var g := Outliers(h, cfg, st).value;
    OutliersPreserve(h, cfg, st);
    assert "volume" !in Loader.PriceColumns;
    StageKept(g.rows, h.rows, f, cfg);
  }

  /** Rows with the same keys and the same volumes as rows in a stage are in that stage too. */
  lemma StageKept(g: seq<Row>, h: seq<Row>, f: Frame, cfg: PreprocessConfig)
    requires Stage(h, f, cfg) && SameKeys(g, h)
    requires forall i :: !Changed(g, h, i, "volume")
    ensures Stage(g, f, cfg)
  {
    SameKeysSorted(g, h);
    assert forall i :: 0 <= i < |g| ==> KeyOf(g[i]) == KeyOf(h[i]);
    assert Keys(g) == Keys(h);
    if cfg.removeZeroVolume && "volume" in f.columns {
      forall i | 0 <= i < |g| ensures HasVolume(g[i]) {
        assert !Changed(g, h, i, "volume");
      }
    }
  }

  /** Steps 1 to 4 of `clean`. */
  lemma HandledFacts(f: Frame, cfg: PreprocessConfig, st: Stats)
    requires Handled(f, cfg, st).Ok?
    ensures Handled(f, cfg, st).value.columns == f.columns && Stage(Handled(f, cfg, st).value.rows, f, cfg)
  {
    FilteredFacts(f, cfg);
    if cfg.winsorizeEnabled {
      OutliersKeepStage(Filtered(f, cfg), f, cfg, st);
    }
  }

  /** The minimum-history filter keeps what held before it, and leaves every symbol with at least
      `minDays` rows. */
  lemma MinTradingDaysKeepStage(h: seq<Row>, f: Frame, cfg: PreprocessConfig)
    requires Stage(h, f, cfg)
    ensures var g := ValidateMinTradingDays(h, cfg.minTradingDays);
      Stage(g, f, cfg) && forall i :: 0 <= i < |g| ==> CountOf(g, g[i].sym) >= cfg.minTradingDays
  {
    var keep := (x: Row) => CountOf(h, x.sym) >= cfg.minTradingDays;
    var g := ValidateMinTradingDays(h, cfg.minTradingDays);
    assert g == Filter(h, keep);
    FilterSorted(h, keep, TsSymKey);
    FilterKeepsKeysDistinct(h, keep, KeyOf);
    FilterMembers(h, keep);
    assert Keys(g) <= Keys(h);
    forall i | 0 <= i < |g| ensures CountOf(g, g[i].sym) >= cfg.minTradingDays {
      WholeSymbols(h, cfg.minTradingDays, g[i].sym);
    }
  }

  /** What `clean` guarantees of a table it returns: rows sorted by (timestamp, symbol), one row
      per key, every key an input key, positive volume when zero-volume removal is on, and every
      remaining symbol with at least `minTradingDays` rows. */
  lemma CleanGuarantees(f: Frame, cfg: PreprocessConfig, st: Stats)
    requires !IsEmpty(f) && Cleaned(f, cfg, st).Ok?
    ensures var g := Cleaned(f, cfg, st).value;
      g.columns == f.columns && |g.rows| <= |f.rows| &&
      SortedBy(g.rows, TsSymKey) && KeysDistinct(g.rows) && Keys(g.rows) <= Keys(f.rows) &&
      (cfg.removeZeroVolume ==> forall i :: 0 <= i < |g.rows| ==> HasVolume(g.rows[i])) &&
      (forall i :: 0 <= i < |g.rows| ==> CountOf(g.rows, g.rows[i].sym) >= cfg.minTradingDays)
  {
    HandledFacts(f, cfg, st);
    MinTradingDaysKeepStage(Handled(f, cfg, st).value.rows, f, cfg);
  }

  // ---------------------------------------------------------------------------------------------
  // Statistics.

  datatype PreprocessingStats = PreprocessingStats(
    recordsBefore: int, recordsAfter: int, recordsRemoved: int, removalRate: real,
    symbolsBefore: int, symbolsAfter: int, symbolsRemoved: int)

  /** `df["symbol"].nunique()` (a KeyError without a "symbol" column). */
  function SymbolCount(f: Frame): (r: Result<nat>)
    ensures r.Ok? <==> "symbol" in f.columns
    ensures r.Ok? ==> r.value == |Symbols(f.rows)| && r.value <= |f.rows|
  {
    if "symbol" !in f.columns then Err(KeyError("symbol")) else
      SymbolsAtMostRows(f.rows);
      Ok(|Symbols(f.rows)|)
  }

  lemma {:induction false} SymbolsAtMostRows(rows: seq<Row>)
    ensures |Symbols(rows)| <= |rows|
  {
    if |rows| > 0 {
      SymbolsAtMostRows(rows[..|rows| - 1]);
    }
  }

  /** `get_preprocessing_stats`. The symbol counts of an empty table are 0 and are not read. */
  function GetPreprocessingStats(before: Frame, after: Frame): (r: Result<PreprocessingStats>)
    ensures r.Err? <==> (!IsEmpty(before) && "symbol" !in before.columns) || (!IsEmpty(after) && "symbol" !in after.columns)
    ensures r.Ok? ==> r.value.recordsRemoved == r.value.recordsBefore - r.value.recordsAfter
    ensures r.Ok? ==> r.value.recordsBefore == |before.rows| && r.value.recordsAfter == |after.rows|
    ensures r.Ok? && |before.rows| == 0 ==> r.value.removalRate == 0.0
    ensures r.Ok? && |before.rows| > 0 ==> r.value.removalRate * |before.rows| as real == (|before.rows| - |after.rows|) as real
    ensures r.Ok? && (IsEmpty(before) || IsEmpty(after)) ==> r.value.symbolsRemoved == 0
    ensures r.Ok? && IsEmpty(before) ==> r.value.symbolsBefore == 0
    ensures r.Ok? && IsEmpty(after) ==> r.value.symbolsAfter == 0
    ensures r.Ok? && !IsEmpty(before) ==> r.value.symbolsBefore == |Symbols(before.rows)|
    ensures r.Ok? && !IsEmpty(after) ==> r.value.symbolsAfter == |Symbols(after.rows)|
    ensures r.Ok? && !IsEmpty(before) && !IsEmpty(after) ==>
      r.value.symbolsRemoved == r.value.symbolsBefore - r.value.symbolsAfter
  {
    var nb := |before.rows|;
    var na := |after.rows|;
    var sb := if IsEmpty(before) then Ok(0) else SymbolCount(before);
    var sa := if IsEmpty(after) then Ok(0) else SymbolCount(after);
    if sb.Err? then Err(sb.error)
    else if sa.Err? then Err(sa.error)
    else
      var rate := if nb > 0 then (nb - na) as real / nb as real else 0.0;
      var removed: int := if !IsEmpty(before) && !IsEmpty(after) then sb.value as int - sa.value as int else 0;
      Ok(PreprocessingStats(nb, na, nb - na, rate, sb.value, sa.value, removed))
  }

  /** Statistics of a successful `clean`: nothing is added, so the removal rate lies in [0, 1]. */
  lemma CleanStats(f: Frame, cfg: PreprocessConfig, st: Stats)
    requires Cleaned(f, cfg, st).Ok? && ("symbol" in f.columns || IsEmpty(f))
    ensures var r := GetPreprocessingStats(f, Cleaned(f, cfg, st).value);
      r.Ok? && 0 <= r.value.recordsRemoved <= r.value.recordsBefore && 0.0 <= r.value.removalRate <= 1.0
  {
    var g := Cleaned(f, cfg, st).value;
    if !IsEmpty(f) {
      CleanGuarantees(f, cfg, st);
    }
    StatsOfShrink(f, g);
  }

  /** The statistics of a table against one with no more rows that keeps the symbol column. */
  lemma StatsOfShrink(before: Frame, after: Frame)
    requires |after.rows| <= |before.rows|
    requires "symbol" in before.columns || IsEmpty(before)
    requires "symbol" in after.columns || IsEmpty(after)
    ensures var r := GetPreprocessingStats(before, after);
      r.Ok? && 0 <= r.value.recordsRemoved <= r.value.recordsBefore && 0.0 <= r.value.removalRate <= 1.0
  {
    if |before.rows| > 0 {
      RatioInUnit((|before.rows| - |after.rows|) as real, |before.rows| as real);
    }
  }

  lemma RatioInUnit(a: real, b: real)
    requires 0.0 <= a <= b && b > 0.0
    ensures 0.0 <= a / b <= 1.0
  {
  }
}

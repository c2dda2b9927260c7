/** `FeatureBuilder`: per-symbol technical features of an OHLCV table. The indicators of the `ta`
    library and pandas' rolling standard deviation are parameters (`Library`); the computations the
    class writes out itself (the slope, the volume and turnover ratios, the returns, the calendar
    features and the leading-missing flag) are modelled, as are the order of the steps, the column
    lists they report and the errors they raise. */
module FeatureBuilder {
  import opened Wrappers
  import opened Text
  import opened Frames
  import opened Calendar

  datatype FeatureConfig = FeatureConfig(
    smaWindows: seq<int>,
    emaWindows: seq<int>,
    atrWindow: int,
    stdevWindow: int,
    volumeRatioWindow: int,
    returnWindows: seq<int>,
    rsiWindow: int,
    macdWindows: (int, int, int),
    bollingerWindow: int,
    bollingerStd: real,
    slopeWindow: int)

  /** The configuration with the defaults `__post_init__` fills in for the list fields. */
  const DefaultFeatureConfig := FeatureConfig([5, 10, 20, 50], [21], 14, 20, 20, [1, 5, 10], 14, (12, 26, 9), 20, 2.0, 20)

  /** The library calls. `indicator(name, inputs, parameters)` is the series the named `ta`
      indicator (or pandas' rolling standard deviation) returns for the input series;
      `raises(name, inputs)` says whether one of the indicators computed inside `try` raises. */
  datatype Library = Library(
    indicator: (string, seq<seq<Cell>>, seq<real>) -> seq<Cell>,
    raises: (string, seq<seq<Cell>>) -> bool)

  const RequiredColumns: seq<string> := ["open", "high", "low", "close", "volume", "timestamp", "symbol"]

  /** `min_periods_required` of `_add_technical_features`. */
  const MinPeriodsRequired := 14

  /** pandas' complaint about a rolling window shorter than its `min_periods`. */
  const RollingWindowError := "min_periods must be <= window"

  /** Python's complaint when `df, new_columns = <DataFrame>` unpacks a frame's column labels. */
  const UnpackError := "too many values to unpack (expected 2)"

  /** `f"{prefix}{w}"`. */
  function Named(prefix: string, w: int): string
  {
    prefix + IntToString(w)
  }

  // ---------------------------------------------------------------------------------------------
  // Series computations.

  /** `_calculate_slope` at row i: `rolling(window=w, min_periods=2)` hands `rolling_slope` the
      trailing window p[j..i]; with fewer than two present values the result is missing, otherwise
      it is (last - first) / length. */
  function SlopeAt(p: seq<Cell>, i: nat, w: int): Cell
    requires i < |p|
  {
    var j := WindowStart(i, w);
    if |NonMissing(p[j..i + 1])| < 2 then NaN else Div(Sub(p[i], p[j]), Num((i - j + 1) as real))
  }

  /** `_calculate_slope(p, w)`. It is missing at the first row, whose window holds one value. */
  function Slope(p: seq<Cell>, w: int): (r: seq<Cell>)
    ensures |r| == |p|
    ensures |p| > 0 ==> r[0] == NaN
  {
    seq(|p|, i requires 0 <= i < |p| => SlopeAt(p, i, w))
  }

  /** With no missing prices up to row i >= 1, the slope is the difference approximation over the
      last min(i + 1, w) rows. */
  lemma SlopeOfPresentPrices(p: seq<Cell>, w: int, i: nat)
    requires 2 <= w && 1 <= i < |p| && AllPresent(p[..i + 1])
    ensures var j := if i + 1 >= w then i + 1 - w else 0;
      Slope(p, w)[i] == Num((p[i].v - p[j].v) / (i - j + 1) as real)
  {
    var j := WindowStart(i, w);
    var win := p[j..i + 1];
    assert win == p[..i + 1][j..];
    assert AllPresent(win);
    NonMissingAllPresent(win);
    assert |NonMissing(win)| == i - j + 1 >= 2;
    assert p[j] == p[..i + 1][j] && p[i] == p[..i + 1][i];
    assert Sub(p[i], p[j]) == Num(p[i].v - p[j].v);
    assert Slope(p, w)[i] == SlopeAt(p, i, w) == Div(Sub(p[i], p[j]), Num((i - j + 1) as real));
  }

  /** The slope at row i does not depend on any later row. */
  lemma SlopeUsesOnlyPast(p: seq<Cell>, q: seq<Cell>, w: int, i: nat)
    requires i < |p| && i < |q| && p[..i + 1] == q[..i + 1]
    ensures Slope(p, w)[i] == Slope(q, w)[i]
  {
    var j := WindowStart(i, w);
    assert p[j..i + 1] == p[..i + 1][j..] && q[j..i + 1] == q[..i + 1][j..];
    assert p[i] == p[..i + 1][i] && q[i] == q[..i + 1][i];
    assert p[j] == p[..i + 1][j] && q[j] == q[..i + 1][j];
  }

  /** `s.rolling(window=w, min_periods=1).mean()` at row i: the mean of the present values of the
      trailing window, missing when there are none. */
  function RollingMeanAt(s: seq<Cell>, i: nat, w: int): Cell
    requires i < |s|
  {
    var xs := NonMissing(s[WindowStart(i, w)..i + 1]);
    if |xs| == 0 then NaN else Num(Sum(xs) / |xs| as real)
  }

  /** `s / s.rolling(window=w, min_periods=1).mean()`: the volume ratio, and the turnover ratio
      when `s` is price times volume. */
  function Ratio(s: seq<Cell>, w: int): (r: seq<Cell>)
    ensures |r| == |s|
  {
    seq(|s|, i requires 0 <= i < |s| => Div(s[i], RollingMeanAt(s, i, w)))
  }

  /** With no missing values up to row i, the ratio divides by the mean of the last
      min(i + 1, w) values. */
  lemma RatioOfPresentValues(s: seq<Cell>, w: int, i: nat)
    requires 1 <= w && i < |s| && forall k :: 0 <= k <= i ==> s[k].Num?
    ensures var n := if i + 1 < w then i + 1 else w;
      var m := Sum(seq(n, k requires 0 <= k < n => s[i + 1 - n + k].v)) / n as real;
      Ratio(s, w)[i] == (if m == 0.0 then NaN else Num(s[i].v / m))
  {
    var j := WindowStart(i, w);
    var n := if i + 1 < w then i + 1 else w;
    assert j == i + 1 - n;
    var win := s[j..i + 1];
    assert AllPresent(win) by {
      forall k | 0 <= k < |win| ensures win[k].Num? {
        assert win[k] == s[j + k];
      }
    }
    NonMissingAllPresent(win);
    var xs := seq(n, k requires 0 <= k < n => s[i + 1 - n + k].v);
    assert NonMissing(win) == xs;
    assert RollingMeanAt(s, i, w) == Num(Sum(xs) / n as real);
  }

  /** The ratio at row i does not depend on any later row. */
  lemma RatioUsesOnlyPast(s: seq<Cell>, t: seq<Cell>, w: int, i: nat)
    requires i < |s| && i < |t| && s[..i + 1] == t[..i + 1]
    ensures Ratio(s, w)[i] == Ratio(t, w)[i]
  {
    var j := WindowStart(i, w);
    assert s[j..i + 1] == s[..i + 1][j..] && t[j..i + 1] == t[..i + 1][j..];
    assert s[i] == s[..i + 1][i] && t[i] == t[..i + 1][i];
  }

  /** `s.pct_change(periods=w)`: forward-fill, then divide by the value w rows earlier and subtract
      one; missing where that row does not exist. */
  function PctChange(s: seq<Cell>, w: int): (r: seq<Cell>)
    ensures |r| == |s|
  {
    var ff := ForwardFill(s);
    seq(|s|, i requires 0 <= i < |s| => if 0 <= i - w < |s| then AddConst(Div(ff[i], ff[i - w]), -1.0) else NaN)
  }

  /** The w-row return is missing for the first w rows and, with no missing prices, is
      p[i] / p[i - w] - 1 after them. */
  lemma ReturnOfPresentPrices(p: seq<Cell>, w: int, i: nat)
    requires 1 <= w && i < |p|
    ensures i < w ==> PctChange(p, w)[i] == NaN
    ensures i >= w && AllPresent(p[..i + 1]) && p[i - w].v != 0.0 ==>
      PctChange(p, w)[i] == Num(p[i].v / p[i - w].v - 1.0)
  {
    PctChangeAt(p, w, i);
    if i >= w && AllPresent(p[..i + 1]) {
      var a := ForwardFill(p);
      ForwardFillPrefix(p, i + 1);
      ForwardFillNoMissing(p[..i + 1]);
      assert a[i] == p[..i + 1][i] == p[i];
      assert a[i - w] == p[..i + 1][i - w] == p[i - w];
    }
  }

  /** For a look-back w >= 0 the return at row i does not depend on any later row. */
  lemma ReturnUsesOnlyPast(p: seq<Cell>, q: seq<Cell>, w: int, i: nat)
    requires 0 <= w && i < |p| && i < |q| && p[..i + 1] == q[..i + 1]
    ensures PctChange(p, w)[i] == PctChange(q, w)[i]
  {
    var a, b := ForwardFill(p), ForwardFill(q);
    ForwardFillPrefix(p, i + 1);
    ForwardFillPrefix(q, i + 1);
    assert a[..i + 1] == b[..i + 1];
    PctChangeAt(p, w, i);
    PctChangeAt(q, w, i);
    assert a[i] == a[..i + 1][i] && b[i] == b[..i + 1][i];
    if i >= w {
      assert a[i - w] == a[..i + 1][i - w] && b[i - w] == b[..i + 1][i - w];
    }
  }

  /** The return at row i, from the forward-filled series. */
  lemma PctChangeAt(s: seq<Cell>, w: int, i: nat)
    requires i < |s|
    ensures var ff := ForwardFill(s);
      PctChange(s, w)[i] == if 0 <= i - w < |s| then AddConst(Div(ff[i], ff[i - w]), -1.0) else NaN
  {
  }

  /** `prev_day`: the previous row exists and lies exactly one day earlier (the shifted value of
      the first row is missing, so the comparison is false there). */
  function PrevDay(ts: seq<int>): (r: seq<Cell>)
    ensures |r| == |ts|
    ensures forall i :: 0 <= i < |ts| ==> r[i].Flag? && (r[i].b <==> i > 0 && ts[i - 1] + 1 == ts[i])
  {
    seq(|ts|, i requires 0 <= i < |ts| => Flag(i > 0 && ts[i - 1] == ts[i] - 1))
  }

  /** `next_day`: the next row exists and lies exactly one day later; it agrees with `prev_day`
      of the next row. */
  function NextDay(ts: seq<int>): (r: seq<Cell>)
    ensures |r| == |ts|
    ensures forall i :: 0 <= i < |ts| ==> r[i].Flag? && (r[i].b <==> i + 1 < |ts| && ts[i] + 1 == ts[i + 1])
    ensures forall i :: 0 <= i < |ts| - 1 ==> r[i] == PrevDay(ts)[i + 1]
  {
    seq(|ts|, i requires 0 <= i < |ts| => Flag(i + 1 < |ts| && ts[i + 1] == ts[i] + 1))
  }

  /** `next_day` looks one row ahead, although the class documents that every feature uses only
      information up to its own row: two histories that agree up to row i can disagree on the
      flag at row i. */
  lemma NextDayReadsNextRow(ts: seq<int>, i: int)
    requires 0 <= i < |ts| - 1
    ensures exists alt: seq<int> ::
              |alt| == |ts| && alt[..i + 1] == ts[..i + 1] && NextDay(alt)[i] != NextDay(ts)[i]
  {
    var alt := ts[i + 1 := if ts[i + 1] == ts[i] + 1 then ts[i] + 2 else ts[i] + 1];
    assert alt[..i + 1] == ts[..i + 1];
    assert NextDay(alt)[i].b != NextDay(ts)[i].b;
  }

  // ---------------------------------------------------------------------------------------------
  // The feature steps. Each `_add_*` method assigns new columns into the symbol's frame and reports
  // the columns it added. The values are computed from the frame the step receives: the columns a
  // step reads (price, high, low, close, volume, timestamp) are never among those it assigns.

  /** `sorted(set(post_columns) - set(prev_columns))`: the columns a step added, sorted by name. */
  function NewColumns(prev: seq<string>, post: seq<string>): (r: seq<string>)
    ensures forall c :: c in r <==> c in post && c !in prev
    ensures SortedBy(r, NameKey)
  {
    var added := Filter(post, (c: string) => c !in prev);
    FilterMembers(post, (c: string) => c !in prev);
    SortSorted(added, NameKey);
    var r := SortNames(added);
    assert forall c :: c in r <==> c in multiset(r);
    assert forall c :: c in added <==> c in multiset(added);
    r
  }

  /** The result of a step with the column list it reports. */
  function Reported(f: Frame, r: Result<Frame>): Result<(Frame, seq<string>)>
  {
    if r.Err? then Err(r.error) else Ok((r.value, NewColumns(f.columns, r.value.columns)))
  }

  /** A list of column assignments for a frame of n rows. */
  type Assignments = seq<(string, seq<Cell>)>

  predicate Fits(cs: Assignments, n: nat)
  {
    forall k :: 0 <= k < |cs| ==> |cs[k].1| == n
  }

  /** `df[name] = values` for each assignment, in order. */
  function Assign(f: Frame, cs: Assignments): (r: Frame)
    requires Fits(cs, |f.rows|)
    ensures SameKeys(r.rows, f.rows)
    decreases |cs|
  {
    if |cs| == 0 then f else
      var g := Assign(f, cs[..|cs| - 1]);
      SetColumn(g, cs[|cs| - 1].0, cs[|cs| - 1].1)
  }

  /** One more assignment at the end of the list. */
  lemma AssignStep(f: Frame, cs: Assignments, k: nat)
    requires Fits(cs, |f.rows|) && k < |cs|
    ensures Assign(f, cs[..k + 1]) == SetColumn(Assign(f, cs[..k]), cs[k].0, cs[k].1)
  {
    assert cs[..k + 1][..k] == cs[..k];
  }

  /** Two assignments in a row. */
  lemma AssignPair(f: Frame, cs: Assignments)
    requires |cs| == 2 && Fits(cs, |f.rows|)
    ensures Assign(f, cs) == SetColumn(SetColumn(f, cs[0].0, cs[0].1), cs[1].0, cs[1].1)
  {
    AssignStep(f, cs, 0);
    AssignStep(f, cs, 1);
    assert cs[..2] == cs;
  }

  /** Assigning two lists one after the other is assigning their concatenation. */
  lemma {:induction false} AssignConcat(f: Frame, a: Assignments, b: Assignments)
    requires Fits(a, |f.rows|) && Fits(b, |f.rows|)
    ensures Fits(a + b, |f.rows|)
    ensures Assign(f, a + b) == Assign(Assign(f, a), b)
    decreases |b|
  {
    if |b| == 0 {
      assert a + b == a;
    } else {
      var b' := b[..|b| - 1];
      assert (a + b)[..|a + b| - 1] == a + b';
      assert (a + b)[|a + b| - 1] == b[|b| - 1];
      AssignConcat(f, a, b');
    }
  }

  /** `for window in windows: df[f"{prefix}{window}"] = <indicator>(input, window)`. */
  function Indicators(prefix: string, name: string, input: seq<Cell>, windows: seq<int>, lib: Library, n: nat): (cs: Assignments)
    ensures |cs| == |windows| && Fits(cs, n)
  {
    var cs := seq(|windows|, k requires 0 <= k < |windows| =>
      (Named(prefix, windows[k]), Fit(lib.indicator(name, [input], [windows[k] as real]), n)));
    assert forall k :: 0 <= k < |cs| ==> cs[k].1 == Fit(lib.indicator(name, [input], [windows[k] as real]), n);
    cs
  }

  /** The loop of `_add_trend_features` over the windows of one moving average. */
  method AssignIndicators(f: Frame, prefix: string, name: string, p: seq<Cell>, windows: seq<int>, lib: Library)
    returns (df: Frame)
    ensures df == Assign(f, Indicators(prefix, name, p, windows, lib, |f.rows|))
  {
    var cs := Indicators(prefix, name, p, windows, lib, |f.rows|);
    df := f;
    var k := 0;
    while k < |windows|
      invariant 0 <= k <= |windows|
      invariant df == Assign(f, cs[..k])
    {
      var w := windows[k];
      assert cs[k] == (Named(prefix, w), Fit(lib.indicator(name, [p], [w as real]), |f.rows|));
      AssignStep(f, cs, k);
      df := SetColumn(df, Named(prefix, w), Fit(lib.indicator(name, [p], [w as real]), |f.rows|));
      k := k + 1;
    }
    assert cs[..k] == cs;
  }

  /** The assignments of `_add_trend_features`: the moving averages, the slope and the slope
      relative to the price (the slope column read back is the slope just assigned). */
  function TrendAssignments(f: Frame, price: string, cfg: FeatureConfig, lib: Library): (cs: Assignments)
    ensures Fits(cs, |f.rows|)
    ensures |cs| == |cfg.smaWindows| + |cfg.emaWindows| + 2
  {
    var n := |f.rows|;
    var p := Col(f.rows, price);
    var slope := Slope(p, cfg.slopeWindow);
    Indicators("sma_", "sma", p, cfg.smaWindows, lib, n) + Indicators("ema_", "ema", p, cfg.emaWindows, lib, n) +
    [(Named("slope_", cfg.slopeWindow), slope), (Named("slope_pct_", cfg.slopeWindow), DivSeries(slope, p))]
  }

  /** `_add_trend_features`. The slope's rolling window needs `slope_window >= 2` (its
      `min_periods`). */
  function TrendFeatures(f: Frame, price: string, cfg: FeatureConfig, lib: Library): (r: Result<Frame>)
    ensures r.Err? <==> cfg.slopeWindow < 2
  {
    if cfg.slopeWindow < 2 then Err(ValueError(RollingWindowError))
    else Ok(Assign(f, TrendAssignments(f, price, cfg, lib)))
  }

  method AddTrendFeatures(f: Frame, price: string, cfg: FeatureConfig, lib: Library)
    returns (r: Result<(Frame, seq<string>)>)
    ensures r == Reported(f, TrendFeatures(f, price, cfg, lib))
  {
    var p := Col(f.rows, price);
    var sma := Indicators("sma_", "sma", p, cfg.smaWindows, lib, |f.rows|);
    var ema := Indicators("ema_", "ema", p, cfg.emaWindows, lib, |f.rows|);
    var df := AssignIndicators(f, "sma_", "sma", p, cfg.smaWindows, lib);
    df := AssignIndicators(df, "ema_", "ema", p, cfg.emaWindows, lib);
    if cfg.slopeWindow < 2 {
      return Err(ValueError(RollingWindowError));
    }
    var slope := Slope(p, cfg.slopeWindow);
    var tail := [(Named("slope_", cfg.slopeWindow), slope), (Named("slope_pct_", cfg.slopeWindow), DivSeries(slope, p))];
    var g := SetColumn(df, Named("slope_", cfg.slopeWindow), slope);
    g := SetColumn(g, Named("slope_pct_", cfg.slopeWindow), DivSeries(slope, p));
    assert g == Assign(f, TrendAssignments(f, price, cfg, lib)) by {
      AssignPair(df, tail);
      AssignConcat(f, sma, ema);
      AssignConcat(f, sma + ema, tail);
    }
    return Ok((g, NewColumns(f.columns, g.columns)));
  }

  /** The columns `_add_volatility_features` assigns, in order, named after their windows. */
  function VolatilityNameList(cfg: FeatureConfig): (names: seq<string>)
    ensures |names| == 8
  {
    var bw := cfg.bollingerWindow;
    [Named("atr_", cfg.atrWindow), Named("atr_pct_", cfg.atrWindow), Named("stdev_", cfg.stdevWindow),
     Named("bb_upper_", bw), Named("bb_lower_", bw), Named("bb_middle_", bw), Named("bb_width_", bw),
     Named("bb_pband_", bw)]
  }

  /** The series of `_add_volatility_features`, in the same order. Only the ATR relative to the
      close is computed here; the rest are library series. */
  function VolatilitySeries(f: Frame, price: string, cfg: FeatureConfig, lib: Library): (vs: seq<seq<Cell>>)
    ensures |vs| == 8
  {
    var n := |f.rows|;
    var p := Col(f.rows, price);
    var close := Col(f.rows, "close");
    var hlc := [Col(f.rows, "high"), Col(f.rows, "low"), close];
    var atr := Fit(lib.indicator("atr", hlc, [cfg.atrWindow as real]), n);
    var atrPct := DivSeries(atr, close);
    var stdev := Fit(lib.indicator("rolling_std", [PctChange(p, 1)], [cfg.stdevWindow as real]), n);
    var bp := [cfg.bollingerWindow as real, cfg.bollingerStd];
    var upper := Fit(lib.indicator("bollinger_hband", [p], bp), n);
    var lower := Fit(lib.indicator("bollinger_lband", [p], bp), n);
    var middle := Fit(lib.indicator("bollinger_mavg", [p], bp), n);
    var width := Fit(lib.indicator("bollinger_wband", [p], bp), n);
    var pband := Fit(lib.indicator("bollinger_pband", [p], bp), n);
    [atr, atrPct, stdev, upper, lower, middle, width, pband]
  }

  /** The assignments of `_add_volatility_features`: each name with its series (every series
      already has one cell per row, so `Fit` keeps it as it is). */
  function VolatilityAssignments(f: Frame, price: string, cfg: FeatureConfig, lib: Library): (cs: Assignments)
    ensures Fits(cs, |f.rows|)
    ensures |cs| == 8 && forall k :: 0 <= k < 8 ==> cs[k].0 == VolatilityNameList(cfg)[k]
  {
    var names := VolatilityNameList(cfg);
    var vs := VolatilitySeries(f, price, cfg, lib);
    seq(8, k requires 0 <= k < 8 => (names[k], Fit(vs[k], |f.rows|)))
  }

  /** `_add_volatility_features`. The rolling standard deviation needs `stdev_window >= 1`. */
  function VolatilityFeatures(f: Frame, price: string, cfg: FeatureConfig, lib: Library): (r: Result<Frame>)
    ensures r.Err? <==> cfg.stdevWindow < 1
  {
    if cfg.stdevWindow < 1 then Err(ValueError(RollingWindowError))
    else Ok(Assign(f, VolatilityAssignments(f, price, cfg, lib)))
  }

  /** The assignments of `_add_volume_features`: volume and turnover relative to their rolling
      means, then the two library volume indicators. */
  function VolumeAssignments(f: Frame, price: string, cfg: FeatureConfig, lib: Library): (cs: Assignments)
    ensures Fits(cs, |f.rows|)
  {
    var w := cfg.volumeRatioWindow;
    var n := |f.rows|;
    var p := Col(f.rows, price);
    var v := Col(f.rows, "volume");
    [(Named("vol_ratio_", w), Ratio(v, w)),
     (Named("tov_ratio_", w), Ratio(MulSeries(p, v), w)),
     ("vpt", Fit(lib.indicator("vpt", [p, v], []), n)),
     ("obv", Fit(lib.indicator("obv", [p, v], []), n))]
  }

  /** `_add_volume_features`. The rolling means need `volume_ratio_window >= 1`. */
  function VolumeFeatures(f: Frame, price: string, cfg: FeatureConfig, lib: Library): (r: Result<Frame>)
    ensures r.Err? <==> cfg.volumeRatioWindow < 1
  {
    if cfg.volumeRatioWindow < 1 then Err(ValueError(RollingWindowError))
    else Ok(Assign(f, VolumeAssignments(f, price, cfg, lib)))
  }

  /** `for window in return_windows: df[f"ret_{window}d"] = price.pct_change(periods=window)`. */
  function Returns(p: seq<Cell>, windows: seq<int>): (cs: Assignments)
    ensures |cs| == |windows| && Fits(cs, |p|)
  {
    seq(|windows|, k requires 0 <= k < |windows| => (Named("ret_", windows[k]) + "d", PctChange(p, windows[k])))
  }

  /** The names of the library momentum indicators, in the order they are assigned. */
  function MomentumIndicatorNames(cfg: FeatureConfig): (names: seq<string>)
    ensures |names| == 6
  {
    [Named("rsi_", cfg.rsiWindow), "macd", "macd_signal", "macd_hist", "stoch_k", "stoch_d"]
  }

  /** The library momentum indicators of `_add_momentum_features`. */
  function MomentumIndicators(f: Frame, price: string, cfg: FeatureConfig, lib: Library): (cs: Assignments)
    ensures Fits(cs, |f.rows|)
    ensures Names(cs) == MomentumIndicatorNames(cfg)
  {
    var n := |f.rows|;
    var p := Col(f.rows, price);
    var hlc := [Col(f.rows, "high"), Col(f.rows, "low"), Col(f.rows, "close")];
    var mp := [cfg.macdWindows.0 as real, cfg.macdWindows.1 as real, cfg.macdWindows.2 as real];
    [(Named("rsi_", cfg.rsiWindow), Fit(lib.indicator("rsi", [p], [cfg.rsiWindow as real]), n)),
     ("macd", Fit(lib.indicator("macd", [p], mp), n)),
     ("macd_signal", Fit(lib.indicator("macd_signal", [p], mp), n)),
     ("macd_hist", Fit(lib.indicator("macd_diff", [p], mp), n)),
     ("stoch_k", Fit(lib.indicator("stoch", hlc, []), n)),
     ("stoch_d", Fit(lib.indicator("stoch_signal", hlc, []), n))]
  }

  /** The assignments of `_add_momentum_features`: the returns, then the library momentum
      indicators. */
  function MomentumAssignments(f: Frame, price: string, cfg: FeatureConfig, lib: Library): (cs: Assignments)
    ensures Fits(cs, |f.rows|)
    ensures |cs| == |cfg.returnWindows| + 6
  {
    Returns(Col(f.rows, price), cfg.returnWindows) + MomentumIndicators(f, price, cfg, lib)
  }

  function MomentumFeatures(f: Frame, price: string, cfg: FeatureConfig, lib: Library): Frame
  {
    Assign(f, MomentumAssignments(f, price, cfg, lib))
  }

  /** The loop of `_add_momentum_features` over the return windows. */
  method AssignReturns(f: Frame, p: seq<Cell>, windows: seq<int>) returns (df: Frame)
    requires |p| == |f.rows|
    ensures df == Assign(f, Returns(p, windows))
  {
    var cs := Returns(p, windows);
    df := f;
    var k := 0;
    while k < |windows|
      invariant 0 <= k <= |windows|
      invariant df == Assign(f, cs[..k])
    {
      var w := windows[k];
      assert cs[k] == (Named("ret_", w) + "d", PctChange(p, w));
      AssignStep(f, cs, k);
      df := SetColumn(df, Named("ret_", w) + "d", PctChange(p, w));
      k := k + 1;
    }
    assert cs[..k] == cs;
  }

  /** `df[name] = values` for each assignment, in order. */
  method AssignEach(f: Frame, cs: Assignments) returns (df: Frame)
    requires Fits(cs, |f.rows|)
    ensures df == Assign(f, cs)
  {
    df := f;
    var k := 0;
    while k < |cs|
      invariant 0 <= k <= |cs|
      invariant df == Assign(f, cs[..k])
    {
      AssignStep(f, cs, k);
      df := SetColumn(df, cs[k].0, cs[k].1);
      k := k + 1;
    }
    assert cs[..k] == cs;
  }

  method AddMomentumFeatures(f: Frame, price: string, cfg: FeatureConfig, lib: Library)
    returns (r: (Frame, seq<string>))
    ensures Ok(r) == Reported(f, Ok(MomentumFeatures(f, price, cfg, lib)))
  {
    // The price column is read from the frame the step received: the return columns assigned in
    // the loop never overwrite it.
    var p := Col(f.rows, price);
    var cs := MomentumAssignments(f, price, cfg, lib);
    var rets := Returns(p, cfg.returnWindows);
    var rest := cs[|rets|..];
    var df := AssignReturns(f, p, cfg.returnWindows);
    var g := AssignEach(df, rest);
    assert g == MomentumFeatures(f, price, cfg, lib) by {
      assert cs == rets + rest;
      AssignConcat(f, rets, rest);
    }
    r := (g, NewColumns(f.columns, g.columns));
  }

  /** The assignments of `_add_technical_features` on at least 14 rows. An indicator that raises
      inside its `try` leaves its columns missing. */
  function TechnicalAssignments(f: Frame, lib: Library): (cs: Assignments)
    ensures Fits(cs, |f.rows|)
  {
    var n := |f.rows|;
    var hlc := [Col(f.rows, "high"), Col(f.rows, "low"), Col(f.rows, "close")];
    var missing := Fit([], n);
    var adxFails := lib.raises("adx", hlc);
    [("williams_r", if lib.raises("williams_r", hlc) then missing else Fit(lib.indicator("williams_r", hlc, []), n)),
     ("cci", if lib.raises("cci", hlc) then missing else Fit(lib.indicator("cci", hlc, []), n)),
     ("adx", if adxFails then missing else Fit(lib.indicator("adx", hlc, []), n)),
     ("adx_pos", if adxFails then missing else Fit(lib.indicator("adx_pos", hlc, []), n)),
     ("adx_neg", if adxFails then missing else Fit(lib.indicator("adx_neg", hlc, []), n))]
  }

  /** `_add_technical_features`. With fewer than 14 rows it returns the bare frame instead of a
      (frame, columns) pair, and the caller's `df, new_columns = ...` fails: unpacking a frame
      iterates over its column labels, of which there are more than two. */
  function TechnicalFeatures(f: Frame, lib: Library): (r: Result<Frame>)
    ensures r.Err? <==> |f.rows| < MinPeriodsRequired
  {
    if |f.rows| < MinPeriodsRequired then Err(ValueError(UnpackError))
    else Ok(Assign(f, TechnicalAssignments(f, lib)))
  }

  function Timestamps(rows: seq<Row>): (ts: seq<int>)
    ensures |ts| == |rows| && forall i :: 0 <= i < |rows| ==> ts[i] == rows[i].ts
  {
    seq(|rows|, i requires 0 <= i < |rows| => rows[i].ts)
  }

  /** The assignments of `_add_seasonality_features`: weekday, day of the month and the
      calendar-adjacency flags. */
  function SeasonalityAssignments(f: Frame): (cs: Assignments)
    ensures Fits(cs, |f.rows|)
  {
    var ts := Timestamps(f.rows);
    var n := |ts|;
    [("dow", seq(n, i requires 0 <= i < n => Num(Weekday(ts[i]) as real))),
     ("day_of_month", seq(n, i requires 0 <= i < n => Num(DayOfMonth(ts[i]) as real))),
     ("prev_day", PrevDay(ts)),
     ("next_day", NextDay(ts))]
  }

  function SeasonalityFeatures(f: Frame): Frame
  {
    Assign(f, SeasonalityAssignments(f))
  }

  // ---------------------------------------------------------------------------------------------
  // What an assignment list leaves in the frame.

  function Names(cs: Assignments): (names: seq<string>)
    ensures |names| == |cs| && forall k :: 0 <= k < |cs| ==> names[k] == cs[k].0
  {
    seq(|cs|, k requires 0 <= k < |cs| => cs[k].0)
  }

  /** The column labels after assigning the given names in order: a name already present keeps
      its position, a new one is appended. */
  function AddNames(columns: seq<string>, names: seq<string>): (r: seq<string>)
    ensures forall d :: d in r <==> d in columns || d in names
    decreases |names|
  {
    if |names| == 0 then columns else
      var prev := AddNames(columns, names[..|names| - 1]);
      var c := names[|names| - 1];
      assert forall d :: d in names <==> d in names[..|names| - 1] || d == c;
      if c in prev then prev else prev + [c]
  }

  /** The labels an assignment list produces depend on its names only, not on the values. */
  lemma {:induction false} AssignColumns(f: Frame, cs: Assignments)
    requires Fits(cs, |f.rows|)
    ensures Assign(f, cs).columns == AddNames(f.columns, Names(cs))
    decreases |cs|
  {
    if |cs| > 0 {
      var init := cs[..|cs| - 1];
      AssignColumns(f, init);
      assert Names(cs)[..|cs| - 1] == Names(init);
    }
  }

  /** A column no assignment names keeps its cells. */
  lemma {:induction false} AssignUntouched(f: Frame, cs: Assignments, c: string, i: nat)
    requires Fits(cs, |f.rows|) && i < |f.rows|
    requires forall k :: 0 <= k < |cs| ==> cs[k].0 != c
    ensures Get(Assign(f, cs).rows[i], c) == Get(f.rows[i], c)
    decreases |cs|
  {
    if |cs| > 0 {
      AssignUntouched(f, cs[..|cs| - 1], c, i);
    }
  }

  /** The last assignment to a column is what the column holds. */
  lemma {:induction false} AssignLastWins(f: Frame, cs: Assignments, k: nat, i: nat)
    requires Fits(cs, |f.rows|) && k < |cs| && i < |f.rows|
    requires forall m :: k < m < |cs| ==> cs[m].0 != cs[k].0
    ensures Get(Assign(f, cs).rows[i], cs[k].0) == cs[k].1[i]
    decreases |cs|
  {
    if k < |cs| - 1 {
      var init := cs[..|cs| - 1];
      AssignLastWins(f, init, k, i);
    }
  }
  /** When every assignment to a column from the k-th on writes the same cell at row i, that cell
      is what the column holds at row i. */
  lemma {:induction false} AssignAgreeing(f: Frame, cs: Assignments, k: nat, i: nat)
    requires Fits(cs, |f.rows|) && k < |cs| && i < |f.rows|
    requires forall m :: k < m < |cs| && cs[m].0 == cs[k].0 ==> cs[m].1[i] == cs[k].1[i]
    ensures Get(Assign(f, cs).rows[i], cs[k].0) == cs[k].1[i]
    decreases |cs|
  {
    if k < |cs| - 1 {
      var init := cs[..|cs| - 1];
      AssignAgreeing(f, init, k, i);
    }
  }


  // ---------------------------------------------------------------------------------------------
  // What each step writes.

  /** `_add_trend_features` writes the slope of the price and the slope relative to the price. */
  lemma TrendWrites(f: Frame, price: string, cfg: FeatureConfig, lib: Library, i: nat)
    requires cfg.slopeWindow >= 2 && i < |f.rows|
    ensures var g := TrendFeatures(f, price, cfg, lib).value;
      var p := Col(f.rows, price);
      var w := cfg.slopeWindow;
      Get(g.rows[i], Named("slope_", w)) == Slope(p, w)[i] &&
      Get(g.rows[i], Named("slope_pct_", w)) == Div(Slope(p, w)[i], p[i])
  {
    var cs := TrendAssignments(f, price, cfg, lib);
    var n := |cs|;
    var x := IntToString(cfg.slopeWindow);
    assert cs[n - 2].0 == "slope_" + x && cs[n - 1].0 == "slope_pct_" + x;
    assert ("slope_pct_" + x)[6] == 'p' && ("slope_" + x)[6] == x[0];
    AssignLastWins(f, cs, n - 2, i);
    AssignLastWins(f, cs, n - 1, i);
  }

  /** `_add_volume_features` writes the volume ratio and the turnover ratio. */
  lemma VolumeWrites(f: Frame, price: string, cfg: FeatureConfig, lib: Library, i: nat)
    requires cfg.volumeRatioWindow >= 1 && i < |f.rows|
    ensures var g := VolumeFeatures(f, price, cfg, lib).value;
      var p := Col(f.rows, price);
      var v := Col(f.rows, "volume");
      var w := cfg.volumeRatioWindow;
      Get(g.rows[i], Named("vol_ratio_", w)) == Ratio(v, w)[i] &&
      Get(g.rows[i], Named("tov_ratio_", w)) == Ratio(MulSeries(p, v), w)[i]
  {
    var cs := VolumeAssignments(f, price, cfg, lib);
    VolumeNames(f, price, cfg, lib);
    AssignLastWins(f, cs, 0, i);
    AssignLastWins(f, cs, 1, i);
  }

  /** The four volume columns have different names. */
  lemma VolumeNames(f: Frame, price: string, cfg: FeatureConfig, lib: Library)
    ensures var cs := VolumeAssignments(f, price, cfg, lib);
      |cs| == 4 && (forall m :: 0 < m < 4 ==> cs[m].0 != cs[0].0) && (forall m :: 1 < m < 4 ==> cs[m].0 != cs[1].0)
  {
    var cs := VolumeAssignments(f, price, cfg, lib);
    var x := IntToString(cfg.volumeRatioWindow);
    assert cs[0].0 == "vol_ratio_" + x && cs[1].0 == "tov_ratio_" + x;
    assert cs[0].0[0] == 'v' && cs[1].0[0] == 't' && cs[2].0 == "vpt" && cs[3].0 == "obv";
    assert cs[0].0[1] == 'o' && cs[2].0[1] == 'p';
  }

  /** Different return windows name different columns. */
  lemma ReturnNameInjective(a: int, b: int)
    requires Named("ret_", a) + "d" == Named("ret_", b) + "d"
    ensures a == b
  {
    var x, y := Named("ret_", a) + "d", Named("ret_", b) + "d";
    assert IntToString(a) == x[4..|x| - 1] && IntToString(b) == y[4..|y| - 1];
    IntToStringInjective(a, b);
  }

  /** The names of the momentum assignments: the return columns, then columns that do not start
      with "re". */
  lemma MomentumNames(f: Frame, price: string, cfg: FeatureConfig, lib: Library)
    ensures var cs := MomentumAssignments(f, price, cfg, lib);
      var ws := cfg.returnWindows;
      (forall j :: 0 <= j < |ws| ==> cs[j].0 == Named("ret_", ws[j]) + "d") &&
      (forall j :: |ws| <= j < |cs| ==> |cs[j].0| >= 2 && (cs[j].0[0] != 'r' || cs[j].0[1] != 'e'))
  {
    var cs := MomentumAssignments(f, price, cfg, lib);
    var ws := cfg.returnWindows;
    var rets := Returns(Col(f.rows, price), ws);
    var t := MomentumIndicators(f, price, cfg, lib);
    var names := MomentumIndicatorNames(cfg);
    IndicatorNamesNotReturns(cfg);
    forall j | 0 <= j < |ws| ensures cs[j].0 == Named("ret_", ws[j]) + "d" {
      assert cs[j] == rets[j];
    }
    forall j | |ws| <= j < |cs| ensures |cs[j].0| >= 2 && (cs[j].0[0] != 'r' || cs[j].0[1] != 'e') {
      assert cs[j] == t[j - |ws|];
      assert cs[j].0 == Names(t)[j - |ws|] == names[j - |ws|];
    }
  }

  /** No momentum indicator name starts with "re", as every return column does. */
  lemma IndicatorNamesNotReturns(cfg: FeatureConfig)
    ensures var names := MomentumIndicatorNames(cfg);
      forall j :: 0 <= j < 6 ==> |names[j]| >= 2 && (names[j][0] != 'r' || names[j][1] != 'e')
  {
    var names := MomentumIndicatorNames(cfg);
    assert names[0] == "rsi_" + IntToString(cfg.rsiWindow);
    assert names[0][1] == 's';
  }

  /** `_add_momentum_features` writes, for every return window, the percentage change of the price
      over that many rows. */
  lemma MomentumWritesReturns(f: Frame, price: string, cfg: FeatureConfig, lib: Library, k: nat, i: nat)
    requires k < |cfg.returnWindows| && i < |f.rows|
    ensures var w := cfg.returnWindows[k];
      Get(MomentumFeatures(f, price, cfg, lib).rows[i], Named("ret_", w) + "d") == PctChange(Col(f.rows, price), w)[i]
  {
    var cs := MomentumAssignments(f, price, cfg, lib);
    var ws := cfg.returnWindows;
    var rets := Returns(Col(f.rows, price), ws);
    MomentumNames(f, price, cfg, lib);
    assert cs[k] == rets[k];
    assert cs[k].0[0] == 'r' && cs[k].0[1] == 'e';
    forall m | k < m < |cs| && cs[m].0 == cs[k].0
      ensures cs[m].1[i] == cs[k].1[i]
    {
      if m < |ws| {
        ReturnNameInjective(ws[m], ws[k]);
        assert cs[m] == rets[m];
      } else {
        assert false;
      }
    }
    AssignAgreeing(f, cs, k, i);
  }

  /** `_add_seasonality_features` writes the weekday, the day of the month and whether the
      previous and the next row are the adjacent calendar days. */
  lemma SeasonalityWrites(f: Frame, i: nat)
    requires i < |f.rows|
    ensures var g := SeasonalityFeatures(f);
      var ts := Timestamps(f.rows);
      Get(g.rows[i], "dow") == Num(Weekday(ts[i]) as real) &&
      Get(g.rows[i], "day_of_month") == Num(DayOfMonth(ts[i]) as real) &&
      Get(g.rows[i], "prev_day") == PrevDay(ts)[i] &&
      Get(g.rows[i], "next_day") == NextDay(ts)[i]
  {
    SeasonalityLastWins(f, 0, i);
    SeasonalityLastWins(f, 1, i);
    SeasonalityLastWins(f, 2, i);
    SeasonalityLastWins(f, 3, i);
  }

  /** The four seasonality columns have distinct names, so each holds its own series. */
  lemma SeasonalityLastWins(f: Frame, k: nat, i: nat)
    requires k < 4 && i < |f.rows|
    ensures var cs := SeasonalityAssignments(f);
      Get(SeasonalityFeatures(f).rows[i], cs[k].0) == cs[k].1[i]
  {
    var cs := SeasonalityAssignments(f);
    assert Names(cs) == ["dow", "day_of_month", "prev_day", "next_day"];
    AssignLastWins(f, cs, k, i);
  }

  // ---------------------------------------------------------------------------------------------
  // Leading missing values.

  /** `df[c].isna()` at a row. The key columns are never missing. */
  predicate IsNa(r: Row, c: string)
  {
    c != "symbol" && c != "timestamp" && Get(r, c).NaN?
  }

  /** Every row up to and including row i is missing column c. */
  predicate LeadingMissing(rows: seq<Row>, c: string, i: nat)
    requires i < |rows|
  {
    forall k :: 0 <= k <= i ==> IsNa(rows[k], c)
  }

  /** `df[c].isna().cumprod().astype(bool)`. */
  function LeadingMask(rows: seq<Row>, c: string): (m: seq<bool>)
    ensures |m| == |rows|
    decreases |rows|
  {
    if |rows| == 0 then [] else
      var m := LeadingMask(rows[..|rows| - 1], c);
      m + [IsNa(rows[|rows| - 1], c) && (|m| == 0 || m[|m| - 1])]
  }

  /** The running product is true exactly while the column has been missing since the first row. */
  lemma {:induction false} LeadingMaskMeaning(rows: seq<Row>, c: string)
    ensures forall i :: 0 <= i < |rows| ==> (LeadingMask(rows, c)[i] <==> LeadingMissing(rows, c, i))
    decreases |rows|
  {
    if |rows| > 0 {
      var init := rows[..|rows| - 1];
      LeadingMaskMeaning(init, c);
      forall i | 0 <= i < |rows|
        ensures LeadingMask(rows, c)[i] <==> LeadingMissing(rows, c, i)
      {
        if i < |rows| - 1 {
          assert LeadingMissing(rows, c, i) <==> LeadingMissing(init, c, i);
        } else if i > 0 {
          assert LeadingMissing(rows, c, i) <==> LeadingMissing(init, c, i - 1) && IsNa(rows[i], c);
        }
      }
    }
  }

  function Flags(bs: seq<bool>): (r: seq<Cell>)
    ensures |r| == |bs| && forall i :: 0 <= i < |bs| ==> r[i] == Flag(bs[i])
  {
    seq(|bs|, i requires 0 <= i < |bs| => Flag(bs[i]))
  }

  /** `f"{col}_is_leading_nan"`. */
  function Helper(c: string): string
  {
    c + "_is_leading_nan"
  }

  function HelperNames(cols: seq<string>): (r: set<string>)
    ensures forall d :: d in r <==> exists c :: c in cols && d == Helper(c)
  {
    set c | c in cols :: Helper(c)
  }

  /** No listed column is the helper of a listed column, so no helper overwrites a column that is
      still to be read. */
  predicate NoHelperClash(cols: seq<string>)
  {
    forall c, d :: c in cols && d in cols ==> Helper(c) != d
  }

  /** The loop of `_flag_leading_nans` over the first columns of the list: each helper column is
      the mask of the column as the frame holds it at that point. */
  function MaskColumns(f: Frame, cols: seq<string>): (g: Frame)
    ensures SameKeys(g.rows, f.rows)
    decreases |cols|
  {
    if |cols| == 0 then f else
      var g := MaskColumns(f, cols[..|cols| - 1]);
      var c := cols[|cols| - 1];
      SetColumn(g, Helper(c), Flags(LeadingMask(g.rows, c)))
  }

  /** `df[is_leading_nan_columns].any(axis=1)`. */
  function AnyHelper(rows: seq<Row>, cols: seq<string>): (r: seq<Cell>)
    ensures |r| == |rows|
  {
    seq(|rows|, i requires 0 <= i < |rows| =>
      Flag(exists k :: 0 <= k < |cols| && Get(rows[i], Helper(cols[k])) == Flag(true)))
  }

  const ContainsLeadingNan := "contains_leading_nan"

  /** What `_flag_leading_nans` returns. */
  function FlaggedFrame(f: Frame, cols: seq<string>): Frame
  {
    var m := MaskColumns(f, cols);
    DropColumns(SetColumn(m, ContainsLeadingNan, AnyHelper(m.rows, cols)), HelperNames(cols))
  }

  method FlagLeadingNans(f: Frame, cols: seq<string>) returns (g: Frame)
    ensures g == FlaggedFrame(f, cols)
  {
    var df := f;
    var k := 0;
    while k < |cols|
      invariant 0 <= k <= |cols|
      invariant df == MaskColumns(f, cols[..k])
    {
      var c := cols[k];
      assert cols[..k + 1][..k] == cols[..k];
      df := SetColumn(df, Helper(c), Flags(LeadingMask(df.rows, c)));
      k := k + 1;
    }
    assert cols[..k] == cols;
    df := SetColumn(df, ContainsLeadingNan, AnyHelper(df.rows, cols));
    g := DropColumns(df, HelperNames(cols));
  }

  /** The summary column is never a helper name: the two differ at the sixth character from the
      end of the helper suffix. */
  lemma ContainsIsNotHelper(cols: seq<string>)
    ensures ContainsLeadingNan !in HelperNames(cols)
  {
    forall c | c in cols
      ensures Helper(c) != ContainsLeadingNan
    {
      if |c| == 5 {
        assert Helper(c)[5] == '_' && ContainsLeadingNan[5] == 'i';
      } else {
        assert |Helper(c)| != |ContainsLeadingNan|;
      }
    }
  }

  /** Two frames whose column c agrees cell by cell have the same mask for c. */
  lemma {:induction false} LeadingMaskCongruent(a: seq<Row>, b: seq<Row>, c: string)
    requires |a| == |b| && forall i :: 0 <= i < |a| ==> Get(a[i], c) == Get(b[i], c)
    ensures LeadingMask(a, c) == LeadingMask(b, c)
    decreases |a|
  {
    if |a| > 0 {
      LeadingMaskCongruent(a[..|a| - 1], b[..|b| - 1], c);
    }
  }

  /** The mask loop adds the helper columns and no others. */
  lemma {:induction false} MaskColumnsColumns(f: Frame, cols: seq<string>)
    ensures forall d :: d in MaskColumns(f, cols).columns <==> d in f.columns || d in HelperNames(cols)
    decreases |cols|
  {
    if |cols| > 0 {
      MaskColumnsColumns(f, cols[..|cols| - 1]);
    }
  }

  /** The mask loop leaves every column that is not a helper as it was. */
  lemma {:induction false} MaskKeepsOthers(f: Frame, cols: seq<string>, i: nat, d: string)
    requires i < |f.rows| && d !in HelperNames(cols)
    ensures Get(MaskColumns(f, cols).rows[i], d) == Get(f.rows[i], d)
    decreases |cols|
  {
    if |cols| > 0 {
      var init := cols[..|cols| - 1];
      assert forall x :: x in init ==> x in cols;
      MaskKeepsOthers(f, init, i, d);
    }
  }

  /** After the mask loop, each helper column holds the mask of its column in the original frame. */
  lemma {:induction false} MaskHelper(f: Frame, cols: seq<string>, i: nat, j: nat)
    requires NoHelperClash(cols) && i < |f.rows| && j < |cols|
    ensures Get(MaskColumns(f, cols).rows[i], Helper(cols[j])) == Flag(LeadingMask(f.rows, cols[j])[i])
    decreases |cols|
  {
    var init := cols[..|cols| - 1];
    var c := cols[|cols| - 1];
    var g := MaskColumns(f, init);
    assert forall x :: x in init ==> x in cols;
    if cols[j] == c {
      assert c in cols;
      forall x | x in init
        ensures Helper(x) != c
      {
        assert x in cols;
      }
      forall k | 0 <= k < |f.rows|
        ensures Get(g.rows[k], c) == Get(f.rows[k], c)
      {
        MaskKeepsOthers(f, init, k, c);
      }
      LeadingMaskCongruent(g.rows, f.rows, c);
      assert MaskColumns(f, cols) == SetColumn(g, Helper(c), Flags(LeadingMask(g.rows, c)));
    } else {
      assert cols[j] == init[j];
      assert Helper(cols[j]) != Helper(c) by {
        assert cols[j] == Helper(cols[j])[..|cols[j]|] && c == Helper(c)[..|c|];
      }
      MaskHelper(f, init, i, j);
    }
  }

  /** `_flag_leading_nans` keeps the rows and their keys; it adds the summary column and removes
      the helper columns. */
  lemma FlaggedColumns(f: Frame, cols: seq<string>)
    ensures var g := FlaggedFrame(f, cols);
      SameKeys(g.rows, f.rows) &&
      forall d :: d in g.columns <==> (d in f.columns || d == ContainsLeadingNan) && d !in HelperNames(cols)
  {
    MaskColumnsColumns(f, cols);
    ContainsIsNotHelper(cols);
  }

  /** Every column other than the summary and the helpers is as it was. */
  lemma FlaggedKeepsOthers(f: Frame, cols: seq<string>, i: nat, d: string)
    requires i < |f.rows| && d != ContainsLeadingNan && d !in HelperNames(cols)
    ensures Get(FlaggedFrame(f, cols).rows[i], d) == Get(f.rows[i], d)
  {
    MaskKeepsOthers(f, cols, i, d);
  }

  /** `_flag_leading_nans`: the flag of a row says whether any listed column has been missing from
      the first row down to that row. */
  lemma FlaggedMeaning(f: Frame, cols: seq<string>, i: nat)
    requires NoHelperClash(cols) && i < |f.rows|
    ensures Get(FlaggedFrame(f, cols).rows[i], ContainsLeadingNan) ==
      Flag(exists c :: c in cols && LeadingMissing(f.rows, c, i))
  {
    ContainsIsNotHelper(cols);
    var m := MaskColumns(f, cols);
    var any := exists k :: 0 <= k < |cols| && Get(m.rows[i], Helper(cols[k])) == Flag(true);
    assert Get(FlaggedFrame(f, cols).rows[i], ContainsLeadingNan) == Flag(any);
    if exists c :: c in cols && LeadingMissing(f.rows, c, i) {
      var c :| c in cols && LeadingMissing(f.rows, c, i);
      var k :| 0 <= k < |cols| && cols[k] == c;
      LeadingMaskMeaning(f.rows, c);
      MaskHelper(f, cols, i, k);
    } else {
      forall k | 0 <= k < |cols|
        ensures Get(m.rows[i], Helper(cols[k])) != Flag(true)
      {
        LeadingMaskMeaning(f.rows, cols[k]);
        MaskHelper(f, cols, i, k);
      }
    }
  }

  /** The flag is prefix-closed: once a row is flagged, so are all earlier rows. */
  lemma FlaggedPrefixClosed(f: Frame, cols: seq<string>, i: nat, j: nat)
    requires NoHelperClash(cols) && j <= i < |f.rows|
    requires Get(FlaggedFrame(f, cols).rows[i], ContainsLeadingNan) == Flag(true)
    ensures Get(FlaggedFrame(f, cols).rows[j], ContainsLeadingNan) == Flag(true)
  {
    FlaggedMeaning(f, cols, i);
    FlaggedMeaning(f, cols, j);
    var c :| c in cols && LeadingMissing(f.rows, c, i);
    assert LeadingMissing(f.rows, c, j);
  }

  // ---------------------------------------------------------------------------------------------
  // One symbol.

  /** `df.sort_values("timestamp").reset_index(drop=True)`. */
  function ByTime(f: Frame): (g: Frame)
    ensures g.columns == f.columns && multiset(g.rows) == multiset(f.rows) && |g.rows| == |f.rows|
  {
    var g := Frame(f.columns, Sort(f.rows, TsKey));
    assert |multiset(g.rows)| == |multiset(f.rows)|;
    g
  }

  /** The windows the rolling computations need: the slope's rolling window holds `min_periods=2`,
      the others `min_periods=1`. */
  predicate WindowsValid(cfg: FeatureConfig)
  {
    cfg.slopeWindow >= 2 && cfg.stdevWindow >= 1 && cfg.volumeRatioWindow >= 1
  }

  /** `_build_features_for_symbol`: the steps in order, each reporting its new columns, then the
      leading-missing flag over "symbol" and all the reported columns. */
  function FeaturesForSymbol(f: Frame, price: string, cfg: FeatureConfig, lib: Library): (r: Result<(Frame, seq<string>)>)
    ensures r.Err? <==> !WindowsValid(cfg) || |f.rows| < MinPeriodsRequired
    ensures r.Err? ==> r.error.ValueError?
    ensures r.Ok? ==> |r.value.1| >= 1 && r.value.1[0] == "symbol"
  {
    var d0 := ByTime(f);
    var t := TrendFeatures(d0, price, cfg, lib);
    if t.Err? then Err(t.error) else
    var d1 := t.value;
    var v := VolatilityFeatures(d1, price, cfg, lib);
    if v.Err? then Err(v.error) else
    var d2 := v.value;
    var u := VolumeFeatures(d2, price, cfg, lib);
    if u.Err? then Err(u.error) else
    var d3 := u.value;
    Finished(d3, ["symbol"] + NewColumns(d0.columns, d1.columns) + NewColumns(d1.columns, d2.columns) +
      NewColumns(d2.columns, d3.columns), price, cfg, lib)
  }

  /** The steps of `_build_features_for_symbol` after the volume step: momentum, the technical
      indicators, seasonality and the leading-missing flag, given the columns reported so far. */
  function Finished(d3: Frame, cols: seq<string>, price: string, cfg: FeatureConfig, lib: Library)
    : (r: Result<(Frame, seq<string>)>)
    ensures r.Err? <==> |d3.rows| < MinPeriodsRequired
    ensures r.Err? ==> r.error.ValueError?
    ensures r.Ok? ==> |r.value.1| >= |cols| && r.value.1[..|cols|] == cols
  {
    var d4 := MomentumFeatures(d3, price, cfg, lib);
    var x := TechnicalFeatures(d4, lib);
    if x.Err? then Err(x.error) else
    var d5 := x.value;
    var d6 := SeasonalityFeatures(d5);
    var added := NewColumns(d3.columns, d4.columns) + NewColumns(d4.columns, d5.columns) +
      NewColumns(d5.columns, d6.columns);
    var all := cols + added;
    assert all[..|cols|] == cols;
    Ok((FlaggedFrame(d6, all), all))
  }

  method BuildForSymbol(f: Frame, price: string, cfg: FeatureConfig, lib: Library)
    returns (r: Result<(Frame, seq<string>)>)
    ensures r == FeaturesForSymbol(f, price, cfg, lib)
  {
    var df := ByTime(f);
    var cols := ["symbol"];
    var trend := AddTrendFeatures(df, price, cfg, lib);
    if trend.Err? {
      return Err(trend.error);
    }
    df, cols := trend.value.0, cols + trend.value.1;
    var volatility := Reported(df, VolatilityFeatures(df, price, cfg, lib));
    if volatility.Err? {
      return Err(volatility.error);
    }
    df, cols := volatility.value.0, cols + volatility.value.1;
    var volume := Reported(df, VolumeFeatures(df, price, cfg, lib));
    if volume.Err? {
      return Err(volume.error);
    }
    df, cols := volume.value.0, cols + volume.value.1;
    r := FinishSymbol(df, cols, price, cfg, lib);
  }

  method FinishSymbol(d3: Frame, cols: seq<string>, price: string, cfg: FeatureConfig, lib: Library)
    returns (r: Result<(Frame, seq<string>)>)
    ensures r == Finished(d3, cols, price, cfg, lib)
  {
    var momentum := AddMomentumFeatures(d3, price, cfg, lib);
    var df, added := momentum.0, momentum.1;
    var technical := Reported(df, TechnicalFeatures(df, lib));
    if technical.Err? {
      return Err(technical.error);
    }
    df, added := technical.value.0, added + technical.value.1;
    var seasonality := SeasonalityFeatures(df);
    added := added + NewColumns(df.columns, seasonality.columns);
    var all := cols + added;
    df := FlagLeadingNans(seasonality, all);
    return Ok((df, all));
  }

  /** A symbol's output rows are its input rows in time order, with their keys. */
  lemma FeaturesForSymbolKeys(f: Frame, price: string, cfg: FeatureConfig, lib: Library)
    requires FeaturesForSymbol(f, price, cfg, lib).Ok?
    ensures SameKeys(FeaturesForSymbol(f, price, cfg, lib).value.0.rows, Sort(f.rows, TsKey))
  {
    var d0 := ByTime(f);
    var d1 := TrendFeatures(d0, price, cfg, lib).value;
    var d2 := VolatilityFeatures(d1, price, cfg, lib).value;
    var d3 := VolumeFeatures(d2, price, cfg, lib).value;
    var cols := ["symbol"] + NewColumns(d0.columns, d1.columns) + NewColumns(d1.columns, d2.columns) +
      NewColumns(d2.columns, d3.columns);
    FinishedKeys(d3, cols, price, cfg, lib);
    SameKeysTransitive(d2.rows, d1.rows, d0.rows);
    SameKeysTransitive(d3.rows, d2.rows, d0.rows);
    SameKeysTransitive(FeaturesForSymbol(f, price, cfg, lib).value.0.rows, d3.rows, d0.rows);
  }

  lemma FinishedKeys(d3: Frame, cols: seq<string>, price: string, cfg: FeatureConfig, lib: Library)
    requires Finished(d3, cols, price, cfg, lib).Ok?
    ensures SameKeys(Finished(d3, cols, price, cfg, lib).value.0.rows, d3.rows)
  {
    var d4 := MomentumFeatures(d3, price, cfg, lib);
    var d5 := TechnicalFeatures(d4, lib).value;
    var d6 := SeasonalityFeatures(d5);
    var r := Finished(d3, cols, price, cfg, lib).value;
    FlaggedColumns(d6, r.1);
    SameKeysTransitive(d5.rows, d4.rows, d3.rows);
    SameKeysTransitive(d6.rows, d5.rows, d3.rows);
    SameKeysTransitive(r.0.rows, d6.rows, d3.rows);
  }

  // ---------------------------------------------------------------------------------------------
  // The whole table.

  /** What `build` returns: the bare frame on empty input, otherwise the frame and the new columns. */
  datatype BuildOutcome = Bare(frame: Frame) | Pair(frame: Frame, newColumns: seq<string>)

  /** `[col for col in required_columns if col not in df.columns]`. */
  function MissingRequired(columns: seq<string>): (r: seq<string>)
    ensures forall c :: c in r <==> c in RequiredColumns && c !in columns
  {
    FilterMembers(RequiredColumns, (c: string) => c !in columns);
    Filter(RequiredColumns, (c: string) => c !in columns)
  }

  /** `_build_features_for_symbol` with the price column and the configuration fixed. */
  type SymbolBuilder = Frame -> Result<(Frame, seq<string>)>

  function ForSymbol(price: string, cfg: FeatureConfig, lib: Library): SymbolBuilder
  {
    g => FeaturesForSymbol(g, price, cfg, lib)
  }

  /** The symbol loop over the first symbols: the per-symbol frames, and the column list of the
      last symbol built (`new_columns_` is overwritten on every iteration). */
  function BuildSymbols(f: Frame, syms: seq<string>, build: SymbolBuilder): (r: Result<(seq<Frame>, seq<string>)>)
    decreases |syms|
  {
    if |syms| == 0 then Ok(([], [])) else
      var prev := BuildSymbols(f, syms[..|syms| - 1], build);
      if prev.Err? then prev else
        var cur := build(SymbolFrame(f, syms[|syms| - 1]));
        if cur.Err? then Err(cur.error) else Ok((prev.value.0 + [cur.value.0], cur.value.1))
  }

  /** The message of the missing-columns error. */
  function MissingColumnsMessage(missing: seq<string>): string
  {
    "Missing required columns: " + ListRepr(missing)
  }

  /** What `build` returns or raises. */
  function Built(f: Frame, cfg: FeatureConfig, lib: Library): Result<BuildOutcome>
  {
    if IsEmpty(f) then Ok(Bare(f)) else
      var missing := MissingRequired(f.columns);
      if |missing| > 0 then Err(ValueError(MissingColumnsMessage(missing))) else
        var b := BuildSymbols(f, Symbols(f.rows), ForSymbol(PriceColumn(f), cfg, lib));
        if b.Err? then Err(b.error) else
          var combined := ConcatFrames(b.value.0);
          Ok(Pair(Frame(combined.columns, Sort(combined.rows, TsSymKey)), b.value.1))
  }

  /** Once a symbol fails, the loop's outcome is that failure. */
  lemma {:induction false} BuildSymbolsStopsAtError(f: Frame, syms: seq<string>, k: nat, build: SymbolBuilder)
    requires k <= |syms| && BuildSymbols(f, syms[..k], build).Err?
    ensures BuildSymbols(f, syms, build) == BuildSymbols(f, syms[..k], build)
    decreases |syms|
  {
    if k < |syms| {
      var init := syms[..|syms| - 1];
      assert init[..k] == syms[..k];
      BuildSymbolsStopsAtError(f, init, k, build);
    } else {
      assert syms[..k] == syms;
    }
  }

  /** One more symbol of the loop. */
  lemma BuildSymbolsStep(f: Frame, syms: seq<string>, k: nat, build: SymbolBuilder)
    requires k < |syms| && BuildSymbols(f, syms[..k], build).Ok?
    ensures var prev := BuildSymbols(f, syms[..k], build).value;
      var cur := build(SymbolFrame(f, syms[k]));
      BuildSymbols(f, syms[..k + 1], build) ==
        if cur.Err? then Err(cur.error) else Ok((prev.0 + [cur.value.0], cur.value.1))
  {
    assert syms[..k + 1][..k] == syms[..k];
  }

  /** One iteration of the symbol loop of `build`. */
  method BuildNext(f: Frame, syms: seq<string>, k: nat, price: string, cfg: FeatureConfig, lib: Library,
                   frames: seq<Frame>, newColumns: seq<string>)
    returns (r: Result<(seq<Frame>, seq<string>)>)
    requires k < |syms| && BuildSymbols(f, syms[..k], ForSymbol(price, cfg, lib)) == Ok((frames, newColumns))
    ensures r == BuildSymbols(f, syms[..k + 1], ForSymbol(price, cfg, lib))
  {
    var built := BuildForSymbol(SymbolFrame(f, syms[k]), price, cfg, lib);
    BuildSymbolsStep(f, syms, k, ForSymbol(price, cfg, lib));
    if built.Err? {
      return Err(built.error);
    }
    return Ok((frames + [built.value.0], built.value.1));
  }

  /** The symbol loop of `build`. */
  method BuildEach(f: Frame, syms: seq<string>, price: string, cfg: FeatureConfig, lib: Library)
    returns (r: Result<(seq<Frame>, seq<string>)>)
    ensures r == BuildSymbols(f, syms, ForSymbol(price, cfg, lib))
  {
    var frames: seq<Frame> := [];
    var newColumns: seq<string> := [];
    var k := 0;
    while k < |syms|
      invariant 0 <= k <= |syms|
      invariant BuildSymbols(f, syms[..k], ForSymbol(price, cfg, lib)) == Ok((frames, newColumns))
    {
      var next := BuildNext(f, syms, k, price, cfg, lib, frames, newColumns);
      if next.Err? {
        BuildSymbolsStopsAtError(f, syms, k + 1, ForSymbol(price, cfg, lib));
        return next;
      }
      frames, newColumns := next.value.0, next.value.1;
      k := k + 1;
    }
    assert syms[..k] == syms;
    return Ok((frames, newColumns));
  }

  /** `build`. */
  method Build(f: Frame, cfg: FeatureConfig, lib: Library) returns (r: Result<BuildOutcome>)
    ensures r == Built(f, cfg, lib)
  {
    if IsEmpty(f) {
      return Ok(Bare(f));
    }
    var missing := MissingRequired(f.columns);
    if |missing| > 0 {
      return Err(ValueError(MissingColumnsMessage(missing)));
    }
    var built := BuildEach(f, Symbols(f.rows), PriceColumn(f), cfg, lib);
    if built.Err? {
      return Err(built.error);
    }
    var combined := ConcatFrames(built.value.0);
    return Ok(Pair(Frame(combined.columns, Sort(combined.rows, TsSymKey)), built.value.1));
  }

  // ---------------------------------------------------------------------------------------------
  // What `build` promises.

  /** The loop fails exactly when some symbol fails; otherwise it holds one frame per symbol, in
      order, and the column list of the last symbol. */
  lemma {:induction false} BuildSymbolsFacts(f: Frame, syms: seq<string>, build: SymbolBuilder)
    ensures var r := BuildSymbols(f, syms, build);
      (r.Err? <==> exists k :: 0 <= k < |syms| && build(SymbolFrame(f, syms[k])).Err?) &&
      (r.Ok? ==>
         |r.value.0| == |syms| &&
         (forall k :: 0 <= k < |syms| ==>
            build(SymbolFrame(f, syms[k])).Ok? && r.value.0[k] == build(SymbolFrame(f, syms[k])).value.0) &&
         (|syms| > 0 ==> r.value.1 == build(SymbolFrame(f, syms[|syms| - 1])).value.1))
    decreases |syms|
  {
    if |syms| > 0 {
      var init := syms[..|syms| - 1];
      BuildSymbolsFacts(f, init, build);
      assert forall k :: 0 <= k < |init| ==> init[k] == syms[k];
    }
  }

  /** `build` returns the bare frame exactly on empty input, and fails exactly when a required
      column is missing, a rolling window is shorter than its minimum, or some symbol has fewer
      than 14 rows (the unpacking error of the technical step); every failure is a ValueError. */
  lemma BuiltOutcome(f: Frame, cfg: FeatureConfig, lib: Library)
    ensures Built(f, cfg, lib).Ok? && Built(f, cfg, lib).value.Bare? <==> IsEmpty(f)
    ensures Built(f, cfg, lib).Err? <==>
      !IsEmpty(f) &&
      (|MissingRequired(f.columns)| > 0 || !WindowsValid(cfg) ||
       exists s :: s in Symbols(f.rows) && CountOf(f.rows, s) < MinPeriodsRequired)
    ensures Built(f, cfg, lib).Err? ==> Built(f, cfg, lib).error.ValueError?
  {
    if !IsEmpty(f) && |MissingRequired(f.columns)| == 0 {
      var syms := Symbols(f.rows);
      var build := ForSymbol(PriceColumn(f), cfg, lib);
      BuildSymbolsFacts(f, syms, build);
      var r := BuildSymbols(f, syms, build);
      assert Built(f, cfg, lib).Err? <==> r.Err?;
      // A symbol fails exactly when the windows are invalid or it has fewer than 14 rows.
      forall k | 0 <= k < |syms|
        ensures build(SymbolFrame(f, syms[k])).Err? <==> !WindowsValid(cfg) || CountOf(f.rows, syms[k]) < MinPeriodsRequired
        ensures build(SymbolFrame(f, syms[k])).Err? ==> build(SymbolFrame(f, syms[k])).error.ValueError?
      {
      }
      if exists s :: s in syms && CountOf(f.rows, s) < MinPeriodsRequired {
        var s :| s in syms && CountOf(f.rows, s) < MinPeriodsRequired;
        var k :| 0 <= k < |syms| && syms[k] == s;
      } else if !WindowsValid(cfg) {
        assert f.rows[0].sym in syms;
        var k :| 0 <= k < |syms| && syms[k] == f.rows[0].sym;
      }
      if r.Err? {
        BuildSymbolsErrorFrom(f, syms, build);
      }
    }
  }

  /** A failing loop fails with the error of one of its symbols. */
  lemma {:induction false} BuildSymbolsErrorFrom(f: Frame, syms: seq<string>, build: SymbolBuilder)
    requires BuildSymbols(f, syms, build).Err?
    ensures exists k ::
      0 <= k < |syms| && build(SymbolFrame(f, syms[k])).Err? &&
      build(SymbolFrame(f, syms[k])).error == BuildSymbols(f, syms, build).error
    decreases |syms|
  {
    var init := syms[..|syms| - 1];
    if BuildSymbols(f, init, build).Err? {
      BuildSymbolsErrorFrom(f, init, build);
      var k :| 0 <= k < |init| && build(SymbolFrame(f, init[k])).Err? &&
        build(SymbolFrame(f, init[k])).error == BuildSymbols(f, init, build).error;
      assert init[k] == syms[k];
    } else {
      assert build(SymbolFrame(f, syms[|syms| - 1])).error == BuildSymbols(f, syms, build).error;
    }
  }

  /** On success, the table has as many rows as its input, ordered by timestamp then symbol, and
      the rows of each symbol are exactly the features computed from that symbol's rows alone:
      no symbol's output depends on another symbol's data. */
  lemma BuiltRows(f: Frame, cfg: FeatureConfig, lib: Library)
    requires Built(f, cfg, lib).Ok? && Built(f, cfg, lib).value.Pair?
    ensures var g := Built(f, cfg, lib).value.frame;
      |g.rows| == |f.rows| && SortedBy(g.rows, TsSymKey) &&
      (forall s :: s !in Symbols(f.rows) ==> RowsOf(g.rows, s) == []) &&
      (forall s :: s in Symbols(f.rows) ==>
         FeaturesForSymbol(SymbolFrame(f, s), PriceColumn(f), cfg, lib).Ok? &&
         multiset(RowsOf(g.rows, s)) == multiset(FeaturesForSymbol(SymbolFrame(f, s), PriceColumn(f), cfg, lib).value.0.rows))
  {
    var syms := Symbols(f.rows);
    var price := PriceColumn(f);
    var frames := BuildSymbols(f, syms, ForSymbol(price, cfg, lib)).value.0;
    var rows := ConcatRows(frames);
    var g := Built(f, cfg, lib).value.frame;
    BuiltFrames(f, cfg, lib);
    ConcatBySymbol(frames, syms);
    ConcatRowsLength(frames, f.rows, syms);
    GroupedIsPermutation(f.rows);
    assert |multiset(Grouped(f.rows, syms))| == |multiset(f.rows)|;
    assert |multiset(g.rows)| == |multiset(rows)|;
    forall s | s in syms
      ensures FeaturesForSymbol(SymbolFrame(f, s), price, cfg, lib).Ok? &&
        multiset(RowsOf(g.rows, s)) == multiset(FeaturesForSymbol(SymbolFrame(f, s), price, cfg, lib).value.0.rows)
    {
      var k :| 0 <= k < |syms| && syms[k] == s;
    }
  }

  /** On success every symbol was built, each symbol's frame holds only that symbol's rows, as
      many as the input has, and the table is their concatenation sorted by (timestamp, symbol). */
  lemma BuiltFrames(f: Frame, cfg: FeatureConfig, lib: Library)
    requires Built(f, cfg, lib).Ok? && Built(f, cfg, lib).value.Pair?
    ensures var syms := Symbols(f.rows);
      var b := BuildSymbols(f, syms, ForSymbol(PriceColumn(f), cfg, lib));
      b.Ok? && Tagged(b.value.0, syms) &&
      Built(f, cfg, lib).value.frame.rows == Sort(ConcatRows(b.value.0), TsSymKey) &&
      forall k :: 0 <= k < |syms| ==>
        |b.value.0[k].rows| == CountOf(f.rows, syms[k]) &&
        FeaturesForSymbol(SymbolFrame(f, syms[k]), PriceColumn(f), cfg, lib).Ok? &&
        b.value.0[k] == FeaturesForSymbol(SymbolFrame(f, syms[k]), PriceColumn(f), cfg, lib).value.0
  {
    var syms := Symbols(f.rows);
    var price := PriceColumn(f);
    var build := ForSymbol(price, cfg, lib);
    BuildSymbolsFacts(f, syms, build);
    var frames := BuildSymbols(f, syms, build).value.0;
    ConcatFramesRows(frames);
    forall k | 0 <= k < |frames|
      ensures |frames[k].rows| == CountOf(f.rows, syms[k])
      ensures forall i :: 0 <= i < |frames[k].rows| ==> frames[k].rows[i].sym == syms[k]
      ensures FeaturesForSymbol(SymbolFrame(f, syms[k]), price, cfg, lib).Ok? &&
        frames[k] == FeaturesForSymbol(SymbolFrame(f, syms[k]), price, cfg, lib).value.0
    {
      var g := SymbolFrame(f, syms[k]);
      assert build(g) == FeaturesForSymbol(g, price, cfg, lib);
      SymbolFrameBuilt(f, syms[k], price, cfg, lib);
    }
    assert Tagged(frames, syms);
  }

  /** A symbol's built frame has one row per input row of the symbol, all of that symbol. */
  lemma SymbolFrameBuilt(f: Frame, s: string, price: string, cfg: FeatureConfig, lib: Library)
    requires FeaturesForSymbol(SymbolFrame(f, s), price, cfg, lib).Ok?
    ensures var fr := FeaturesForSymbol(SymbolFrame(f, s), price, cfg, lib).value.0;
      |fr.rows| == CountOf(f.rows, s) && forall i :: 0 <= i < |fr.rows| ==> fr.rows[i].sym == s
  {
    FeaturesForSymbolKeys(SymbolFrame(f, s), price, cfg, lib);
    SortedRowsOf(f.rows, s);
  }

  // ---------------------------------------------------------------------------------------------
  // The column list does not depend on the symbol.

  /** The names each step assigns depend on the configuration only, not on the frame. */
  lemma VolatilityNamesAgree(a: Frame, b: Frame, price: string, cfg: FeatureConfig, lib: Library)
    ensures Names(VolatilityAssignments(a, price, cfg, lib)) == Names(VolatilityAssignments(b, price, cfg, lib))
  {
    var x, y := VolatilityAssignments(a, price, cfg, lib), VolatilityAssignments(b, price, cfg, lib);
    forall k | 0 <= k < |x|
      ensures x[k].0 == y[k].0
    {
    }
  }

  lemma VolumeNamesAgree(a: Frame, b: Frame, price: string, cfg: FeatureConfig, lib: Library)
    ensures Names(VolumeAssignments(a, price, cfg, lib)) == Names(VolumeAssignments(b, price, cfg, lib))
  {
    var x, y := VolumeAssignments(a, price, cfg, lib), VolumeAssignments(b, price, cfg, lib);
    forall k | 0 <= k < |x|
      ensures x[k].0 == y[k].0
    {
    }
  }

  lemma TechnicalNamesAgree(a: Frame, b: Frame, lib: Library)
    ensures Names(TechnicalAssignments(a, lib)) == Names(TechnicalAssignments(b, lib))
  {
    var x, y := TechnicalAssignments(a, lib), TechnicalAssignments(b, lib);
    forall k | 0 <= k < |x|
      ensures x[k].0 == y[k].0
    {
    }
  }

  lemma SeasonalityNamesAgree(a: Frame, b: Frame)
    ensures Names(SeasonalityAssignments(a)) == Names(SeasonalityAssignments(b))
  {
    var x, y := SeasonalityAssignments(a), SeasonalityAssignments(b);
    forall k | 0 <= k < |x|
      ensures x[k].0 == y[k].0
    {
    }
  }

  lemma TrendNamesAgree(a: Frame, b: Frame, price: string, cfg: FeatureConfig, lib: Library)
    ensures Names(TrendAssignments(a, price, cfg, lib)) == Names(TrendAssignments(b, price, cfg, lib))
  {
    var x, y := TrendAssignments(a, price, cfg, lib), TrendAssignments(b, price, cfg, lib);
    forall k | 0 <= k < |x|
      ensures x[k].0 == y[k].0
    {
    }
  }

  lemma NamesConcat(a: Assignments, b: Assignments)
    ensures Names(a + b) == Names(a) + Names(b)
  {
  }

  lemma MomentumNamesAgree(a: Frame, b: Frame, price: string, cfg: FeatureConfig, lib: Library)
    ensures Names(MomentumAssignments(a, price, cfg, lib)) == Names(MomentumAssignments(b, price, cfg, lib))
  {
    var ws := cfg.returnWindows;
    var rx, ry := Returns(Col(a.rows, price), ws), Returns(Col(b.rows, price), ws);
    var tx, ty := MomentumIndicators(a, price, cfg, lib), MomentumIndicators(b, price, cfg, lib);
    NamesConcat(rx, tx);
    NamesConcat(ry, ty);
    assert Names(rx) == Names(ry);
  }

  /** The labels after the flag step depend on the labels before it and the list only. */
  lemma {:induction false} MaskColumnsLabels(a: Frame, b: Frame, cols: seq<string>)
    requires a.columns == b.columns
    ensures MaskColumns(a, cols).columns == MaskColumns(b, cols).columns
    decreases |cols|
  {
    if |cols| > 0 {
      MaskColumnsLabels(a, b, cols[..|cols| - 1]);
    }
  }

  /** Two frames with the same labels get the same column list from the later steps. */
  lemma FinishedLabels(a: Frame, b: Frame, cols: seq<string>, price: string, cfg: FeatureConfig, lib: Library)
    requires a.columns == b.columns
    requires Finished(a, cols, price, cfg, lib).Ok? && Finished(b, cols, price, cfg, lib).Ok?
    ensures Finished(a, cols, price, cfg, lib).value.1 == Finished(b, cols, price, cfg, lib).value.1
    ensures Finished(a, cols, price, cfg, lib).value.0.columns == Finished(b, cols, price, cfg, lib).value.0.columns
  {
    MomentumNamesAgree(a, b, price, cfg, lib);
    var a4, b4 := MomentumFeatures(a, price, cfg, lib), MomentumFeatures(b, price, cfg, lib);
    AssignColumns(a, MomentumAssignments(a, price, cfg, lib));
    AssignColumns(b, MomentumAssignments(b, price, cfg, lib));
    TechnicalNamesAgree(a4, b4, lib);
    var a5, b5 := TechnicalFeatures(a4, lib).value, TechnicalFeatures(b4, lib).value;
    AssignColumns(a4, TechnicalAssignments(a4, lib));
    AssignColumns(b4, TechnicalAssignments(b4, lib));
    SeasonalityNamesAgree(a5, b5);
    var a6, b6 := SeasonalityFeatures(a5), SeasonalityFeatures(b5);
    AssignColumns(a5, SeasonalityAssignments(a5));
    AssignColumns(b5, SeasonalityAssignments(b5));
    var all := Finished(a, cols, price, cfg, lib).value.1;
    assert all == Finished(b, cols, price, cfg, lib).value.1;
    FlaggedLabels(a6, b6, all);
  }

  lemma FlaggedLabels(a: Frame, b: Frame, cols: seq<string>)
    requires a.columns == b.columns
    ensures FlaggedFrame(a, cols).columns == FlaggedFrame(b, cols).columns
  {
    MaskColumnsLabels(a, b, cols);
  }

  /** Every symbol reports the same column list and gets the same labels, so the list `build`
      keeps from the last symbol describes every symbol. */
  lemma SymbolColumnsAgree(a: Frame, b: Frame, price: string, cfg: FeatureConfig, lib: Library)
    requires a.columns == b.columns
    requires FeaturesForSymbol(a, price, cfg, lib).Ok? && FeaturesForSymbol(b, price, cfg, lib).Ok?
    ensures FeaturesForSymbol(a, price, cfg, lib).value.1 == FeaturesForSymbol(b, price, cfg, lib).value.1
    ensures FeaturesForSymbol(a, price, cfg, lib).value.0.columns == FeaturesForSymbol(b, price, cfg, lib).value.0.columns
  {
    var a0, b0 := ByTime(a), ByTime(b);
    TrendLabels(a0, b0, price, cfg, lib);
    var a1, b1 := TrendFeatures(a0, price, cfg, lib).value, TrendFeatures(b0, price, cfg, lib).value;
    VolatilityLabels(a1, b1, price, cfg, lib);
    var a2, b2 := VolatilityFeatures(a1, price, cfg, lib).value, VolatilityFeatures(b1, price, cfg, lib).value;
    VolumeLabels(a2, b2, price, cfg, lib);
    var a3, b3 := VolumeFeatures(a2, price, cfg, lib).value, VolumeFeatures(b2, price, cfg, lib).value;
    var cols := ["symbol"] + NewColumns(a0.columns, a1.columns) + NewColumns(a1.columns, a2.columns) +
      NewColumns(a2.columns, a3.columns);
    FinishedLabels(a3, b3, cols, price, cfg, lib);
  }

  /** Frames with the same labels get the same labels from the trend step. */
  lemma TrendLabels(a: Frame, b: Frame, price: string, cfg: FeatureConfig, lib: Library)
    requires a.columns == b.columns && cfg.slopeWindow >= 2
    ensures TrendFeatures(a, price, cfg, lib).value.columns == TrendFeatures(b, price, cfg, lib).value.columns
  {
    TrendNamesAgree(a, b, price, cfg, lib);
    AssignColumns(a, TrendAssignments(a, price, cfg, lib));
    AssignColumns(b, TrendAssignments(b, price, cfg, lib));
  }

  /** Frames with the same labels get the same labels from the volatility step. */
  lemma VolatilityLabels(a: Frame, b: Frame, price: string, cfg: FeatureConfig, lib: Library)
    requires a.columns == b.columns && cfg.stdevWindow >= 1
    ensures VolatilityFeatures(a, price, cfg, lib).value.columns == VolatilityFeatures(b, price, cfg, lib).value.columns
  {
    VolatilityNamesAgree(a, b, price, cfg, lib);
    AssignColumns(a, VolatilityAssignments(a, price, cfg, lib));
    AssignColumns(b, VolatilityAssignments(b, price, cfg, lib));
  }

  /** Frames with the same labels get the same labels from the volume step. */
  lemma VolumeLabels(a: Frame, b: Frame, price: string, cfg: FeatureConfig, lib: Library)
    requires a.columns == b.columns && cfg.volumeRatioWindow >= 1
    ensures VolumeFeatures(a, price, cfg, lib).value.columns == VolumeFeatures(b, price, cfg, lib).value.columns
  {
    VolumeNamesAgree(a, b, price, cfg, lib);
    AssignColumns(a, VolumeAssignments(a, price, cfg, lib));
    AssignColumns(b, VolumeAssignments(b, price, cfg, lib));
  }

  /** The column list `build` returns starts with "symbol" and is the list of every symbol. */
  lemma BuiltNewColumns(f: Frame, cfg: FeatureConfig, lib: Library)
    requires Built(f, cfg, lib).Ok? && Built(f, cfg, lib).value.Pair?
    ensures var cols := Built(f, cfg, lib).value.newColumns;
      |cols| >= 1 && cols[0] == "symbol" &&
      forall s :: s in Symbols(f.rows) ==>
        FeaturesForSymbol(SymbolFrame(f, s), PriceColumn(f), cfg, lib).Ok? &&
        cols == FeaturesForSymbol(SymbolFrame(f, s), PriceColumn(f), cfg, lib).value.1
  {
    var syms := Symbols(f.rows);
    var price := PriceColumn(f);
    var build := ForSymbol(price, cfg, lib);
    BuildSymbolsFacts(f, syms, build);
    assert f.rows[0].sym in syms;
    var last := syms[|syms| - 1];
    forall s | s in syms
      ensures FeaturesForSymbol(SymbolFrame(f, s), price, cfg, lib).Ok? &&
        Built(f, cfg, lib).value.newColumns == FeaturesForSymbol(SymbolFrame(f, s), price, cfg, lib).value.1
    {
      var k :| 0 <= k < |syms| && syms[k] == s;
      SymbolColumnsAgree(SymbolFrame(f, s), SymbolFrame(f, last), price, cfg, lib);
    }
  }
}

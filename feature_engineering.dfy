/** `AdvancedFeatureEngineer` and `FeatureSelector`: the configured lag, rolling, momentum,
    interaction, nonlinear and domain columns added to a feature table, and the choice of feature
    names by an exclusion list and a correlation filter. pandas' `rank(pct=True)` and rolling
    standard deviation, `np.log`, `np.sqrt`, and the correlations and variances of columns are
    parameters. */
module FeatureEngineering {
  import opened Wrappers
  import opened Text
  import opened Frames

  // ---------------------------------------------------------------------------------------------
  // Series within a symbol (`df.groupby("symbol")[c]`).

  /** The position of row i among the rows of its symbol: how many rows of that symbol precede it. */
  function Pos(rows: seq<Row>, i: nat): (k: nat)
    requires i < |rows|
    ensures k <= i
  {
    |RowsOf(rows[..i], rows[i].sym)|
  }

  lemma RowsOfSplit(rows: seq<Row>, n: nat, s: string)
    requires n <= |rows|
    ensures RowsOf(rows, s) == RowsOf(rows[..n], s) + RowsOf(rows[n..], s)
  {
    assert rows == rows[..n] + rows[n..];
    RowsOfAppend(rows[..n], rows[n..], s);
  }

  /** Row i is the `Pos(rows, i)`-th row of its symbol. */
  lemma PosIndexes(rows: seq<Row>, i: nat)
    requires i < |rows|
    ensures var g := RowsOf(rows, rows[i].sym); Pos(rows, i) < |g| && g[Pos(rows, i)] == rows[i]
  {
    var s := rows[i].sym;
    RowsOfSplit(rows, i, s);
    assert rows[i..] == [rows[i]] + rows[i + 1..];
    RowsOfAppend([rows[i]], rows[i + 1..], s);
    assert [rows[i]][..0] == [];
  }

  /** `df.groupby("symbol")[c].shift(lag)` at row i: the value `lag` rows earlier among the rows of
      its symbol, missing when there is none (a negative lag looks ahead). */
  function ShiftedAt(rows: seq<Row>, c: string, lag: int, i: nat): Cell
    requires i < |rows|
  {
    var g := RowsOf(rows, rows[i].sym);
    var k := Pos(rows, i) - lag;
    if 0 <= k < |g| then Get(g[k], c) else NaN
  }

  function Shifted(rows: seq<Row>, c: string, lag: int): (r: seq<Cell>)
    ensures |r| == |rows|
    ensures forall i :: 0 <= i < |rows| ==> r[i] == ShiftedAt(rows, c, lag, i)
  {
    seq(|rows|, i requires 0 <= i < |rows| => ShiftedAt(rows, c, lag, i))
  }

  /** The cells of column c in the trailing window of `w` rows of row i's symbol, ending at row i
      (`groupby("symbol")[c].rolling(window=w)`). */
  function WindowAt(rows: seq<Row>, c: string, w: int, i: nat): seq<Cell>
    requires i < |rows|
  {
    PosIndexes(rows, i);
    var g := RowsOf(rows, rows[i].sym);
    var k := Pos(rows, i);
    Col(g[WindowStart(k, w)..k + 1], c)
  }

  /** A rolling statistic within each symbol, with `min_periods=1` left to the statistic. */
  function Rolling(rows: seq<Row>, c: string, w: int, stat: seq<Cell> -> Cell): (r: seq<Cell>)
    ensures |r| == |rows|
    ensures forall i :: 0 <= i < |rows| ==> r[i] == stat(WindowAt(rows, c, w, i))
  {
    seq(|rows|, i requires 0 <= i < |rows| => stat(WindowAt(rows, c, w, i)))
  }

  /** `groupby("symbol")[c].transform(t)`: `t` maps the series of a symbol to a series aligned with
      it (padded with NaN when shorter), and row i takes the value at its position. */
  function GroupTransform(rows: seq<Row>, c: string, t: seq<Cell> -> seq<Cell>): (r: seq<Cell>)
    ensures |r| == |rows|
  {
    seq(|rows|, i requires 0 <= i < |rows| =>
      var g := RowsOf(rows, rows[i].sym);
      PosIndexes(rows, i);
      Fit(t(Col(g, c)), |g|)[Pos(rows, i)])
  }

  // ---------------------------------------------------------------------------------------------
  // The same series on a table sorted by (symbol, timestamp): the rows of a symbol are adjacent.

  lemma SymbolLeq(a: Row, b: Row)
    requires KeyLeq(SymTsKey(a), SymTsKey(b))
    ensures StrLeq(a.sym, b.sym)
  {
    if a.sym == b.sym {
      StrLeqTotal(a.sym, b.sym);
    }
  }

  /** A row between two rows of a symbol has that symbol. */
  lemma SortedBetween(rows: seq<Row>, j: nat, m: nat, i: nat)
    requires SortedBy(rows, SymTsKey) && j <= m <= i < |rows| && rows[j].sym == rows[i].sym
    ensures rows[m].sym == rows[i].sym
  {
    if j < m < i {
      SymbolLeq(rows[j], rows[m]);
      SymbolLeq(rows[m], rows[i]);
      StrLeqAntisymmetric(rows[m].sym, rows[i].sym);
    }
  }

  /** When row i - d has row i's symbol, it is d places earlier among the rows of that symbol. */
  lemma SortedGroupTail(rows: seq<Row>, i: nat, d: nat)
    requires SortedBy(rows, SymTsKey) && d <= i < |rows| && rows[i - d].sym == rows[i].sym
    ensures d <= Pos(rows, i) < |RowsOf(rows, rows[i].sym)|
    ensures RowsOf(rows, rows[i].sym)[Pos(rows, i) - d] == rows[i - d]
  {
    var s := rows[i].sym;
    var block := rows[i - d..i];
    forall m | 0 <= m < |block| ensures block[m].sym == s {
      SortedBetween(rows, i - d, i - d + m, i);
    }
    RowsOfAll(block, s);
    RowsOfSplit(rows[..i], i - d, s);
    assert rows[..i][..i - d] == rows[..i - d];
    assert rows[..i][i - d..] == block;
    assert Pos(rows, i) == Pos(rows, i - d) + d;
    PosIndexes(rows, i - d);
    PosIndexes(rows, i);
  }

  /** When row i - d has another symbol, fewer than d rows of row i's symbol precede row i. */
  lemma SortedGroupStart(rows: seq<Row>, i: nat, d: nat)
    requires SortedBy(rows, SymTsKey) && d <= i < |rows| && rows[i - d].sym != rows[i].sym
    ensures Pos(rows, i) < d
  {
    var s := rows[i].sym;
    var before := rows[..i - d + 1];
    forall m | 0 <= m < |before| ensures before[m].sym != s {
      if rows[m].sym == s {
        SortedBetween(rows, m, i - d, i);
      }
    }
    RowsOfNone(before, s);
    RowsOfSplit(rows[..i], i - d + 1, s);
    assert rows[..i][..i - d + 1] == before;
  }

  /** After sorting by (symbol, timestamp), the lag-`lag` value at row i is the value of row
      i - lag when that row has the same symbol, and missing otherwise. */
  lemma SortedShift(rows: seq<Row>, c: string, lag: nat, i: nat)
    requires SortedBy(rows, SymTsKey) && i < |rows|
    ensures ShiftedAt(rows, c, lag, i) ==
      if lag <= i && rows[i - lag].sym == rows[i].sym then Get(rows[i - lag], c) else NaN
  {
    if lag <= i {
      if rows[i - lag].sym == rows[i].sym {
        SortedGroupTail(rows, i, lag);
      } else {
        SortedGroupStart(rows, i, lag);
      }
    }
  }

  /** After sorting by (symbol, timestamp), the rolling window at row i is the last
      min(k + 1, w) rows of the table ending at row i, k being the number of earlier rows of the
      same symbol; all of them carry row i's symbol. */
  lemma SortedWindow(rows: seq<Row>, c: string, w: int, i: nat, d: nat)
    requires SortedBy(rows, SymTsKey) && i < |rows| && w >= 1
    ensures var win := WindowAt(rows, c, w, i);
      |win| == if Pos(rows, i) + 1 <= w then Pos(rows, i) + 1 else w
    ensures var win := WindowAt(rows, c, w, i);
      d < |win| ==> d <= i && rows[i - d].sym == rows[i].sym && win[|win| - 1 - d] == Get(rows[i - d], c)
  {
    var k := Pos(rows, i);
    PosIndexes(rows, i);
    var g := RowsOf(rows, rows[i].sym);
    var start := WindowStart(k, w);
    var win := WindowAt(rows, c, w, i);
    assert win == Col(g[start..k + 1], c);
    if d < |win| {
      assert d <= k;
      if rows[i - d].sym != rows[i].sym {
        SortedGroupStart(rows, i, d);
      }
      SortedGroupTail(rows, i, d);
      assert g[start..k + 1][|win| - 1 - d] == g[k - d];
    }
  }

  // ---------------------------------------------------------------------------------------------
  // Steps that add columns.

  /** `for x in xs: df = step(df, x)`, stopping at the first exception. */
  function FoldSteps<X>(f: Frame, xs: seq<X>, step: (Frame, X) -> Result<Frame>): Result<Frame>
  {
    if |xs| == 0 then Ok(f) else
      match FoldSteps(f, xs[..|xs| - 1], step)
      case Err(e) => Err(e)
      case Ok(g) => step(g, xs[|xs| - 1])
  }

  lemma FoldStepsNext<X>(f: Frame, xs: seq<X>, step: (Frame, X) -> Result<Frame>, k: nat)
    requires k < |xs| && FoldSteps(f, xs[..k], step).Ok?
    ensures FoldSteps(f, xs[..k + 1], step) == step(FoldSteps(f, xs[..k], step).value, xs[k])
  {
    assert xs[..k + 1][..k] == xs[..k];
  }

  /** Once a step raises, the loop raises that exception. */
  lemma {:induction false} FoldStepsErr<X>(f: Frame, xs: seq<X>, step: (Frame, X) -> Result<Frame>, k: nat)
    requires k <= |xs| && FoldSteps(f, xs[..k], step).Err?
    ensures FoldSteps(f, xs, step) == FoldSteps(f, xs[..k], step)
    decreases |xs|
  {
    if k < |xs| {
      assert xs[..|xs| - 1][..k] == xs[..k];
      FoldStepsErr(f, xs[..|xs| - 1], step, k);
    } else {
      assert xs[..k] == xs;
    }
  }

  /** The names `names(x)` of all the elements of `xs`, together. */
  function AllNames<X>(xs: seq<X>, names: X -> set<string>): set<string>
  {
    if |xs| == 0 then {} else AllNames(xs[..|xs| - 1], names) + names(xs[|xs| - 1])
  }

  lemma {:induction false} AllNamesMember<X>(xs: seq<X>, names: X -> set<string>, d: string)
    requires d in AllNames(xs, names)
    ensures exists k :: 0 <= k < |xs| && d in names(xs[k])
  {
    if d !in names(xs[|xs| - 1]) {
      AllNamesMember(xs[..|xs| - 1], names, d);
      var k :| 0 <= k < |xs| - 1 && d in names(xs[..|xs| - 1][k]);
      assert xs[..|xs| - 1][k] == xs[k];
    }
  }

  /** `g` is `f` with columns added or overwritten, all of them named in `names`: the same rows in
      the same order, every column of `f` kept, and every other cell as it was. */
  ghost predicate Extends(f: Frame, g: Frame, names: set<string>)
  {
    SameKeys(f.rows, g.rows) &&
    (forall d :: d in f.columns ==> d in g.columns) &&
    (forall d :: d in g.columns ==> d in f.columns || d in names) &&
    (forall i, d :: 0 <= i < |f.rows| && d !in names ==> Get(g.rows[i], d) == Get(f.rows[i], d))
  }

  lemma ExtendsSet(f: Frame, c: string, vals: seq<Cell>)
    requires |vals| == |f.rows|
    ensures Extends(f, SetColumn(f, c, vals), {c})
  {
  }

  lemma ExtendsTrans(f: Frame, g: Frame, h: Frame, a: set<string>, b: set<string>, c: set<string>)
    requires Extends(f, g, a) && Extends(g, h, b) && a + b <= c
    ensures Extends(f, h, c)
  {
  }

  /** A loop of steps each of which only adds the columns it names only adds the columns of all. */
  lemma {:induction false} FoldExtends<X>(f: Frame, xs: seq<X>, step: (Frame, X) -> Result<Frame>, names: X -> set<string>)
    requires forall g, x :: x in xs && step(g, x).Ok? ==> Extends(g, step(g, x).value, names(x))
    ensures FoldSteps(f, xs, step).Ok? ==> Extends(f, FoldSteps(f, xs, step).value, AllNames(xs, names))
  {
    if |xs| > 0 {
      var init := xs[..|xs| - 1];
      FoldExtends(f, init, step, names);
      var r := FoldSteps(f, init, step);
      if r.Ok? && step(r.value, xs[|xs| - 1]).Ok? {
        assert xs[|xs| - 1] in xs;
        ExtendsTrans(f, r.value, step(r.value, xs[|xs| - 1]).value, AllNames(init, names), names(xs[|xs| - 1]), AllNames(xs, names));
      }
    }
  }

  /** A loop of steps none of which raises does not raise. */
  lemma {:induction false} FoldOk<X>(f: Frame, xs: seq<X>, step: (Frame, X) -> Result<Frame>)
    requires forall g, x :: x in xs ==> step(g, x).Ok?
    ensures FoldSteps(f, xs, step).Ok?
  {
    if |xs| > 0 {
      FoldOk(f, xs[..|xs| - 1], step);
      assert xs[|xs| - 1] in xs;
    }
  }

  /** A loop that keeps a property of the table and never raises while it holds. */
  lemma {:induction false} FoldKeeps<X>(f: Frame, xs: seq<X>, step: (Frame, X) -> Result<Frame>, inv: Frame -> bool)
    requires inv(f)
    requires forall g, x :: x in xs && inv(g) ==> step(g, x).Ok? && inv(step(g, x).value)
    ensures FoldSteps(f, xs, step).Ok? && inv(FoldSteps(f, xs, step).value)
  {
    if |xs| > 0 {
      FoldKeeps(f, xs[..|xs| - 1], step, inv);
      assert xs[|xs| - 1] in xs;
    }
  }

  /** A loop whose every step leaves the table as it is. */
  lemma {:induction false} FoldIdentity<X>(f: Frame, xs: seq<X>, step: (Frame, X) -> Result<Frame>)
    requires forall x :: x in xs ==> step(f, x) == Ok(f)
    ensures FoldSteps(f, xs, step) == Ok(f)
  {
    if |xs| > 0 {
      FoldIdentity(f, xs[..|xs| - 1], step);
      assert xs[|xs| - 1] in xs;
    }
  }

  /** A loop that does not raise is its first k steps followed by the rest. */
  lemma {:induction false} FoldSplit<X>(f: Frame, xs: seq<X>, step: (Frame, X) -> Result<Frame>, k: nat)
    requires k <= |xs| && FoldSteps(f, xs, step).Ok?
    ensures FoldSteps(f, xs[..k], step).Ok?
    ensures FoldSteps(f, xs, step) == FoldSteps(FoldSteps(f, xs[..k], step).value, xs[k..], step)
    decreases |xs|
  {
    if k == |xs| {
      assert xs[..k] == xs;
      assert xs[k..] == [];
    } else {
      var init := xs[..|xs| - 1];
      FoldSplit(f, init, step, k);
      assert init[..k] == xs[..k];
      assert xs[k..][..|xs[k..]| - 1] == init[k..];
      assert xs[k..][|xs[k..]| - 1] == xs[|xs| - 1];
    }
  }

  /** In a loop whose steps only write the columns they name, column c ends up as step k left it
      when no later step names c. */
  lemma FoldLastWriter<X>(f: Frame, xs: seq<X>, step: (Frame, X) -> Result<Frame>, names: X -> set<string>, k: nat, c: string, i: nat)
    requires forall g, x :: x in xs && step(g, x).Ok? ==> Extends(g, step(g, x).value, names(x))
    requires k < |xs| && FoldSteps(f, xs, step).Ok?
    requires forall j :: k < j < |xs| ==> c !in names(xs[j])
    ensures FoldSteps(f, xs[..k + 1], step).Ok?
    ensures |FoldSteps(f, xs, step).value.rows| == |FoldSteps(f, xs[..k + 1], step).value.rows|
    ensures i < |FoldSteps(f, xs[..k + 1], step).value.rows| ==>
      Get(FoldSteps(f, xs, step).value.rows[i], c) == Get(FoldSteps(f, xs[..k + 1], step).value.rows[i], c)
  {
    FoldSplit(f, xs, step, k + 1);
    var g := FoldSteps(f, xs[..k + 1], step).value;
    var rest := xs[k + 1..];
    forall g2, x | x in rest && step(g2, x).Ok?
      ensures Extends(g2, step(g2, x).value, names(x))
    {
      assert x in xs;
    }
    FoldExtends(g, rest, step, names);
    if c in AllNames(rest, names) {
      AllNamesMember(rest, names, c);
      assert false;
    }
  }

  /** In such a loop, a column no step among the first k names keeps its cells, and its presence,
      through those steps. */
  lemma FoldUntouched<X>(f: Frame, xs: seq<X>, step: (Frame, X) -> Result<Frame>, names: X -> set<string>, k: nat, c: string)
    requires forall g, x :: x in xs && step(g, x).Ok? ==> Extends(g, step(g, x).value, names(x))
    requires k <= |xs| && FoldSteps(f, xs[..k], step).Ok?
    requires forall j :: 0 <= j < k ==> c !in names(xs[j])
    ensures var g := FoldSteps(f, xs[..k], step).value;
      |g.rows| == |f.rows| && (c in f.columns ==> c in g.columns) &&
      forall i :: 0 <= i < |f.rows| ==> Get(g.rows[i], c) == Get(f.rows[i], c)
  {
    var prefix := xs[..k];
    forall g2, x | x in prefix && step(g2, x).Ok?
      ensures Extends(g2, step(g2, x).value, names(x))
    {
      assert x in xs;
    }
    FoldExtends(f, prefix, step, names);
    if c in AllNames(prefix, names) {
      AllNamesMember(prefix, names, c);
      assert false;
    }
  }

  // ---------------------------------------------------------------------------------------------
  // `_add_lag_features`.

  /** `config["lag_features"]`; a missing key of it is `None`. */
  datatype LagConfig = LagConfig(
    features: Option<seq<string>>,
    periods: Option<seq<int>>,
    rollingStats: bool,
    rollingWindows: Option<seq<int>>,
    momentumFeatures: bool,
    momentumPeriods: Option<seq<int>>)

  const DefaultLagPeriods: seq<int> := [1, 2, 3, 5]
  const DefaultRollingWindows: seq<int> := [3, 5, 10]
  const DefaultMomentumPeriods: seq<int> := [2, 5, 10]

  /** pandas' rolling standard deviation of a window, and its rank, `log` and `sqrt` functions. */
  datatype Library = Library(
    std: seq<Cell> -> Cell,
    rank: seq<Cell> -> seq<Cell>,
    log: Cell -> Cell,
    sqrt: Cell -> Cell)

  function LagName(feature: string, lag: int): string { feature + "_lag_" + IntToString(lag) }
  function RollingMeanName(feature: string, w: int): string { feature + "_rolling_mean_" + IntToString(w) }
  function RollingStdName(feature: string, w: int): string { feature + "_rolling_std_" + IntToString(w) }
  function MomentumName(feature: string, p: int): string { feature + "_momentum_" + IntToString(p) }

  /** `df[f"{feature}_lag_{lag}"] = df.groupby("symbol")[feature].shift(lag)`. */
  function AddLag(g: Frame, feature: string, lag: int): Frame
  {
    SetColumn(g, LagName(feature, lag), Shifted(g.rows, feature, lag))
  }

  function LagOf(feature: string): (Frame, int) -> Result<Frame>
  {
    (g: Frame, lag: int) => Ok(AddLag(g, feature, lag))
  }

  /** The body of the first feature loop: a feature the table lacks is skipped. */
  function LagFeature(periods: seq<int>): (Frame, string) -> Result<Frame>
  {
    (g: Frame, feature: string) => if feature !in g.columns then Ok(g) else FoldSteps(g, periods, LagOf(feature))
  }

  /** The rolling mean and standard deviation over `w` rows of a feature. pandas refuses a window
      below `min_periods=1`. */
  function AddRolling(g: Frame, feature: string, w: int, lib: Library): Result<Frame>
  {
    if w < 0 then Err(ValueError("window must be an integer 0 or greater"))
    else if w == 0 then Err(ValueError("min_periods 1 must be <= window 0"))
    else
      var h := SetColumn(g, RollingMeanName(feature, w), Rolling(g.rows, feature, w, Mean));
      Ok(SetColumn(h, RollingStdName(feature, w), Rolling(h.rows, feature, w, lib.std)))
  }

  function RollingOf(feature: string, lib: Library): (Frame, int) -> Result<Frame>
  {
    (g: Frame, w: int) => AddRolling(g, feature, w, lib)
  }

  function RollingFeature(windows: seq<int>, lib: Library): (Frame, string) -> Result<Frame>
  {
    (g: Frame, feature: string) => if feature !in g.columns then Ok(g) else FoldSteps(g, windows, RollingOf(feature, lib))
  }

  /** `(df[feature] - lag) / (lag + 1e-8)` with `lag` the feature `p` rows earlier in the symbol. */
  function MomentumSeries(rows: seq<Row>, feature: string, p: int): (r: seq<Cell>)
    ensures |r| == |rows|
  {
    var lagged := Shifted(rows, feature, p);
    seq(|rows|, i requires 0 <= i < |rows| => Div(Sub(Get(rows[i], feature), lagged[i]), AddConst(lagged[i], 0.00000001)))
  }

  function MomentumOf(feature: string): (Frame, int) -> Result<Frame>
  {
    (g: Frame, p: int) => Ok(SetColumn(g, MomentumName(feature, p), MomentumSeries(g.rows, feature, p)))
  }

  function MomentumFeature(periods: seq<int>): (Frame, string) -> Result<Frame>
  {
    (g: Frame, feature: string) => if feature !in g.columns then Ok(g) else FoldSteps(g, periods, MomentumOf(feature))
  }

  /** `_add_lag_features`: sorts by (symbol, timestamp), which raises a KeyError naming the first
      of the two columns that is missing, then runs the lag loop, the rolling loop when
      `rolling_stats` is set and the momentum loop when `momentum_features` is set. */
  function LagFeatures(f: Frame, lc: LagConfig, lib: Library): Result<Frame>
  {
    if "symbol" !in f.columns then Err(KeyError("symbol"))
    else if "timestamp" !in f.columns then Err(KeyError("timestamp"))
    else
      var features := lc.features.GetOr([]);
      var sorted := Frame(f.columns, Sort(f.rows, SymTsKey));
      match FoldSteps(sorted, features, LagFeature(lc.periods.GetOr(DefaultLagPeriods)))
      case Err(e) => Err(e)
      case Ok(g) =>
        match (if lc.rollingStats then FoldSteps(g, features, RollingFeature(lc.rollingWindows.GetOr(DefaultRollingWindows), lib)) else Ok(g))
        case Err(e) => Err(e)
        case Ok(h) =>
          if lc.momentumFeatures then FoldSteps(h, features, MomentumFeature(lc.momentumPeriods.GetOr(DefaultMomentumPeriods)))
          else Ok(h)
  }

  /** The lag loop: for each feature the table has, one lag column per period. */
  method AddLags(df: Frame, features: seq<string>, periods: seq<int>) returns (g: Frame)
    ensures Ok(g) == FoldSteps(df, features, LagFeature(periods))
  {
    g := df;
    var k := 0;
    while k < |features|
      invariant 0 <= k <= |features|
      invariant Ok(g) == FoldSteps(df, features[..k], LagFeature(periods))
    {
      var feature := features[k];
      FoldStepsNext(df, features, LagFeature(periods), k);
      if feature in g.columns {
        var g0 := g;
        var j := 0;
        while j < |periods|
          invariant 0 <= j <= |periods|
          invariant Ok(g) == FoldSteps(g0, periods[..j], LagOf(feature))
        {
          FoldStepsNext(g0, periods, LagOf(feature), j);
          g := AddLag(g, feature, periods[j]);
          j := j + 1;
        }
        assert periods[..j] == periods;
      }
      k := k + 1;
    }
    assert features[..k] == features;
  }

  /** The rolling loop; a window below 1 raises before anything of it is assigned. */
  method AddRollingStats(df: Frame, features: seq<string>, windows: seq<int>, lib: Library) returns (r: Result<Frame>)
    ensures r == FoldSteps(df, features, RollingFeature(windows, lib))
  {
    var g := df;
    var k := 0;
    while k < |features|
      invariant 0 <= k <= |features|
      invariant Ok(g) == FoldSteps(df, features[..k], RollingFeature(windows, lib))
    {
      var feature := features[k];
      FoldStepsNext(df, features, RollingFeature(windows, lib), k);
      if feature in g.columns {
        var g0 := g;
        var j := 0;
        while j < |windows|
          invariant 0 <= j <= |windows|
          invariant Ok(g) == FoldSteps(g0, windows[..j], RollingOf(feature, lib))
        {
          FoldStepsNext(g0, windows, RollingOf(feature, lib), j);
          var w := windows[j];
          if w < 1 {
            r := AddRolling(g, feature, w, lib);
            FoldStepsErr(g0, windows, RollingOf(feature, lib), j + 1);
            FoldStepsErr(df, features, RollingFeature(windows, lib), k + 1);
            return;
          }
          g := SetColumn(g, RollingMeanName(feature, w), Rolling(g.rows, feature, w, Mean));
          g := SetColumn(g, RollingStdName(feature, w), Rolling(g.rows, feature, w, lib.std));
          j := j + 1;
        }
        assert windows[..j] == windows;
      }
      k := k + 1;
    }
    assert features[..k] == features;
    r := Ok(g);
  }

  /** The momentum loop. */
  method AddMomentum(df: Frame, features: seq<string>, periods: seq<int>) returns (g: Frame)
    ensures Ok(g) == FoldSteps(df, features, MomentumFeature(periods))
  {
    g := df;
    var k := 0;
    while k < |features|
      invariant 0 <= k <= |features|
      invariant Ok(g) == FoldSteps(df, features[..k], MomentumFeature(periods))
    {
      var feature := features[k];
      FoldStepsNext(df, features, MomentumFeature(periods), k);
      if feature in g.columns {
        var g0 := g;
        var j := 0;
        while j < |periods|
          invariant 0 <= j <= |periods|
          invariant Ok(g) == FoldSteps(g0, periods[..j], MomentumOf(feature))
        {
          FoldStepsNext(g0, periods, MomentumOf(feature), j);
          g := SetColumn(g, MomentumName(feature, periods[j]), MomentumSeries(g.rows, feature, periods[j]));
          j := j + 1;
        }
        assert periods[..j] == periods;
      }
      k := k + 1;
    }
    assert features[..k] == features;
  }

  /** `_add_lag_features`. */
  method AddLagFeatures(f: Frame, lc: LagConfig, lib: Library) returns (r: Result<Frame>)
    ensures r == LagFeatures(f, lc, lib)
  {
    if "symbol" !in f.columns {
      return Err(KeyError("symbol"));
    }
    if "timestamp" !in f.columns {
      return Err(KeyError("timestamp"));
    }
    var df := Frame(f.columns, Sort(f.rows, SymTsKey));
    var features := lc.features.GetOr([]);
    df := AddLags(df, features, lc.periods.GetOr(DefaultLagPeriods));
    if lc.rollingStats {
      r := AddRollingStats(df, features, lc.rollingWindows.GetOr(DefaultRollingWindows), lib);
      if r.Err? {
        return;
      }
      df := r.value;
    }
    if lc.momentumFeatures {
      df := AddMomentum(df, features, lc.momentumPeriods.GetOr(DefaultMomentumPeriods));
    }
    r := Ok(df);
  }

  // ---------------------------------------------------------------------------------------------
  // What the lag step computes.

  /** Rewriting cells keeps a table sorted by (symbol, timestamp). */
  lemma SortedSameKeys(a: seq<Row>, b: seq<Row>)
    requires SameKeys(a, b) && SortedBy(a, SymTsKey)
    ensures SortedBy(b, SymTsKey)
  {
    forall i, j | 0 <= i < j < |b|
      ensures KeyLeq(SymTsKey(b[i]), SymTsKey(b[j]))
    {
      assert SymTsKey(b[i]) == SymTsKey(a[i]) && SymTsKey(b[j]) == SymTsKey(a[j]);
    }
  }

  /** min(k + 1, w) for the k rows of row i's symbol before it: the length of its window. */
  function RunLength(rows: seq<Row>, w: int, i: nat): int
    requires i < |rows|
  {
    if Pos(rows, i) + 1 <= w then Pos(rows, i) + 1 else w
  }

  /** On a sorted table the window at row i holds min(k + 1, w) cells, and the row that many rows
      back from row i still has row i's symbol. */
  lemma WindowLength(rows: seq<Row>, c: string, w: int, i: nat)
    requires SortedBy(rows, SymTsKey) && i < |rows| && w >= 1
    ensures |WindowAt(rows, c, w, i)| == RunLength(rows, w, i)
    ensures 1 <= RunLength(rows, w, i) <= i + 1
    ensures rows[i + 1 - RunLength(rows, w, i)].sym == rows[i].sym
  {
    SortedWindow(rows, c, w, i, 0);
    SortedWindow(rows, c, w, i, RunLength(rows, w, i) - 1);
  }

  /** On a sorted table the rolling window at row i is the run of m rows of the table ending at
      row i, m being min(k + 1, w) for the k earlier rows of the symbol; all m rows have row i's
      symbol. */
  lemma WindowRows(rows: seq<Row>, c: string, w: int, i: nat)
    requires SortedBy(rows, SymTsKey) && i < |rows| && w >= 1
    ensures 1 <= RunLength(rows, w, i) <= i + 1
    ensures WindowAt(rows, c, w, i) == Col(rows[i + 1 - RunLength(rows, w, i)..i + 1], c)
    ensures forall d :: i + 1 - RunLength(rows, w, i) <= d <= i ==> rows[d].sym == rows[i].sym
  {
    WindowLength(rows, c, w, i);
    var m := RunLength(rows, w, i);
    forall d | i + 1 - m <= d <= i
      ensures rows[d].sym == rows[i].sym
    {
      SortedBetween(rows, i + 1 - m, d, i);
    }
    var win := WindowAt(rows, c, w, i);
    forall t | 0 <= t < m
      ensures win[t] == Col(rows[i + 1 - m..i + 1], c)[t]
    {
      SortedWindow(rows, c, w, i, m - 1 - t);
    }
  }

  /** After sorting, `f_lag_L` at row i holds f from L rows earlier when that row is of the same
      symbol, and is missing otherwise. */
  lemma LagColumn(g: Frame, feature: string, lag: nat, i: nat)
    requires SortedBy(g.rows, SymTsKey) && i < |g.rows|
    ensures Get(AddLag(g, feature, lag).rows[i], LagName(feature, lag)) ==
      if lag <= i && g.rows[i - lag].sym == g.rows[i].sym then Get(g.rows[i - lag], feature) else NaN
  {
    SortedShift(g.rows, feature, lag, i);
  }

  lemma RollingNamesDiffer(feature: string, w: int)
    ensures RollingMeanName(feature, w) != RollingStdName(feature, w)
    ensures feature != RollingMeanName(feature, w)
  {
    assert RollingMeanName(feature, w)[|feature| + 9] == 'm';
    assert RollingStdName(feature, w)[|feature| + 9] == 's';
  }

  /** The rolling window of a column depends only on the keys and on that column. */
  lemma WindowSameColumn(a: seq<Row>, b: seq<Row>, c: string, w: int, i: nat)
    requires SameKeys(a, b) && SortedBy(a, SymTsKey) && i < |a| && w >= 1
    requires forall d :: 0 <= d < |a| ==> Get(a[d], c) == Get(b[d], c)
    ensures WindowAt(b, c, w, i) == WindowAt(a, c, w, i)
  {
    SortedSameKeys(a, b);
    assert SameKeys(a[..i], b[..i]);
    SameKeysCount(a[..i], b[..i], a[i].sym);
    assert RunLength(a, w, i) == RunLength(b, w, i);
    var m := RunLength(a, w, i);
    WindowRows(a, c, w, i);
    WindowRows(b, c, w, i);
    assert Col(b[i + 1 - m..i + 1], c) == Col(a[i + 1 - m..i + 1], c);
  }

  /** After sorting, a window of at least one row never raises, and row i's rolling mean is the
      mean of the feature over the last min(k + 1, w) rows of the table up to and including row i,
      which `WindowRows` shows are all rows of its symbol. */
  lemma RollingMeanColumn(g: Frame, feature: string, w: int, lib: Library, i: nat)
    requires SortedBy(g.rows, SymTsKey) && i < |g.rows| && w >= 1
    ensures AddRolling(g, feature, w, lib).Ok?
    ensures var m := RunLength(g.rows, w, i);
      Get(AddRolling(g, feature, w, lib).value.rows[i], RollingMeanName(feature, w)) == Mean(Col(g.rows[i + 1 - m..i + 1], feature))
  {
    WindowRows(g.rows, feature, w, i);
    RollingMeanValue(g, feature, w, lib, i);
  }

  /** The same for the rolling standard deviation. */
  lemma RollingStdColumn(g: Frame, feature: string, w: int, lib: Library, i: nat)
    requires SortedBy(g.rows, SymTsKey) && i < |g.rows| && w >= 1
    ensures var m := RunLength(g.rows, w, i);
      Get(AddRolling(g, feature, w, lib).value.rows[i], RollingStdName(feature, w)) == lib.std(Col(g.rows[i + 1 - m..i + 1], feature))
  {
    WindowRows(g.rows, feature, w, i);
    RollingStdValue(g, feature, w, lib, i);
  }

  lemma RollingMeanValue(g: Frame, feature: string, w: int, lib: Library, i: nat)
    requires SortedBy(g.rows, SymTsKey) && i < |g.rows| && w >= 1
    ensures Get(AddRolling(g, feature, w, lib).value.rows[i], RollingMeanName(feature, w)) == Mean(WindowAt(g.rows, feature, w, i))
  {
    RollingNamesDiffer(feature, w);
  }

  lemma RollingStdValue(g: Frame, feature: string, w: int, lib: Library, i: nat)
    requires SortedBy(g.rows, SymTsKey) && i < |g.rows| && w >= 1
    ensures Get(AddRolling(g, feature, w, lib).value.rows[i], RollingStdName(feature, w)) == lib.std(WindowAt(g.rows, feature, w, i))
  {
    RollingNamesDiffer(feature, w);
    var h1 := SetColumn(g, RollingMeanName(feature, w), Rolling(g.rows, feature, w, Mean));
    WindowSameColumn(g.rows, h1.rows, feature, w, i);
  }

  /** After sorting, `f_momentum_p` at row i is (f - l) / (l + 1e-8) for l the value p rows
      earlier in the same symbol (missing when there is none). */
  lemma MomentumColumn(g: Frame, feature: string, p: nat, i: nat)
    requires SortedBy(g.rows, SymTsKey) && i < |g.rows|
    ensures var l := if p <= i && g.rows[i - p].sym == g.rows[i].sym then Get(g.rows[i - p], feature) else NaN;
      Get(MomentumOf(feature)(g, p).value.rows[i], MomentumName(feature, p)) ==
        Div(Sub(Get(g.rows[i], feature), l), AddConst(l, 0.00000001))
  {
    SortedShift(g.rows, feature, p, i);
  }

  // ---------------------------------------------------------------------------------------------
  // The columns the lag step adds.

  function LagNameSet(feature: string): int -> set<string>
  {
    (lag: int) => {LagName(feature, lag)}
  }

  function LagNamesOf(periods: seq<int>): string -> set<string>
  {
    (feature: string) => AllNames(periods, LagNameSet(feature))
  }

  function RollingNameSet(feature: string): int -> set<string>
  {
    (w: int) => {RollingMeanName(feature, w), RollingStdName(feature, w)}
  }

  function RollingNamesOf(windows: seq<int>): string -> set<string>
  {
    (feature: string) => AllNames(windows, RollingNameSet(feature))
  }

  function MomentumNameSet(feature: string): int -> set<string>
  {
    (p: int) => {MomentumName(feature, p)}
  }

  function MomentumNamesOf(periods: seq<int>): string -> set<string>
  {
    (feature: string) => AllNames(periods, MomentumNameSet(feature))
  }

  /** Every column `_add_lag_features` may add under a configuration. */
  function LagNames(lc: LagConfig): set<string>
  {
    var features := lc.features.GetOr([]);
    AllNames(features, LagNamesOf(lc.periods.GetOr(DefaultLagPeriods)))
    + (if lc.rollingStats then AllNames(features, RollingNamesOf(lc.rollingWindows.GetOr(DefaultRollingWindows))) else {})
    + (if lc.momentumFeatures then AllNames(features, MomentumNamesOf(lc.momentumPeriods.GetOr(DefaultMomentumPeriods))) else {})
  }

  lemma LagLoopExtends(g: Frame, features: seq<string>, periods: seq<int>)
    ensures FoldSteps(g, features, LagFeature(periods)).Ok?
    ensures Extends(g, FoldSteps(g, features, LagFeature(periods)).value, AllNames(features, LagNamesOf(periods)))
  {
    forall h: Frame, x: string | x in features
      ensures LagFeature(periods)(h, x).Ok?
      ensures Extends(h, LagFeature(periods)(h, x).value, LagNamesOf(periods)(x))
    {
      if x in h.columns {
        forall h2: Frame, lag: int | lag in periods
          ensures LagOf(x)(h2, lag).Ok?
          ensures Extends(h2, LagOf(x)(h2, lag).value, LagNameSet(x)(lag))
        {
          ExtendsSet(h2, LagName(x, lag), Shifted(h2.rows, x, lag));
        }
        FoldOk(h, periods, LagOf(x));
        FoldExtends(h, periods, LagOf(x), LagNameSet(x));
      }
    }
    FoldOk(g, features, LagFeature(periods));
    FoldExtends(g, features, LagFeature(periods), LagNamesOf(periods));
  }

  lemma RollingExtends(g: Frame, feature: string, w: int, lib: Library)
    requires AddRolling(g, feature, w, lib).Ok?
    ensures Extends(g, AddRolling(g, feature, w, lib).value, RollingNameSet(feature)(w))
  {
    var h := SetColumn(g, RollingMeanName(feature, w), Rolling(g.rows, feature, w, Mean));
    ExtendsSet(g, RollingMeanName(feature, w), Rolling(g.rows, feature, w, Mean));
    ExtendsSet(h, RollingStdName(feature, w), Rolling(h.rows, feature, w, lib.std));
    ExtendsTrans(g, h, AddRolling(g, feature, w, lib).value,
      {RollingMeanName(feature, w)}, {RollingStdName(feature, w)}, RollingNameSet(feature)(w));
  }

  /** The rolling loop raises only for a window below 1 of a feature the table has. */
  lemma RollingLoopExtends(g: Frame, features: seq<string>, windows: seq<int>, lib: Library)
    ensures (forall w :: w in windows ==> w >= 1) ==> FoldSteps(g, features, RollingFeature(windows, lib)).Ok?
    ensures FoldSteps(g, features, RollingFeature(windows, lib)).Ok? ==>
      Extends(g, FoldSteps(g, features, RollingFeature(windows, lib)).value, AllNames(features, RollingNamesOf(windows)))
  {
    forall h: Frame, x: string | x in features && RollingFeature(windows, lib)(h, x).Ok?
      ensures Extends(h, RollingFeature(windows, lib)(h, x).value, RollingNamesOf(windows)(x))
    {
      if x in h.columns {
        forall h2: Frame, w: int | w in windows && RollingOf(x, lib)(h2, w).Ok?
          ensures Extends(h2, RollingOf(x, lib)(h2, w).value, RollingNameSet(x)(w))
        {
          RollingExtends(h2, x, w, lib);
        }
        FoldExtends(h, windows, RollingOf(x, lib), RollingNameSet(x));
      }
    }
    FoldExtends(g, features, RollingFeature(windows, lib), RollingNamesOf(windows));
    if forall w :: w in windows ==> w >= 1 {
      forall h: Frame, x: string | x in features
        ensures RollingFeature(windows, lib)(h, x).Ok?
      {
        if x in h.columns {
          FoldOk(h, windows, RollingOf(x, lib));
        }
      }
      FoldOk(g, features, RollingFeature(windows, lib));
    }
  }

  lemma MomentumLoopExtends(g: Frame, features: seq<string>, periods: seq<int>)
    ensures FoldSteps(g, features, MomentumFeature(periods)).Ok?
    ensures Extends(g, FoldSteps(g, features, MomentumFeature(periods)).value, AllNames(features, MomentumNamesOf(periods)))
  {
    forall h: Frame, x: string | x in features
      ensures MomentumFeature(periods)(h, x).Ok?
      ensures Extends(h, MomentumFeature(periods)(h, x).value, MomentumNamesOf(periods)(x))
    {
      if x in h.columns {
        forall h2: Frame, p: int | p in periods
          ensures MomentumOf(x)(h2, p).Ok?
          ensures Extends(h2, MomentumOf(x)(h2, p).value, MomentumNameSet(x)(p))
        {
          ExtendsSet(h2, MomentumName(x, p), MomentumSeries(h2.rows, x, p));
        }
        FoldOk(h, periods, MomentumOf(x));
        FoldExtends(h, periods, MomentumOf(x), MomentumNameSet(x));
      }
    }
    FoldOk(g, features, MomentumFeature(periods));
    FoldExtends(g, features, MomentumFeature(periods), MomentumNamesOf(periods));
  }

  /** `_add_lag_features` raises exactly when the table lacks "symbol" or "timestamp" (in that
      order) or a rolling window below 1 meets a feature the table has; otherwise its result is
      the input sorted by (symbol, timestamp) with only the configured columns added: every row
      kept, in sorted order. */
  lemma LagFeaturesOutcome(f: Frame, lc: LagConfig, lib: Library)
    ensures "symbol" !in f.columns ==> LagFeatures(f, lc, lib) == Err(KeyError("symbol"))
    ensures "symbol" in f.columns && "timestamp" !in f.columns ==> LagFeatures(f, lc, lib) == Err(KeyError("timestamp"))
    ensures ("symbol" in f.columns && "timestamp" in f.columns &&
             (!lc.rollingStats || forall w :: w in lc.rollingWindows.GetOr(DefaultRollingWindows) ==> w >= 1)) ==>
      LagFeatures(f, lc, lib).Ok?
    ensures LagFeatures(f, lc, lib).Ok? ==>
      var sorted := Frame(f.columns, Sort(f.rows, SymTsKey));
      var g := LagFeatures(f, lc, lib).value;
      Extends(sorted, g, LagNames(lc)) && SortedBy(g.rows, SymTsKey) && multiset(sorted.rows) == multiset(f.rows)
  {
    if "symbol" in f.columns && "timestamp" in f.columns {
      var features := lc.features.GetOr([]);
      var sorted := Frame(f.columns, Sort(f.rows, SymTsKey));
      SortSorted(f.rows, SymTsKey);
      LagLoopExtends(sorted, features, lc.periods.GetOr(DefaultLagPeriods));
      var g := FoldSteps(sorted, features, LagFeature(lc.periods.GetOr(DefaultLagPeriods))).value;
      var a := AllNames(features, LagNamesOf(lc.periods.GetOr(DefaultLagPeriods)));
      var b := if lc.rollingStats then AllNames(features, RollingNamesOf(lc.rollingWindows.GetOr(DefaultRollingWindows))) else {};
      var c := if lc.momentumFeatures then AllNames(features, MomentumNamesOf(lc.momentumPeriods.GetOr(DefaultMomentumPeriods))) else {};
      var r := if lc.rollingStats then FoldSteps(g, features, RollingFeature(lc.rollingWindows.GetOr(DefaultRollingWindows), lib)) else Ok(g);
      RollingLoopExtends(g, features, lc.rollingWindows.GetOr(DefaultRollingWindows), lib);
      if r.Ok? {
        assert Extends(g, r.value, b);
        ExtendsTrans(sorted, g, r.value, a, b, a + b);
        var h := r.value;
        MomentumLoopExtends(h, features, lc.momentumPeriods.GetOr(DefaultMomentumPeriods));
        var out := if lc.momentumFeatures then FoldSteps(h, features, MomentumFeature(lc.momentumPeriods.GetOr(DefaultMomentumPeriods))).value else h;
        assert Extends(h, out, c);
        ExtendsTrans(sorted, h, out, a + b, c, LagNames(lc));
        assert LagFeatures(f, lc, lib) == Ok(out);
        SortedSameKeys(sorted.rows, out.rows);
      }
    }
  }

  // ---------------------------------------------------------------------------------------------
  // `_add_interaction_features`.

  function ProductName(a: string, b: string): string { a + "_x_" + b }
  function RatioName(a: string, b: string): string { a + "_div_" + b }

  /** One entry of `interaction_features`: skipped unless it names exactly two columns the table
      has; otherwise the product is assigned first and the ratio `a / (b + 1e-8)` second. */
  function AddInteraction(g: Frame, pair: seq<string>): Frame
  {
    if |pair| != 2 || pair[0] !in g.columns || pair[1] !in g.columns then g
    else
      var a := pair[0];
      var b := pair[1];
      var h := SetColumn(g, ProductName(a, b), MulSeries(Col(g.rows, a), Col(g.rows, b)));
      SetColumn(h, RatioName(a, b), seq(|h.rows|, i requires 0 <= i < |h.rows| =>
        Div(Get(h.rows[i], a), AddConst(Get(h.rows[i], b), 0.00000001))))
  }

  function InteractionOf(): (Frame, seq<string>) -> Result<Frame>
  {
    (g: Frame, pair: seq<string>) => Ok(AddInteraction(g, pair))
  }

  function InteractionSet(pair: seq<string>): set<string>
  {
    if |pair| == 2 then {ProductName(pair[0], pair[1]), RatioName(pair[0], pair[1])} else {}
  }

  lemma InteractionNamesDiffer(a: string, b: string)
    ensures ProductName(a, b) != RatioName(a, b)
    ensures a != ProductName(a, b) && b != ProductName(a, b)
    ensures a != RatioName(a, b) && b != RatioName(a, b)
  {
    assert ProductName(a, b)[|a| + 1] == 'x';
    assert RatioName(a, b)[|a| + 1] == 'd';
  }

  /** A pair of two present columns yields `a_x_b` = a * b and `a_div_b` = a / (b + 1e-8) on
      every row and changes nothing else; any other entry leaves the table as it is. */
  lemma InteractionColumns(g: Frame, pair: seq<string>)
    ensures Extends(g, AddInteraction(g, pair), InteractionSet(pair))
    ensures |pair| != 2 || pair[0] !in g.columns || pair[1] !in g.columns ==> AddInteraction(g, pair) == g
    ensures |pair| == 2 && pair[0] in g.columns && pair[1] in g.columns ==>
      var h := AddInteraction(g, pair);
      var a := pair[0];
      var b := pair[1];
      forall i :: 0 <= i < |g.rows| ==>
        Get(h.rows[i], ProductName(a, b)) == Mul(Get(g.rows[i], a), Get(g.rows[i], b)) &&
        Get(h.rows[i], RatioName(a, b)) == Div(Get(g.rows[i], a), AddConst(Get(g.rows[i], b), 0.00000001))
  {
    if |pair| == 2 && pair[0] in g.columns && pair[1] in g.columns {
      var a := pair[0];
      var b := pair[1];
      InteractionNamesDiffer(a, b);
      var h := SetColumn(g, ProductName(a, b), MulSeries(Col(g.rows, a), Col(g.rows, b)));
      var vals := seq(|h.rows|, i requires 0 <= i < |h.rows| => Div(Get(h.rows[i], a), AddConst(Get(h.rows[i], b), 0.00000001)));
      ExtendsSet(g, ProductName(a, b), MulSeries(Col(g.rows, a), Col(g.rows, b)));
      ExtendsSet(h, RatioName(a, b), vals);
      ExtendsTrans(g, h, AddInteraction(g, pair), {ProductName(a, b)}, {RatioName(a, b)}, InteractionSet(pair));
    }
  }

  /** `_add_interaction_features`: the pairs in order. */
  method AddInteractions(df: Frame, pairs: seq<seq<string>>) returns (g: Frame)
    ensures Ok(g) == FoldSteps(df, pairs, InteractionOf())
  {
    g := df;
    var k := 0;
    while k < |pairs|
      invariant 0 <= k <= |pairs|
      invariant Ok(g) == FoldSteps(df, pairs[..k], InteractionOf())
    {
      FoldStepsNext(df, pairs, InteractionOf(), k);
      var pair := pairs[k];
      if |pair| == 2 && pair[0] in g.columns && pair[1] in g.columns {
        var a, b := pair[0], pair[1];
        g := SetColumn(g, ProductName(a, b), MulSeries(Col(g.rows, a), Col(g.rows, b)));
        g := SetColumn(g, RatioName(a, b), seq(|g.rows|, i requires 0 <= i < |g.rows| =>
          Div(Get(g.rows[i], a), AddConst(Get(g.rows[i], b), 0.00000001))));
      }
      k := k + 1;
    }
    assert pairs[..k] == pairs;
  }

  // ---------------------------------------------------------------------------------------------
  // `_add_nonlinear_transforms`.

  /** `config["nonlinear_transforms"]`: the feature lists under "log_features", "sqrt_features"
      and "rank_features", each absent or present. */
  datatype NonlinearConfig = NonlinearConfig(
    logFeatures: Option<seq<string>>,
    sqrtFeatures: Option<seq<string>>,
    rankFeatures: Option<seq<string>>)

  function LogName(feature: string): string { feature + "_log" }
  function SqrtName(feature: string): string { feature + "_sqrt" }
  function RankName(feature: string): string { feature + "_rank" }

  /** `np.abs` of a cell. */
  function Abs(c: Cell): (r: Cell)
    ensures r.Num? <==> c.Num?
    ensures r.Num? ==> r.v >= 0.0 && (r.v == c.v || r.v == -c.v)
  {
    if c.Num? then Num(if c.v < 0.0 then -c.v else c.v) else NaN
  }

  /** `np.log(np.abs(df[feature] + 1e-8))`. */
  function LogSeries(rows: seq<Row>, feature: string, lib: Library): (r: seq<Cell>)
    ensures |r| == |rows|
  {
    seq(|rows|, i requires 0 <= i < |rows| => lib.log(Abs(AddConst(Get(rows[i], feature), 0.00000001))))
  }

  /** `np.sqrt(np.abs(df[feature]))`. */
  function SqrtSeries(rows: seq<Row>, feature: string, lib: Library): (r: seq<Cell>)
    ensures |r| == |rows|
  {
    seq(|rows|, i requires 0 <= i < |rows| => lib.sqrt(Abs(Get(rows[i], feature))))
  }

  function LogOf(lib: Library): (Frame, string) -> Result<Frame>
  {
    (g: Frame, feature: string) =>
      if feature !in g.columns then Ok(g) else Ok(SetColumn(g, LogName(feature), LogSeries(g.rows, feature, lib)))
  }

  function SqrtOf(lib: Library): (Frame, string) -> Result<Frame>
  {
    (g: Frame, feature: string) =>
      if feature !in g.columns then Ok(g) else Ok(SetColumn(g, SqrtName(feature), SqrtSeries(g.rows, feature, lib)))
  }

  /** `df.groupby("symbol")[feature].rank(pct=True)`; grouping by a missing "symbol" raises. */
  function RankOf(lib: Library): (Frame, string) -> Result<Frame>
  {
    (g: Frame, feature: string) =>
      if feature !in g.columns then Ok(g)
      else if "symbol" !in g.columns then Err(KeyError("symbol"))
      else Ok(SetColumn(g, RankName(feature), GroupTransform(g.rows, feature, lib.rank)))
  }

  /** The log loop, then the sqrt loop, then the rank loop, each only when its key is present. */
  function Nonlinear(f: Frame, nc: NonlinearConfig, lib: Library): Result<Frame>
  {
    var g := if nc.logFeatures.Some? then FoldSteps(f, nc.logFeatures.value, LogOf(lib)) else Ok(f);
    if g.Err? then g else
      var h := if nc.sqrtFeatures.Some? then FoldSteps(g.value, nc.sqrtFeatures.value, SqrtOf(lib)) else g;
      if h.Err? then h else
        if nc.rankFeatures.Some? then FoldSteps(h.value, nc.rankFeatures.value, RankOf(lib)) else h
  }

  /** The per-symbol transform of row i is the transform of that row within its symbol's own
      table: `groupby("symbol")` sees no other symbol's rows. */
  lemma GroupTransformOwnSymbol(rows: seq<Row>, c: string, t: seq<Cell> -> seq<Cell>, i: nat)
    requires i < |rows|
    ensures var own := RowsOf(rows, rows[i].sym);
      Pos(rows, i) < |own| && GroupTransform(rows, c, t)[i] == GroupTransform(own, c, t)[Pos(rows, i)]
  {
    var s := rows[i].sym;
    var own := RowsOf(rows, s);
    var k := Pos(rows, i);
    PosIndexes(rows, i);
    RowsOfAll(own, s);
    PosIndexes(own, k);
    RowsOfAll(own[..k], s);
  }

  lemma NonlinearStepExtends(g: Frame, feature: string, lib: Library)
    ensures Extends(g, LogOf(lib)(g, feature).value, {LogName(feature)})
    ensures Extends(g, SqrtOf(lib)(g, feature).value, {SqrtName(feature)})
    ensures RankOf(lib)(g, feature).Ok? ==> Extends(g, RankOf(lib)(g, feature).value, {RankName(feature)})
  {
    if feature in g.columns {
      ExtendsSet(g, LogName(feature), LogSeries(g.rows, feature, lib));
      ExtendsSet(g, SqrtName(feature), SqrtSeries(g.rows, feature, lib));
      if "symbol" in g.columns {
        ExtendsSet(g, RankName(feature), GroupTransform(g.rows, feature, lib.rank));
      }
    }
  }

  function LogNameSet(): string -> set<string> { (feature: string) => {LogName(feature)} }
  function SqrtNameSet(): string -> set<string> { (feature: string) => {SqrtName(feature)} }
  function RankNameSet(): string -> set<string> { (feature: string) => {RankName(feature)} }

  /** Every column the nonlinear step may add. */
  function NonlinearNames(nc: NonlinearConfig): set<string>
  {
    (if nc.logFeatures.Some? then AllNames(nc.logFeatures.value, LogNameSet()) else {}) +
    (if nc.sqrtFeatures.Some? then AllNames(nc.sqrtFeatures.value, SqrtNameSet()) else {}) +
    (if nc.rankFeatures.Some? then AllNames(nc.rankFeatures.value, RankNameSet()) else {})
  }

  /** The log and sqrt loops never raise and only add their columns. */
  lemma LogSqrtOutcome(f: Frame, nc: NonlinearConfig, lib: Library)
    ensures var g := if nc.logFeatures.Some? then FoldSteps(f, nc.logFeatures.value, LogOf(lib)) else Ok(f);
      g.Ok? &&
      var h := if nc.sqrtFeatures.Some? then FoldSteps(g.value, nc.sqrtFeatures.value, SqrtOf(lib)) else g;
      h.Ok? &&
      Extends(f, h.value, (if nc.logFeatures.Some? then AllNames(nc.logFeatures.value, LogNameSet()) else {}) +
                          (if nc.sqrtFeatures.Some? then AllNames(nc.sqrtFeatures.value, SqrtNameSet()) else {}))
  {
    forall h: Frame, x: string
      ensures LogOf(lib)(h, x).Ok? && SqrtOf(lib)(h, x).Ok?
      ensures Extends(h, LogOf(lib)(h, x).value, LogNameSet()(x))
      ensures Extends(h, SqrtOf(lib)(h, x).value, SqrtNameSet()(x))
    {
      NonlinearStepExtends(h, x, lib);
    }
    var a := if nc.logFeatures.Some? then AllNames(nc.logFeatures.value, LogNameSet()) else {};
    var b := if nc.sqrtFeatures.Some? then AllNames(nc.sqrtFeatures.value, SqrtNameSet()) else {};
    var g := if nc.logFeatures.Some? then FoldSteps(f, nc.logFeatures.value, LogOf(lib)) else Ok(f);
    if nc.logFeatures.Some? {
      FoldOk(f, nc.logFeatures.value, LogOf(lib));
      FoldExtends(f, nc.logFeatures.value, LogOf(lib), LogNameSet());
    }
    var h := if nc.sqrtFeatures.Some? then FoldSteps(g.value, nc.sqrtFeatures.value, SqrtOf(lib)) else g;
    if nc.sqrtFeatures.Some? {
      FoldOk(g.value, nc.sqrtFeatures.value, SqrtOf(lib));
      FoldExtends(g.value, nc.sqrtFeatures.value, SqrtOf(lib), SqrtNameSet());
    }
    ExtendsTrans(f, g.value, h.value, a, b, a + b);
  }

  /** The nonlinear step only adds `<f>_log`, `<f>_sqrt` and `<f>_rank` columns, and it raises only
      when a rank feature is present while "symbol" is not. */
  lemma NonlinearOutcome(f: Frame, nc: NonlinearConfig, lib: Library)
    ensures ("symbol" in f.columns || nc.rankFeatures.None?) ==> Nonlinear(f, nc, lib).Ok?
    ensures Nonlinear(f, nc, lib).Ok? ==> Extends(f, Nonlinear(f, nc, lib).value, NonlinearNames(nc))
  {
    LogSqrtOutcome(f, nc, lib);
    var a := if nc.logFeatures.Some? then AllNames(nc.logFeatures.value, LogNameSet()) else {};
    var b := if nc.sqrtFeatures.Some? then AllNames(nc.sqrtFeatures.value, SqrtNameSet()) else {};
    var c := if nc.rankFeatures.Some? then AllNames(nc.rankFeatures.value, RankNameSet()) else {};
    var g := if nc.logFeatures.Some? then FoldSteps(f, nc.logFeatures.value, LogOf(lib)) else Ok(f);
    var h := if nc.sqrtFeatures.Some? then FoldSteps(g.value, nc.sqrtFeatures.value, SqrtOf(lib)) else g;
    if nc.rankFeatures.Some? {
      forall h2: Frame, x: string
        ensures RankOf(lib)(h2, x).Ok? ==> Extends(h2, RankOf(lib)(h2, x).value, RankNameSet()(x))
      {
        NonlinearStepExtends(h2, x, lib);
      }
      FoldExtends(h.value, nc.rankFeatures.value, RankOf(lib), RankNameSet());
      if "symbol" in f.columns {
        RankFoldOk(h.value, nc.rankFeatures.value, lib);
      }
      var r := FoldSteps(h.value, nc.rankFeatures.value, RankOf(lib));
      if r.Ok? {
        ExtendsTrans(f, h.value, r.value, a + b, c, NonlinearNames(nc));
      }
    }
  }

  /** The rank loop does not raise on a table with "symbol" (the columns it adds keep it). */
  lemma {:induction false} RankFoldOk(g: Frame, features: seq<string>, lib: Library)
    requires "symbol" in g.columns
    ensures FoldSteps(g, features, RankOf(lib)).Ok?
    ensures "symbol" in FoldSteps(g, features, RankOf(lib)).value.columns
  {
    if |features| > 0 {
      RankFoldOk(g, features[..|features| - 1], lib);
    }
  }

  /** The log loop. */
  method AddLogs(df: Frame, features: seq<string>, lib: Library) returns (g: Frame)
    ensures Ok(g) == FoldSteps(df, features, LogOf(lib))
  {
    g := df;
    var k := 0;
    while k < |features|
      invariant 0 <= k <= |features|
      invariant Ok(g) == FoldSteps(df, features[..k], LogOf(lib))
    {
      FoldStepsNext(df, features, LogOf(lib), k);
      if features[k] in g.columns {
        g := SetColumn(g, LogName(features[k]), LogSeries(g.rows, features[k], lib));
      }
      k := k + 1;
    }
    assert features[..k] == features;
  }

  /** The sqrt loop. */
  method AddSqrts(df: Frame, features: seq<string>, lib: Library) returns (g: Frame)
    ensures Ok(g) == FoldSteps(df, features, SqrtOf(lib))
  {
    g := df;
    var k := 0;
    while k < |features|
      invariant 0 <= k <= |features|
      invariant Ok(g) == FoldSteps(df, features[..k], SqrtOf(lib))
    {
      FoldStepsNext(df, features, SqrtOf(lib), k);
      if features[k] in g.columns {
        g := SetColumn(g, SqrtName(features[k]), SqrtSeries(g.rows, features[k], lib));
      }
      k := k + 1;
    }
    assert features[..k] == features;
  }

  /** The rank loop, which raises at the first present feature when "symbol" is missing. */
  method AddRanks(df: Frame, features: seq<string>, lib: Library) returns (r: Result<Frame>)
    ensures r == FoldSteps(df, features, RankOf(lib))
  {
    var g := df;
    var k := 0;
    while k < |features|
      invariant 0 <= k <= |features|
      invariant Ok(g) == FoldSteps(df, features[..k], RankOf(lib))
    {
      FoldStepsNext(df, features, RankOf(lib), k);
      if features[k] in g.columns {
        if "symbol" !in g.columns {
          r := Err(KeyError("symbol"));
          FoldStepsErr(df, features, RankOf(lib), k + 1);
          return;
        }
        g := SetColumn(g, RankName(features[k]), GroupTransform(g.rows, features[k], lib.rank));
      }
      k := k + 1;
    }
    assert features[..k] == features;
    r := Ok(g);
  }

  /** `_add_nonlinear_transforms`. */
  method AddNonlinear(df: Frame, nc: NonlinearConfig, lib: Library) returns (r: Result<Frame>)
    ensures r == Nonlinear(df, nc, lib)
  {
    var g := df;
    if nc.logFeatures.Some? {
      g := AddLogs(g, nc.logFeatures.value, lib);
    }
    if nc.sqrtFeatures.Some? {
      g := AddSqrts(g, nc.sqrtFeatures.value, lib);
    }
    r := Ok(g);
    if nc.rankFeatures.Some? {
      r := AddRanks(g, nc.rankFeatures.value, lib);
    }
  }

  // ---------------------------------------------------------------------------------------------
  // `_add_domain_features`.

  /** The domain features, in the order the step considers them. */
  datatype DomainFlag =
    MomentumStrength | VolatilityRegime | TrendConsistency | VolumeSpike | Oversold | Overbought |
    TechnicalScore | RiskScore

  const DomainOrder: seq<DomainFlag> :=
    [MomentumStrength, VolatilityRegime, TrendConsistency, VolumeSpike, Oversold, Overbought,
     TechnicalScore, RiskScore]

  /** The `domain_features` key that switches a feature on. The oversold feature is read from the
      key "oversold_oversold", not "oversold". */
  function KeyOf(flag: DomainFlag): string
  {
    match flag
    case MomentumStrength => "momentum_strength"
    case VolatilityRegime => "volatility_regime"
    case TrendConsistency => "trend_consistency"
    case VolumeSpike => "volume_spike"
    case Oversold => "oversold_oversold"
    case Overbought => "overbought"
    case TechnicalScore => "technical_score"
    case RiskScore => "risk_score"
  }

  /** The column a feature writes. */
  function ColumnOf(flag: DomainFlag): string
  {
    match flag
    case MomentumStrength => "momentum_strength"
    case VolatilityRegime => "volatility_regime"
    case TrendConsistency => "trend_consistency"
    case VolumeSpike => "volume_spike"
    case Oversold => "oversold"
    case Overbought => "overbought"
    case TechnicalScore => "technical_score"
    case RiskScore => "risk_score"
  }

  /** `domain_config.get(key, False)`. */
  predicate Enabled(dc: map<string, bool>, key: string)
  {
    key in dc && dc[key]
  }

  /** The features computed row by row from their input columns. */
  predicate IsRowwise(flag: DomainFlag)
  {
    flag in {MomentumStrength, TrendConsistency, VolumeSpike, Oversold, Overbought}
  }

  /** The columns a row-by-row feature needs; it is skipped when one is missing. */
  function Inputs(flag: DomainFlag): seq<string>
  {
    match flag
    case TrendConsistency => ["slope_pct_20", "macd"]
    case VolumeSpike => ["vol_ratio_20"]
    case _ => ["rsi_14"]
  }

  /** `np.sign`. */
  function Sign(x: real): int
  {
    if x > 0.0 then 1 else if x < 0.0 then -1 else 0
  }

  /** `series.astype(int)` of a boolean. */
  function Indicator(b: bool): Cell
  {
    Num(if b then 1.0 else 0.0)
  }

  /** The value of a row-by-row feature at a row. NaN fails every comparison, and
      `np.sign(NaN) == np.sign(x)` is False. */
  function RowwiseValue(flag: DomainFlag, r: Row): Cell
  {
    match flag
    case MomentumStrength => Abs(Sub(Get(r, "rsi_14"), Num(50.0)))
    case TrendConsistency =>
      var a := Get(r, "slope_pct_20");
      var b := Get(r, "macd");
      Indicator(a.Num? && b.Num? && Sign(a.v) == Sign(b.v))
    case VolumeSpike => Indicator(Gt(Get(r, "vol_ratio_20"), 2.0))
    case Oversold => Indicator(Lt(Get(r, "rsi_14"), 30.0))
    case Overbought => Indicator(Gt(Get(r, "rsi_14"), 70.0))
    case _ => NaN
  }

  /** One component of a composite score: a column divided by a constant, a column as it is, or
      its per-symbol percentile rank. */
  datatype Part = Scaled(col: string, divisor: real) | Plain(col: string) | Ranked(col: string)

  /** rsi_14 / 100, the rank of macd, bb_pband_20 and stoch_k / 100. */
  const TechnicalParts: seq<Part> := [Scaled("rsi_14", 100.0), Ranked("macd"), Plain("bb_pband_20"), Scaled("stoch_k", 100.0)]

  /** The ranks of atr_pct_14, stdev_20 and bb_width_20. */
  const RiskParts: seq<Part> := [Ranked("atr_pct_14"), Ranked("stdev_20"), Ranked("bb_width_20")]

  function PartSeries(g: Frame, part: Part, lib: Library): (r: Result<seq<Cell>>)
    ensures r.Ok? ==> |r.value| == |g.rows|
  {
    match part
    case Scaled(c, divisor) =>
      Ok(seq(|g.rows|, i requires 0 <= i < |g.rows| => Div(Get(g.rows[i], c), Num(divisor))))
    case Plain(c) => Ok(Col(g.rows, c))
    case Ranked(c) =>
      if "symbol" !in g.columns then Err(KeyError("symbol")) else Ok(GroupTransform(g.rows, c, lib.rank))
  }

  /** The list of components: one per part whose column the table has, in order. */
  function Components(g: Frame, parts: seq<Part>, lib: Library): (r: Result<seq<seq<Cell>>>)
    ensures r.Ok? ==> |r.value| <= |parts| && forall k :: 0 <= k < |r.value| ==> |r.value[k]| == |g.rows|
  {
    if |parts| == 0 then Ok([]) else
      match Components(g, parts[..|parts| - 1], lib)
      case Err(e) => Err(e)
      case Ok(cs) =>
        var part := parts[|parts| - 1];
        if part.col !in g.columns then Ok(cs) else
          match PartSeries(g, part, lib)
          case Err(e) => Err(e)
          case Ok(series) => Ok(cs + [series])
  }

  /** `np.mean` over the components at one row: missing as soon as one of them is. */
  function MeanAcross(xs: seq<Cell>): (r: Cell)
    ensures r.Num? <==> |xs| > 0 && AllPresent(xs)
  {
    if |xs| > 0 && AllPresent(xs) then
      NonMissingAllPresent(xs);
      Num(Sum(NonMissing(xs)) / |xs| as real)
    else NaN
  }

  /** `_add_technical_score` and `_add_risk_score`: the row-wise mean of the components, assigned
      only when there is at least one. */
  function AddScore(g: Frame, name: string, parts: seq<Part>, lib: Library): Result<Frame>
  {
    match Components(g, parts, lib)
    case Err(e) => Err(e)
    case Ok(cs) =>
      if |cs| == 0 then Ok(g)
      else Ok(SetColumn(g, name, seq(|g.rows|, i requires 0 <= i < |g.rows| =>
        MeanAcross(seq(|cs|, k requires 0 <= k < |cs| => cs[k][i])))))
  }

  /** One domain feature, once its key is enabled. */
  function AddDomain(g: Frame, flag: DomainFlag, lib: Library): Result<Frame>
  {
    match flag
    case VolatilityRegime =>
      if "atr_pct_14" !in g.columns then Ok(g)
      else if "symbol" !in g.columns then Err(KeyError("symbol"))
      else Ok(SetColumn(g, ColumnOf(flag), GroupTransform(g.rows, "atr_pct_14", lib.rank)))
    case TechnicalScore => AddScore(g, ColumnOf(flag), TechnicalParts, lib)
    case RiskScore => AddScore(g, ColumnOf(flag), RiskParts, lib)
    case _ =>
      if exists c :: c in Inputs(flag) && c !in g.columns then Ok(g)
      else Ok(SetColumn(g, ColumnOf(flag), seq(|g.rows|, i requires 0 <= i < |g.rows| => RowwiseValue(flag, g.rows[i]))))
  }

  function DomainStep(dc: map<string, bool>, lib: Library): (Frame, DomainFlag) -> Result<Frame>
  {
    (g: Frame, flag: DomainFlag) => if Enabled(dc, KeyOf(flag)) then AddDomain(g, flag, lib) else Ok(g)
  }

  /** `_add_domain_features`: each enabled feature in `DomainOrder`. */
  function DomainFeatures(f: Frame, dc: map<string, bool>, lib: Library): Result<Frame>
  {
    FoldSteps(f, DomainOrder, DomainStep(dc, lib))
  }

  function DomainNameSet(): DomainFlag -> set<string>
  {
    (flag: DomainFlag) => {ColumnOf(flag)}
  }

  lemma DomainStepExtends(g: Frame, flag: DomainFlag, dc: map<string, bool>, lib: Library)
    ensures DomainStep(dc, lib)(g, flag).Ok? ==> Extends(g, DomainStep(dc, lib)(g, flag).value, DomainNameSet()(flag))
  {
    var r := DomainStep(dc, lib)(g, flag);
    if r.Ok? && r.value != g {
      assert Enabled(dc, KeyOf(flag));
      match flag
      case VolatilityRegime =>
        ExtendsSet(g, ColumnOf(flag), GroupTransform(g.rows, "atr_pct_14", lib.rank));
      case TechnicalScore =>
        ScoreExtends(g, ColumnOf(flag), TechnicalParts, lib);
      case RiskScore =>
        ScoreExtends(g, ColumnOf(flag), RiskParts, lib);
      case _ =>
        ExtendsSet(g, ColumnOf(flag), seq(|g.rows|, i requires 0 <= i < |g.rows| => RowwiseValue(flag, g.rows[i])));
    }
  }

  lemma ScoreExtends(g: Frame, name: string, parts: seq<Part>, lib: Library)
    ensures AddScore(g, name, parts, lib).Ok? ==> Extends(g, AddScore(g, name, parts, lib).value, {name})
  {
    var r := Components(g, parts, lib);
    if r.Ok? && |r.value| > 0 {
      var cs := r.value;
      ExtendsSet(g, name, seq(|g.rows|, i requires 0 <= i < |g.rows| =>
        MeanAcross(seq(|cs|, k requires 0 <= k < |cs| => cs[k][i]))));
    }
  }

  lemma DomainStepsExtend(dc: map<string, bool>, lib: Library, xs: seq<DomainFlag>)
    ensures forall g, x :: x in xs && DomainStep(dc, lib)(g, x).Ok? ==>
      Extends(g, DomainStep(dc, lib)(g, x).value, DomainNameSet()(x))
  {
    forall g: Frame, x: DomainFlag | x in xs && DomainStep(dc, lib)(g, x).Ok?
      ensures Extends(g, DomainStep(dc, lib)(g, x).value, DomainNameSet()(x))
    {
      DomainStepExtends(g, x, dc, lib);
    }
  }

  lemma DomainColumnsDistinct(a: nat, b: nat)
    requires a < b < |DomainOrder|
    ensures ColumnOf(DomainOrder[a]) != ColumnOf(DomainOrder[b])
  {
  }

  lemma InputsAreNotDomainColumns(flag: DomainFlag, other: DomainFlag, c: string)
    requires c in Inputs(flag)
    ensures c != ColumnOf(other)
  {
  }

  /** A row-by-row feature reads only its input columns. */
  lemma RowwiseInputs(flag: DomainFlag, r1: Row, r2: Row)
    requires forall c :: c in Inputs(flag) ==> Get(r1, c) == Get(r2, c)
    ensures RowwiseValue(flag, r1) == RowwiseValue(flag, r2)
  {
    match flag
    case TrendConsistency =>
      assert "slope_pct_20" in Inputs(flag) && "macd" in Inputs(flag);
    case VolumeSpike =>
      assert "vol_ratio_20" in Inputs(flag);
    case _ =>
      assert "rsi_14" in Inputs(flag);
  }

  /** The inputs of a row-by-row feature reach its step unchanged: no domain feature writes one. */
  lemma InputsBeforeStep(f: Frame, dc: map<string, bool>, lib: Library, xs: seq<DomainFlag>, k: nat)
    requires k < |xs| && FoldSteps(f, xs[..k], DomainStep(dc, lib)).Ok?
    ensures var g := FoldSteps(f, xs[..k], DomainStep(dc, lib)).value;
      |g.rows| == |f.rows| &&
      (forall c :: c in Inputs(xs[k]) && c in f.columns ==> c in g.columns) &&
      forall i, c :: 0 <= i < |f.rows| && c in Inputs(xs[k]) ==> Get(g.rows[i], c) == Get(f.rows[i], c)
  {
    var step := DomainStep(dc, lib);
    var names := DomainNameSet();
    DomainStepsExtend(dc, lib, xs);
    forall c | c in Inputs(xs[k])
      ensures var g := FoldSteps(f, xs[..k], step).value;
        |g.rows| == |f.rows| && (c in f.columns ==> c in g.columns) &&
        forall i :: 0 <= i < |f.rows| ==> Get(g.rows[i], c) == Get(f.rows[i], c)
    {
      forall j | 0 <= j < k
        ensures c !in names(xs[j])
      {
        InputsAreNotDomainColumns(xs[k], xs[j], c);
      }
      FoldUntouched(f, xs, step, names, k, c);
    }
    assert "rsi_14" in Inputs(xs[k]) || "macd" in Inputs(xs[k]) || "vol_ratio_20" in Inputs(xs[k]);
  }

  /** After a loop of domain steps, an enabled row-by-row feature whose inputs the table has
      holds at each row the value computed from that row of the input table, when no later step
      writes its column. */
  lemma RowwiseAfterSteps(f: Frame, dc: map<string, bool>, lib: Library, xs: seq<DomainFlag>, k: nat, i: nat)
    requires k < |xs| && IsRowwise(xs[k]) && Enabled(dc, KeyOf(xs[k]))
    requires forall j :: k < j < |xs| ==> ColumnOf(xs[j]) != ColumnOf(xs[k])
    requires forall c :: c in Inputs(xs[k]) ==> c in f.columns
    requires FoldSteps(f, xs, DomainStep(dc, lib)).Ok? && i < |f.rows|
    ensures |FoldSteps(f, xs, DomainStep(dc, lib)).value.rows| == |f.rows|
    ensures Get(FoldSteps(f, xs, DomainStep(dc, lib)).value.rows[i], ColumnOf(xs[k])) == RowwiseValue(xs[k], f.rows[i])
  {
    var step := DomainStep(dc, lib);
    var names := DomainNameSet();
    var flag := xs[k];
    DomainStepsExtend(dc, lib, xs);
    FoldSplit(f, xs, step, k);
    FoldStepsNext(f, xs, step, k);
    FoldLastWriter(f, xs, step, names, k, ColumnOf(flag), i);
    var g := FoldSteps(f, xs[..k], step).value;
    InputsBeforeStep(f, dc, lib, xs, k);
    RowwiseStep(g, flag, dc, lib, i);
    RowwiseInputs(flag, g.rows[i], f.rows[i]);
  }

  /** An enabled row-by-row feature whose inputs the table has writes its value on every row. */
  lemma RowwiseStep(g: Frame, flag: DomainFlag, dc: map<string, bool>, lib: Library, i: nat)
    requires IsRowwise(flag) && Enabled(dc, KeyOf(flag)) && i < |g.rows|
    requires forall c :: c in Inputs(flag) ==> c in g.columns
    ensures DomainStep(dc, lib)(g, flag).Ok?
    ensures |DomainStep(dc, lib)(g, flag).value.rows| == |g.rows|
    ensures Get(DomainStep(dc, lib)(g, flag).value.rows[i], ColumnOf(flag)) == RowwiseValue(flag, g.rows[i])
  {
    assert !exists c :: c in Inputs(flag) && c !in g.columns;
  }

  /** After `_add_domain_features`, an enabled row-by-row feature whose inputs the table has holds
      at each row the value computed from that row of the input table: no other feature writes
      its column, and none writes an input. */
  lemma DomainRowwise(f: Frame, dc: map<string, bool>, lib: Library, k: nat, i: nat)
    requires k < |DomainOrder| && IsRowwise(DomainOrder[k]) && Enabled(dc, KeyOf(DomainOrder[k]))
    requires forall c :: c in Inputs(DomainOrder[k]) ==> c in f.columns
    requires DomainFeatures(f, dc, lib).Ok? && i < |f.rows|
    ensures |DomainFeatures(f, dc, lib).value.rows| == |f.rows|
    ensures Get(DomainFeatures(f, dc, lib).value.rows[i], ColumnOf(DomainOrder[k])) == RowwiseValue(DomainOrder[k], f.rows[i])
  {
    forall j | k < j < |DomainOrder|
      ensures ColumnOf(DomainOrder[j]) != ColumnOf(DomainOrder[k])
    {
      DomainColumnsDistinct(k, j);
    }
    RowwiseAfterSteps(f, dc, lib, DomainOrder, k, i);
  }

  /** `volume_spike` is 1 where vol_ratio_20 > 2.0 and 0 elsewhere (a missing ratio gives 0). */
  lemma VolumeSpikeColumn(f: Frame, dc: map<string, bool>, lib: Library, i: nat)
    requires Enabled(dc, "volume_spike") && "vol_ratio_20" in f.columns
    requires DomainFeatures(f, dc, lib).Ok? && i < |f.rows|
    ensures |DomainFeatures(f, dc, lib).value.rows| == |f.rows|
    ensures Get(DomainFeatures(f, dc, lib).value.rows[i], "volume_spike") ==
      Num(if Get(f.rows[i], "vol_ratio_20").Num? && Get(f.rows[i], "vol_ratio_20").v > 2.0 then 1.0 else 0.0)
  {
    DomainRowwise(f, dc, lib, 3, i);
  }

  /** `overbought` is 1 where rsi_14 > 70 and 0 elsewhere. */
  lemma OverboughtColumn(f: Frame, dc: map<string, bool>, lib: Library, i: nat)
    requires Enabled(dc, "overbought") && "rsi_14" in f.columns
    requires DomainFeatures(f, dc, lib).Ok? && i < |f.rows|
    ensures |DomainFeatures(f, dc, lib).value.rows| == |f.rows|
    ensures Get(DomainFeatures(f, dc, lib).value.rows[i], "overbought") ==
      Num(if Get(f.rows[i], "rsi_14").Num? && Get(f.rows[i], "rsi_14").v > 70.0 then 1.0 else 0.0)
  {
    DomainRowwise(f, dc, lib, 5, i);
  }

  /** `oversold` is 1 where rsi_14 < 30 and 0 elsewhere, once the key "oversold_oversold" is set. */
  lemma OversoldColumn(f: Frame, dc: map<string, bool>, lib: Library, i: nat)
    requires Enabled(dc, "oversold_oversold") && "rsi_14" in f.columns
    requires DomainFeatures(f, dc, lib).Ok? && i < |f.rows|
    ensures |DomainFeatures(f, dc, lib).value.rows| == |f.rows|
    ensures Get(DomainFeatures(f, dc, lib).value.rows[i], "oversold") ==
      Num(if Get(f.rows[i], "rsi_14").Num? && Get(f.rows[i], "rsi_14").v < 30.0 then 1.0 else 0.0)
  {
    DomainRowwise(f, dc, lib, 4, i);
  }

  /** `momentum_strength` is |rsi_14 - 50|, missing where rsi_14 is. */
  lemma MomentumStrengthColumn(f: Frame, dc: map<string, bool>, lib: Library, i: nat)
    requires Enabled(dc, "momentum_strength") && "rsi_14" in f.columns
    requires DomainFeatures(f, dc, lib).Ok? && i < |f.rows|
    ensures |DomainFeatures(f, dc, lib).value.rows| == |f.rows|
    ensures var rsi := Get(f.rows[i], "rsi_14");
      Get(DomainFeatures(f, dc, lib).value.rows[i], "momentum_strength") ==
        if rsi.Num? then Num(if rsi.v >= 50.0 then rsi.v - 50.0 else 50.0 - rsi.v) else NaN
  {
    DomainRowwise(f, dc, lib, 0, i);
  }

  /** `trend_consistency` is 1 where slope_pct_20 and macd have the same sign and 0 elsewhere,
      a missing value counting as a mismatch. */
  lemma TrendConsistencyColumn(f: Frame, dc: map<string, bool>, lib: Library, i: nat)
    requires Enabled(dc, "trend_consistency") && "slope_pct_20" in f.columns && "macd" in f.columns
    requires DomainFeatures(f, dc, lib).Ok? && i < |f.rows|
    ensures |DomainFeatures(f, dc, lib).value.rows| == |f.rows|
    ensures var a := Get(f.rows[i], "slope_pct_20");
      var b := Get(f.rows[i], "macd");
      Get(DomainFeatures(f, dc, lib).value.rows[i], "trend_consistency") ==
        Num(if a.Num? && b.Num? && ((a.v > 0.0 && b.v > 0.0) || (a.v < 0.0 && b.v < 0.0) || (a.v == 0.0 && b.v == 0.0)) then 1.0 else 0.0)
  {
    DomainRowwise(f, dc, lib, 2, i);
  }

  /** The oversold feature answers to "oversold_oversold" only: a configuration that sets just
      "oversold" leaves the table as it is. */
  lemma OversoldKeyIgnored(f: Frame, lib: Library)
    ensures DomainFeatures(f, map["oversold" := true], lib) == Ok(f)
  {
    var dc := map["oversold" := true];
    forall x | x in DomainOrder
      ensures DomainStep(dc, lib)(f, x) == Ok(f)
    {
      assert !Enabled(dc, KeyOf(x));
    }
    FoldIdentity(f, DomainOrder, DomainStep(dc, lib));
  }

  /** Every column `_add_domain_features` may write. */
  function DomainColumns(): set<string>
  {
    AllNames(DomainOrder, DomainNameSet())
  }

  /** The domain step writes only the domain columns, and it raises only when a feature ranked
      per symbol meets a table without "symbol". */
  lemma DomainOutcome(f: Frame, dc: map<string, bool>, lib: Library)
    ensures "symbol" in f.columns ==> DomainFeatures(f, dc, lib).Ok?
    ensures DomainFeatures(f, dc, lib).Ok? ==> Extends(f, DomainFeatures(f, dc, lib).value, DomainColumns())
  {
    DomainStepsExtend(dc, lib, DomainOrder);
    FoldExtends(f, DomainOrder, DomainStep(dc, lib), DomainNameSet());
    if "symbol" in f.columns {
      var inv := (g: Frame) => "symbol" in g.columns;
      forall g: Frame, x: DomainFlag | x in DomainOrder && inv(g)
        ensures DomainStep(dc, lib)(g, x).Ok? && inv(DomainStep(dc, lib)(g, x).value)
      {
        DomainStepWithSymbol(g, x, dc, lib);
      }
      FoldKeeps(f, DomainOrder, DomainStep(dc, lib), inv);
    }
  }

  lemma ComponentsWithSymbol(g: Frame, parts: seq<Part>, lib: Library)
    requires "symbol" in g.columns
    ensures Components(g, parts, lib).Ok?
  {
  }

  lemma DomainStepWithSymbol(g: Frame, flag: DomainFlag, dc: map<string, bool>, lib: Library)
    requires "symbol" in g.columns
    ensures DomainStep(dc, lib)(g, flag).Ok? && "symbol" in DomainStep(dc, lib)(g, flag).value.columns
  {
    ComponentsWithSymbol(g, TechnicalParts, lib);
    ComponentsWithSymbol(g, RiskParts, lib);
  }

  /** A missing value, or a number in [lo, hi]. */
  predicate Within(c: Cell, lo: real, hi: real)
  {
    c.NaN? || (c.Num? && lo <= c.v <= hi)
  }

  lemma {:induction false} SumBounds(ys: seq<real>, lo: real, hi: real)
    requires forall k :: 0 <= k < |ys| ==> lo <= ys[k] <= hi
    ensures lo * |ys| as real <= Sum(ys) <= hi * |ys| as real
  {
    if |ys| > 0 {
      SumBounds(ys[..|ys| - 1], lo, hi);
    }
  }

  lemma DivBounds(s: real, n: real, lo: real, hi: real)
    requires n > 0.0 && lo * n <= s <= hi * n
    ensures lo <= s / n <= hi
  {
    assert s / n * n == s;
  }

  /** The mean across components that all lie in [lo, hi] lies there too. */
  lemma MeanAcrossBounds(xs: seq<Cell>, lo: real, hi: real)
    requires forall k :: 0 <= k < |xs| ==> Within(xs[k], lo, hi)
    ensures Within(MeanAcross(xs), lo, hi)
  {
    if |xs| > 0 && AllPresent(xs) {
      NonMissingAllPresent(xs);
      var ys := NonMissing(xs);
      assert |ys| == |xs|;
      forall k | 0 <= k < |ys|
        ensures lo <= ys[k] <= hi
      {
        assert ys[k] == xs[k].v;
        assert Within(xs[k], lo, hi);
      }
      SumBounds(ys, lo, hi);
      DivBounds(Sum(ys), |xs| as real, lo, hi);
      assert MeanAcross(xs) == Num(Sum(ys) / |xs| as real);
    }
  }

  /** Components that are all per-symbol ranks take only the rank function's values, or NaN. */
  lemma {:induction false} RankedComponentsWithin(g: Frame, parts: seq<Part>, lib: Library, lo: real, hi: real)
    requires forall k :: 0 <= k < |parts| ==> parts[k].Ranked?
    requires forall s: seq<Cell>, k :: 0 <= k < |lib.rank(s)| ==> Within(lib.rank(s)[k], lo, hi)
    requires Components(g, parts, lib).Ok?
    ensures var cs := Components(g, parts, lib).value;
      forall k, i :: 0 <= k < |cs| && 0 <= i < |g.rows| ==> Within(cs[k][i], lo, hi)
  {
    if |parts| > 0 {
      RankedComponentsWithin(g, parts[..|parts| - 1], lib, lo, hi);
      var part := parts[|parts| - 1];
      if part.col in g.columns {
        var series := GroupTransform(g.rows, part.col, lib.rank);
        forall i | 0 <= i < |g.rows|
          ensures Within(series[i], lo, hi)
        {
          var own := RowsOf(g.rows, g.rows[i].sym);
          PosIndexes(g.rows, i);
          var ranks := lib.rank(Col(own, part.col));
          assert series[i] == Fit(ranks, |own|)[Pos(g.rows, i)];
        }
      }
    }
  }

  /** With a rank function that returns percentiles in [0, 1], `risk_score` is missing or lies in
      [0, 1] on every row, whenever one of its three columns is present. */
  lemma RiskScoreWithinUnit(g: Frame, lib: Library, i: nat)
    requires forall s: seq<Cell>, k :: 0 <= k < |lib.rank(s)| ==> Within(lib.rank(s)[k], 0.0, 1.0)
    requires AddScore(g, "risk_score", RiskParts, lib).Ok? && i < |g.rows|
    requires "atr_pct_14" in g.columns || "stdev_20" in g.columns || "bb_width_20" in g.columns
    ensures |AddScore(g, "risk_score", RiskParts, lib).value.rows| == |g.rows|
    ensures Within(Get(AddScore(g, "risk_score", RiskParts, lib).value.rows[i], "risk_score"), 0.0, 1.0)
  {
    var cs := Components(g, RiskParts, lib).value;
    RankedComponentsWithin(g, RiskParts, lib, 0.0, 1.0);
    RiskComponentsPresent(g, lib);
    var row := seq(|cs|, k requires 0 <= k < |cs| => cs[k][i]);
    MeanAcrossBounds(row, 0.0, 1.0);
  }

  /** A part whose column the table has contributes a component. */
  lemma {:induction false} ComponentsNonEmpty(g: Frame, parts: seq<Part>, lib: Library, k: nat)
    requires k < |parts| && parts[k].col in g.columns && Components(g, parts, lib).Ok?
    ensures |Components(g, parts, lib).value| > 0
  {
    var init := parts[..|parts| - 1];
    if k < |parts| - 1 {
      assert init[k] == parts[k];
      ComponentsNonEmpty(g, init, lib, k);
    }
  }

  lemma RiskComponentsPresent(g: Frame, lib: Library)
    requires Components(g, RiskParts, lib).Ok?
    requires "atr_pct_14" in g.columns || "stdev_20" in g.columns || "bb_width_20" in g.columns
    ensures |Components(g, RiskParts, lib).value| > 0
  {
    if "atr_pct_14" in g.columns {
      ComponentsNonEmpty(g, RiskParts, lib, 0);
    } else if "stdev_20" in g.columns {
      ComponentsNonEmpty(g, RiskParts, lib, 1);
    } else {
      ComponentsNonEmpty(g, RiskParts, lib, 2);
    }
  }

  // ---------------------------------------------------------------------------------------------
  // `engineer_features`.

  /** The engineer's configuration: each step's entry is absent or present. */
  datatype EngineerConfig = EngineerConfig(
    lag: Option<LagConfig>,
    interactions: Option<seq<seq<string>>>,
    nonlinear: Option<NonlinearConfig>,
    domain: Option<map<string, bool>>)

  /** The lag step when configured. */
  function LagStage(f: Frame, cfg: EngineerConfig, lib: Library): Result<Frame>
  {
    if cfg.lag.Some? then LagFeatures(f, cfg.lag.value, lib) else Ok(f)
  }

  /** The interaction step when configured. */
  function InteractionStage(f: Frame, cfg: EngineerConfig): Result<Frame>
  {
    if cfg.interactions.Some? then FoldSteps(f, cfg.interactions.value, InteractionOf()) else Ok(f)
  }

  /** The nonlinear step when configured. */
  function NonlinearStage(f: Frame, cfg: EngineerConfig, lib: Library): Result<Frame>
  {
    if cfg.nonlinear.Some? then Nonlinear(f, cfg.nonlinear.value, lib) else Ok(f)
  }

  /** The domain step when configured. */
  function DomainStage(f: Frame, cfg: EngineerConfig, lib: Library): Result<Frame>
  {
    if cfg.domain.Some? then DomainFeatures(f, cfg.domain.value, lib) else Ok(f)
  }

  /** The lag, interaction, nonlinear and domain steps, in that order, each only when its key is
      present, on a copy of the input; the first error ends the run. */
  function EngineerFeatures(f: Frame, cfg: EngineerConfig, lib: Library): Result<Frame>
  {
    var r1 := LagStage(f, cfg, lib);
    if r1.Err? then r1 else
      var r2 := InteractionStage(r1.value, cfg);
      if r2.Err? then r2 else
        var r3 := NonlinearStage(r2.value, cfg, lib);
        if r3.Err? then r3 else DomainStage(r3.value, cfg, lib)
  }

  function LagStageNames(cfg: EngineerConfig): set<string>
  {
    if cfg.lag.Some? then LagNames(cfg.lag.value) else {}
  }

  function InteractionStageNames(cfg: EngineerConfig): set<string>
  {
    if cfg.interactions.Some? then AllNames(cfg.interactions.value, InteractionSet) else {}
  }

  function NonlinearStageNames(cfg: EngineerConfig): set<string>
  {
    if cfg.nonlinear.Some? then NonlinearNames(cfg.nonlinear.value) else {}
  }

  function DomainStageNames(cfg: EngineerConfig): set<string>
  {
    if cfg.domain.Some? then DomainColumns() else {}
  }

  /** Every column the configured steps may add. */
  function EngineeredNames(cfg: EngineerConfig): set<string>
  {
    LagStageNames(cfg) + InteractionStageNames(cfg) + NonlinearStageNames(cfg) + DomainStageNames(cfg)
  }

  /** The table the steps start from: sorted by (symbol, timestamp) when the lag step runs. */
  function EngineerBase(f: Frame, cfg: EngineerConfig): Frame
  {
    if cfg.lag.Some? then Frame(f.columns, Sort(f.rows, SymTsKey)) else f
  }

  lemma LagStageOutcome(f: Frame, cfg: EngineerConfig, lib: Library)
    ensures LagStage(f, cfg, lib).Ok? ==>
      Extends(EngineerBase(f, cfg), LagStage(f, cfg, lib).value, LagStageNames(cfg)) &&
      multiset(EngineerBase(f, cfg).rows) == multiset(f.rows)
    ensures ("symbol" in f.columns && (cfg.lag.Some? ==> "timestamp" in f.columns) &&
             (cfg.lag.Some? && cfg.lag.value.rollingStats ==>
                forall w :: w in cfg.lag.value.rollingWindows.GetOr(DefaultRollingWindows) ==> w >= 1)) ==>
      LagStage(f, cfg, lib).Ok?
  {
    if cfg.lag.Some? {
      LagFeaturesOutcome(f, cfg.lag.value, lib);
    }
  }

  lemma InteractionLoopExtends(g: Frame, pairs: seq<seq<string>>)
    ensures FoldSteps(g, pairs, InteractionOf()).Ok?
    ensures Extends(g, FoldSteps(g, pairs, InteractionOf()).value, AllNames(pairs, InteractionSet))
  {
    forall h: Frame, pair: seq<string>
      ensures InteractionOf()(h, pair).Ok?
      ensures Extends(h, InteractionOf()(h, pair).value, InteractionSet(pair))
    {
      InteractionColumns(h, pair);
    }
    FoldOk(g, pairs, InteractionOf());
    FoldExtends(g, pairs, InteractionOf(), InteractionSet);
  }

  lemma InteractionStageOutcome(f: Frame, cfg: EngineerConfig)
    ensures InteractionStage(f, cfg).Ok?
    ensures Extends(f, InteractionStage(f, cfg).value, InteractionStageNames(cfg))
  {
    if cfg.interactions.Some? {
      InteractionLoopExtends(f, cfg.interactions.value);
    }
  }

  lemma NonlinearStageOutcome(f: Frame, cfg: EngineerConfig, lib: Library)
    ensures "symbol" in f.columns ==> NonlinearStage(f, cfg, lib).Ok?
    ensures NonlinearStage(f, cfg, lib).Ok? ==> Extends(f, NonlinearStage(f, cfg, lib).value, NonlinearStageNames(cfg))
  {
    if cfg.nonlinear.Some? {
      NonlinearOutcome(f, cfg.nonlinear.value, lib);
    }
  }

  lemma DomainStageOutcome(f: Frame, cfg: EngineerConfig, lib: Library)
    ensures "symbol" in f.columns ==> DomainStage(f, cfg, lib).Ok?
    ensures DomainStage(f, cfg, lib).Ok? ==> Extends(f, DomainStage(f, cfg, lib).value, DomainStageNames(cfg))
  {
    if cfg.domain.Some? {
      DomainOutcome(f, cfg.domain.value, lib);
    }
  }

  /** When `engineer_features` succeeds, it keeps every row and every column of its starting
      table (the input, sorted by symbol and timestamp when the lag step runs), and changes only
      the columns its configured steps name. */
  lemma EngineerExtends(f: Frame, cfg: EngineerConfig, lib: Library)
    ensures EngineerFeatures(f, cfg, lib).Ok? ==>
      Extends(EngineerBase(f, cfg), EngineerFeatures(f, cfg, lib).value, EngineeredNames(cfg)) &&
      multiset(EngineerBase(f, cfg).rows) == multiset(f.rows)
  {
    var base := EngineerBase(f, cfg);
    var a, b, c, d := LagStageNames(cfg), InteractionStageNames(cfg), NonlinearStageNames(cfg), DomainStageNames(cfg);
    var r1 := LagStage(f, cfg, lib);
    LagStageOutcome(f, cfg, lib);
    if r1.Ok? {
      var r2 := InteractionStage(r1.value, cfg);
      InteractionStageOutcome(r1.value, cfg);
      ExtendsTrans(base, r1.value, r2.value, a, b, a + b);
      var r3 := NonlinearStage(r2.value, cfg, lib);
      NonlinearStageOutcome(r2.value, cfg, lib);
      if r3.Ok? {
        ExtendsTrans(base, r2.value, r3.value, a + b, c, a + b + c);
        var r4 := DomainStage(r3.value, cfg, lib);
        DomainStageOutcome(r3.value, cfg, lib);
        if r4.Ok? {
          ExtendsTrans(base, r3.value, r4.value, a + b + c, d, EngineeredNames(cfg));
        }
      }
    }
  }

  /** `engineer_features` raises only when the table lacks "symbol" or, with the lag step on,
      "timestamp", or when the lag step computes rolling statistics over a window below 1. */
  lemma EngineerOk(f: Frame, cfg: EngineerConfig, lib: Library)
    requires "symbol" in f.columns
    requires cfg.lag.Some? ==> "timestamp" in f.columns
    requires cfg.lag.Some? && cfg.lag.value.rollingStats ==>
      forall w :: w in cfg.lag.value.rollingWindows.GetOr(DefaultRollingWindows) ==> w >= 1
    ensures EngineerFeatures(f, cfg, lib).Ok?
  {
    LagStageOutcome(f, cfg, lib);
    var g1 := LagStage(f, cfg, lib).value;
    assert Extends(EngineerBase(f, cfg), g1, LagStageNames(cfg));
    InteractionStageOutcome(g1, cfg);
    var g2 := InteractionStage(g1, cfg).value;
    NonlinearStageOutcome(g2, cfg, lib);
    var g3 := NonlinearStage(g2, cfg, lib).value;
    DomainStageOutcome(g3, cfg, lib);
  }

  /** `engineer_features`. */
  method Engineer(f: Frame, cfg: EngineerConfig, lib: Library) returns (r: Result<Frame>)
    ensures r == EngineerFeatures(f, cfg, lib)
  {
    var g := f;
    if cfg.lag.Some? {
      r := AddLagFeatures(g, cfg.lag.value, lib);
      if r.Err? {
        return;
      }
      g := r.value;
    }
    if cfg.interactions.Some? {
      g := AddInteractions(g, cfg.interactions.value);
    }
    if cfg.nonlinear.Some? {
      r := AddNonlinear(g, cfg.nonlinear.value, lib);
      if r.Err? {
        return;
      }
      g := r.value;
    }
    r := Ok(g);
    if cfg.domain.Some? {
      r := DomainFeatures(g, cfg.domain.value, lib);
    }
  }

  // ---------------------------------------------------------------------------------------------
  // `FeatureSelector`.

  /** The selector's configuration: the names to exclude and the correlation threshold, each
      absent or present. */
  datatype SelectorConfig = SelectorConfig(exclude: Option<seq<string>>, threshold: Option<real>)

  /** What the selector reads from the table: the absolute pairwise correlation of two columns
      and the variance of one (pandas' `corr().abs()` and `var()`, either of which may be NaN). */
  datatype Stats = Stats(absCorr: (string, string) -> Cell, variance: string -> Cell)

  /** `corr > threshold`: false for a missing correlation. */
  predicate Above(c: Cell, t: real)
  {
    c.Num? && c.v > t
  }

  /** Of a correlated pair, the one with the strictly lower variance, else the second. A missing
      variance compares false, so it removes the second. */
  function Loser(a: string, b: string, st: Stats): (r: string)
    ensures r == a || r == b
    ensures st.variance(a).Num? && st.variance(b).Num? && st.variance(a).v < st.variance(b).v ==> r == a
    ensures !(st.variance(a).Num? && st.variance(b).Num? && st.variance(a).v < st.variance(b).v) ==> r == b
  {
    if st.variance(a).Num? && st.variance(b).Num? && st.variance(a).v < st.variance(b).v then a else b
  }

  /** The names removed for the pairs (i, j) with i < j < m. */
  function RowRemoved(avail: seq<string>, i: nat, m: nat, t: real, st: Stats): set<string>
    requires i < |avail| && m <= |avail|
  {
    if m <= i + 1 then {}
    else
      RowRemoved(avail, i, m - 1, t, st) +
      (if Above(st.absCorr(avail[i], avail[m - 1]), t) then {Loser(avail[i], avail[m - 1], st)} else {})
  }

  /** The names removed for every pair whose first index is below n. */
  function PairsRemoved(avail: seq<string>, n: nat, t: real, st: Stats): set<string>
    requires n <= |avail|
  {
    if n == 0 then {} else PairsRemoved(avail, n - 1, t, st) + RowRemoved(avail, n - 1, |avail|, t, st)
  }

  /** The set `to_remove` of the double loop. */
  function ToRemove(avail: seq<string>, t: real, st: Stats): set<string>
  {
    PairsRemoved(avail, |avail|, t, st)
  }

  /** A pair whose correlation exceeds the threshold, by index. */
  predicate Correlated(avail: seq<string>, i: int, j: int, t: real, st: Stats)
  {
    0 <= i < j < |avail| && Above(st.absCorr(avail[i], avail[j]), t)
  }

  /** The features present in the table. */
  function Available(features: seq<string>, columns: seq<string>): seq<string>
  {
    Filter(features, (x: string) => x in columns)
  }

  /** `_correlation_filter`. */
  function CorrelationFilter(features: seq<string>, columns: seq<string>, t: real, st: Stats): seq<string>
  {
    var avail := Available(features, columns);
    if |avail| < 2 then avail else
      var removed := ToRemove(avail, t, st);
      Filter(avail, (x: string) => x !in removed)
  }

  /** The exclusion step's list comprehension. */
  function Excluded(features: seq<string>, excluded: seq<string>): seq<string>
  {
    Filter(features, (x: string) => x !in excluded)
  }

  /** `select_features`. */
  function SelectFeatures(features: seq<string>, columns: seq<string>, sc: SelectorConfig, st: Stats): seq<string>
  {
    var kept := if sc.exclude.Some? then Excluded(features, sc.exclude.value) else features;
    if sc.threshold.Some? then CorrelationFilter(kept, columns, sc.threshold.value, st) else kept
  }

  lemma {:induction false} RowRemovedMembers(avail: seq<string>, i: nat, m: nat, t: real, st: Stats, x: string)
    requires i < |avail| && m <= |avail|
    ensures x in RowRemoved(avail, i, m, t, st) <==>
      exists j :: i < j < m && Correlated(avail, i, j, t, st) && x == Loser(avail[i], avail[j], st)
    decreases m
  {
    if m > i + 1 {
      RowRemovedMembers(avail, i, m - 1, t, st, x);
      if x in RowRemoved(avail, i, m, t, st) && x !in RowRemoved(avail, i, m - 1, t, st) {
        assert Correlated(avail, i, m - 1, t, st) && x == Loser(avail[i], avail[m - 1], st);
      }
    }
  }

  lemma {:induction false} PairsRemovedMembers(avail: seq<string>, n: nat, t: real, st: Stats, x: string)
    requires n <= |avail|
    ensures x in PairsRemoved(avail, n, t, st) <==>
      exists i, j :: 0 <= i < n && Correlated(avail, i, j, t, st) && x == Loser(avail[i], avail[j], st)
    decreases n
  {
    if n > 0 {
      PairsRemovedMembers(avail, n - 1, t, st, x);
      RowRemovedMembers(avail, n - 1, |avail|, t, st, x);
      if x in PairsRemoved(avail, n, t, st) && x !in PairsRemoved(avail, n - 1, t, st) {
        var j :| n - 1 < j < |avail| && Correlated(avail, n - 1, j, t, st) && x == Loser(avail[n - 1], avail[j], st);
        assert 0 <= n - 1 < n;
      }
      if exists i, j :: 0 <= i < n && Correlated(avail, i, j, t, st) && x == Loser(avail[i], avail[j], st) {
        var i, j :| 0 <= i < n && Correlated(avail, i, j, t, st) && x == Loser(avail[i], avail[j], st);
        if i == n - 1 {
          assert x in RowRemoved(avail, n - 1, |avail|, t, st);
        } else {
          assert x in PairsRemoved(avail, n - 1, t, st);
        }
      }
    }
  }

  /** A name is removed exactly when it is the loser of some pair whose correlation exceeds the
      threshold. */
  lemma RemovedIff(avail: seq<string>, t: real, st: Stats, x: string)
    ensures x in ToRemove(avail, t, st) <==>
      exists i, j :: Correlated(avail, i, j, t, st) && x == Loser(avail[i], avail[j], st)
  {
    PairsRemovedMembers(avail, |avail|, t, st, x);
  }

  /** No two surviving positions hold a pair whose correlation exceeds the threshold. */
  lemma SurvivorsUncorrelated(avail: seq<string>, t: real, st: Stats, i: int, j: int)
    requires 0 <= i < j < |avail|
    requires avail[i] !in ToRemove(avail, t, st) && avail[j] !in ToRemove(avail, t, st)
    ensures !Above(st.absCorr(avail[i], avail[j]), t)
  {
    if Above(st.absCorr(avail[i], avail[j]), t) {
      var x := Loser(avail[i], avail[j], st);
      RemovedIff(avail, t, st, x);
      assert Correlated(avail, i, j, t, st);
      assert false;
    }
  }

  /** `_correlation_filter` returns the available features when there are fewer than two, and
      otherwise an order-preserving subsequence of them whose members are exactly the available
      features that lose no pair above the threshold; no two of them are correlated above it. */
  lemma CorrelationFilterMeaning(features: seq<string>, columns: seq<string>, t: real, st: Stats)
    ensures var avail := Available(features, columns);
      |avail| < 2 ==> CorrelationFilter(features, columns, t, st) == avail
    ensures SubsequenceOf(CorrelationFilter(features, columns, t, st), Available(features, columns))
    ensures forall x :: x in CorrelationFilter(features, columns, t, st) <==>
      x in features && x in columns &&
      (|Available(features, columns)| < 2 || x !in ToRemove(Available(features, columns), t, st))
  {
    var avail := Available(features, columns);
    FilterMembers(features, (x: string) => x in columns);
    if |avail| < 2 {
      SubsequenceRefl(avail);
    } else {
      var removed := ToRemove(avail, t, st);
      FilterIsSubsequence(avail, (x: string) => x !in removed);
      FilterMembers(avail, (x: string) => x !in removed);
    }
  }

  /** Two surviving features of the correlation filter, at distinct positions of the available
      list, are not correlated above the threshold. */
  lemma CorrelationSurvivors(features: seq<string>, columns: seq<string>, t: real, st: Stats, i: int, j: int)
    requires var avail := Available(features, columns);
      |avail| >= 2 && 0 <= i < j < |avail| &&
      avail[i] in CorrelationFilter(features, columns, t, st) && avail[j] in CorrelationFilter(features, columns, t, st)
    ensures !Above(st.absCorr(Available(features, columns)[i], Available(features, columns)[j]), t)
  {
    var avail := Available(features, columns);
    var removed := ToRemove(avail, t, st);
    FilterMembers(avail, (x: string) => x !in removed);
    SurvivorsUncorrelated(avail, t, st, i, j);
  }

  /** `select_features` removes exactly the excluded names and keeps the order of the rest when
      no threshold is configured, and applies the correlation filter to that list when one is. */
  lemma SelectFeaturesMeaning(features: seq<string>, columns: seq<string>, sc: SelectorConfig, st: Stats)
    ensures sc.threshold.None? ==>
      SubsequenceOf(SelectFeatures(features, columns, sc, st), features) &&
      forall x :: x in SelectFeatures(features, columns, sc, st) <==>
        x in features && (sc.exclude.Some? ==> x !in sc.exclude.value)
    ensures sc.threshold.None? ==>
      forall x :: multiset(SelectFeatures(features, columns, sc, st))[x] ==
        if sc.exclude.Some? && x in sc.exclude.value then 0 else multiset(features)[x]
    ensures sc.threshold.Some? ==>
      var kept := if sc.exclude.Some? then Excluded(features, sc.exclude.value) else features;
      SelectFeatures(features, columns, sc, st) == CorrelationFilter(kept, columns, sc.threshold.value, st)
  {
    if sc.exclude.Some? {
      var p := (x: string) => x !in sc.exclude.value;
      FilterIsSubsequence(features, p);
      FilterMembers(features, p);
      forall x ensures multiset(Filter(features, p))[x] == if x in sc.exclude.value then 0 else multiset(features)[x] {
        FilterCount(features, p, x);
      }
    } else {
      SubsequenceRefl(features);
    }
  }

  /** `_correlation_filter`'s double loop over the pairs of available features. */
  method RemovalSet(avail: seq<string>, t: real, st: Stats) returns (removed: set<string>)
    ensures removed == ToRemove(avail, t, st)
  {
    removed := {};
    var i := 0;
    while i < |avail|
      invariant 0 <= i <= |avail|
      invariant removed == PairsRemoved(avail, i, t, st)
    {
      var j := i + 1;
      while j < |avail|
        invariant i + 1 <= j <= |avail|
        invariant removed == PairsRemoved(avail, i, t, st) + RowRemoved(avail, i, j, t, st)
      {
        if Above(st.absCorr(avail[i], avail[j]), t) {
          removed := removed + {Loser(avail[i], avail[j], st)};
        }
        j := j + 1;
      }
      i := i + 1;
    }
  }

  /** `select_features`, with `_correlation_filter`'s loop. */
  method Select(features: seq<string>, columns: seq<string>, sc: SelectorConfig, st: Stats) returns (r: seq<string>)
    ensures r == SelectFeatures(features, columns, sc, st)
  {
    r := features;
    if sc.exclude.Some? {
      r := Excluded(features, sc.exclude.value);
    }
    if sc.threshold.Some? {
      var avail := Available(r, columns);
      if |avail| < 2 {
        return avail;
      }
      var removed := RemovalSet(avail, sc.threshold.value, st);
      r := Filter(avail, (x: string) => x !in removed);
    }
  }
}

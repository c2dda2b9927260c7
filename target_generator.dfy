/** `TargetGenerator`: the next-day return `next_ret` and the direction label `y_up`, computed for
    each symbol from that symbol's own rows in timestamp order. */
module TargetGenerator {
  import opened Wrappers
  import opened Text
  import opened Frames

  /** `TargetConfig`. A threshold of `None` switches that side of the clipping off. */
  datatype TargetConfig = TargetConfig(
    marginPct: real,
    minReturnThreshold: Option<real>,
    maxReturnThreshold: Option<real>,
    removeIncompleteDays: bool)

  /** The defaults: no margin, returns clipped to [-50%, +50%], incomplete days removed. */
  const DefaultConfig := TargetConfig(0.0, Some(-0.5), Some(0.5), true)

  const NextRet := "next_ret"
  const YUp := "y_up"
  const TargetRequired: seq<string> := ["timestamp", "symbol", "close"]

  /** `margin_pct if margin_pct is not None else self.config.margin_pct`. */
  function EffectiveMargin(margin: Option<real>, cfg: TargetConfig): real
  {
    if margin.Some? then margin.value else cfg.marginPct
  }

  // ---------------------------------------------------------------------------------------------
  // One cell of the target columns.

  /** `(df[price].shift(-1) / df[price]) - 1.0` at row i: the return from this row's price to the
      next row's. The last row has no next price. */
  function NextReturn(p: seq<Cell>, i: nat): (r: Cell)
    requires i < |p|
    ensures r.Num? <==> i + 1 < |p| && p[i].Num? && p[i + 1].Num? && p[i].v != 0.0
    ensures r.Num? ==> r.v == p[i + 1].v / p[i].v - 1.0
    ensures !r.Num? ==> r == NaN
  {
    if i + 1 < |p| then AddConst(Div(p[i + 1], p[i]), -1.0) else NaN
  }

  /** Both thresholds are set and the minimum does not exceed the maximum. */
  predicate Band(cfg: TargetConfig)
  {
    cfg.minReturnThreshold.Some? && cfg.maxReturnThreshold.Some? &&
    cfg.minReturnThreshold.value <= cfg.maxReturnThreshold.value
  }

  /** A value no threshold would move. */
  predicate InBand(v: real, cfg: TargetConfig)
  {
    (cfg.minReturnThreshold.None? || cfg.minReturnThreshold.value <= v) &&
    (cfg.maxReturnThreshold.None? || v <= cfg.maxReturnThreshold.value)
  }

  /** The two `.loc` overwrites of lines 147-161: a return below the minimum becomes the minimum,
      then a return above the maximum becomes the maximum. A missing return compares false on both
      and stays missing. */
  function Clip(c: Cell, cfg: TargetConfig): (r: Cell)
    ensures r.Num? <==> c.Num?
    ensures !c.Num? ==> r == c
    ensures c.Num? && InBand(c.v, cfg) ==> r == c
    ensures r.Num? && cfg.maxReturnThreshold.Some? ==> r.v <= cfg.maxReturnThreshold.value
    ensures r.Num? && cfg.minReturnThreshold.Some? && cfg.maxReturnThreshold.None? ==>
      cfg.minReturnThreshold.value <= r.v
    ensures r.Num? && Band(cfg) ==> cfg.minReturnThreshold.value <= r.v
    ensures c.Num? && Band(cfg) && c.v < cfg.minReturnThreshold.value ==> r == Num(cfg.minReturnThreshold.value)
    ensures c.Num? && cfg.maxReturnThreshold.Some? && c.v > cfg.maxReturnThreshold.value ==>
      r == Num(cfg.maxReturnThreshold.value)
  {
    var low := if cfg.minReturnThreshold.Some? && Lt(c, cfg.minReturnThreshold.value)
      then Num(cfg.minReturnThreshold.value) else c;
    if cfg.maxReturnThreshold.Some? && Gt(low, cfg.maxReturnThreshold.value)
    then Num(cfg.maxReturnThreshold.value) else low
  }

  /** `(next_ret > margin).astype(int)`: 1 exactly when the return is strictly above the margin,
      0 otherwise, a missing return included. */
  function Label(c: Cell, margin: real): (r: Cell)
    ensures r == Num(1.0) || r == Num(0.0)
    ensures r == Num(1.0) <==> c.Num? && c.v > margin
  {
    if Gt(c, margin) then Num(1.0) else Num(0.0)
  }

  // ---------------------------------------------------------------------------------------------
  // `_create_targets_for_symbol`

  /** The symbol's frame once `y_up` is written (lines 128-164): rows in timestamp order, the
      clipped `next_ret`, and `y_up`. The `pct_change().shift(-1)` assigned at line 137 is
      overwritten at line 144 before anything reads it. */
  function Labelled(g: Frame, margin: real, cfg: TargetConfig): (r: Frame)
    ensures |r.rows| == |g.rows|
  {
    var d := Frame(g.columns, Sort(g.rows, TsKey));
    assert |d.rows| == |g.rows| by {
      assert |multiset(d.rows)| == |multiset(g.rows)|;
    }
    var p := Col(d.rows, PriceColumn(g));
    var ret := seq(|p|, i requires 0 <= i < |p| => Clip(NextReturn(p, i), cfg));
    var d1 := SetColumn(d, NextRet, ret);
    SetColumn(d1, YUp, seq(|p|, i requires 0 <= i < |p| => Label(ret[i], margin)))
  }

  /** Row i of the labelled frame is row i of the time-ordered rows with the clipped return to the
      next row's price in `next_ret` and its label in `y_up`; every other column is left as it
      was. */
  lemma LabelledRow(g: Frame, margin: real, cfg: TargetConfig, i: nat)
    requires i < |g.rows|
    ensures var d := Sort(g.rows, TsKey);
      var r := Labelled(g, margin, cfg).rows[i];
      r.ts == d[i].ts && r.sym == d[i].sym &&
      Get(r, NextRet) == Clip(NextReturn(Col(d, PriceColumn(g)), i), cfg) &&
      Get(r, YUp) == Label(Get(r, NextRet), margin) &&
      forall c :: c != NextRet && c != YUp ==> Get(r, c) == Get(d[i], c)
  {
  }

  /** The labelled frame has the input's columns and the two target columns. */
  lemma LabelledColumns(g: Frame, margin: real, cfg: TargetConfig)
    ensures forall c :: c in Labelled(g, margin, cfg).columns <==> c in g.columns || c == NextRet || c == YUp
  {
  }

  /** `df["next_ret"].notna()`. */
  predicate HasReturn(x: Row)
  {
    Get(x, NextRet).Num?
  }

  /** `_create_targets_for_symbol`: the labelled frame, without the rows that have no return when
      incomplete days are removed. */
  function TargetsForSymbol(g: Frame, margin: real, cfg: TargetConfig): (r: Frame)
    ensures |r.rows| <= |g.rows|
    ensures !cfg.removeIncompleteDays ==> |r.rows| == |g.rows|
    ensures cfg.removeIncompleteDays ==> forall i :: 0 <= i < |r.rows| ==> HasReturn(r.rows[i])
  {
    var d := Labelled(g, margin, cfg);
    if cfg.removeIncompleteDays then Frame(d.columns, Filter(d.rows, HasReturn)) else d
  }

  /** What every row of the targets carries: `y_up` = [next_ret > margin]; a present `next_ret`
      inside the threshold band when there is one; and a present `next_ret` when incomplete days
      are removed. */
  predicate TargetRow(x: Row, margin: real, cfg: TargetConfig)
  {
    Get(x, YUp) == Label(Get(x, NextRet), margin) &&
    (cfg.removeIncompleteDays ==> HasReturn(x)) &&
    (Band(cfg) && HasReturn(x) ==>
       cfg.minReturnThreshold.value <= Get(x, NextRet).v <= cfg.maxReturnThreshold.value)
  }

  /** The targets of one symbol: its rows only, the two target columns, and `TargetRow` on every
      row. */
  lemma TargetsForSymbolFacts(o: Frame, s: string, margin: real, cfg: TargetConfig)
    ensures var r := TargetsForSymbol(SymbolFrame(o, s), margin, cfg);
      NextRet in r.columns && YUp in r.columns &&
      forall i :: 0 <= i < |r.rows| ==> r.rows[i].sym == s && TargetRow(r.rows[i], margin, cfg)
  {
    var g := SymbolFrame(o, s);
    LabelledColumns(g, margin, cfg);
    SortedRowsOf(o.rows, s);
    TargetRows(g, s, margin, cfg);
  }

  /** When every row of a frame has symbol s, so does every row of its targets, and each meets
      `TargetRow`. */
  lemma TargetRows(g: Frame, s: string, margin: real, cfg: TargetConfig)
    requires forall i :: 0 <= i < |Sort(g.rows, TsKey)| ==> Sort(g.rows, TsKey)[i].sym == s
    ensures var r := TargetsForSymbol(g, margin, cfg);
      forall i :: 0 <= i < |r.rows| ==> r.rows[i].sym == s && TargetRow(r.rows[i], margin, cfg)
  {
    var l := Labelled(g, margin, cfg).rows;
    var r := TargetsForSymbol(g, margin, cfg);
    forall i | 0 <= i < |r.rows|
      ensures r.rows[i].sym == s && TargetRow(r.rows[i], margin, cfg)
    {
      var j: nat := i;
      if cfg.removeIncompleteDays {
        FilterMembers(l, HasReturn);
        assert r.rows[i] in l;
        j :| 0 <= j < |l| && l[j] == r.rows[i];
      }
      LabelledTarget(g, margin, cfg, j);
    }
  }

  /** Row j of the labelled frame carries the symbol of row j in time order, its label, and a
      clipped return inside the band when there is one. */
  lemma LabelledTarget(g: Frame, margin: real, cfg: TargetConfig, j: nat)
    requires j < |g.rows|
    ensures var x := Labelled(g, margin, cfg).rows[j];
      x.sym == Sort(g.rows, TsKey)[j].sym && Get(x, YUp) == Label(Get(x, NextRet), margin) &&
      (Band(cfg) && HasReturn(x) ==> cfg.minReturnThreshold.value <= Get(x, NextRet).v <= cfg.maxReturnThreshold.value)
  {
    LabelledRow(g, margin, cfg, j);
  }

  /** Ordering the rows by time keeps every price present and non-zero. */
  lemma SortedPrices(g: Frame)
    requires forall i :: 0 <= i < |g.rows| ==>
      Get(g.rows[i], PriceColumn(g)).Num? && Get(g.rows[i], PriceColumn(g)).v != 0.0
    ensures var p := Col(Sort(g.rows, TsKey), PriceColumn(g));
      forall i :: 0 <= i < |p| ==> p[i].Num? && p[i].v != 0.0
  {
    var d := Sort(g.rows, TsKey);
    forall i | 0 <= i < |d|
      ensures Get(d[i], PriceColumn(g)).Num? && Get(d[i], PriceColumn(g)).v != 0.0
    {
      assert d[i] in multiset(g.rows);
      var j :| 0 <= j < |g.rows| && g.rows[j] == d[i];
    }
  }

  /** With every price present and non-zero, removing incomplete days drops exactly the last row
      of the symbol. */
  lemma DropsOnlyLastRow(g: Frame, margin: real, cfg: TargetConfig)
    requires cfg.removeIncompleteDays && |g.rows| > 0
    requires forall i :: 0 <= i < |g.rows| ==>
      Get(g.rows[i], PriceColumn(g)).Num? && Get(g.rows[i], PriceColumn(g)).v != 0.0
    ensures var l := Labelled(g, margin, cfg).rows;
      TargetsForSymbol(g, margin, cfg).rows == l[..|l| - 1]
  {
    var d := Sort(g.rows, TsKey);
    var p := Col(d, PriceColumn(g));
    var l := Labelled(g, margin, cfg).rows;
    var n := |l|;
    SortedPrices(g);
    var init := l[..n - 1];
    forall i | 0 <= i < |init|
      ensures HasReturn(init[i])
    {
      LabelledRow(g, margin, cfg, i);
    }
    LabelledRow(g, margin, cfg, n - 1);
    assert !HasReturn(l[n - 1]);
    FilterAll(init, HasReturn);
  }

  // ---------------------------------------------------------------------------------------------
  // `make_targets`

  /** `[col for col in required_columns if col not in df_targets.columns]`. */
  function MissingTargetColumns(columns: seq<string>): (r: seq<string>)
    ensures forall c :: c in r <==> c in TargetRequired && c !in columns
  {
    FilterMembers(TargetRequired, (c: string) => c !in columns);
    Filter(TargetRequired, (c: string) => c !in columns)
  }

  /** `df.sort_values(["symbol", "timestamp"])`. */
  function BySymbol(f: Frame): (o: Frame)
    ensures o.columns == f.columns && multiset(o.rows) == multiset(f.rows)
  {
    Frame(f.columns, Sort(f.rows, SymTsKey))
  }

  /** `_create_targets_for_symbol` with the margin and the configuration fixed. */
  type SymbolTargets = Frame -> Frame

  function ForSymbol(margin: real, cfg: TargetConfig): SymbolTargets
  {
    g => TargetsForSymbol(g, margin, cfg)
  }

  /** The frames the symbol loop appends to `target_frames`, one per symbol, in order. */
  function TargetFrames(o: Frame, syms: seq<string>, t: SymbolTargets): (fs: seq<Frame>)
    ensures |fs| == |syms|
    ensures forall k :: 0 <= k < |syms| ==> fs[k] == t(SymbolFrame(o, syms[k]))
    decreases |syms|
  {
    if |syms| == 0 then [] else
      var n := |syms| - 1;
      assert forall k :: 0 <= k < n ==> syms[..n][k] == syms[k];
      TargetFrames(o, syms[..n], t) + [t(SymbolFrame(o, syms[n]))]
  }

  /** The message of the missing-columns error. */
  function MissingTargetsMessage(missing: seq<string>): string
  {
    "Missing required columns for target generation: " + ListRepr(missing)
  }

  /** What `make_targets` returns or raises. An empty input comes back as it is. */
  function MadeTargets(f: Frame, margin: Option<real>, cfg: TargetConfig): Result<Frame>
  {
    if IsEmpty(f) then Ok(f) else
      var missing := MissingTargetColumns(f.columns);
      if |missing| > 0 then Err(ValueError(MissingTargetsMessage(missing))) else
        var o := BySymbol(f);
        var combined := ConcatFrames(TargetFrames(o, Symbols(o.rows), ForSymbol(EffectiveMargin(margin, cfg), cfg)));
        Ok(Frame(combined.columns, Sort(combined.rows, TsSymKey)))
  }

  /** The symbol loop of `make_targets`. */
  method TargetEach(o: Frame, syms: seq<string>, t: SymbolTargets) returns (frames: seq<Frame>)
    ensures frames == TargetFrames(o, syms, t)
  {
    frames := [];
    var k := 0;
    while k < |syms|
      invariant 0 <= k <= |syms|
      invariant frames == TargetFrames(o, syms[..k], t)
    {
      frames := frames + [t(SymbolFrame(o, syms[k]))];
      assert syms[..k + 1][..k] == syms[..k];
      k := k + 1;
    }
    assert syms[..k] == syms;
  }

  /** `make_targets`. */
  method MakeTargets(f: Frame, margin: Option<real>, cfg: TargetConfig) returns (r: Result<Frame>)
    ensures r == MadeTargets(f, margin, cfg)
  {
    if IsEmpty(f) {
      return Ok(f);
    }
    var missing := MissingTargetColumns(f.columns);
    if |missing| > 0 {
      return Err(ValueError(MissingTargetsMessage(missing)));
    }
    var o := BySymbol(f);
    var frames := TargetEach(o, Symbols(o.rows), ForSymbol(EffectiveMargin(margin, cfg), cfg));
    var combined := ConcatFrames(frames);
    return Ok(Frame(combined.columns, Sort(combined.rows, TsSymKey)));
  }

  // ---------------------------------------------------------------------------------------------
  // What `make_targets` promises.

  /** An empty input is returned unchanged; otherwise the call fails exactly when one of
      timestamp, symbol and close is missing, with a ValueError. */
  lemma MadeTargetsOutcome(f: Frame, margin: Option<real>, cfg: TargetConfig)
    ensures IsEmpty(f) ==> MadeTargets(f, margin, cfg) == Ok(f)
    ensures MadeTargets(f, margin, cfg).Err? <==>
      !IsEmpty(f) && exists c :: c in TargetRequired && c !in f.columns
    ensures MadeTargets(f, margin, cfg).Err? ==> MadeTargets(f, margin, cfg).error.ValueError?
  {
    var missing := MissingTargetColumns(f.columns);
    if exists c :: c in TargetRequired && c !in f.columns {
      var c :| c in TargetRequired && c !in f.columns;
      assert c in missing;
    }
  }

  /** The per-symbol facts the loop's frames have, for every symbol of the loop. */
  lemma TargetFramesFacts(o: Frame, syms: seq<string>, margin: real, cfg: TargetConfig)
    ensures var fs := TargetFrames(o, syms, ForSymbol(margin, cfg));
      Tagged(fs, syms) &&
      (forall k :: 0 <= k < |fs| ==> NextRet in fs[k].columns && YUp in fs[k].columns) &&
      (forall k, i :: 0 <= k < |fs| && 0 <= i < |fs[k].rows| ==> TargetRow(fs[k].rows[i], margin, cfg)) &&
      (!cfg.removeIncompleteDays ==> forall k :: 0 <= k < |fs| ==> |fs[k].rows| == CountOf(o.rows, syms[k]))
  {
    var fs := TargetFrames(o, syms, ForSymbol(margin, cfg));
    forall k | 0 <= k < |fs|
      ensures NextRet in fs[k].columns && YUp in fs[k].columns
      ensures forall i :: 0 <= i < |fs[k].rows| ==> fs[k].rows[i].sym == syms[k] && TargetRow(fs[k].rows[i], margin, cfg)
      ensures !cfg.removeIncompleteDays ==> |fs[k].rows| == CountOf(o.rows, syms[k])
    {
      TargetsForSymbolFacts(o, syms[k], margin, cfg);
    }
  }

  /** On success with a non-empty input, the output is ordered by timestamp then symbol, and the
      rows of each symbol are exactly the targets computed from that symbol's rows alone. Without
      removal of incomplete days no row is lost. */
  lemma MadeTargetsRows(f: Frame, margin: Option<real>, cfg: TargetConfig)
    requires !IsEmpty(f) && MadeTargets(f, margin, cfg).Ok?
    ensures var g := MadeTargets(f, margin, cfg).value;
      var m := EffectiveMargin(margin, cfg);
      SortedBy(g.rows, TsSymKey) &&
      (forall s :: s !in Symbols(f.rows) ==> RowsOf(g.rows, s) == []) &&
      (forall s :: s in Symbols(f.rows) ==>
         multiset(RowsOf(g.rows, s)) == multiset(TargetsForSymbol(SymbolFrame(BySymbol(f), s), m, cfg).rows)) &&
      (!cfg.removeIncompleteDays ==> |g.rows| == |f.rows|)
  {
    var m := EffectiveMargin(margin, cfg);
    var o := BySymbol(f);
    var syms := Symbols(o.rows);
    var frames := TargetFrames(o, syms, ForSymbol(m, cfg));
    var rows := ConcatRows(frames);
    ConcatFramesRows(frames);
    var g := MadeTargets(f, margin, cfg).value;
    assert g.rows == Sort(rows, TsSymKey);
    TargetFramesFacts(o, syms, m, cfg);
    ConcatBySymbol(frames, syms);
    SymbolsOfPermutation(o.rows, f.rows);
    forall s | s in Symbols(f.rows)
      ensures multiset(RowsOf(g.rows, s)) == multiset(TargetsForSymbol(SymbolFrame(o, s), m, cfg).rows)
    {
      var k :| 0 <= k < |syms| && syms[k] == s;
    }
    if !cfg.removeIncompleteDays {
      ConcatRowsLength(frames, o.rows, syms);
      GroupedIsPermutation(o.rows);
      assert |multiset(Grouped(o.rows, syms))| == |multiset(o.rows)|;
      assert |multiset(g.rows)| == |multiset(rows)|;
    }
  }

  /** Both target columns exist in the output, and every output row carries `TargetRow` with the
      effective margin. */
  lemma MadeTargetsLabels(f: Frame, margin: Option<real>, cfg: TargetConfig)
    requires !IsEmpty(f) && MadeTargets(f, margin, cfg).Ok?
    ensures var g := MadeTargets(f, margin, cfg).value;
      NextRet in g.columns && YUp in g.columns &&
      forall x :: x in g.rows ==> TargetRow(x, EffectiveMargin(margin, cfg), cfg)
  {
    var m := EffectiveMargin(margin, cfg);
    var o := BySymbol(f);
    var syms := Symbols(o.rows);
    var frames := TargetFrames(o, syms, ForSymbol(m, cfg));
    ConcatFramesRows(frames);
    TargetFramesFacts(o, syms, m, cfg);
    assert o.rows[0].sym in syms;
    assert NextRet in frames[0].columns && YUp in frames[0].columns;
    ConcatSortedAll(frames, TsSymKey, (x: Row) => TargetRow(x, m, cfg));
  }

  // ---------------------------------------------------------------------------------------------
  // `validate_targets`

  /** `set(df["y_up"].unique()).issubset({0, 1})` for one value (True and False equal 1 and 0). */
  predicate Binary(c: Cell)
  {
    c == Num(0.0) || c == Num(1.0) || c.Flag?
  }

  /** `validate_targets`. Returns outside [-100%, +100%] only log a warning. */
  function ValidateTargets(f: Frame): (ok: bool)
  {
    if NextRet !in f.columns || YUp !in f.columns then false
    else if exists i :: 0 <= i < |f.rows| && Get(f.rows[i], NextRet).NaN? then false
    else if exists i :: 0 <= i < |f.rows| && Get(f.rows[i], YUp).NaN? then false
    else forall i :: 0 <= i < |f.rows| ==> Binary(Get(f.rows[i], YUp))
  }

  /** With incomplete days removed, whatever `make_targets` returns passes `validate_targets`. */
  lemma MadeTargetsValid(f: Frame, margin: Option<real>, cfg: TargetConfig)
    requires !IsEmpty(f) && MadeTargets(f, margin, cfg).Ok? && cfg.removeIncompleteDays
    ensures ValidateTargets(MadeTargets(f, margin, cfg).value)
  {
    MadeTargetsLabels(f, margin, cfg);
    TargetRowsValid(MadeTargets(f, margin, cfg).value, EffectiveMargin(margin, cfg), cfg);
  }

  /** A frame with both target columns whose rows all carry `TargetRow` with removal of incomplete
      days passes `validate_targets`. */
  lemma TargetRowsValid(g: Frame, margin: real, cfg: TargetConfig)
    requires cfg.removeIncompleteDays && NextRet in g.columns && YUp in g.columns
    requires forall x :: x in g.rows ==> TargetRow(x, margin, cfg)
    ensures ValidateTargets(g)
  {
    forall i | 0 <= i < |g.rows|
      ensures !Get(g.rows[i], NextRet).NaN? && Get(g.rows[i], YUp) != NaN && Binary(Get(g.rows[i], YUp))
    {
      assert g.rows[i] in g.rows;
    }
  }

  /** Keeping incomplete days, a symbol with rows keeps a row without a return: its last. */
  lemma LastRowIncomplete(o: Frame, j: nat, margin: real, cfg: TargetConfig)
    requires !cfg.removeIncompleteDays && j < |o.rows|
    ensures var r := TargetsForSymbol(SymbolFrame(o, o.rows[j].sym), margin, cfg).rows;
      |r| > 0 && Get(r[|r| - 1], NextRet).NaN?
  {
    var sf := SymbolFrame(o, o.rows[j].sym);
    FilterMembers(o.rows, (x: Row) => x.sym == o.rows[j].sym);
    assert o.rows[j] in RowsOf(o.rows, o.rows[j].sym);
    LabelledRow(sf, margin, cfg, |sf.rows| - 1);
  }

  /** When the first symbol's frame ends in a row without a return, so does every ordering of
      the frames of all symbols. */
  lemma IncompleteFramesFail(o: Frame, syms: seq<string>, t: SymbolTargets, g: Frame)
    requires |syms| > 0
    requires var r := t(SymbolFrame(o, syms[0])).rows;
      |r| > 0 && Get(r[|r| - 1], NextRet).NaN?
    requires g.rows == Sort(ConcatRows(TargetFrames(o, syms, t)), TsSymKey)
    ensures !ValidateTargets(g)
  {
    var frames := TargetFrames(o, syms, t);
    FrameRowWithoutReturn(frames, g, 0, |frames[0].rows| - 1);
  }

  /** Keeping incomplete days, the last row of every symbol has no return, so the output of a
      non-empty input never passes `validate_targets`. */
  lemma IncompleteDaysFailValidation(f: Frame, margin: Option<real>, cfg: TargetConfig)
    requires !IsEmpty(f) && MadeTargets(f, margin, cfg).Ok? && !cfg.removeIncompleteDays
    ensures !ValidateTargets(MadeTargets(f, margin, cfg).value)
  {
    var o := BySymbol(f);
    MadeTargetsAssembled(f, margin, cfg);
    FirstSymbolIncomplete(o, EffectiveMargin(margin, cfg), cfg);
    IncompleteSymbolsFail(o, ForSymbol(EffectiveMargin(margin, cfg), cfg), MadeTargets(f, margin, cfg).value);
  }

  /** How a successful `make_targets` on rows assembles its output from the symbol loop. */
  lemma MadeTargetsAssembled(f: Frame, margin: Option<real>, cfg: TargetConfig)
    requires !IsEmpty(f) && MadeTargets(f, margin, cfg).Ok?
    ensures var o := BySymbol(f);
      |o.rows| > 0 &&
      MadeTargets(f, margin, cfg).value.rows ==
        Sort(ConcatRows(TargetFrames(o, Symbols(o.rows), ForSymbol(EffectiveMargin(margin, cfg), cfg))), TsSymKey)
  {
    var o := BySymbol(f);
    ConcatFramesRows(TargetFrames(o, Symbols(o.rows), ForSymbol(EffectiveMargin(margin, cfg), cfg)));
    assert |multiset(o.rows)| == |multiset(f.rows)|;
  }

  /** Keeping incomplete days, the frame of the first row's symbol ends in a row without a return. */
  lemma FirstSymbolIncomplete(o: Frame, m: real, cfg: TargetConfig)
    requires !cfg.removeIncompleteDays && |o.rows| > 0
    ensures var r := ForSymbol(m, cfg)(SymbolFrame(o, o.rows[0].sym)).rows;
      |r| > 0 && Get(r[|r| - 1], NextRet).NaN?
  {
    LastRowIncomplete(o, 0, m, cfg);
  }

  /** The output rows of the symbol loop over all symbols of a frame with rows, in any order,
      hold a row without a return when the first symbol's frame ends in one. */
  lemma IncompleteSymbolsFail(o: Frame, t: SymbolTargets, g: Frame)
    requires |o.rows| > 0
    requires var r := t(SymbolFrame(o, o.rows[0].sym)).rows;
      |r| > 0 && Get(r[|r| - 1], NextRet).NaN?
    requires g.rows == Sort(ConcatRows(TargetFrames(o, Symbols(o.rows), t)), TsSymKey)
    ensures !ValidateTargets(g)
  {
    SymbolsFirst(o.rows);
    IncompleteFramesFail(o, Symbols(o.rows), t, g);
  }

  /** One row without a return is enough to fail `validate_targets`. */
  lemma RowWithoutReturn(g: Frame, x: Row)
    requires x in g.rows && Get(x, NextRet).NaN?
    ensures !ValidateTargets(g)
  {
    var i :| 0 <= i < |g.rows| && g.rows[i] == x;
  }

  /** The same, for a row of one of the per-symbol frames the output is assembled from. */
  lemma FrameRowWithoutReturn(fs: seq<Frame>, g: Frame, k: nat, i: nat)
    requires g.rows == Sort(ConcatRows(fs), TsSymKey)
    requires k < |fs| && i < |fs[k].rows| && Get(fs[k].rows[i], NextRet).NaN?
    ensures !ValidateTargets(g)
  {
    ConcatSortedContains(fs, TsSymKey, k, i);
    RowWithoutReturn(g, fs[k].rows[i]);
  }

  // ---------------------------------------------------------------------------------------------
  // `get_target_summary`

  /** `(df["y_up"] == 0)` for one value. */
  predicate IsDown(x: Row)
  {
    Get(x, YUp) == Num(0.0) || Get(x, YUp) == Flag(false)
  }

  datatype SymbolSummary = SymbolSummary(records: nat, upRate: Cell, meanReturn: Cell)

  /** The parts of the summary dictionary the model keeps (the spread statistics are left out). */
  datatype Summary =
    | TargetsNotFound
    | Summary(totalRecords: nat, symbols: nat, meanReturn: Cell, upDays: real, downDays: nat,
              upRate: Cell, classBalance: Cell, bySymbol: map<string, SymbolSummary>)

  /** `get_target_summary`. Reading `df["symbol"]` raises a KeyError when that column is absent. */
  function TargetSummary(f: Frame): (r: Result<Summary>)
    ensures r.Ok? && r.value.TargetsNotFound? <==> NextRet !in f.columns || YUp !in f.columns
    ensures r.Err? <==> NextRet in f.columns && YUp in f.columns && "symbol" !in f.columns
    ensures r.Ok? && r.value.Summary? ==>
      r.value.totalRecords == |f.rows| &&
      (forall s :: s in r.value.bySymbol <==> s in Symbols(f.rows)) &&
      forall s :: s in r.value.bySymbol ==> r.value.bySymbol[s].records == CountOf(f.rows, s)
  {
    if NextRet !in f.columns || YUp !in f.columns then Ok(TargetsNotFound)
    else if "symbol" !in f.columns then Err(KeyError("symbol"))
    else
      var ups := Col(f.rows, YUp);
      var upRate := Mean(ups);
      Ok(Summary(
        |f.rows|, |Symbols(f.rows)|, Mean(Col(f.rows, NextRet)),
        Sum(NonMissing(ups)), CountWhere(f.rows, IsDown), upRate,
        if upRate.Num? then Num(if upRate.v >= 0.5 then upRate.v - 0.5 else 0.5 - upRate.v) else NaN,
        map s | s in Symbols(f.rows) ::
          SymbolSummary(CountOf(f.rows, s), Mean(Col(RowsOf(f.rows, s), YUp)), Mean(Col(RowsOf(f.rows, s), NextRet)))))
  }

  /** Labels that are all 0 or 1: the up days are the labels that are 1, and up and down days add
      up to the number of rows. */
  lemma {:induction false} BinaryLabelCounts(rows: seq<Row>)
    requires forall i :: 0 <= i < |rows| ==> Get(rows[i], YUp) == Num(0.0) || Get(rows[i], YUp) == Num(1.0)
    ensures |NonMissing(Col(rows, YUp))| == |rows|
    ensures Sum(NonMissing(Col(rows, YUp))) + CountWhere(rows, IsDown) as real == |rows| as real
    ensures 0.0 <= Sum(NonMissing(Col(rows, YUp))) <= |rows| as real
  {
    if |rows| > 0 {
      var init := rows[..|rows| - 1];
      BinaryLabelCounts(init);
      var c := Col(rows, YUp);
      assert c[..|c| - 1] == Col(init, YUp);
    }
  }

  /** The summary of a frame carrying both target columns and the symbol column whose labels are
      all 0 or 1: up and down days add up to the records, and the up rate lies in [0, 1], so the
      class balance is at most 0.5. */
  lemma BinarySummary(g: Frame)
    requires NextRet in g.columns && YUp in g.columns && "symbol" in g.columns
    requires forall i :: 0 <= i < |g.rows| ==> Get(g.rows[i], YUp) == Num(0.0) || Get(g.rows[i], YUp) == Num(1.0)
    ensures var s := TargetSummary(g);
      s.Ok? && s.value.Summary? &&
      s.value.upDays + s.value.downDays as real == s.value.totalRecords as real &&
      (s.value.totalRecords > 0 ==>
         s.value.upRate.Num? && 0.0 <= s.value.upRate.v <= 1.0 &&
         s.value.classBalance.Num? && s.value.classBalance.v <= 0.5)
  {
    var ups := Col(g.rows, YUp);
    BinaryLabelCounts(g.rows);
    var s := TargetSummary(g).value;
    assert s.upDays == Sum(NonMissing(ups)) && s.upRate == Mean(ups);
    if |g.rows| > 0 {
      RateBounds(Sum(NonMissing(ups)), |g.rows| as real);
    }
  }

  /** A share of a positive whole lies in [0, 1]. */
  lemma RateBounds(u: real, n: real)
    requires n > 0.0 && 0.0 <= u <= n
    ensures 0.0 <= u / n <= 1.0
  {
    assert u / n * n == u;
  }

  /** With incomplete days removed, every label of a `make_targets` result is 0 or 1. */
  lemma MadeTargetsBinary(f: Frame, margin: Option<real>, cfg: TargetConfig)
    requires !IsEmpty(f) && MadeTargets(f, margin, cfg).Ok? && cfg.removeIncompleteDays
    ensures var g := MadeTargets(f, margin, cfg).value;
      NextRet in g.columns && YUp in g.columns &&
      forall i :: 0 <= i < |g.rows| ==> Get(g.rows[i], YUp) == Num(0.0) || Get(g.rows[i], YUp) == Num(1.0)
  {
    var g := MadeTargets(f, margin, cfg).value;
    MadeTargetsLabels(f, margin, cfg);
    forall i | 0 <= i < |g.rows|
      ensures Get(g.rows[i], YUp) == Num(0.0) || Get(g.rows[i], YUp) == Num(1.0)
    {
      assert g.rows[i] in g.rows;
    }
  }

  /** The summary of a `make_targets` result with incomplete days removed: up and down days add up
      to the records, and the up rate lies in [0, 1], so the class balance is at most 0.5. */
  lemma MadeTargetsSummary(f: Frame, margin: Option<real>, cfg: TargetConfig)
    requires !IsEmpty(f) && MadeTargets(f, margin, cfg).Ok? && cfg.removeIncompleteDays
    requires "symbol" in MadeTargets(f, margin, cfg).value.columns
    ensures var s := TargetSummary(MadeTargets(f, margin, cfg).value);
      s.Ok? && s.value.Summary? &&
      s.value.upDays + s.value.downDays as real == s.value.totalRecords as real &&
      (s.value.totalRecords > 0 ==>
         s.value.upRate.Num? && 0.0 <= s.value.upRate.v <= 1.0 &&
         s.value.classBalance.Num? && s.value.classBalance.v <= 0.5)
  {
    MadeTargetsBinary(f, margin, cfg);
    BinarySummary(MadeTargets(f, margin, cfg).value);
  }
}

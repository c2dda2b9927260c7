/** `DirectionModel`: the bookkeeping around a gradient-boosted up/down classifier. Training,
    prediction, fold splitting and scoring are foreign; the model keeps what the class does with
    their results: the fitted-state guards, label validation, the missing-value fill before
    training, column reindexing, the top-N importance listing, the per-fold score record and the
    save/load round trip. */
module ModelDirection {
  import opened Wrappers
  import opened Frames

  // ---------------------------------------------------------------------------------------------
  // Configuration, feature tables and the foreign estimator.

  /** `ModelConfig` with its defaults; reals stand for the Python floats. */
  datatype ModelConfig = ModelConfig(
    numLeaves: int, learningRate: real, featureFraction: real, baggingFraction: real,
    baggingFreq: int, minChildSamples: int, regAlpha: real, regLambda: real, randomState: int,
    nEstimators: int, earlyStoppingRounds: int, cvSplits: int, testSizeRatio: real,
    posLabel: int, average: string, modelFile: string)

  const DefaultConfig := ModelConfig(31, 0.05, 0.8, 0.8, 5, 20, 0.1, 0.1, 42, 100, 10, 5, 0.2, 1, "binary", "model.pkl")

  /** A named feature column. */
  datatype Column = Column(name: string, cells: seq<Cell>)

  /** A feature table `X`: its columns in order and its number of rows. */
  datatype Table = Table(cols: seq<Column>, height: nat)

  /** A trained estimator as far as this class sees it: per-feature gains and the best iteration. */
  datatype Booster = Booster(importances: seq<real>, bestIteration: int, id: nat)

  /** `list(X.columns)`. */
  function Names(x: Table): (r: seq<string>)
    ensures |r| == |x.cols|
    ensures forall k :: 0 <= k < |r| ==> r[k] == x.cols[k].name
  {
    seq(|x.cols|, k requires 0 <= k < |x.cols| => x.cols[k].name)
  }

  /** `X[name]`: the first column with that name, or nothing. */
  function ColumnOf(x: Table, name: string): seq<Cell>
  {
    ColumnIn(x.cols, name)
  }

  function ColumnIn(cols: seq<Column>, name: string): seq<Cell>
  {
    if |cols| == 0 then [] else if cols[0].name == name then cols[0].cells else ColumnIn(cols[1..], name)
  }

  /** `X.isnull().any().any()`. */
  predicate AnyMissing(x: Table)
  {
    exists k, i :: 0 <= k < |x.cols| && 0 <= i < |x.cols[k].cells| && x.cols[k].cells[i] == NaN
  }

  // ---------------------------------------------------------------------------------------------
  // `_validate_data`.

  /** What `_validate_data` warns about without raising. */
  datatype Warning = MissingFeatures | FewSamples | ClassImbalance

  const MissingTargetMessage := "target has missing values"
  const LabelMessage := "only targets 0 and 1 are supported"

  /** A label in {0, 1}; a boolean compares equal to 0 or 1 in Python. */
  predicate IsLabel(c: Cell)
  {
    c == Num(0.0) || c == Num(1.0) || c.Flag?
  }

  predicate IsPositive(c: Cell)
  {
    c == Num(1.0) || c == Flag(true)
  }

  /** `y.mean()` of a list of labels; NaN (`None`) when the list is empty. */
  function PositiveRatio(y: seq<Cell>): Option<real>
  {
    if |y| == 0 then None else Some(CountWhere(y, IsPositive) as real / |y| as real)
  }

  /** `_validate_data`: raises on a missing or non-binary label; otherwise the warnings logged. */
  function ValidateData(x: Table, y: seq<Cell>): Result<seq<Warning>>
  {
    var missing := if AnyMissing(x) then [MissingFeatures] else [];
    if NaN in y then Err(ValueError(MissingTargetMessage))
    else if exists c :: c in y && !IsLabel(c) then Err(ValueError(LabelMessage))
    else
      var few := if x.height < 100 then [FewSamples] else [];
      var ratio := PositiveRatio(y);
      var imbalance := if ratio.Some? && (ratio.value < 0.1 || ratio.value > 0.9) then [ClassImbalance] else [];
      Ok(missing + few + imbalance)
  }

  /** Validation raises exactly when some label is missing or outside {0, 1}; the features, the
      sample count and the class balance only ever produce warnings. */
  lemma ValidateDataRaises(x: Table, y: seq<Cell>)
    ensures ValidateData(x, y).Ok? <==> forall c :: c in y ==> IsLabel(c)
    ensures ValidateData(x, y).Err? ==> ValidateData(x, y).error.ValueError?
  {
    if ValidateData(x, y).Ok? {
      assert NaN !in y;
    }
  }

  /** Which labels are accepted does not depend on the features. */
  lemma ValidateDataIgnoresFeatures(x1: Table, x2: Table, y: seq<Cell>)
    ensures ValidateData(x1, y).Ok? == ValidateData(x2, y).Ok?
    ensures ValidateData(x1, y).Err? ==> ValidateData(x1, y) == ValidateData(x2, y)
  {
  }

  /** The warnings, when validation passes: a missing feature value, fewer than 100 rows, and a
      positive ratio outside [0.1, 0.9]. */
  lemma ValidateDataWarnings(x: Table, y: seq<Cell>)
    requires forall c :: c in y ==> IsLabel(c)
    ensures ValidateData(x, y).Ok?
    ensures MissingFeatures in ValidateData(x, y).value <==> AnyMissing(x)
    ensures FewSamples in ValidateData(x, y).value <==> x.height < 100
    ensures ClassImbalance in ValidateData(x, y).value <==>
      |y| > 0 && (PositiveRatio(y).value < 0.1 || PositiveRatio(y).value > 0.9)
  {
    ValidateDataRaises(x, y);
  }

  // ---------------------------------------------------------------------------------------------
  // `X.ffill().fillna(0)`.

  /** `X.ffill().fillna(0)`. */
  function FillMissing(x: Table): (r: Table)
    ensures Names(r) == Names(x) && r.height == x.height
  {
    Table(seq(|x.cols|, k requires 0 <= k < |x.cols| => Column(x.cols[k].name, FillZero(ForwardFill(x.cols[k].cells)))), x.height)
  }

  /** The table `fit` trains on: filled only when something is missing. */
  function TrainingInput(x: Table): Table
  {
    if AnyMissing(x) then FillMissing(x) else x
  }

  /** After `ffill().fillna(0)` a column has no missing cell; a present cell is kept; a missing
      cell holds the nearest present cell above it, or 0 when there is none. */
  lemma FilledColumn(s: seq<Cell>, i: nat)
    requires i < |s|
    ensures FillZero(ForwardFill(s))[i] != NaN
    ensures s[i] != NaN ==> FillZero(ForwardFill(s))[i] == s[i]
    ensures s[i] == NaN ==>
      (FillZero(ForwardFill(s))[i] == Num(0.0) && forall k :: 0 <= k <= i ==> s[k] == NaN) ||
      (exists j :: 0 <= j < i && s[j] != NaN && FillZero(ForwardFill(s))[i] == s[j] && forall k :: j < k <= i ==> s[k] == NaN)
  {
    ForwardFillMeaning(s, i);
    FillZeroAfterFill(s, ForwardFill(s), i);
  }

  /** The zero fill of any series related to `s` as a forward fill is. */
  lemma FillZeroAfterFill(s: seq<Cell>, f: seq<Cell>, i: nat)
    requires i < |s| == |f|
    requires s[i] != NaN ==> f[i] == s[i]
    requires f[i] == NaN ==> forall k :: 0 <= k <= i ==> s[k] == NaN
    requires f[i] != NaN ==>
      exists j :: 0 <= j <= i && s[j] != NaN && f[i] == s[j] && forall k :: j < k <= i ==> s[k] == NaN
    ensures FillZero(f)[i] != NaN
    ensures s[i] != NaN ==> FillZero(f)[i] == s[i]
    ensures s[i] == NaN ==>
      (FillZero(f)[i] == Num(0.0) && forall k :: 0 <= k <= i ==> s[k] == NaN) ||
      (exists j :: 0 <= j < i && s[j] != NaN && FillZero(f)[i] == s[j] && forall k :: j < k <= i ==> s[k] == NaN)
  {
    var z := FillZero(f);
    if f[i] != NaN {
      assert z[i] == f[i];
      var j :| 0 <= j <= i && s[j] != NaN && f[i] == s[j] && forall k :: j < k <= i ==> s[k] == NaN;
      if s[i] == NaN {
        assert j < i;
      }
    }
  }

  /** The table `fit` trains on has the same columns and rows, and no missing value. */
  lemma TrainingInputComplete(x: Table)
    ensures Names(TrainingInput(x)) == Names(x) && TrainingInput(x).height == x.height
    ensures !AnyMissing(TrainingInput(x))
  {
  }

  // ---------------------------------------------------------------------------------------------
  // Insertion-ordered dictionaries of importances.

  /** A Python dict from feature name to importance, in insertion order. */
  type Importances = seq<(string, real)>

  predicate DistinctKeys(d: Importances)
  {
    forall i, j :: 0 <= i < j < |d| ==> d[i].0 != d[j].0
  }

  function Keys(d: Importances): set<string>
  {
    set p | p in d :: p.0
  }

  /** `d[k]`, or nothing. */
  function Lookup(d: Importances, k: string): Option<real>
  {
    if |d| == 0 then None else if d[0].0 == k then Some(d[0].1) else Lookup(d[1..], k)
  }

  /** `d[k] = v`: an existing key keeps its place, a new one goes last. */
  function Assoc(d: Importances, k: string, v: real): Importances
  {
    if |d| == 0 then [(k, v)]
    else if d[0].0 == k then [(k, v)] + d[1..]
    else [d[0]] + Assoc(d[1..], k, v)
  }

  /** `dict(pairs)`. */
  function DictOf(pairs: seq<(string, real)>): Importances
  {
    if |pairs| == 0 then [] else
      var last := pairs[|pairs| - 1];
      Assoc(DictOf(pairs[..|pairs| - 1]), last.0, last.1)
  }

  /** `zip(names, values)`: as many pairs as the shorter list. */
  function Zip(names: seq<string>, values: seq<real>): (r: seq<(string, real)>)
    ensures |r| == if |names| <= |values| then |names| else |values|
    ensures forall i :: 0 <= i < |r| ==> r[i] == (names[i], values[i])
  {
    if |names| == 0 || |values| == 0 then [] else [(names[0], values[0])] + Zip(names[1..], values[1..])
  }

  lemma {:induction false} AssocKeys(d: Importances, k: string, v: real)
    ensures Keys(Assoc(d, k, v)) == Keys(d) + {k}
    decreases |d|
  {
    if |d| == 0 {
      KeysCons((k, v), d);
      assert Keys(d) == {};
    } else {
      assert d == [d[0]] + d[1..];
      KeysCons(d[0], d[1..]);
      if d[0].0 == k {
        KeysCons((k, v), d[1..]);
      } else {
        AssocKeys(d[1..], k, v);
        KeysCons(d[0], Assoc(d[1..], k, v));
      }
    }
  }

  lemma {:induction false} AssocDistinct(d: Importances, k: string, v: real)
    requires DistinctKeys(d)
    ensures DistinctKeys(Assoc(d, k, v))
    decreases |d|
  {
    if |d| > 0 {
      assert d == [d[0]] + d[1..];
      KeysCons(d[0], d[1..]);
      if d[0].0 == k {
        KeysCons((k, v), d[1..]);
      } else {
        AssocDistinct(d[1..], k, v);
        AssocKeys(d[1..], k, v);
        KeysCons(d[0], Assoc(d[1..], k, v));
      }
    }
  }

  lemma {:induction false} AssocLookup(d: Importances, k: string, v: real, k': string)
    ensures Lookup(Assoc(d, k, v), k') == if k' == k then Some(v) else Lookup(d, k')
    decreases |d|
  {
    if |d| > 0 && d[0].0 != k {
      AssocLookup(d[1..], k, v, k');
      var t := Assoc(d[1..], k, v);
      assert ([d[0]] + t)[1..] == t;
    } else if |d| > 0 {
      assert ([(k, v)] + d[1..])[1..] == d[1..];
    }
  }

  /** `d[k] = v` on a dict: the keys gain k, stay distinct, k maps to v and nothing else changes. */
  lemma AssocFacts(d: Importances, k: string, v: real)
    requires DistinctKeys(d)
    ensures DistinctKeys(Assoc(d, k, v))
    ensures Keys(Assoc(d, k, v)) == Keys(d) + {k}
    ensures Lookup(Assoc(d, k, v), k) == Some(v)
    ensures forall k' :: k' != k ==> Lookup(Assoc(d, k, v), k') == Lookup(d, k')
  {
    AssocKeys(d, k, v);
    AssocDistinct(d, k, v);
    AssocLookup(d, k, v, k);
    forall k' | k' != k ensures Lookup(Assoc(d, k, v), k') == Lookup(d, k') {
      AssocLookup(d, k, v, k');
    }
  }

  /** The last value given for a key among the pairs. */
  predicate LastFor(pairs: seq<(string, real)>, k: string, v: real)
  {
    exists i :: 0 <= i < |pairs| && pairs[i] == (k, v) && forall j :: i < j < |pairs| ==> pairs[j].0 != k
  }

  lemma KeysSnoc(d: Importances, p: (string, real))
    ensures Keys(d + [p]) == Keys(d) + {p.0}
  {
    assert forall q :: q in d + [p] <==> q in d || q == p;
  }

  /** `dict(pairs)` has one entry per distinct name. */
  lemma {:induction false} DictOfKeys(pairs: seq<(string, real)>)
    ensures DistinctKeys(DictOf(pairs))
    ensures Keys(DictOf(pairs)) == Keys(pairs)
    decreases |pairs|
  {
    if |pairs| > 0 {
      var init := pairs[..|pairs| - 1];
      var last := pairs[|pairs| - 1];
      DictOfKeys(init);
      AssocKeys(DictOf(init), last.0, last.1);
      AssocDistinct(DictOf(init), last.0, last.1);
      assert pairs == init + [last];
      KeysSnoc(init, last);
    }
  }

  lemma LastForLast(pairs: seq<(string, real)>, v: real)
    requires |pairs| > 0
    ensures LastFor(pairs, pairs[|pairs| - 1].0, v) <==> v == pairs[|pairs| - 1].1
  {
    var k := pairs[|pairs| - 1].0;
    if LastFor(pairs, k, v) {
      var i :| 0 <= i < |pairs| && pairs[i] == (k, v) && forall j :: i < j < |pairs| ==> pairs[j].0 != k;
      assert i == |pairs| - 1;
    }
  }

  lemma LastForOther(pairs: seq<(string, real)>, k: string, v: real)
    requires |pairs| > 0 && k != pairs[|pairs| - 1].0
    ensures LastFor(pairs, k, v) <==> LastFor(pairs[..|pairs| - 1], k, v)
  {
    var init := pairs[..|pairs| - 1];
    if LastFor(init, k, v) {
      var i :| 0 <= i < |init| && init[i] == (k, v) && forall j :: i < j < |init| ==> init[j].0 != k;
      assert pairs[i] == (k, v);
    }
    if LastFor(pairs, k, v) {
      var i :| 0 <= i < |pairs| && pairs[i] == (k, v) && forall j :: i < j < |pairs| ==> pairs[j].0 != k;
      assert i < |init| && init[i] == (k, v);
    }
  }

  /** Each entry of `dict(pairs)` holds the last value given for its name. */
  lemma {:induction false} DictOfValues(pairs: seq<(string, real)>, k: string, v: real)
    ensures Lookup(DictOf(pairs), k) == Some(v) <==> LastFor(pairs, k, v)
    decreases |pairs|
  {
    if |pairs| > 0 {
      var init := pairs[..|pairs| - 1];
      var last := pairs[|pairs| - 1];
      DictOfKeys(init);
      AssocFacts(DictOf(init), last.0, last.1);
      assert DictOf(pairs) == Assoc(DictOf(init), last.0, last.1);
      if k == last.0 {
        LastForLast(pairs, v);
      } else {
        DictOfValues(init, k, v);
        LastForOther(pairs, k, v);
      }
    }
  }

  /** `dict` of pairs whose names are already distinct is those pairs, in order. */
  lemma {:induction false} DictOfDistinct(pairs: seq<(string, real)>)
    requires DistinctKeys(pairs)
    ensures DictOf(pairs) == pairs
    decreases |pairs|
  {
    if |pairs| > 0 {
      var init := pairs[..|pairs| - 1];
      var last := pairs[|pairs| - 1];
      DictOfDistinct(init);
      assert last.0 !in Keys(init) by {
        forall p | p in init ensures p.0 != last.0 {
          var j :| 0 <= j < |init| && init[j] == p;
          assert pairs[j] == p;
        }
      }
      AssocAppends(init, last.0, last.1);
    }
  }

  lemma {:induction false} AssocAppends(d: Importances, k: string, v: real)
    requires k !in Keys(d)
    ensures Assoc(d, k, v) == d + [(k, v)]
    decreases |d|
  {
    if |d| > 0 {
      assert d[0] in d;
      assert Keys(d[1..]) <= Keys(d) by {
        forall p | p in d[1..] ensures p in d {
        }
      }
      AssocAppends(d[1..], k, v);
      assert d == [d[0]] + d[1..];
    }
  }

  // ---------------------------------------------------------------------------------------------
  // `get_feature_importance`.

  predicate NonIncreasing(s: seq<(string, real)>)
  {
    forall i, j :: 0 <= i < j < |s| ==> s[i].1 >= s[j].1
  }

  /** Places `x` before the first entry scoring no more than it. */
  function InsertDesc(x: (string, real), t: seq<(string, real)>): (r: seq<(string, real)>)
    ensures multiset(r) == multiset(t) + multiset{x}
  {
    if |t| == 0 then [x]
    else if x.1 >= t[0].1 then [x] + t
    else
      assert t == [t[0]] + t[1..];
      [t[0]] + InsertDesc(x, t[1..])
  }

  /** `sorted(items, key=score, reverse=True)`: stable, so ties keep their order. */
  function SortDesc(s: seq<(string, real)>): (r: seq<(string, real)>)
    ensures multiset(r) == multiset(s)
  {
    if |s| == 0 then []
    else
      assert s == [s[0]] + s[1..];
      InsertDesc(s[0], SortDesc(s[1..]))
  }

  lemma {:induction false} InsertDescSorted(x: (string, real), t: seq<(string, real)>)
    requires NonIncreasing(t)
    ensures NonIncreasing(InsertDesc(x, t))
    decreases |t|
  {
    if |t| > 0 && x.1 < t[0].1 {
      InsertDescSorted(x, t[1..]);
      var r := InsertDesc(x, t[1..]);
      forall p | p in r ensures p.1 <= t[0].1 {
        assert p in multiset(r);
        if p != x {
          assert p in multiset(t[1..]);
          var j :| 0 <= j < |t[1..]| && t[1..][j] == p;
          assert t[j + 1] == p;
        }
      }
      assert InsertDesc(x, t) == [t[0]] + r;
    }
  }

  lemma {:induction false} SortDescSorted(s: seq<(string, real)>)
    ensures NonIncreasing(SortDesc(s))
    decreases |s|
  {
    if |s| > 0 {
      SortDescSorted(s[1..]);
      InsertDescSorted(s[0], SortDesc(s[1..]));
    }
  }

  /** The end of the Python slice `s[:n]` for a list of length `len`. */
  function SliceEnd(len: nat, n: int): (e: nat)
    ensures e <= len
  {
    if n >= 0 then (if n <= len then n else len)
    else if len + n >= 0 then len + n else 0
  }

  const NoImportanceMessage := "feature importances are not computed; call fit() first"

  /** `get_feature_importance(top_n)` over the stored importances. */
  function FeatureImportanceOf(imps: Option<Importances>, topN: int): (r: Result<Importances>)
    ensures imps.None? <==> r == Err(ValueError(NoImportanceMessage))
  {
    if imps.None? then Err(ValueError(NoImportanceMessage))
    else
      var sorted := SortDesc(imps.value);
      Ok(DictOf(sorted[..SliceEnd(|sorted|, topN)]))
  }

  lemma KeysCons(p: (string, real), t: Importances)
    ensures Keys([p] + t) == {p.0} + Keys(t)
    ensures DistinctKeys([p] + t) <==> p.0 !in Keys(t) && DistinctKeys(t)
  {
    var d := [p] + t;
    assert forall q :: q in d <==> q == p || q in t;
    if DistinctKeys(d) {
      forall q | q in t ensures q.0 != p.0 {
        var j :| 0 <= j < |t| && t[j] == q;
        assert d[0] == p && d[j + 1] == q;
      }
      forall i, j | 0 <= i < j < |t| ensures t[i].0 != t[j].0 {
        assert d[i + 1] == t[i] && d[j + 1] == t[j];
      }
    }
    if p.0 !in Keys(t) && DistinctKeys(t) {
      forall i, j | 0 <= i < j < |d| ensures d[i].0 != d[j].0 {
        if i == 0 {
          assert d[j] == t[j - 1];
          assert t[j - 1] in t;
        } else {
          assert d[i] == t[i - 1] && d[j] == t[j - 1];
        }
      }
    }
  }

  lemma {:induction false} InsertDescKeys(x: (string, real), t: Importances)
    ensures Keys(InsertDesc(x, t)) == Keys(t) + {x.0}
    ensures DistinctKeys(t) && x.0 !in Keys(t) ==> DistinctKeys(InsertDesc(x, t))
    decreases |t|
  {
    if |t| == 0 {
      KeysCons(x, t);
    } else if x.1 >= t[0].1 {
      KeysCons(x, t);
    } else {
      KeysCons(t[0], t[1..]);
      assert t == [t[0]] + t[1..];
      InsertDescKeys(x, t[1..]);
      KeysCons(t[0], InsertDesc(x, t[1..]));
    }
  }

  /** Two lists holding the same entries have the same names. */
  lemma SameEntriesKeys(a: Importances, b: Importances)
    requires multiset(a) == multiset(b)
    ensures Keys(a) == Keys(b)
  {
    forall p ensures p in a <==> p in b {
      assert p in a <==> p in multiset(a);
      assert p in b <==> p in multiset(b);
    }
  }

  lemma {:induction false} SortDescDistinct(s: Importances)
    requires DistinctKeys(s)
    ensures DistinctKeys(SortDesc(s))
    decreases |s|
  {
    if |s| > 0 {
      var t := SortDesc(s[1..]);
      assert s == [s[0]] + s[1..];
      KeysCons(s[0], s[1..]);
      SortDescDistinct(s[1..]);
      SameEntriesKeys(t, s[1..]);
      InsertDescKeys(s[0], t);
    }
  }

  /** Sorting keeps the set of names, and names that were distinct stay distinct. */
  lemma SortDescKeys(s: Importances)
    ensures Keys(SortDesc(s)) == Keys(s)
    ensures DistinctKeys(s) ==> DistinctKeys(SortDesc(s))
  {
    SameEntriesKeys(SortDesc(s), s);
    if DistinctKeys(s) {
      SortDescDistinct(s);
    }
  }

  /** `get_feature_importance` returns as many entries as the slice `[:top_n]` keeps, in
      non-increasing score order, each an entry of the stored importances, and no stored entry
      it leaves out scores higher than one it returns. */
  lemma FeatureImportanceMeaning(d: Importances, topN: int)
    requires DistinctKeys(d)
    ensures FeatureImportanceOf(Some(d), topN).Ok?
    ensures var r := FeatureImportanceOf(Some(d), topN).value;
      |r| == SliceEnd(|d|, topN) && NonIncreasing(r) && multiset(r) <= multiset(d) && DistinctKeys(r)
    ensures var r := FeatureImportanceOf(Some(d), topN).value;
      forall p, q :: p in d && p !in r && q in r ==> p.1 <= q.1
  {
    var sorted := SortDesc(d);
    SortDescSorted(d);
    SortDescKeys(d);
    assert |sorted| == |d| by {
      assert |multiset(sorted)| == |multiset(d)|;
    }
    var m := SliceEnd(|sorted|, topN);
    var top := sorted[..m];
    PrefixFacts(sorted, m);
    DictOfDistinct(top);
    assert FeatureImportanceOf(Some(d), topN).value == top;
    TopScoresHighest(sorted, m, d);
  }

  /** A prefix of a sorted list of distinct names is sorted, has distinct names and holds only
      entries of the list. */
  lemma PrefixFacts(sorted: Importances, m: nat)
    requires m <= |sorted| && NonIncreasing(sorted) && DistinctKeys(sorted)
    ensures NonIncreasing(sorted[..m]) && DistinctKeys(sorted[..m])
    ensures multiset(sorted[..m]) <= multiset(sorted)
  {
    var top := sorted[..m];
    assert sorted == top + sorted[m..];
    assert multiset(sorted) == multiset(top) + multiset(sorted[m..]);
    forall i, j | 0 <= i < j < |top| ensures top[i].0 != top[j].0 && top[i].1 >= top[j].1 {
      assert top[i] == sorted[i] && top[j] == sorted[j];
    }
  }

  lemma TopScoresHighest(sorted: Importances, m: nat, d: Importances)
    requires m <= |sorted| && NonIncreasing(sorted) && multiset(sorted) == multiset(d)
    ensures forall p, q :: p in d && p !in sorted[..m] && q in sorted[..m] ==> p.1 <= q.1
  {
    forall p, q | p in d && p !in sorted[..m] && q in sorted[..m] ensures p.1 <= q.1 {
      assert p in multiset(sorted);
      var i :| 0 <= i < |sorted| && sorted[i] == p;
      var j :| 0 <= j < m && sorted[..m][j] == q;
      assert forall k :: 0 <= k < m ==> sorted[k] in sorted[..m];
      assert i >= m;
      assert sorted[j] == q;
    }
  }

  // ---------------------------------------------------------------------------------------------
  // Reindexing before prediction.

  const UnfittedMessage := "the model is not fitted; call fit() first"
  const NoPredictMessage := "'NoneType' object has no attribute 'predict'"

  /** `X[names]`: the named columns in the given order; a KeyError when one is absent. */
  function Select(x: Table, names: seq<string>): Result<Table>
  {
    if forall n :: n in names ==> n in Names(x) then
      Ok(Table(seq(|names|, k requires 0 <= k < |names| => Column(names[k], ColumnOf(x, names[k]))), x.height))
    else Err(KeyError("not in index"))
  }

  /** The table `predict_proba` hands to the estimator: an error when unfitted; otherwise `X`
      itself when its column order matches the fitted one, else `X[feature_names]` (a KeyError
      when no names were stored, as `X[None]`). */
  function ProbaInputOf(model: Option<Booster>, names: Option<seq<string>>, x: Table): Result<Table>
  {
    if model.None? then Err(ValueError(UnfittedMessage))
    else if names == Some(Names(x)) then Ok(x)
    else if names.None? then Err(KeyError("None"))
    else Select(x, names.value)
  }

  /** The table `predict` hands to the estimator: `X` as given, and no fitted-state check. */
  function PredictInputOf(model: Option<Booster>, x: Table): Result<Table>
  {
    if model.None? then Err(Exception(NoPredictMessage)) else Ok(x)
  }

  lemma {:induction false} ColumnInFirst(cols: seq<Column>, k: nat)
    requires k < |cols|
    requires forall j :: 0 <= j < k ==> cols[j].name != cols[k].name
    ensures ColumnIn(cols, cols[k].name) == cols[k].cells
    decreases k
  {
    if k > 0 {
      ColumnInFirst(cols[1..], k - 1);
    }
  }

  /** `predict_proba` raises a ValueError when unfitted and a KeyError when a fitted feature is
      absent; otherwise the estimator sees exactly the fitted feature order, each column holding
      `X`'s column of that name. */
  lemma ProbaInputMeaning(model: Option<Booster>, names: Option<seq<string>>, x: Table)
    requires Distinct(Names(x))
    ensures model.None? ==> ProbaInputOf(model, names, x) == Err(ValueError(UnfittedMessage))
    ensures ProbaInputOf(model, names, x).Ok? <==>
      model.Some? && names.Some? && forall n :: n in names.value ==> n in Names(x)
    ensures ProbaInputOf(model, names, x).Ok? ==>
      var t := ProbaInputOf(model, names, x).value;
      Names(t) == names.value && t.height == x.height &&
      forall k :: 0 <= k < |t.cols| ==> t.cols[k].cells == ColumnOf(x, names.value[k])
  {
    if model.Some? && names == Some(Names(x)) {
      forall k | 0 <= k < |x.cols| ensures x.cols[k].cells == ColumnOf(x, names.value[k]) {
        ColumnInFirst(x.cols, k);
      }
    }
  }

  /** `predict` (line 155) skips both of `predict_proba`'s safeguards: on an unfitted model it
      fails with an AttributeError instead of the ValueError, and on a table whose columns are the
      fitted features in another order it hands the estimator the columns in the caller's order,
      where `predict_proba` restores the fitted order. */
  lemma PredictSkipsSafeguards(model: Option<Booster>, names: Option<seq<string>>, x: Table)
    ensures model.None? ==>
      PredictInputOf(model, x).Err? && !PredictInputOf(model, x).error.ValueError? &&
      ProbaInputOf(model, names, x) == Err(ValueError(UnfittedMessage))
    ensures model.Some? && names.Some? && Names(x) != names.value &&
            (forall n :: n in names.value ==> n in Names(x)) ==>
      Names(PredictInputOf(model, x).value) != names.value &&
      Names(ProbaInputOf(model, names, x).value) == names.value
  {
  }

  // ---------------------------------------------------------------------------------------------
  // Cross-validation scores.

  /** A fold's training and validation row positions, from `TimeSeriesSplit`. */
  datatype Split = Split(train: seq<nat>, val: seq<nat>)

  /** The six scores of one fold. */
  datatype FoldScores = FoldScores(auc: real, accuracy: real, precision: real, recall: real, averagePrecision: real, bestIteration: int)

  /** `scores`: one list per metric. */
  datatype CvScores = CvScores(auc: seq<real>, accuracy: seq<real>, precision: seq<real>, recall: seq<real>, averagePrecision: seq<real>, bestIteration: seq<int>)

  const NoScores := CvScores([], [], [], [], [], [])

  /** The record after appending one fold's six scores. */
  function Append(s: CvScores, f: FoldScores): CvScores
  {
    CvScores(s.auc + [f.auc], s.accuracy + [f.accuracy], s.precision + [f.precision], s.recall + [f.recall],
      s.averagePrecision + [f.averagePrecision], s.bestIteration + [f.bestIteration])
  }

  /** The record after the given folds, in order. */
  function Record(fs: seq<FoldScores>): CvScores
  {
    if |fs| == 0 then NoScores else Append(Record(fs[..|fs| - 1]), fs[|fs| - 1])
  }

  /** After the folds every list has one entry per fold, and entry k is fold k's score. */
  lemma {:induction false} RecordEntries(fs: seq<FoldScores>)
    ensures var r := Record(fs);
      |r.auc| == |r.accuracy| == |r.precision| == |r.recall| == |r.averagePrecision| == |r.bestIteration| == |fs|
    ensures var r := Record(fs);
      forall k :: 0 <= k < |fs| ==>
        r.auc[k] == fs[k].auc && r.accuracy[k] == fs[k].accuracy && r.precision[k] == fs[k].precision &&
        r.recall[k] == fs[k].recall && r.averagePrecision[k] == fs[k].averagePrecision &&
        r.bestIteration[k] == fs[k].bestIteration
    decreases |fs|
  {
    if |fs| > 0 {
      var init := fs[..|fs| - 1];
      RecordEntries(init);
      forall k | 0 <= k < |init| ensures init[k] == fs[k] {
      }
    }
  }

  lemma RecordStep(fs: seq<FoldScores>, k: nat)
    requires k < |fs|
    ensures Record(fs[..k + 1]) == Append(Record(fs[..k]), fs[k])
  {
    assert fs[..k + 1][..k] == fs[..k];
  }

  /** Fold k's scores, from the foreign training and scoring of that fold. */
  function FoldResults(x: Table, y: seq<Cell>, splits: seq<Split>, cfg: ModelConfig,
                       runFold: (Table, seq<Cell>, Split, ModelConfig) -> FoldScores): (r: seq<FoldScores>)
    ensures |r| == |splits|
  {
    seq(|splits|, k requires 0 <= k < |splits| => runFold(x, y, splits[k], cfg))
  }

  /** The fold loop of `cross_validate`: each fold's six scores appended to the six lists. */
  method RecordFolds(x: Table, y: seq<Cell>, splits: seq<Split>, cfg: ModelConfig,
                     runFold: (Table, seq<Cell>, Split, ModelConfig) -> FoldScores) returns (scores: CvScores)
    ensures scores == Record(FoldResults(x, y, splits, cfg, runFold))
  {
    ghost var results := FoldResults(x, y, splits, cfg, runFold);
    scores := NoScores;
    var k := 0;
    while k < |splits|
      invariant 0 <= k <= |splits|
      invariant scores == Record(results[..k])
    {
      var fold := runFold(x, y, splits[k], cfg);
      RecordStep(results, k);
      scores := Append(scores, fold);
      k := k + 1;
    }
    assert results[..k] == results;
  }

  // ---------------------------------------------------------------------------------------------
  // Save and load.

  /** The pickled dictionary; an absent key is `None` at the outer level. */
  datatype Saved = Saved(
    model: Option<Option<Booster>>, config: Option<ModelConfig>, featureNames: Option<Option<seq<string>>>,
    featureImportances: Option<Option<Importances>>, cvScores: Option<Option<CvScores>>)

  const NothingToSaveMessage := "there is no model to save; call fit() first"

  /** The state of a `DirectionModel`. */
  datatype ModelState = ModelState(
    config: ModelConfig, model: Option<Booster>, featureNames: Option<seq<string>>,
    featureImportances: Option<Importances>, cvScores: Option<CvScores>)

  /** `save_model`'s payload: an error when no model is fitted, else all five entries. */
  function SaveOf(s: ModelState): (r: Result<Saved>)
    ensures s.model.None? <==> r == Err(ValueError(NothingToSaveMessage))
  {
    if s.model.None? then Err(ValueError(NothingToSaveMessage))
    else Ok(Saved(Some(s.model), Some(s.config), Some(s.featureNames), Some(s.featureImportances), Some(s.cvScores)))
  }

  /** `load_model`'s assignments in order: a missing "model", "config" or "feature_names" key
      raises a KeyError after the earlier assignments; the last two keys default to `None`. */
  function LoadOf(s: ModelState, d: Saved): (ModelState, Result<()>)
  {
    if d.model.None? then (s, Err(KeyError("model")))
    else if d.config.None? then (s.(model := d.model.value), Err(KeyError("config")))
    else if d.featureNames.None? then (s.(model := d.model.value, config := d.config.value), Err(KeyError("feature_names")))
    else
      (ModelState(d.config.value, d.model.value, d.featureNames.value,
         d.featureImportances.GetOr(None), d.cvScores.GetOr(None)), Ok(()))
  }

  /** The payload's importances, when present, name each feature once. */
  predicate LoadedDistinct(d: Saved)
  {
    d.featureImportances.None? || d.featureImportances.value.None? || DistinctKeys(d.featureImportances.value.value)
  }

  /** Loading what was saved restores all five attributes, whatever the loading model held. */
  lemma SaveLoadRoundTrip(s: ModelState, t: ModelState)
    ensures SaveOf(s).Ok? <==> s.model.Some?
    ensures SaveOf(s).Ok? ==> LoadOf(t, SaveOf(s).value) == (s, Ok(()))
  {
  }

  // ---------------------------------------------------------------------------------------------
  // The class.

  class DirectionModel {
    var config: ModelConfig
    var model: Option<Booster>
    var featureNames: Option<seq<string>>
    var featureImportances: Option<Importances>
    var cvScores: Option<CvScores>

    function State(): ModelState
      reads this
    {
      ModelState(config, model, featureNames, featureImportances, cvScores)
    }

    /** The stored importances are a dict: no name occurs twice. */
    predicate ImportancesDistinct()
      reads this
    {
      featureImportances.Some? ==> DistinctKeys(featureImportances.value)
    }

    /** `DirectionModel(config)`: the default configuration when none is given; nothing fitted. */
    constructor (cfg: Option<ModelConfig>)
      ensures State() == ModelState(cfg.GetOr(DefaultConfig), None, None, None, None)
      ensures ImportancesDistinct()
    {
      config := cfg.GetOr(DefaultConfig);
      model := None;
      featureNames := None;
      featureImportances := None;
      cvScores := None;
    }

    /** `fit`: records the column order first, then validates (a failure leaves the rest as it
        was), fills missing values, trains, and stores `dict(zip(feature_names, importances))`. */
    method Fit(x: Table, y: seq<Cell>, nEstimators: int,
               train: (Table, seq<Cell>, int, ModelConfig) -> Booster) returns (r: Result<seq<Warning>>)
      modifies this
      ensures featureNames == Some(Names(x))
      ensures r == ValidateData(x, y)
      ensures config == old(config) && cvScores == old(cvScores)
      ensures r.Err? ==> model == old(model) && featureImportances == old(featureImportances)
      ensures r.Ok? ==> model == Some(train(TrainingInput(x), y, nEstimators, config))
      ensures r.Ok? ==> featureImportances == Some(DictOf(Zip(Names(x), model.value.importances)))
      ensures r.Ok? ==> ImportancesDistinct()
      ensures old(ImportancesDistinct()) ==> ImportancesDistinct()
    {
      featureNames := Some(Names(x));
      r := ValidateData(x, y);
      if r.Err? {
        return;
      }
      var input := x;
      if AnyMissing(x) {
        input := FillMissing(x);
      }
      var booster := train(input, y, nEstimators, config);
      model := Some(booster);
      featureImportances := Some(DictOf(Zip(featureNames.value, booster.importances)));
      DictOfKeys(Zip(featureNames.value, booster.importances));
    }

    /** `predict_proba`: the estimator's probabilities on the reindexed table. */
    function PredictProba(x: Table, proba: (Booster, Table) -> seq<real>): (r: Result<seq<real>>)
      reads this
      ensures model.None? ==> r == Err(ValueError(UnfittedMessage))
      ensures model.Some? && featureNames == Some(Names(x)) ==> r == Ok(proba(model.value, x))
    {
      var t := ProbaInputOf(model, featureNames, x);
      if t.Err? then Err(t.error) else Ok(proba(model.value, t.value))
    }

    /** `predict`: the estimator's labels on the table as given. */
    function Predict(x: Table, labels: (Booster, Table) -> seq<int>): (r: Result<seq<int>>)
      reads this
      ensures model.None? ==> r.Err? && !r.error.ValueError?
      ensures model.Some? ==> r == Ok(labels(model.value, x))
    {
      var t := PredictInputOf(model, x);
      if t.Err? then Err(t.error) else Ok(labels(model.value, t.value))
    }

    /** `get_feature_importance(top_n)`. */
    function FeatureImportance(topN: int): (r: Result<Importances>)
      reads this
      ensures featureImportances.None? <==> r.Err?
      ensures featureImportances.Some? && ImportancesDistinct() ==>
        r.Ok? && |r.value| == SliceEnd(|featureImportances.value|, topN) && NonIncreasing(r.value)
        && DistinctKeys(r.value) && multiset(r.value) <= multiset(featureImportances.value)
    {
      if ImportancesDistinct() && featureImportances.Some? then
        FeatureImportanceMeaning(featureImportances.value, topN);
        FeatureImportanceOf(featureImportances, topN)
      else
        FeatureImportanceOf(featureImportances, topN)
    }

    /** `cross_validate`: one entry per fold appended to each of the six lists, then stored. */
    method CrossValidate(x: Table, y: seq<Cell>, split: (int, nat) -> seq<Split>,
                         runFold: (Table, seq<Cell>, Split, ModelConfig) -> FoldScores) returns (scores: CvScores)
      modifies this
      ensures scores == Record(FoldResults(x, y, split(config.cvSplits, x.height), config, runFold))
      ensures cvScores == Some(scores)
      ensures config == old(config) && model == old(model) && featureNames == old(featureNames)
      ensures featureImportances == old(featureImportances)
      ensures old(ImportancesDistinct()) ==> ImportancesDistinct()
    {
      scores := RecordFolds(x, y, split(config.cvSplits, x.height), config, runFold);
      cvScores := Some(scores);
    }

    /** `save_model`: the payload written to the file. */
    function Save(): (r: Result<Saved>)
      reads this
      ensures model.None? <==> r.Err?
      ensures r.Ok? ==> r.value.model == Some(model) && r.value.featureNames == Some(featureNames)
    {
      SaveOf(State())
    }

    /** `load_model`. */
    method Load(d: Saved) returns (r: Result<()>)
      modifies this
      ensures (State(), r) == LoadOf(old(State()), d)
      ensures old(ImportancesDistinct()) && LoadedDistinct(d) ==> ImportancesDistinct()
    {
      if d.model.None? {
        return Err(KeyError("model"));
      }
      model := d.model.value;
      if d.config.None? {
        return Err(KeyError("config"));
      }
      config := d.config.value;
      if d.featureNames.None? {
        return Err(KeyError("feature_names"));
      }
      featureNames := d.featureNames.value;
      featureImportances := d.featureImportances.GetOr(None);
      cvScores := d.cvScores.GetOr(None);
      r := Ok(());
    }
  }

  /** Saving one model and loading the payload into another copies all five attributes. */
  method SaveThenLoad(src: DirectionModel, dst: DirectionModel) returns (r: Result<()>)
    modifies dst
    ensures src.model.Some? ==> r == Ok(()) && dst.State() == src.State()
    ensures src.model.None? ==> r.Err? && dst.State() == old(dst.State())
  {
    var saved := src.Save();
    if saved.Err? {
      return Err(saved.error);
    }
    SaveLoadRoundTrip(src.State(), dst.State());
    r := dst.Load(saved.value);
  }
}

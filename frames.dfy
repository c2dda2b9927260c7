/** A pandas DataFrame as the pipeline uses it: rows keyed by (timestamp, symbol), a dynamic set of
    named columns, and missing values (NaN). Timestamps are day numbers; prices are reals. */
module Frames {
  import opened Text

  /** One cell of a column: a missing value, a number, or a boolean flag. */
  datatype Cell = NaN | Num(v: real) | Flag(b: bool)

  /** A row. The reserved columns "timestamp" and "symbol" live in `ts` and `sym`; every other
      column lives in `cells`. A column a row has no entry for reads as NaN, as after `pd.concat`. */
  datatype Row = Row(ts: int, sym: string, cells: map<string, Cell>)

  /** A table. `columns` lists every column, "timestamp" and "symbol" included when present. */
  datatype Frame = Frame(columns: seq<string>, rows: seq<Row>)

  /** `df.empty`: no rows or no columns. */
  predicate IsEmpty(f: Frame)
  {
    |f.rows| == 0 || |f.columns| == 0
  }

  function Get(r: Row, c: string): Cell
  {
    if c in r.cells then r.cells[c] else NaN
  }

  /** `df[c]` as a list of cells. */
  function Col(rows: seq<Row>, c: string): (r: seq<Cell>)
    ensures |r| == |rows|
    ensures forall i :: 0 <= i < |rows| ==> r[i] == Get(rows[i], c)
  {
    seq(|rows|, i requires 0 <= i < |rows| => Get(rows[i], c))
  }

  /** `df[c] = vals`: overwrites an existing column in place, or appends a new one. */
  function SetColumn(f: Frame, c: string, vals: seq<Cell>): (r: Frame)
    requires |vals| == |f.rows|
    ensures |r.rows| == |f.rows|
    ensures r.columns == if c in f.columns then f.columns else f.columns + [c]
    ensures forall d :: d in r.columns <==> d in f.columns || d == c
    ensures forall i :: 0 <= i < |f.rows| ==>
      r.rows[i].ts == f.rows[i].ts && r.rows[i].sym == f.rows[i].sym && Get(r.rows[i], c) == vals[i]
    ensures forall i, d :: 0 <= i < |f.rows| && d != c ==> Get(r.rows[i], d) == Get(f.rows[i], d)
  {
    Frame(if c in f.columns then f.columns else f.columns + [c],
          seq(|f.rows|, i requires 0 <= i < |f.rows| =>
            Row(f.rows[i].ts, f.rows[i].sym, f.rows[i].cells[c := vals[i]])))
  }

  /** `df.drop(columns=cs)`. */
  function DropColumns(f: Frame, cs: set<string>): (r: Frame)
    ensures |r.rows| == |f.rows|
    ensures forall d :: d in r.columns <==> d in f.columns && d !in cs
    ensures forall i, d :: 0 <= i < |f.rows| && d !in cs ==> Get(r.rows[i], d) == Get(f.rows[i], d)
  {
    FilterMembers(f.columns, (d: string) => d !in cs);
    Frame(Filter(f.columns, (d: string) => d !in cs),
          seq(|f.rows|, i requires 0 <= i < |f.rows| =>
            Row(f.rows[i].ts, f.rows[i].sym, f.rows[i].cells - cs)))
  }

  /** The first `n` cells of `s`, padded with NaN: the series a library indicator returns. */
  function Fit(s: seq<Cell>, n: nat): (r: seq<Cell>)
    ensures |r| == n
    ensures forall i :: 0 <= i < n ==> r[i] == (if i < |s| then s[i] else NaN)
  {
    seq(n, i requires 0 <= i < n => if i < |s| then s[i] else NaN)
  }

  // ---------------------------------------------------------------------------------------------
  // Element-wise arithmetic. NaN propagates; a zero divisor gives NaN (pandas gives +-inf there,
  // which the model does not distinguish from a missing value).

  function Div(a: Cell, b: Cell): Cell
  {
    if a.Num? && b.Num? && b.v != 0.0 then Num(a.v / b.v) else NaN
  }

  function Sub(a: Cell, b: Cell): Cell
  {
    if a.Num? && b.Num? then Num(a.v - b.v) else NaN
  }

  function Mul(a: Cell, b: Cell): Cell
  {
    if a.Num? && b.Num? then Num(a.v * b.v) else NaN
  }

  function AddConst(a: Cell, x: real): Cell
  {
    if a.Num? then Num(a.v + x) else NaN
  }

  /** `a > x` with pandas semantics: any comparison with NaN is False. */
  predicate Gt(a: Cell, x: real)
  {
    a.Num? && a.v > x
  }

  predicate Lt(a: Cell, x: real)
  {
    a.Num? && a.v < x
  }

  /** `a / b` on two aligned series. */
  function DivSeries(a: seq<Cell>, b: seq<Cell>): (r: seq<Cell>)
    requires |a| == |b|
    ensures |r| == |a| && forall i :: 0 <= i < |a| ==> r[i] == Div(a[i], b[i])
  {
    seq(|a|, i requires 0 <= i < |a| => Div(a[i], b[i]))
  }

  /** `a * b` on two aligned series. */
  function MulSeries(a: seq<Cell>, b: seq<Cell>): (r: seq<Cell>)
    requires |a| == |b|
    ensures |r| == |a| && forall i :: 0 <= i < |a| ==> r[i] == Mul(a[i], b[i])
  {
    seq(|a|, i requires 0 <= i < |a| => Mul(a[i], b[i]))
  }

  // ---------------------------------------------------------------------------------------------
  // Filtering.

  function Filter<T>(s: seq<T>, p: T -> bool): (r: seq<T>)
    ensures |r| <= |s|
    ensures forall i :: 0 <= i < |r| ==> p(r[i])
  {
    if |s| == 0 then [] else
      var prefix := Filter(s[..|s| - 1], p);
      if p(s[|s| - 1]) then prefix + [s[|s| - 1]] else prefix
  }

  lemma {:induction false} FilterCount<T>(s: seq<T>, p: T -> bool, x: T)
    ensures multiset(Filter(s, p))[x] == if p(x) then multiset(s)[x] else 0
  {
    if |s| > 0 {
      FilterCount(s[..|s| - 1], p, x);
      assert s == s[..|s| - 1] + [s[|s| - 1]];
    }
  }

  /** Filtering two orderings of the same rows keeps the same rows. */
  lemma FilterRespectsPermutation(s: seq<Row>, t: seq<Row>, p: Row -> bool)
    requires multiset(s) == multiset(t)
    ensures multiset(Filter(s, p)) == multiset(Filter(t, p))
  {
    forall x ensures multiset(Filter(s, p))[x] == multiset(Filter(t, p))[x] {
      FilterCount(s, p, x);
      FilterCount(t, p, x);
    }
  }

  lemma FilterMembers<T>(s: seq<T>, p: T -> bool)
    ensures forall x :: x in Filter(s, p) <==> x in s && p(x)
  {
    forall x ensures x in Filter(s, p) <==> x in s && p(x) {
      FilterCount(s, p, x);
    }
  }

  lemma {:induction false} FilterAll<T>(s: seq<T>, p: T -> bool)
    requires forall i :: 0 <= i < |s| ==> p(s[i])
    ensures Filter(s, p) == s
  {
    if |s| > 0 {
      FilterAll(s[..|s| - 1], p);
      assert s == s[..|s| - 1] + [s[|s| - 1]];
    }
  }

  lemma {:induction false} FilterConcat<T>(s: seq<T>, t: seq<T>, p: T -> bool)
    ensures Filter(s + t, p) == Filter(s, p) + Filter(t, p)
    decreases |t|
  {
    if |t| == 0 {
      assert s + t == s;
    } else {
      var u := s + t;
      FilterConcat(s, t[..|t| - 1], p);
      assert u[..|u| - 1] == s + t[..|t| - 1];
    }
  }

  /** Filtering by a stronger predicate after a weaker one is filtering by the stronger one. */
  lemma {:induction false} FilterFilterStronger<T>(s: seq<T>, p: T -> bool, q: T -> bool)
    requires forall x :: q(x) ==> p(x)
    ensures Filter(Filter(s, p), q) == Filter(s, q)
    decreases |s|
  {
    if |s| > 0 {
      FilterFilterStronger(s[..|s| - 1], p, q);
      var f := Filter(s[..|s| - 1], p);
      if p(s[|s| - 1]) {
        assert (f + [s[|s| - 1]])[..|f + [s[|s| - 1]]| - 1] == f;
      }
    }
  }

  /** Filtering by a predicate that excludes everything a first filter kept leaves nothing. */
  lemma {:induction false} FilterFilterDisjoint<T>(s: seq<T>, p: T -> bool, q: T -> bool)
    requires forall x :: q(x) ==> !p(x)
    ensures Filter(Filter(s, p), q) == []
    decreases |s|
  {
    if |s| > 0 {
      FilterFilterDisjoint(s[..|s| - 1], p, q);
      var f := Filter(s[..|s| - 1], p);
      if p(s[|s| - 1]) {
        assert (f + [s[|s| - 1]])[..|f + [s[|s| - 1]]| - 1] == f;
      }
    }
  }

  /** Elements with pairwise different keys keep that property under filtering. */
  lemma {:induction false} FilterKeepsKeysDistinct<T, K>(s: seq<T>, p: T -> bool, key: T -> K)
    requires forall i, j :: 0 <= i < j < |s| ==> key(s[i]) != key(s[j])
    ensures var f := Filter(s, p); forall i, j :: 0 <= i < j < |f| ==> key(f[i]) != key(f[j])
    decreases |s|
  {
    if |s| > 0 {
      var init := s[..|s| - 1];
      FilterKeepsKeysDistinct(init, p, key);
      var f := Filter(init, p);
      forall i | 0 <= i < |f| ensures key(f[i]) != key(s[|s| - 1]) {
        var x := f[i];
        assert x in multiset(f);
        FilterCount(init, p, x);
        assert x in multiset(init);
        var j :| 0 <= j < |init| && init[j] == x;
        assert s[j] == init[j];
      }
      if p(s[|s| - 1]) {
        var g := f + [s[|s| - 1]];
        assert Filter(s, p) == g;
        forall i, j | 0 <= i < j < |g| ensures key(g[i]) != key(g[j]) {
          if j < |f| {
            assert g[i] == f[i] && g[j] == f[j];
          }
        }
      } else {
        assert Filter(s, p) == f;
      }
    }
  }

  /** `a` is `b` with some elements deleted: an order-preserving subsequence. */
  ghost predicate SubsequenceOf<T>(a: seq<T>, b: seq<T>)
    decreases |b|
  {
    if |a| == 0 then true
    else if |b| == 0 then false
    else if a[|a| - 1] == b[|b| - 1] then SubsequenceOf(a[..|a| - 1], b[..|b| - 1])
    else SubsequenceOf(a, b[..|b| - 1])
  }

  /** Filtering keeps the surviving elements in their original order. */
  lemma {:induction false} FilterIsSubsequence<T>(s: seq<T>, p: T -> bool)
    ensures SubsequenceOf(Filter(s, p), s)
    decreases |s|
  {
    if |s| > 0 {
      FilterIsSubsequence(s[..|s| - 1], p);
    }
  }

  /** Every sequence is a subsequence of itself. */
  lemma {:induction false} SubsequenceRefl<T>(s: seq<T>)
    ensures SubsequenceOf(s, s)
    decreases |s|
  {
    if |s| > 0 {
      SubsequenceRefl(s[..|s| - 1]);
    }
  }

  // ---------------------------------------------------------------------------------------------
  // Per-symbol partition.

  /** `df[df["symbol"] == s]`, in row order. */
  function RowsOf(rows: seq<Row>, s: string): (r: seq<Row>)
    ensures forall i :: 0 <= i < |r| ==> r[i].sym == s
  {
    Filter(rows, (x: Row) => x.sym == s)
  }

  predicate Distinct<T(==)>(s: seq<T>)
  {
    forall i, j :: 0 <= i < j < |s| ==> s[i] != s[j]
  }

  /** `df["symbol"].unique()`: each symbol once, in order of first appearance. */
  function Symbols(rows: seq<Row>): (r: seq<string>)
    ensures Distinct(r)
    ensures forall i :: 0 <= i < |rows| ==> rows[i].sym in r
    ensures forall s :: s in r ==> exists i :: 0 <= i < |rows| && rows[i].sym == s
  {
    if |rows| == 0 then [] else
      var prev := Symbols(rows[..|rows| - 1]);
      var last := rows[|rows| - 1];
      assert forall i :: 0 <= i < |rows| - 1 ==> rows[..|rows| - 1][i] == rows[i];
      if last.sym in prev then prev else prev + [last.sym]
  }

  /** The first symbol listed is the symbol of the first row. */
  lemma {:induction false} SymbolsFirst(rows: seq<Row>)
    requires |rows| > 0
    ensures |Symbols(rows)| > 0 && Symbols(rows)[0] == rows[0].sym
  {
    if |rows| > 1 {
      var init := rows[..|rows| - 1];
      SymbolsFirst(init);
      assert init[0] == rows[0];
    }
  }

  /** The rows of the given symbols, symbol after symbol: what `pd.concat` of per-symbol frames sees. */
  function Grouped(rows: seq<Row>, syms: seq<string>): seq<Row>
  {
    if |syms| == 0 then [] else Grouped(rows, syms[..|syms| - 1]) + RowsOf(rows, syms[|syms| - 1])
  }

  lemma {:induction false} GroupedCount(rows: seq<Row>, syms: seq<string>, x: Row)
    requires Distinct(syms)
    ensures multiset(Grouped(rows, syms))[x] == if x.sym in syms then multiset(rows)[x] else 0
  {
    if |syms| > 0 {
      var init := syms[..|syms| - 1];
      GroupedCount(rows, init, x);
      FilterCount(rows, (y: Row) => y.sym == syms[|syms| - 1], x);
      assert syms == init + [syms[|syms| - 1]];
    }
  }

  /** Splitting a table by symbol and concatenating the parts loses and duplicates no row. */
  lemma GroupedIsPermutation(rows: seq<Row>)
    ensures multiset(Grouped(rows, Symbols(rows))) == multiset(rows)
  {
    var syms := Symbols(rows);
    forall x ensures multiset(Grouped(rows, syms))[x] == multiset(rows)[x] {
      GroupedCount(rows, syms, x);
      if x in rows {
        var i :| 0 <= i < |rows| && rows[i] == x;
        assert x.sym in syms;
      }
    }
  }

  lemma RowsOfAppend(a: seq<Row>, b: seq<Row>, s: string)
    ensures RowsOf(a + b, s) == RowsOf(a, s) + RowsOf(b, s)
  {
    FilterConcat(a, b, (x: Row) => x.sym == s);
  }

  /** Rows that all carry symbol s are all kept by `df[df["symbol"] == s]`. */
  lemma RowsOfAll(rows: seq<Row>, s: string)
    requires forall i :: 0 <= i < |rows| ==> rows[i].sym == s
    ensures RowsOf(rows, s) == rows
  {
    FilterAll(rows, (x: Row) => x.sym == s);
  }

  /** Rows none of which carries symbol s are all dropped. */
  lemma {:induction false} RowsOfNone(rows: seq<Row>, s: string)
    requires forall i :: 0 <= i < |rows| ==> rows[i].sym != s
    ensures RowsOf(rows, s) == []
  {
    if |rows| > 0 {
      RowsOfNone(rows[..|rows| - 1], s);
    }
  }

  /** Two tables whose rows carry the same (timestamp, symbol) position by position. */
  predicate SameKeys(a: seq<Row>, b: seq<Row>)
  {
    |a| == |b| && forall i :: 0 <= i < |a| ==> a[i].ts == b[i].ts && a[i].sym == b[i].sym
  }

  lemma SameKeysTransitive(a: seq<Row>, b: seq<Row>, c: seq<Row>)
    requires SameKeys(a, b) && SameKeys(b, c)
    ensures SameKeys(a, c)
  {
  }

  /** The number of rows of symbol `s` (`df["symbol"].value_counts()[s]`). */
  function CountOf(rows: seq<Row>, s: string): nat
  {
    |RowsOf(rows, s)|
  }

  /** Rewriting cells never changes how many rows a symbol has. */
  lemma {:induction false} SameKeysCount(a: seq<Row>, b: seq<Row>, s: string)
    requires SameKeys(a, b)
    ensures CountOf(a, s) == CountOf(b, s)
    decreases |a|
  {
    if |a| > 0 {
      SameKeysCount(a[..|a| - 1], b[..|b| - 1], s);
    }
  }

  /** `df[df["symbol"] == symbol]` with all of the columns. */
  function SymbolFrame(f: Frame, s: string): (g: Frame)
    ensures g.columns == f.columns && |g.rows| == CountOf(f.rows, s)
  {
    Frame(f.columns, RowsOf(f.rows, s))
  }

  /** `"adj_close" if "adj_close" in df.columns else "close"`. */
  function PriceColumn(f: Frame): string
  {
    if "adj_close" in f.columns then "adj_close" else "close"
  }

  /** The rows of a symbol's time-ordered slice all carry that symbol. */
  lemma SortedRowsOf(rows: seq<Row>, s: string)
    ensures forall i :: 0 <= i < |Sort(RowsOf(rows, s), TsKey)| ==> Sort(RowsOf(rows, s), TsKey)[i].sym == s
  {
    var t := Sort(RowsOf(rows, s), TsKey);
    forall i | 0 <= i < |t|
      ensures t[i].sym == s
    {
      assert t[i] in multiset(t);
    }
  }

  /** Every row of the k-th frame carries the k-th symbol. */
  predicate Tagged(fs: seq<Frame>, syms: seq<string>)
  {
    |fs| == |syms| && forall k, i :: 0 <= k < |fs| && 0 <= i < |fs[k].rows| ==> fs[k].rows[i].sym == syms[k]
  }

  /** Selecting a symbol from concatenated per-symbol frames gives back that symbol's frame. */
  lemma {:induction false} ConcatRowsOf(fs: seq<Frame>, syms: seq<string>, k: nat)
    requires Tagged(fs, syms) && Distinct(syms) && k < |syms|
    ensures RowsOf(ConcatRows(fs), syms[k]) == fs[k].rows
    decreases |fs|
  {
    var n := |fs| - 1;
    var init, last := fs[..n], fs[n];
    RowsOfAppend(ConcatRows(init), last.rows, syms[k]);
    if k == n {
      ConcatRowsOfOther(init, syms[..n], syms[k]);
      RowsOfAll(last.rows, syms[k]);
    } else {
      ConcatRowsOf(init, syms[..n], k);
      RowsOfNone(last.rows, syms[k]);
    }
  }

  /** A symbol none of the frames carries selects nothing. */
  lemma {:induction false} ConcatRowsOfOther(fs: seq<Frame>, syms: seq<string>, s: string)
    requires Tagged(fs, syms) && s !in syms
    ensures RowsOf(ConcatRows(fs), s) == []
    decreases |fs|
  {
    if |fs| > 0 {
      var n := |fs| - 1;
      RowsOfAppend(ConcatRows(fs[..n]), fs[n].rows, s);
      ConcatRowsOfOther(fs[..n], syms[..n], s);
      RowsOfNone(fs[n].rows, s);
    }
  }

  /** Frames as long as the symbols' slices concatenate to as many rows as the grouped table. */
  lemma {:induction false} ConcatRowsLength(fs: seq<Frame>, rows: seq<Row>, syms: seq<string>)
    requires |fs| == |syms| && forall k :: 0 <= k < |fs| ==> |fs[k].rows| == CountOf(rows, syms[k])
    ensures |ConcatRows(fs)| == |Grouped(rows, syms)|
    decreases |fs|
  {
    if |fs| > 0 {
      ConcatRowsLength(fs[..|fs| - 1], rows, syms[..|syms| - 1]);
    }
  }

  // ---------------------------------------------------------------------------------------------
  // Sorting (pandas `sort_values`). Keys are sequences of atoms compared lexicographically.

  datatype Atom = I(i: int) | S(s: string)

  type Key = seq<Atom>

  predicate AtomLeq(a: Atom, b: Atom)
  {
    match (a, b)
    case (I(x), I(y)) => x <= y
    case (S(x), S(y)) => StrLeq(x, y)
    case (I(_), S(_)) => true
    case (S(_), I(_)) => false
  }

  predicate KeyLeq(a: Key, b: Key)
    decreases |a|
  {
    if |a| == 0 then true
    else if |b| == 0 then false
    else if a[0] != b[0] then AtomLeq(a[0], b[0])
    else KeyLeq(a[1..], b[1..])
  }

  lemma AtomLeqFacts(a: Atom, b: Atom, c: Atom)
    ensures AtomLeq(a, b) || AtomLeq(b, a)
    ensures AtomLeq(a, b) && AtomLeq(b, a) ==> a == b
    ensures AtomLeq(a, b) && AtomLeq(b, c) ==> AtomLeq(a, c)
  {
    if a.S? && b.S? {
      StrLeqTotal(a.s, b.s);
      if StrLeq(a.s, b.s) && StrLeq(b.s, a.s) { StrLeqAntisymmetric(a.s, b.s); }
      if c.S? && StrLeq(a.s, b.s) && StrLeq(b.s, c.s) { StrLeqTransitive(a.s, b.s, c.s); }
    }
  }

  lemma {:induction false} KeyLeqTotal(a: Key, b: Key)
    ensures KeyLeq(a, b) || KeyLeq(b, a)
    decreases |a|
  {
    if |a| > 0 && |b| > 0 {
      AtomLeqFacts(a[0], b[0], b[0]);
      if a[0] == b[0] { KeyLeqTotal(a[1..], b[1..]); }
    }
  }

  lemma {:induction false} KeyLeqTransitive(a: Key, b: Key, c: Key)
    requires KeyLeq(a, b) && KeyLeq(b, c)
    ensures KeyLeq(a, c)
    decreases |a|
  {
    if |a| > 0 && |b| > 0 && |c| > 0 {
      AtomLeqFacts(a[0], b[0], c[0]);
      AtomLeqFacts(b[0], c[0], a[0]);
      AtomLeqFacts(c[0], a[0], b[0]);
      if a[0] == b[0] && b[0] == c[0] {
        KeyLeqTransitive(a[1..], b[1..], c[1..]);
      }
    }
  }

  predicate SortedBy<T>(s: seq<T>, key: T -> Key)
  {
    forall i, j :: 0 <= i < j < |s| ==> KeyLeq(key(s[i]), key(s[j]))
  }

  /** Places `x` after every element whose key is not greater than its own (so the sort is stable). */
  function Insert<T>(x: T, t: seq<T>, key: T -> Key): (r: seq<T>)
    ensures multiset(r) == multiset(t) + multiset{x}
  {
    if |t| == 0 then [x]
    else if KeyLeq(key(t[|t| - 1]), key(x)) then t + [x]
    else
      assert t == t[..|t| - 1] + [t[|t| - 1]];
      Insert(x, t[..|t| - 1], key) + [t[|t| - 1]]
  }

  /** A stable sort by `key` (what pandas' multi-column `sort_values` computes). */
  function Sort<T>(s: seq<T>, key: T -> Key): (r: seq<T>)
    ensures multiset(r) == multiset(s)
  {
    if |s| == 0 then [] else
      assert s == s[..|s| - 1] + [s[|s| - 1]];
      Insert(s[|s| - 1], Sort(s[..|s| - 1], key), key)
  }

  lemma {:induction false} InsertSorted<T>(x: T, t: seq<T>, key: T -> Key)
    requires SortedBy(t, key)
    ensures SortedBy(Insert(x, t, key), key)
  {
    if |t| == 0 {
    } else if KeyLeq(key(t[|t| - 1]), key(x)) {
      forall i | 0 <= i < |t| ensures KeyLeq(key(t[i]), key(x)) {
        if i < |t| - 1 { KeyLeqTransitive(key(t[i]), key(t[|t| - 1]), key(x)); }
      }
    } else {
      var init := t[..|t| - 1];
      var last := t[|t| - 1];
      InsertSorted(x, init, key);
      var r' := Insert(x, init, key);
      KeyLeqTotal(key(x), key(last));
      forall k | 0 <= k < |r'| ensures KeyLeq(key(r'[k]), key(last)) {
        assert r'[k] in multiset(r');
        assert r'[k] in multiset(init) || r'[k] == x;
        if r'[k] != x {
          assert r'[k] in init;
          var m :| 0 <= m < |init| && init[m] == r'[k];
        }
      }
    }
  }

  lemma {:induction false} SortSorted<T>(s: seq<T>, key: T -> Key)
    ensures SortedBy(Sort(s, key), key)
  {
    if |s| > 0 {
      SortSorted(s[..|s| - 1], key);
      InsertSorted(s[|s| - 1], Sort(s[..|s| - 1], key), key);
    }
  }

  /** Sorting an already sorted sequence changes nothing. */
  lemma {:induction false} SortOfSorted<T>(s: seq<T>, key: T -> Key)
    requires SortedBy(s, key)
    ensures Sort(s, key) == s
  {
    if |s| > 0 {
      var init := s[..|s| - 1];
      assert SortedBy(init, key);
      SortOfSorted(init, key);
      assert s == init + [s[|s| - 1]];
    }
  }

  /** Filtering a sorted sequence leaves it sorted. */
  lemma {:induction false} FilterSorted<T>(s: seq<T>, p: T -> bool, key: T -> Key)
    requires SortedBy(s, key)
    ensures SortedBy(Filter(s, p), key)
    decreases |s|
  {
    if |s| > 0 {
      var init := s[..|s| - 1];
      FilterSorted(init, p, key);
      var f := Filter(init, p);
      forall i | 0 <= i < |f| ensures KeyLeq(key(f[i]), key(s[|s| - 1])) {
        var x := f[i];
        assert x in multiset(f);
        FilterCount(init, p, x);
        assert x in multiset(init);
        var j :| 0 <= j < |init| && init[j] == x;
        assert s[j] == init[j];
      }
    }
  }

  /** The keys the pipeline sorts by. */
  function TsSymKey(r: Row): Key { [I(r.ts), S(r.sym)] }
  function SymTsKey(r: Row): Key { [S(r.sym), I(r.ts)] }
  function TsKey(r: Row): Key { [I(r.ts)] }
  function NameKey(s: string): Key { [S(s)] }

  /** `sorted(names)` for a list of column names. */
  function SortNames(names: seq<string>): (r: seq<string>)
    ensures multiset(r) == multiset(names)
  {
    Sort(names, NameKey)
  }

  // ---------------------------------------------------------------------------------------------
  // Concatenation (`pd.concat(frames, ignore_index=True)`).

  function UnionColumns(a: seq<string>, b: seq<string>): (r: seq<string>)
    ensures forall c :: c in r <==> c in a || c in b
  {
    FilterMembers(b, (c: string) => c !in a);
    a + Filter(b, (c: string) => c !in a)
  }

  function ConcatFrames(fs: seq<Frame>): (r: Frame)
    ensures forall c :: c in r.columns <==> exists k :: 0 <= k < |fs| && c in fs[k].columns
  {
    if |fs| == 0 then Frame([], []) else
      var init := ConcatFrames(fs[..|fs| - 1]);
      var last := fs[|fs| - 1];
      assert forall k :: 0 <= k < |fs| - 1 ==> fs[..|fs| - 1][k] == fs[k];
      Frame(UnionColumns(init.columns, last.columns), init.rows + last.rows)
  }

  function ConcatRows(fs: seq<Frame>): seq<Row>
  {
    if |fs| == 0 then [] else ConcatRows(fs[..|fs| - 1]) + fs[|fs| - 1].rows
  }

  lemma {:induction false} ConcatFramesRows(fs: seq<Frame>)
    ensures ConcatFrames(fs).rows == ConcatRows(fs)
  {
    if |fs| > 0 { ConcatFramesRows(fs[..|fs| - 1]); }
  }

  /** Sorting the concatenation of per-symbol frames by (timestamp, symbol) orders it and gives
      each symbol back its own frame's rows. */
  lemma ConcatBySymbol(fs: seq<Frame>, syms: seq<string>)
    requires Tagged(fs, syms) && Distinct(syms)
    ensures var g := Sort(ConcatRows(fs), TsSymKey);
      SortedBy(g, TsSymKey) &&
      (forall s :: s !in syms ==> RowsOf(g, s) == []) &&
      (forall k :: 0 <= k < |syms| ==> multiset(RowsOf(g, syms[k])) == multiset(fs[k].rows))
  {
    var rows := ConcatRows(fs);
    var g := Sort(rows, TsSymKey);
    SortSorted(rows, TsSymKey);
    forall s | s !in syms
      ensures RowsOf(g, s) == []
    {
      ConcatRowsOfOther(fs, syms, s);
      FilterRespectsPermutation(g, rows, (x: Row) => x.sym == s);
    }
    forall k | 0 <= k < |syms|
      ensures multiset(RowsOf(g, syms[k])) == multiset(fs[k].rows)
    {
      ConcatRowsOf(fs, syms, k);
      FilterRespectsPermutation(g, rows, (x: Row) => x.sym == syms[k]);
    }
  }

  /** A row of one of the frames is a row of their concatenation. */
  lemma {:induction false} ConcatRowsContains(fs: seq<Frame>, k: nat, i: nat)
    requires k < |fs| && i < |fs[k].rows|
    ensures fs[k].rows[i] in ConcatRows(fs)
    decreases |fs|
  {
    if k < |fs| - 1 {
      ConcatRowsContains(fs[..|fs| - 1], k, i);
    }
  }

  /** A property every row of every frame has holds of every row of their concatenation. */
  lemma {:induction false} ConcatRowsAll(fs: seq<Frame>, p: Row -> bool)
    requires forall k, i :: 0 <= k < |fs| && 0 <= i < |fs[k].rows| ==> p(fs[k].rows[i])
    ensures forall x :: x in ConcatRows(fs) ==> p(x)
    decreases |fs|
  {
    if |fs| > 0 {
      var init := fs[..|fs| - 1];
      ConcatRowsAll(init, p);
      assert forall x :: x in fs[|fs| - 1].rows ==> p(x);
    }
  }

  /** A property every row of every frame has holds of every row of their sorted concatenation. */
  lemma ConcatSortedAll(fs: seq<Frame>, key: Row -> Key, p: Row -> bool)
    requires forall k, i :: 0 <= k < |fs| && 0 <= i < |fs[k].rows| ==> p(fs[k].rows[i])
    ensures forall x :: x in Sort(ConcatRows(fs), key) ==> p(x)
  {
    ConcatRowsAll(fs, p);
    forall x | x in Sort(ConcatRows(fs), key)
      ensures p(x)
    {
      assert x in multiset(ConcatRows(fs));
    }
  }

  /** A row of one of the frames is a row of their sorted concatenation. */
  lemma ConcatSortedContains(fs: seq<Frame>, key: Row -> Key, k: nat, i: nat)
    requires k < |fs| && i < |fs[k].rows|
    ensures fs[k].rows[i] in Sort(ConcatRows(fs), key)
  {
    ConcatRowsContains(fs, k, i);
    assert fs[k].rows[i] in multiset(Sort(ConcatRows(fs), key));
  }

  /** Two orderings of the same rows hold the same symbols. */
  lemma SymbolsOfPermutation(a: seq<Row>, b: seq<Row>)
    requires multiset(a) == multiset(b)
    ensures forall s :: s in Symbols(a) <==> s in Symbols(b)
  {
    forall s | s in Symbols(a)
      ensures s in Symbols(b)
    {
      var i :| 0 <= i < |a| && a[i].sym == s;
      assert a[i] in multiset(b);
      var j :| 0 <= j < |b| && b[j] == a[i];
    }
    forall s | s in Symbols(b)
      ensures s in Symbols(a)
    {
      var j :| 0 <= j < |b| && b[j].sym == s;
      assert b[j] in multiset(a);
      var i :| 0 <= i < |a| && a[i] == b[j];
    }
  }

  // ---------------------------------------------------------------------------------------------
  // Windows and fills.

  function Sum(xs: seq<real>): real
  {
    if |xs| == 0 then 0.0 else Sum(xs[..|xs| - 1]) + xs[|xs| - 1]
  }

  /** The number of elements satisfying p (`mask.sum()`). */
  function CountWhere<T>(s: seq<T>, p: T -> bool): (n: nat)
    ensures n <= |s|
  {
    if |s| == 0 then 0 else CountWhere(s[..|s| - 1], p) + (if p(s[|s| - 1]) then 1 else 0)
  }

  /** `series.dropna()`, values only: what a rolling window counts towards `min_periods`. */
  function NonMissing(s: seq<Cell>): (r: seq<real>)
    ensures |r| <= |s|
  {
    if |s| == 0 then [] else NonMissing(s[..|s| - 1]) + (if s[|s| - 1].Num? then [s[|s| - 1].v] else [])
  }

  predicate AllPresent(s: seq<Cell>)
  {
    forall i :: 0 <= i < |s| ==> s[i].Num?
  }

  /** A window without missing values keeps all of its cells. */
  lemma {:induction false} NonMissingAllPresent(s: seq<Cell>)
    requires AllPresent(s)
    ensures NonMissing(s) == seq(|s|, i requires 0 <= i < |s| => s[i].v)
  {
    if |s| > 0 {
      NonMissingAllPresent(s[..|s| - 1]);
    }
  }

  /** `series.mean()`, and the mean of a rolling window with `min_periods=1`: the mean of the
      present values, missing when there are none. */
  function Mean(s: seq<Cell>): (r: Cell)
    ensures r.Num? <==> |NonMissing(s)| > 0
  {
    var xs := NonMissing(s);
    if |xs| == 0 then NaN else Num(Sum(xs) / |xs| as real)
  }

  /** The first index of the trailing window of length `w` that ends at `i`. */
  function WindowStart(i: nat, w: int): (j: nat)
    ensures j <= i
  {
    if i + 1 >= w && w >= 1 then i + 1 - w else 0
  }

  /** `Series.ffill()`: each NaN takes the last non-missing value before it. */
  function ForwardFill(c: seq<Cell>): (r: seq<Cell>)
    ensures |r| == |c|
  {
    if |c| == 0 then [] else
      var p := ForwardFill(c[..|c| - 1]);
      p + [if c[|c| - 1].NaN? && |p| > 0 then p[|p| - 1] else c[|c| - 1]]
  }

  /** Forward filling a prefix gives the prefix of the forward-filled series. */
  lemma {:induction false} ForwardFillPrefix(c: seq<Cell>, n: nat)
    requires n <= |c|
    ensures ForwardFill(c[..n]) == ForwardFill(c)[..n]
    decreases |c|
  {
    if n < |c| {
      assert c[..|c| - 1][..n] == c[..n];
      ForwardFillPrefix(c[..|c| - 1], n);
    } else {
      assert c[..n] == c;
    }
  }

  /** A series without missing values is left as it is. */
  lemma {:induction false} ForwardFillNoMissing(c: seq<Cell>)
    requires forall i :: 0 <= i < |c| ==> !c[i].NaN?
    ensures ForwardFill(c) == c
  {
    if |c| > 0 {
      ForwardFillNoMissing(c[..|c| - 1]);
      assert c == c[..|c| - 1] + [c[|c| - 1]];
    }
  }

  /** Forward filling keeps present cells, and a filled cell is the nearest present cell above it;
      a cell stays missing only when every cell up to it is missing. */
  lemma {:induction false} ForwardFillMeaning(s: seq<Cell>, i: nat)
    requires i < |s|
    ensures s[i] != NaN ==> ForwardFill(s)[i] == s[i]
    ensures ForwardFill(s)[i] == NaN ==> forall k :: 0 <= k <= i ==> s[k] == NaN
    ensures ForwardFill(s)[i] != NaN ==>
      exists j :: 0 <= j <= i && s[j] != NaN && ForwardFill(s)[i] == s[j] && forall k :: j < k <= i ==> s[k] == NaN
    decreases |s|
  {
    var init := s[..|s| - 1];
    var p := ForwardFill(init);
    assert ForwardFill(s) == p + [if s[|s| - 1] == NaN && |p| > 0 then p[|p| - 1] else s[|s| - 1]];
    if i < |s| - 1 {
      ForwardFillMeaning(init, i);
      assert ForwardFill(s)[i] == p[i];
      assert forall k :: 0 <= k <= i ==> init[k] == s[k];
    } else if s[i] == NaN && i > 0 {
      ForwardFillMeaning(init, i - 1);
      assert ForwardFill(s)[i] == p[i - 1];
      assert forall k :: 0 <= k <= i - 1 ==> init[k] == s[k];
      if ForwardFill(s)[i] != NaN {
        var j :| 0 <= j <= i - 1 && init[j] != NaN && p[i - 1] == init[j] && forall k :: j < k <= i - 1 ==> init[k] == NaN;
        assert forall k :: j < k <= i ==> s[k] == NaN;
      }
    } else if s[i] != NaN {
      assert ForwardFill(s)[i] == s[i];
    }
  }

  /** `Series.fillna(0)`. */
  function FillZero(c: seq<Cell>): (r: seq<Cell>)
    ensures |r| == |c|
    ensures forall i :: 0 <= i < |c| ==> !r[i].NaN? && (c[i].NaN? || r[i] == c[i]) && (c[i].NaN? ==> r[i] == Num(0.0))
  {
    seq(|c|, i requires 0 <= i < |c| => if c[i].NaN? then Num(0.0) else c[i])
  }
}

/** `DataLoader`: download each symbol's daily bars with bounded retries, normalise the columns,
    and combine the symbols that produced data into one table sorted by (timestamp, symbol).
    The download is a parameter: `provider(symbol, k)` is what the k-th attempt for `symbol`
    yields. */
module Loader {
  import opened Wrappers
  import opened Text
  import opened Frames

  /** The configuration fields the modelled code reads (the date range, interval and timezone go
      to the download and the timezone conversion, which are not modelled). */
  datatype LoadConfig = LoadConfig(retryCount: int, retryDelay: real)

  const DefaultLoadConfig := LoadConfig(3, 1.0)

  /** One row of a raw download: the index value (the bar's day) and the value of each column. */
  datatype RawRow = RawRow(index: int, values: map<string, Cell>)

  /** A raw download: the index's name ("Date" for daily bars), the column names as delivered,
      and the rows. */
  datatype RawFrame = RawFrame(indexName: string, columns: seq<string>, rows: seq<RawRow>)

  /** What one download attempt does: raise, or return a frame (possibly empty). */
  datatype Attempt = Raise(error: Error) | Download(raw: RawFrame)

  /** `df.empty` on the raw download: no rows or no columns. */
  predicate RawEmpty(raw: RawFrame)
  {
    |raw.rows| == 0 || |raw.columns| == 0
  }

  const Canonical: seq<string> := ["timestamp", "symbol", "open", "high", "low", "close", "adj_close", "volume"]
  const ValueColumns: seq<string> := ["open", "high", "low", "close", "adj_close", "volume"]

  /** `str.lower()` followed by `str.replace(" ", "_")`: each upper-case letter becomes its lower-case
      letter (32 code points further on), each space an underscore, and every other character stays. */
  function NormalizeName(c: string): (r: string)
    ensures |r| == |c|
    ensures forall i :: 0 <= i < |c| && c[i] == ' ' ==> r[i] == '_'
    ensures forall i :: 0 <= i < |c| && 'A' <= c[i] <= 'Z' ==> r[i] as int == c[i] as int + 32
    ensures forall i :: 0 <= i < |c| && c[i] != ' ' && !('A' <= c[i] <= 'Z') ==> r[i] == c[i]
    ensures forall i :: 0 <= i < |r| ==> r[i] != ' ' && !('A' <= r[i] <= 'Z')
  {
    seq(|c|, i requires 0 <= i < |c| => if c[i] == ' ' then '_' else LowerChar(c[i]))
  }

  /** Normalising a normalised name changes nothing. */
  lemma NormalizeNameIdempotent(c: string)
    ensures NormalizeName(NormalizeName(c)) == NormalizeName(c)
  {
    var n := NormalizeName(c);
    var m := NormalizeName(n);
    forall i | 0 <= i < |n| ensures m[i] == n[i] {
      assert n[i] != ' ' && !('A' <= n[i] <= 'Z');
    }
  }

  /** The labels yfinance gives a download, after `reset_index`, map onto the schema's names. */
  lemma YFinanceSchemaNames()
    ensures SchemaName("Date") == "timestamp"
    ensures SchemaName("Open") == "open" && SchemaName("High") == "high"
    ensures SchemaName("Low") == "low" && SchemaName("Close") == "close"
    ensures SchemaName("Adj Close") == "adj_close" && SchemaName("Volume") == "volume"
  {
    assert NormalizeName("Date") == "date";
    assert NormalizeName("Open") == "open";
    assert NormalizeName("High") == "high";
    assert NormalizeName("Low") == "low";
    assert NormalizeName("Close") == "close";
    assert NormalizeName("Adj Close") == "adj_close";
    assert NormalizeName("Volume") == "volume";
  }

  /** The normalised name after the rename {"date": "timestamp"}. */
  function SchemaName(c: string): string
  {
    var n := NormalizeName(c);
    if n == "date" then "timestamp" else n
  }

  /** The first raw column whose schema name is `k`. */
  function SourceColumn(columns: seq<string>, k: string): (r: Option<string>)
    ensures r.Some? ==> r.value in columns && SchemaName(r.value) == k
    ensures r.None? <==> forall c :: c in columns ==> SchemaName(c) != k
  {
    if |columns| == 0 then None
    else if SchemaName(columns[0]) == k then Some(columns[0])
    else SourceColumn(columns[1..], k)
  }

  /** After `reset_index` the index is a column; it is the timestamp when its name renames to it. */
  predicate HasTimestamp(raw: RawFrame)
  {
    SchemaName(raw.indexName) == "timestamp"
  }

  /** Whether canonical column `k` exists once the symbol column has been added. */
  predicate Present(raw: RawFrame, k: string)
  {
    k == "symbol" || (k == "timestamp" && HasTimestamp(raw)) || (k in ValueColumns && SourceColumn(raw.columns, k).Some?)
  }

  function CleanRow(raw: RawFrame, symbol: string, rr: RawRow): Row
  {
    Row(if HasTimestamp(raw) then rr.index else 0, symbol,
        map k | k in ValueColumns && SourceColumn(raw.columns, k).Some? ::
          if SourceColumn(raw.columns, k).value in rr.values then rr.values[SourceColumn(raw.columns, k).value] else NaN)
  }

  // ---------------------------------------------------------------------------------------------
  // `_validate_data`

  /** `df[["open", "close"]].max(axis=1)` for one row: missing values are skipped. */
  function MaxSkipNaN(a: Cell, b: Cell): Cell
  {
    if a.Num? && b.Num? then (if a.v >= b.v then a else b)
    else if a.Num? then a
    else if b.Num? then b
    else NaN
  }

  function MinSkipNaN(a: Cell, b: Cell): Cell
  {
    if a.Num? && b.Num? then (if a.v <= b.v then a else b)
    else if a.Num? then a
    else if b.Num? then b
    else NaN
  }

  /** `x < y` on two cells: false when either is missing. */
  predicate Less(x: Cell, y: Cell)
  {
    x.Num? && y.Num? && x.v < y.v
  }

  predicate InvalidHigh(r: Row)
  {
    Less(Get(r, "high"), MaxSkipNaN(Get(r, "open"), Get(r, "close"))) || Less(Get(r, "high"), Get(r, "low"))
  }

  predicate InvalidLow(r: Row)
  {
    Less(MinSkipNaN(Get(r, "open"), Get(r, "close")), Get(r, "low")) || Less(Get(r, "high"), Get(r, "low"))
  }

  /** Rows whose timestamp already occurred earlier (`duplicated()`). */
  function DuplicateTimestamps(rows: seq<Row>): (n: nat)
    ensures n <= |rows|
  {
    if |rows| == 0 then 0 else
      var init := rows[..|rows| - 1];
      DuplicateTimestamps(init) + (if exists j :: 0 <= j < |init| && init[j].ts == rows[|rows| - 1].ts then 1 else 0)
  }

  /** The counts `_validate_data` logs. A count for a column that is absent is 0. */
  datatype ValidationReport = ValidationReport(
    negatives: map<string, nat>, zeroVolume: nat, invalidHigh: nat, invalidLow: nat, duplicateTimestamps: nat)

  const PriceColumns: seq<string> := ["open", "high", "low", "close", "adj_close"]

  /** `_validate_data`: counts suspicious values and logs them. Only reading the timestamp column
      of a non-empty frame without one raises (a KeyError). */
  function ValidateData(f: Frame): (r: Result<ValidationReport>)
    ensures r.Err? <==> |f.rows| > 0 && "timestamp" !in f.columns
    ensures r.Ok? ==> r.value.zeroVolume <= |f.rows| && r.value.invalidHigh <= |f.rows| && r.value.invalidLow <= |f.rows|
    ensures r.Ok? ==> forall c :: c in r.value.negatives ==> c in PriceColumns && c in f.columns && r.value.negatives[c] <= |f.rows|
    ensures |f.rows| == 0 ==> r == Ok(ValidationReport(map[], 0, 0, 0, 0))
  {
    if |f.rows| == 0 then Ok(ValidationReport(map[], 0, 0, 0, 0))
    else
      var negatives := map c | c in PriceColumns && c in f.columns :: CountWhere(f.rows, (x: Row) => Lt(Get(x, c), 0.0));
      var zeroVolume := if "volume" in f.columns then CountWhere(f.rows, (x: Row) => Get(x, "volume") == Num(0.0)) else 0;
      var ohlc := "open" in f.columns && "high" in f.columns && "low" in f.columns && "close" in f.columns;
      var invalidHigh := if ohlc then CountWhere(f.rows, InvalidHigh) else 0;
      var invalidLow := if ohlc then CountWhere(f.rows, InvalidLow) else 0;
      if "timestamp" !in f.columns then Err(KeyError("timestamp"))
      else Ok(ValidationReport(negatives, zeroVolume, invalidHigh, invalidLow, DuplicateTimestamps(f.rows)))
  }

  // ---------------------------------------------------------------------------------------------
  // `_clean_data`

  /** The columns `_clean_data` keeps: the canonical ones that exist, in canonical order. */
  function CleanColumns(raw: RawFrame): (cols: seq<string>)
    ensures forall k :: k in cols <==> k in Canonical && Present(raw, k)
    ensures SubsequenceOf(cols, Canonical) && "symbol" in cols
    ensures "timestamp" in cols <==> HasTimestamp(raw)
  {
    var present := (k: string) => Present(raw, k);
    FilterMembers(Canonical, present);
    FilterIsSubsequence(Canonical, present);
    PresentTimestamp(raw);
    Filter(Canonical, present)
  }

  /** "timestamp" and "symbol" are canonical; the symbol always exists, the timestamp exactly when
      the index is named for it. */
  lemma PresentTimestamp(raw: RawFrame)
    ensures "timestamp" in Canonical && "symbol" in Canonical
    ensures Present(raw, "symbol") && (Present(raw, "timestamp") <==> HasTimestamp(raw))
  {
    assert Canonical[0] == "timestamp" && Canonical[1] == "symbol";
    assert "timestamp" !in ValueColumns by {
      assert "timestamp"[0] != "adj_close"[0];
    }
  }

  /** The rows `_clean_data` produces: one per raw row, with the requested symbol, the index as
      timestamp and each kept column's value taken from the raw column it was renamed from. */
  function CleanRows(raw: RawFrame, symbol: string): (rows: seq<Row>)
    ensures |rows| == |raw.rows|
    ensures forall i :: 0 <= i < |raw.rows| ==> rows[i].sym == symbol
    ensures HasTimestamp(raw) ==> forall i :: 0 <= i < |raw.rows| ==> rows[i].ts == raw.rows[i].index
    ensures forall i, k :: 0 <= i < |raw.rows| && k in ValueColumns && SourceColumn(raw.columns, k).Some? ==>
      Get(rows[i], k) == Get(Row(0, "", raw.rows[i].values), SourceColumn(raw.columns, k).value)
  {
    seq(|raw.rows|, i requires 0 <= i < |raw.rows| => CleanRow(raw, symbol, raw.rows[i]))
  }

  /** `_clean_data`: normalise the column names, add the symbol, keep the canonical columns that
      exist in canonical order, then validate; validation raises only when a non-empty download
      has no timestamp column. */
  function CleanData(raw: RawFrame, symbol: string): (r: Result<Frame>)
    ensures r.Err? <==> |raw.rows| > 0 && !HasTimestamp(raw)
    ensures r.Ok? ==> r.value == Frame(CleanColumns(raw), CleanRows(raw, symbol))
  {
    var f := Frame(CleanColumns(raw), CleanRows(raw, symbol));
    match ValidateData(f)
    case Err(e) => Err(e)
    case Ok(_) => Ok(f)
  }

  // ---------------------------------------------------------------------------------------------
  // `_fetch_symbol_data`

  function Pow2(n: nat): (r: real)
    ensures r >= 1.0
  {
    if n == 0 then 1.0 else 2.0 * Pow2(n - 1)
  }

  /** tenacity's `wait_exponential(multiplier=retry_delay, min=1, max=10)` after the failed
      attempt number `attempt`. */
  function WaitAfter(retryDelay: real, attempt: nat): (w: real)
    requires attempt >= 1
    ensures 1.0 <= w <= 10.0
    ensures 1.0 <= retryDelay * Pow2(attempt - 1) <= 10.0 ==> w == retryDelay * Pow2(attempt - 1)
  {
    var x := retryDelay * Pow2(attempt - 1);
    if x > 10.0 then 10.0 else if x < 1.0 then 1.0 else x
  }

  /** One attempt of `_fetch_with_retry`: an exception, or the value it returns (None for an
      empty download). */
  function AttemptOnce(symbol: string, attempt: nat, provider: (string, nat) -> Attempt): (r: Result<Option<Frame>>)
    ensures r.Ok? && r.value.Some? ==> |r.value.value.rows| > 0
  {
    match provider(symbol, attempt)
    case Raise(e) => Err(e)
    case Download(raw) =>
      if RawEmpty(raw) then Ok(None)
      else match CleanData(raw, symbol)
        case Err(e) => Err(e)
        case Ok(f) => Ok(Some(f))
  }

  /** `stop_after_attempt(retry_count)`: the attempt budget (the first attempt always runs). */
  function MaxAttempts(config: LoadConfig): (n: nat)
    ensures n >= 1 && n >= config.retryCount
    ensures n == 1 || n == config.retryCount
  {
    Max(1, config.retryCount)
  }

  /** What `_fetch_symbol_data` returns when starting at attempt `k`. */
  function FetchFrom(symbol: string, config: LoadConfig, provider: (string, nat) -> Attempt, k: nat): Option<Frame>
    requires 1 <= k <= MaxAttempts(config)
    decreases MaxAttempts(config) - k
  {
    var r := AttemptOnce(symbol, k, provider);
    if r.Ok? then r.value
    else if k == MaxAttempts(config) then None
    else FetchFrom(symbol, config, provider, k + 1)
  }

  function FetchOutcome(symbol: string, config: LoadConfig, provider: (string, nat) -> Attempt): Option<Frame>
  {
    FetchFrom(symbol, config, provider, 1)
  }

  /** `_fetch_symbol_data`: attempts are repeated while they raise, at most `retry_count` times in
      all (once when it is below 1); an attempt that returns, an empty download included, ends the
      loop. No exception escapes: when every attempt raised the result is None. `waits` are the
      sleeps between attempts. */
  method FetchSymbolData(symbol: string, config: LoadConfig, provider: (string, nat) -> Attempt)
    returns (df: Option<Frame>, attempts: nat, waits: seq<real>)
    ensures 1 <= attempts <= MaxAttempts(config)
    ensures forall k :: 1 <= k < attempts ==> AttemptOnce(symbol, k, provider).Err?
    ensures attempts < MaxAttempts(config) ==> AttemptOnce(symbol, attempts, provider).Ok?
    ensures df == (if AttemptOnce(symbol, attempts, provider).Ok? then AttemptOnce(symbol, attempts, provider).value else None)
    ensures df == FetchOutcome(symbol, config, provider)
    ensures |waits| == attempts - 1 && forall k :: 0 <= k < |waits| ==> waits[k] == WaitAfter(config.retryDelay, k + 1)
  {
    attempts := 1;
    waits := [];
    var r := AttemptOnce(symbol, 1, provider);
    while r.Err? && attempts < MaxAttempts(config)
      invariant 1 <= attempts <= MaxAttempts(config)
      invariant r == AttemptOnce(symbol, attempts, provider)
      invariant forall k :: 1 <= k < attempts ==> AttemptOnce(symbol, k, provider).Err?
      invariant FetchOutcome(symbol, config, provider) == FetchFrom(symbol, config, provider, attempts)
      invariant |waits| == attempts - 1 && forall k :: 0 <= k < |waits| ==> waits[k] == WaitAfter(config.retryDelay, k + 1)
      decreases MaxAttempts(config) - attempts
    {
      waits := waits + [WaitAfter(config.retryDelay, attempts)];
      attempts := attempts + 1;
      r := AttemptOnce(symbol, attempts, provider);
    }
    df := if r.Ok? then r.value else None;
  }

  // ---------------------------------------------------------------------------------------------
  // `load_ohlcv`

  /** A symbol contributes its frame when the fetch returned a non-empty one. */
  predicate Loaded(symbol: string, config: LoadConfig, provider: (string, nat) -> Attempt)
  {
    var df := FetchOutcome(symbol, config, provider);
    df.Some? && |df.value.rows| > 0
  }

  /** The frames collected in `all_frames`, in symbol order. */
  function LoadedFrames(symbols: seq<string>, config: LoadConfig, provider: (string, nat) -> Attempt): (r: seq<Frame>)
    ensures |r| <= |symbols|
  {
    if |symbols| == 0 then [] else
      var init := LoadedFrames(symbols[..|symbols| - 1], config, provider);
      var s := symbols[|symbols| - 1];
      if Loaded(s, config, provider) then init + [FetchOutcome(s, config, provider).value] else init
  }

  /** The symbols collected in `failed_symbols`, in symbol order. */
  function FailedSymbols(symbols: seq<string>, config: LoadConfig, provider: (string, nat) -> Attempt): (r: seq<string>)
    ensures |r| <= |symbols|
  {
    Filter(symbols, (s: string) => !Loaded(s, config, provider))
  }

  /** How the collected frames and failed symbols grow with one more symbol. */
  lemma LoadStep(symbols: seq<string>, i: nat, config: LoadConfig, provider: (string, nat) -> Attempt)
    requires i < |symbols|
    ensures var s := symbols[i];
      LoadedFrames(symbols[..i + 1], config, provider)
        == LoadedFrames(symbols[..i], config, provider) + (if Loaded(s, config, provider) then [FetchOutcome(s, config, provider).value] else [])
      && FailedSymbols(symbols[..i + 1], config, provider)
        == FailedSymbols(symbols[..i], config, provider) + (if Loaded(s, config, provider) then [] else [s])
  {
    assert symbols[..i + 1][..i] == symbols[..i];
  }

  /** `load_ohlcv`: ValueError when no symbol produced data; otherwise the rows of every loaded
      frame, sorted by (timestamp, symbol), with the union of their columns. */
  method LoadOhlcv(symbols: seq<string>, config: LoadConfig, provider: (string, nat) -> Attempt)
    returns (r: Result<Frame>, failed: seq<string>)
    ensures failed == FailedSymbols(symbols, config, provider)
    ensures r.Err? <==> |LoadedFrames(symbols, config, provider)| == 0
    ensures r.Err? ==> r.error.ValueError?
    ensures r.Ok? ==> r.value.rows == Sort(ConcatRows(LoadedFrames(symbols, config, provider)), TsSymKey)
    ensures r.Ok? ==> r.value.columns == ConcatFrames(LoadedFrames(symbols, config, provider)).columns
  {
    var allFrames;
    allFrames, failed := FetchAll(symbols, config, provider);
    if |allFrames| == 0 {
      r := Err(ValueError("No data could be loaded for any symbols"));
      return;
    }
    var combined := ConcatFrames(allFrames);
    ConcatFramesRows(allFrames);
    r := Ok(Frame(combined.columns, Sort(combined.rows, TsSymKey)));
  }

  /** The loop over the symbols: the non-empty frames in symbol order, and the symbols whose
      download failed or came back empty. */
  method FetchAll(symbols: seq<string>, config: LoadConfig, provider: (string, nat) -> Attempt)
    returns (allFrames: seq<Frame>, failed: seq<string>)
    ensures allFrames == LoadedFrames(symbols, config, provider)
    ensures failed == FailedSymbols(symbols, config, provider)
  {
    allFrames := [];
    failed := [];
    var i := 0;
    while i < |symbols|
      invariant 0 <= i <= |symbols|
      invariant allFrames == LoadedFrames(symbols[..i], config, provider)
      invariant failed == FailedSymbols(symbols[..i], config, provider)
    {
      var s := symbols[i];
      var df, _, _ := FetchSymbolData(s, config, provider);
      LoadStep(symbols, i, config, provider);
      if df.Some? && |df.value.rows| > 0 {
        allFrames := allFrames + [df.value];
      } else {
        failed := failed + [s];
      }
      i := i + 1;
    }
    assert symbols[..|symbols|] == symbols;
  }

  /** Every loaded frame holds only rows of its own symbol. */
  lemma {:induction false} LoadedFramesRows(symbols: seq<string>, config: LoadConfig, provider: (string, nat) -> Attempt)
    ensures forall x :: x in ConcatRows(LoadedFrames(symbols, config, provider)) ==>
      x.sym in symbols && Loaded(x.sym, config, provider)
  {
    if |symbols| > 0 {
      var init := symbols[..|symbols| - 1];
      var s := symbols[|symbols| - 1];
      LoadedFramesRows(init, config, provider);
      var prev := LoadedFrames(init, config, provider);
      if Loaded(s, config, provider) {
        var f := FetchOutcome(s, config, provider).value;
        FetchOutcomeRows(s, config, provider);
        assert LoadedFrames(symbols, config, provider) == prev + [f];
        assert ConcatRows(prev + [f]) == ConcatRows(prev) + f.rows by {
          assert (prev + [f])[..|prev|] == prev;
        }
      }
    }
  }

  /** A fetched frame's rows all carry the requested symbol. */
  lemma {:induction false} FetchFromRows(symbol: string, config: LoadConfig, provider: (string, nat) -> Attempt, k: nat)
    requires 1 <= k <= MaxAttempts(config)
    ensures FetchFrom(symbol, config, provider, k).Some? ==>
      forall x :: x in FetchFrom(symbol, config, provider, k).value.rows ==> x.sym == symbol
    decreases MaxAttempts(config) - k
  {
    if !AttemptOnce(symbol, k, provider).Ok? && k < MaxAttempts(config) {
      FetchFromRows(symbol, config, provider, k + 1);
    }
  }

  lemma FetchOutcomeRows(symbol: string, config: LoadConfig, provider: (string, nat) -> Attempt)
    ensures FetchOutcome(symbol, config, provider).Some? ==>
      forall x :: x in FetchOutcome(symbol, config, provider).value.rows ==> x.sym == symbol
  {
    FetchFromRows(symbol, config, provider, 1);
  }

  /** No row of the result belongs to a failed symbol, and every row belongs to a requested one. */
  lemma FailedSymbolsContributeNothing(symbols: seq<string>, config: LoadConfig, provider: (string, nat) -> Attempt, x: Row)
    requires x in Sort(ConcatRows(LoadedFrames(symbols, config, provider)), TsSymKey)
    ensures x.sym in symbols && x.sym !in FailedSymbols(symbols, config, provider)
  {
    var rows := ConcatRows(LoadedFrames(symbols, config, provider));
    assert x in multiset(Sort(rows, TsSymKey));
    LoadedFramesRows(symbols, config, provider);
    FilterMembers(symbols, (s: string) => !Loaded(s, config, provider));
  }

  /** The result is sorted by (timestamp, symbol) and holds each loaded row exactly as often as the
      loaded frames do. */
  lemma ResultSortedPermutation(symbols: seq<string>, config: LoadConfig, provider: (string, nat) -> Attempt)
    ensures var rows := ConcatRows(LoadedFrames(symbols, config, provider));
      SortedBy(Sort(rows, TsSymKey), TsSymKey) && multiset(Sort(rows, TsSymKey)) == multiset(rows)
  {
    SortSorted(ConcatRows(LoadedFrames(symbols, config, provider)), TsSymKey);
  }

  /** Every symbol is either loaded or failed. */
  lemma {:induction false} EverySymbolAccountedFor(symbols: seq<string>, config: LoadConfig, provider: (string, nat) -> Attempt)
    ensures |LoadedFrames(symbols, config, provider)| + |FailedSymbols(symbols, config, provider)| == |symbols|
  {
    if |symbols| > 0 {
      EverySymbolAccountedFor(symbols[..|symbols| - 1], config, provider);
    }
  }
}

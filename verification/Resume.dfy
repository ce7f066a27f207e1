/**
 Resuming a history download: which symbols are downloaded again, when the output
 may be written, and what consolidation makes of the base rows and symbol files.
 */
module Resume {
  import opened Bars
  import opened KeyedRows
  import opened Lists
  import opened Ordering
  import opened Text
  import opened Wrappers

  // ---------------------------------------------------------------------
  // What is still to download

  /** Everything the analysis reads.  `normalize` is canonical_symbol; `accepts` is the validation of
      one symbol's rows, sorted by date and restricted to the range, which refuses an empty list. */
  datatype Dataset = Dataset(universe: seq<string>, rows: seq<Row>, files: map<string, seq<Row>>,
                             legacyDone: set<string>, resumeDone: set<string>,
                             legacyFailed: map<string, string>, resumeFailed: map<string, string>,
                             normalize: string -> string, inRange: Row -> bool,
                             accepts: (string, seq<Row>) -> bool)

  datatype Analysis = Analysis(completed: seq<string>, missing: seq<string>, untrusted: set<string>,
                               incomplete: set<string>, targets: seq<string>)

  ghost predicate Sound(d: Dataset) {
    (forall s :: !d.accepts(s, [])) && "" !in d.universe
  }

  /** The dataset's rows of one symbol, in their order. */
  function OwnRows(rows: seq<Row>, symbol: string, normalize: string -> string): seq<Row> {
    Filter(rows, (r: Row) => normalize(r.ticker) == symbol)
  }

  function FileRows(files: map<string, seq<Row>>, symbol: string): seq<Row> {
    if symbol in files then files[symbol] else []
  }

  /** The rows that a symbol is judged by: its file if the resumed download completed it, else the
      dataset's rows, and the file again when there are none. */
  function SourceRows(d: Dataset, symbol: string): seq<Row> {
    var file := FileRows(d.files, symbol);
    var own := OwnRows(d.rows, symbol, d.normalize);
    if symbol in d.resumeDone && file != [] then file
    else if own != [] then own
    else file
  }

  predicate Trusted(d: Dataset, symbol: string) {
    symbol in d.universe && (symbol in d.legacyDone || symbol in d.resumeDone)
  }

  /** The symbol is recorded as complete and its rows bear that out. */
  predicate ValidatedComplete(d: Dataset, symbol: string) {
    Trusted(d, symbol) && d.accepts(symbol, Filter(SortByDate(SourceRows(d, symbol)), d.inRange))
  }

  predicate RecordedFailed(d: Dataset, symbol: string) {
    symbol in d.legacyFailed || symbol in d.resumeFailed
  }

  predicate MustDownload(d: Dataset, symbol: string) {
    !ValidatedComplete(d, symbol) || RecordedFailed(d, symbol)
  }

  /** Whether the symbol has any rows, in the dataset or in a file of its own. */
  predicate HasRows(d: Dataset, symbol: string) {
    OwnRows(d.rows, symbol, d.normalize) != [] || symbol in d.files
  }

  /** The rows of a symbol that the analysis looks at, in the order in which it looks for them. */
  ghost predicate LooksAt(d: Dataset, symbol: string, rows: seq<Row>) {
    var own := Filter(d.rows, (r: Row) => d.normalize(r.ticker) == symbol);
    var file := if symbol in d.files then d.files[symbol] else [];
    && (symbol in d.resumeDone && file != [] ==> rows == file)
    && ((symbol !in d.resumeDone || file == []) && own != [] ==> rows == own)
    && (own == [] ==> rows == file)
  }

  /** A symbol is downloaded again unless a download recorded it as complete, none recorded it as
      failed, and its rows in the range, by date, are accepted. */
  lemma DownloadedAgainIff(d: Dataset, symbol: string, rows: seq<Row>)
    requires LooksAt(d, symbol, rows)
    ensures symbol in Filter(d.universe, MustDownloadIn(d)) <==>
      symbol in d.universe &&
      ((symbol !in d.legacyDone && symbol !in d.resumeDone) || symbol in d.legacyFailed || symbol in d.resumeFailed
       || !d.accepts(symbol, Filter(SortByDate(rows), d.inRange)))
  {
    FilterMembers(d.universe, MustDownloadIn(d));
    assert OwnRows(d.rows, symbol, d.normalize) == Filter(d.rows, (r: Row) => d.normalize(r.ticker) == symbol);
    assert SourceRows(d, symbol) == rows;
  }

  lemma CompleteHasRows(d: Dataset, symbol: string)
    requires Sound(d) && ValidatedComplete(d, symbol)
    ensures HasRows(d, symbol)
  {
    assert SourceRows(d, symbol) == [] ==> Filter(SortByDate(SourceRows(d, symbol)), d.inRange) == [];
  }

  /** Some row of the dataset is the symbol's. */
  lemma HasOwnRows(rows: seq<Row>, symbol: string, normalize: string -> string)
    ensures OwnRows(rows, symbol, normalize) != [] <==>
      exists i :: 0 <= i < |rows| && normalize(rows[i].ticker) == symbol
  {
    var keep := (r: Row) => normalize(r.ticker) == symbol;
    FilterMembers(rows, keep);
    var own := Filter(rows, keep);
    if own != [] { assert own[0] in own; }
    if i :| 0 <= i < |rows| && normalize(rows[i].ticker) == symbol { assert rows[i] in own; }
  }

  method SymbolsWithRows(d: Dataset) returns (symbols: set<string>)
    requires "" !in d.universe
    ensures forall s :: s in symbols <==> s in d.universe && OwnRows(d.rows, s, d.normalize) != []
  {
    var seen: set<string> := {};
    for i := 0 to |d.rows|
      invariant forall s :: s in seen <==> s != "" && exists j :: 0 <= j < i && d.normalize(d.rows[j].ticker) == s
    {
      var symbol := d.normalize(d.rows[i].ticker);
      if symbol != "" {
        seen := seen + {symbol};
      }
    }
    symbols := set s | s in seen && s in d.universe;
    forall s
      ensures OwnRows(d.rows, s, d.normalize) != [] <==>
        exists j :: 0 <= j < |d.rows| && d.normalize(d.rows[j].ticker) == s
    {
      HasOwnRows(d.rows, s, d.normalize);
    }
  }

  function CompleteIn(d: Dataset): string -> bool {
    (s: string) => ValidatedComplete(d, s)
  }

  lemma {:induction false} FilterIncreases(s: seq<string>, keep: string -> bool, less: (string, string) -> bool)
    requires Increasing(s, less)
    ensures Increasing(Filter(s, keep), less)
  {
    if s != [] {
      var n := |s| - 1;
      FilterIncreases(s[..n], keep, less);
      FilterMembers(s[..n], keep);
      var rest := Filter(s[..n], keep);
      forall i | 0 <= i < |rest| ensures less(rest[i], s[n]) {
        assert rest[i] in s[..n];
      }
    }
  }

  /** One pass over the trusted symbols, in sorted order. */
  method SplitTrusted(d: Dataset, order: seq<string>) returns (valid: seq<string>, invalid: set<string>)
    requires forall i :: 0 <= i < |order| ==> Trusted(d, order[i])
    ensures valid == Filter(order, CompleteIn(d))
    ensures forall s :: s in invalid <==> s in order && !ValidatedComplete(d, s)
  {
    valid, invalid := [], {};
    for i := 0 to |order|
      invariant valid == Filter(order[..i], CompleteIn(d))
      invariant forall s :: s in invalid <==> s in order[..i] && !ValidatedComplete(d, s)
    {
      assert order[..i + 1][..i] == order[..i];
      assert order[..i + 1] == order[..i] + [order[i]];
      var rows := Filter(SortByDate(SourceRows(d, order[i])), d.inRange);
      if d.accepts(order[i], rows) {
        valid := valid + [order[i]];
      } else {
        invalid := invalid + {order[i]};
      }
    }
    assert order[..|order|] == order;
  }

  /** The trusted symbols, split by whether their rows validate. */
  method CheckTrusted(d: Dataset) returns (valid: seq<string>, invalid: set<string>)
    ensures Increasing(valid, Less)
    ensures forall s :: s in valid <==> ValidatedComplete(d, s)
    ensures forall s :: s in invalid <==> Trusted(d, s) && !ValidatedComplete(d, s)
  {
    LessIsStrictTotal();
    var trusted := set s | s in d.universe && (s in d.legacyDone || s in d.resumeDone);
    var order := Sort(trusted, Less);
    forall s ensures s in order <==> Trusted(d, s) {
      assert s in order <==> s in Elements(order);
    }
    valid, invalid := SplitTrusted(d, order);
    FilterIncreases(order, CompleteIn(d), Less);
    FilterMembers(order, CompleteIn(d));
  }

  function MustDownloadIn(d: Dataset): string -> bool {
    (s: string) => MustDownload(d, s)
  }

  method SelectTargets(d: Dataset, wanted: set<string>) returns (targets: seq<string>)
    requires forall s :: s in d.universe ==> (s in wanted <==> MustDownload(d, s))
    ensures targets == Filter(d.universe, MustDownloadIn(d))
  {
    targets := [];
    for i := 0 to |d.universe|
      invariant targets == Filter(d.universe[..i], MustDownloadIn(d))
    {
      assert d.universe[..i + 1][..i] == d.universe[..i];
      assert d.universe[i] in d.universe;
      if d.universe[i] in wanted {
        targets := targets + [d.universe[i]];
      }
    }
    assert d.universe[..|d.universe|] == d.universe;
  }

  /** The sets that the code puts together select the symbols that must be downloaded. */
  lemma WantedIff(d: Dataset, rowsSymbols: set<string>, valid: seq<string>, invalid: set<string>, s: string)
    requires Sound(d) && s in d.universe
    requires s in rowsSymbols <==> OwnRows(d.rows, s, d.normalize) != []
    requires s in valid <==> ValidatedComplete(d, s)
    requires s in invalid <==> Trusted(d, s) && !ValidatedComplete(d, s)
    ensures MustDownload(d, s) <==>
      || (s !in rowsSymbols && s !in d.files)
      || ((s in rowsSymbols || s in d.files) && s !in valid)
      || s in invalid
      || RecordedFailed(d, s)
  {
    if ValidatedComplete(d, s) { CompleteHasRows(d, s); }
  }

  /** analyze_dataset, its target selection: exactly the universe symbols that are not
      validated-complete or are recorded as failed, in universe order. */
  method AnalyzeDataset(d: Dataset) returns (a: Analysis)
    requires Sound(d)
    ensures Increasing(a.completed, Less) && forall s :: s in a.completed <==> ValidatedComplete(d, s)
    ensures a.targets == Filter(d.universe, MustDownloadIn(d))
    ensures forall s :: s in a.missing <==> s in d.universe && !HasRows(d, s)
    ensures forall s :: s in a.untrusted <==> s in d.universe && HasRows(d, s) && !ValidatedComplete(d, s)
    ensures forall s :: s in a.incomplete <==>
      s in d.universe && ((!ValidatedComplete(d, s) && (HasRows(d, s) || Trusted(d, s))) || RecordedFailed(d, s))
  {
    var rowsSymbols := SymbolsWithRows(d);
    var valid, invalid := CheckTrusted(d);
    var isMissing := (s: string) => s !in rowsSymbols && s !in d.files;
    var missing := Filter(d.universe, isMissing);
    FilterMembers(d.universe, isMissing);
    var untrusted := set s | s in d.universe && (s in rowsSymbols || s in d.files) && s !in valid;
    var failed := set s | s in d.universe && RecordedFailed(d, s);
    var incomplete := untrusted + invalid + failed;
    forall s | s in d.universe ensures s in (set x | x in missing) + incomplete <==> MustDownload(d, s) {
      WantedIff(d, rowsSymbols, valid, invalid, s);
    }
    var targets := SelectTargets(d, (set s | s in missing) + incomplete);
    a := Analysis(valid, missing, untrusted, incomplete, targets);
  }

  /** The guard of maybe_finalize_output: the output is rewritten only when asked for, and only if
      every universe symbol validated and none of them is recorded as failed. */
  lemma FinalizeGuard(d: Dataset)
    ensures Filter(d.universe, MustDownloadIn(d)) == [] <==>
      forall s :: s in d.universe ==> ValidatedComplete(d, s) && !RecordedFailed(d, s)
  {
    var need := MustDownloadIn(d);
    FilterMembers(d.universe, need);
    if Filter(d.universe, need) != [] {
      var s := Filter(d.universe, need)[0];
      assert s in Filter(d.universe, need);
    }
  }

  // ---------------------------------------------------------------------
  // Consolidation

  /** A base row is keyed by its own ticker, a file row by the symbol whose file it is in. */
  function BaseKey(row: Row, normalize: string -> string): Option<Key> {
    var k := Key(normalize(row.ticker), Strip(row.date));
    if k.ticker != "" && k.date != "" then Some(k) else None
  }

  function FileKey(row: Row, symbol: string): Option<Key> {
    if Strip(row.date) != "" then Some(Key(symbol, Strip(row.date))) else None
  }

  lemma KeysMean(row: Row, normalize: string -> string, symbol: string, k: Key)
    ensures BaseKey(row, normalize) == Some(k) <==>
      k.ticker == normalize(row.ticker) && k.date == Strip(row.date) && k.ticker != "" && k.date != ""
    ensures FileKey(row, symbol) == Some(k) <==> k.ticker == symbol && k.date == Strip(row.date) && k.date != ""
  {}

  function BaseKeyOf(normalize: string -> string): Row -> Option<Key> {
    (row: Row) => BaseKey(row, normalize)
  }

  function FileKeyOf(symbol: string): Row -> Option<Key> {
    (row: Row) => FileKey(row, symbol)
  }

  function Without(t: map<Key, Row>, symbol: string): map<Key, Row> {
    map k | k in t && k.ticker != symbol :: t[k]
  }

  /** One completed symbol: a file with rows replaces everything there was under the symbol. */
  function Replaced(t: map<Key, Row>, symbol: string, file: seq<Row>): map<Key, Row> {
    if file == [] then t else Without(t, symbol) + Table(file, FileKeyOf(symbol))
  }

  function Consolidated(t: map<Key, Row>, completed: seq<string>, files: map<string, seq<Row>>): map<Key, Row> {
    if completed == [] then t
    else
      var n := |completed| - 1;
      Replaced(Consolidated(t, completed[..n], files), completed[n], FileRows(files, completed[n]))
  }

  lemma {:induction false} FileTableKeys(file: seq<Row>, symbol: string, k: Key)
    ensures k in Table(file, FileKeyOf(symbol)) ==> k.ticker == symbol
  {
    if file != [] {
      FileTableKeys(file[..|file| - 1], symbol, k);
    }
  }

  lemma ReplacedAt(t: map<Key, Row>, symbol: string, file: seq<Row>, k: Key)
    ensures var after := Replaced(t, symbol, file);
      if k.ticker == symbol && file != []
      then (k in after <==> LastWith(file, k, FileKeyOf(symbol)).Some?) &&
           (k in after ==> after[k] == LastWith(file, k, FileKeyOf(symbol)).value)
      else (k in after <==> k in t) && (k in after ==> after[k] == t[k])
  {
    if file != [] {
      FileTableKeys(file, symbol, k);
      TableHoldsTheLast(file, k, FileKeyOf(symbol));
    }
  }

  /** A completed symbol with a non-empty file has exactly the file's dated rows, the last for
      each date; the rows of every other symbol are those of the base, the last for each key. */
  lemma {:induction false} ConsolidatedAt(base: seq<Row>, completed: seq<string>, files: map<string, seq<Row>>,
                                          normalize: string -> string, k: Key)
    ensures var after := Consolidated(Table(base, BaseKeyOf(normalize)), completed, files);
      var last := if k.ticker in completed && FileRows(files, k.ticker) != []
        then LastWith(FileRows(files, k.ticker), k, FileKeyOf(k.ticker))
        else LastWith(base, k, BaseKeyOf(normalize));
      (k in after <==> last.Some?) && (k in after ==> after[k] == last.value)
  {
    if completed == [] {
      TableHoldsTheLast(base, k, BaseKeyOf(normalize));
    } else {
      var n := |completed| - 1;
      ConsolidatedAt(base, completed[..n], files, normalize, k);
      ReplacedAt(Consolidated(Table(base, BaseKeyOf(normalize)), completed[..n], files), completed[n],
                 FileRows(files, completed[n]), k);
      assert k.ticker in completed <==> k.ticker in completed[..n] || k.ticker == completed[n];
    }
  }

  /** consolidate_rows_with_symbol_files: the consolidated rows, each (symbol, date) once and in sorted order. */
  method ConsolidateRowsWithSymbolFiles(base: seq<Row>, completed: seq<string>, files: map<string, seq<Row>>,
                                        normalize: string -> string)
    returns (rows: seq<Row>)
    ensures rows == ListBars(Consolidated(Table(base, BaseKeyOf(normalize)), completed, files))
  {
    var mapped: map<Key, Row> := map[];
    for i := 0 to |base|
      invariant mapped == Table(base[..i], BaseKeyOf(normalize))
    {
      assert base[..i + 1][..i] == base[..i];
      var k := BaseKey(base[i], normalize);
      if k.Some? {
        mapped := mapped[k.value := base[i]];
      }
    }
    assert base[..|base|] == base;
    for i := 0 to |completed|
      invariant mapped == Consolidated(Table(base, BaseKeyOf(normalize)), completed[..i], files)
    {
      assert completed[..i + 1][..i] == completed[..i];
      mapped := ReplaceSymbol(mapped, completed[i], FileRows(files, completed[i]));
    }
    assert completed[..|completed|] == completed;
    KeyLessIsStrictTotal();
    rows := ListRows(mapped, KeyLess);
  }

  method ReplaceSymbol(t: map<Key, Row>, symbol: string, file: seq<Row>) returns (replaced: map<Key, Row>)
    ensures replaced == Replaced(t, symbol, file)
  {
    if file == [] { return t; }
    var kept := Without(t, symbol);
    replaced := kept;
    for i := 0 to |file|
      invariant replaced == kept + Table(file[..i], FileKeyOf(symbol))
    {
      assert file[..i + 1][..i] == file[..i];
      var k := FileKey(file[i], symbol);
      if k.Some? {
        replaced := replaced[k.value := file[i]];
      }
    }
    assert file[..|file|] == file;
  }

  /** The listing shows each key of the table once, in increasing order. */
  lemma ListedOnceInOrder(t: map<Key, Row>)
    ensures exists keys: seq<Key> {:trigger Increasing(keys, KeyLess)} ::
      Increasing(keys, KeyLess) && |keys| == |ListBars(t)| == |t| &&
      forall i :: 0 <= i < |keys| ==> keys[i] in t && ListBars(t)[i] == t[keys[i]]
  {
    KeyLessIsStrictTotal();
    var keys := Sorted(t.Keys, KeyLess);
    CardinalityOf(keys, t.Keys, KeyLess);
    assert forall k :: k in keys ==> k in Elements(keys);
    assert Increasing(keys, KeyLess);
  }

  /** Analysis and maybe_finalize_output together: the output is rewritten exactly when that was asked for
      and every universe symbol validated with none recorded as failed, and then from every symbol's file. */
  method FinalizeOutput(d: Dataset, requested: bool) returns (written: Option<seq<Row>>)
    requires Sound(d)
    ensures written.Some? <==>
      requested && forall s :: s in d.universe ==> ValidatedComplete(d, s) && !RecordedFailed(d, s)
    ensures written.Some? ==> exists completed: seq<string> {:trigger Increasing(completed, Less)} ::
      && Increasing(completed, Less) && (forall s :: s in completed <==> s in d.universe)
      && written.value == ListBars(Consolidated(Table(d.rows, BaseKeyOf(d.normalize)), completed, d.files))
  {
    var a := AnalyzeDataset(d);
    FinalizeGuard(d);
    if a.targets != [] || !requested { return None; }
    var rows := ConsolidateRowsWithSymbolFiles(d.rows, a.completed, d.files, d.normalize);
    assert Increasing(a.completed, Less);
    written := Some(rows);
  }
}

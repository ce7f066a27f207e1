/** Daily-bar rows of the CSV schema, keyed by (ticker, date). */
module Bars {
  import opened Lists
  import opened Ordering
  import opened Text
  import opened Wrappers
  import opened KeyedRows
  import opened DatasetCheck

  datatype Row = Row(ticker: string, name: string, conId: string, localSymbol: string, date: string,
                     open: string, high: string, low: string, close: string, volume: string,
                     barCount: string, average: string)

  datatype Key = Key(ticker: string, date: string)

  function SymbolOf(row: Row): string {
    Upper(Strip(row.ticker))
  }

  function BarKey(row: Row): Key {
    Key(SymbolOf(row), Strip(row.date))
  }

  /** The merge key; rows without a ticker or a date have none. */
  function RowKey(row: Row): Option<Key> {
    var k := BarKey(row);
    if k.ticker != "" && k.date != "" then Some(k) else None
  }

  predicate KeyLess(a: Key, b: Key) {
    Less(a.ticker, b.ticker) || (a.ticker == b.ticker && Less(a.date, b.date))
  }

  lemma KeyLessIsStrictTotal()
    ensures StrictTotal(KeyLess)
  {
    LessIsStrictTotal();
  }

  /** A row is merged under its upper-case ticker and its date, without the spaces around them, and
      only if it has both. */
  lemma RowKeyMeans(row: Row, k: Key)
    ensures RowKey(row) == Some(k) <==>
      k.ticker == Upper(Strip(row.ticker)) && k.date == Strip(row.date) && k.ticker != "" && k.date != ""
  {}

  /** A table is listed by ticker, and each ticker's bars by date. */
  lemma ListedByTickerThenDate(t: map<Key, Row>, i: nat, j: nat)
    requires WellKeyed(t, RowKey) && i < j < |ListBars(t)|
    ensures var (a, b) := (ListBars(t)[i], ListBars(t)[j]);
      Less(SymbolOf(a), SymbolOf(b)) || (SymbolOf(a) == SymbolOf(b) && Less(Strip(a.date), Strip(b.date)))
  {
    KeyLessIsStrictTotal();
    ListingIsInKeyOrder(t, RowKey, KeyLess);
  }

  ghost function ListBars(t: map<Key, Row>): seq<Row> {
    KeyLessIsStrictTotal();
    Listing(t, KeyLess)
  }

  ghost function MergeBars(existing: seq<Row>, incoming: seq<Row>): seq<Row> {
    KeyLessIsStrictTotal();
    Merge(existing, incoming, RowKey, KeyLess)
  }

  /** Merging keys strictly increase, the incoming row wins, and merging is associative and idempotent. */
  lemma MergeBarsLaws(a: seq<Row>, b: seq<Row>, c: seq<Row>, k: Key)
    ensures InKeyOrder(MergeBars(a, b), RowKey, KeyLess)
    ensures LastWith(MergeBars(a, b), k, RowKey) ==
      if LastWith(b, k, RowKey).Some? then LastWith(b, k, RowKey) else LastWith(a, k, RowKey)
    ensures MergeBars(MergeBars(a, b), c) == MergeBars(a, MergeBars(b, c))
    ensures MergeBars(MergeBars(a, b), b) == MergeBars(a, b)
  {
    KeyLessIsStrictTotal();
    TableOfMerge(a, b, RowKey, KeyLess);
    TableHoldsTheLast(a, k, RowKey);
    TableHoldsTheLast(b, k, RowKey);
    TableHoldsTheLast(MergeBars(a, b), k, RowKey);
    MergeIsAssociative(a, b, c, RowKey, KeyLess);
    MergeIsIdempotent(a, b, RowKey, KeyLess);
  }

  /** What merge_rows returns never shows a duplicate or an out-of-order row to the validation. */
  lemma MergedBarsAreClean(a: seq<Row>, b: seq<Row>)
    ensures Duplicates(MergeBars(a, b), BarKey) == 0
    ensures OutOfOrder(MergeBars(a, b), BarKey, KeyLess) == 0
  {
    KeyLessIsStrictTotal();
    TableOfMerge(a, b, RowKey, KeyLess);
    OrderedRowsAreClean(MergeBars(a, b), RowKey, BarKey, KeyLess);
  }

  /** filter_rows_by_date_range; `window` tells which date texts parse into the range. */
  function FilterRows(rows: seq<Row>, window: string -> bool): seq<Row> {
    Filter(rows, (r: Row) => window(Strip(r.date)))
  }

  lemma TableOfFilterRows(rows: seq<Row>, window: string -> bool)
    ensures Table(FilterRows(rows, window), RowKey) == Restrict(Table(rows, RowKey), (k: Key) => window(k.date))
  {
    TableOfFilter(rows, RowKey, (r: Row) => window(Strip(r.date)), (k: Key) => window(k.date));
  }

  // ---------------------------------------------------------------------
  // Rows of one symbol, by date

  function InsertBy(rows: seq<Row>, row: Row, less: (string, string) -> bool): seq<Row> {
    if rows != [] && less(row.date, rows[|rows| - 1].date)
    then InsertBy(rows[..|rows| - 1], row, less) + [rows[|rows| - 1]]
    else rows + [row]
  }

  function SortBy(rows: seq<Row>, less: (string, string) -> bool): seq<Row> {
    if rows == [] then [] else InsertBy(SortBy(rows[..|rows| - 1], less), rows[|rows| - 1], less)
  }

  /** `sorted(rows, key=date)`, on the date as it stands. */
  function SortByDate(rows: seq<Row>): seq<Row> {
    SortBy(rows, Less)
  }

  function OwnedBy(symbol: string): Row -> bool {
    (row: Row) => SymbolOf(row) == symbol
  }

  /** rows_for_symbol. */
  function RowsForSymbol(rows: seq<Row>, symbol: string): seq<Row> {
    SortByDate(Filter(rows, OwnedBy(symbol)))
  }

  ghost predicate InDateOrder(rows: seq<Row>, less: (string, string) -> bool) {
    forall i, j :: 0 <= i < j < |rows| ==> !less(rows[j].date, rows[i].date)
  }

  function DatedAt(date: string): Row -> bool {
    (row: Row) => row.date == date
  }

  lemma {:induction false} InsertIsStable(rows: seq<Row>, row: Row, less: (string, string) -> bool, date: string)
    requires StrictTotal(less)
    ensures Filter(InsertBy(rows, row, less), DatedAt(date)) == Filter(rows + [row], DatedAt(date))
  {
    var keep := DatedAt(date);
    if rows != [] && less(row.date, rows[|rows| - 1].date) {
      var (init, last) := (rows[..|rows| - 1], rows[|rows| - 1]);
      InsertIsStable(init, row, less, date);
      FilterConcat(InsertBy(init, row, less), [last], keep);
      FilterConcat(init, [row], keep);
      FilterConcat(init, [last], keep);
      FilterConcat(init + [last], [row], keep);
      assert rows == init + [last];
      SwapApart(row, last, keep);
    }
  }

  lemma {:induction false} InsertKeeps(rows: seq<Row>, row: Row, less: (string, string) -> bool)
    ensures multiset(InsertBy(rows, row, less)) == multiset(rows) + multiset{row}
  {
    if rows != [] && less(row.date, rows[|rows| - 1].date) {
      InsertKeeps(rows[..|rows| - 1], row, less);
      assert rows == rows[..|rows| - 1] + [rows[|rows| - 1]];
    }
  }

  /** Two rows that a filter does not both keep may change places. */
  lemma SwapApart(a: Row, b: Row, keep: Row -> bool)
    requires !(keep(a) && keep(b))
    ensures Filter([a], keep) + Filter([b], keep) == Filter([b], keep) + Filter([a], keep)
  {
    assert Filter([], keep) == [] && [a][..0] == [] && [b][..0] == [];
  }

  /** Sorting by date keeps every row, and rows of one date in their order. */
  lemma {:induction false} SortIsStable(rows: seq<Row>, less: (string, string) -> bool, date: string)
    requires StrictTotal(less)
    ensures Filter(SortBy(rows, less), DatedAt(date)) == Filter(rows, DatedAt(date))
    ensures multiset(SortBy(rows, less)) == multiset(rows)
  {
    if rows != [] {
      var (init, last) := (rows[..|rows| - 1], rows[|rows| - 1]);
      assert rows == init + [last];
      SortIsStable(init, less, date);
      InsertIsStable(SortBy(init, less), last, less, date);
      InsertKeeps(SortBy(init, less), last, less);
      FilterConcat(SortBy(init, less), [last], DatedAt(date));
      FilterConcat(init, [last], DatedAt(date));
    }
  }

  /** No row of the list comes after the date. */
  ghost predicate NoneAfter(rows: seq<Row>, date: string, less: (string, string) -> bool) {
    forall i :: 0 <= i < |rows| ==> !less(date, rows[i].date)
  }

  lemma AppendInOrder(rows: seq<Row>, last: Row, less: (string, string) -> bool)
    requires InDateOrder(rows, less) && NoneAfter(rows, last.date, less)
    ensures InDateOrder(rows + [last], less)
  {}

  lemma LastIsLatest(rows: seq<Row>, date: string, less: (string, string) -> bool)
    requires StrictTotal(less) && InDateOrder(rows, less) && rows != [] && !less(date, rows[|rows| - 1].date)
    ensures NoneAfter(rows, date, less)
  {
    var last := rows[|rows| - 1].date;
    forall i | 0 <= i < |rows| ensures !less(date, rows[i].date) {
      if i < |rows| - 1 { Between(rows[i].date, last, date, less); }
    }
  }

  lemma Between(a: string, b: string, c: string, less: (string, string) -> bool)
    requires StrictTotal(less) && !less(c, b) && !less(b, a)
    ensures !less(c, a)
  {
    assert less(c, a) ==> a == b || (less(a, b) && less(c, b));
  }

  lemma {:induction false} InsertNotAfter(rows: seq<Row>, row: Row, date: string, less: (string, string) -> bool)
    requires NoneAfter(rows, date, less) && !less(date, row.date)
    ensures NoneAfter(InsertBy(rows, row, less), date, less)
  {
    if rows != [] && less(row.date, rows[|rows| - 1].date) {
      InsertNotAfter(rows[..|rows| - 1], row, date, less);
    }
  }

  lemma {:induction false} InsertInOrder(rows: seq<Row>, row: Row, less: (string, string) -> bool)
    requires StrictTotal(less) && InDateOrder(rows, less)
    ensures InDateOrder(InsertBy(rows, row, less), less)
  {
    if rows != [] && less(row.date, rows[|rows| - 1].date) {
      var (init, last) := (rows[..|rows| - 1], rows[|rows| - 1]);
      InsertInOrder(init, row, less);
      NotBothWays(row.date, last.date, less);
      InsertNotAfter(init, row, last.date, less);
      AppendInOrder(InsertBy(init, row, less), last, less);
    } else if rows != [] {
      LastIsLatest(rows, row.date, less);
      AppendInOrder(rows, row, less);
    }
  }

  lemma {:induction false} SortsByDate(rows: seq<Row>, less: (string, string) -> bool)
    requires StrictTotal(less)
    ensures InDateOrder(SortBy(rows, less), less)
  {
    if rows != [] {
      SortsByDate(rows[..|rows| - 1], less);
      InsertInOrder(SortBy(rows[..|rows| - 1], less), rows[|rows| - 1], less);
    }
  }

  /** rows_for_symbol returns exactly the symbol's rows, by date, and rows of one date in their order. */
  lemma RowsForSymbolMeaning(rows: seq<Row>, symbol: string, date: string)
    ensures var own := RowsForSymbol(rows, symbol);
      && InDateOrder(own, Less)
      && multiset(own) == multiset(Filter(rows, OwnedBy(symbol)))
      && (forall row :: row in own <==> row in rows && SymbolOf(row) == symbol)
      && Filter(own, DatedAt(date)) == Filter(Filter(rows, OwnedBy(symbol)), DatedAt(date))
  {
    var filtered := Filter(rows, OwnedBy(symbol));
    LessIsStrictTotal();
    SortsByDate(filtered, Less);
    SortIsStable(filtered, Less, date);
    FilterMembers(rows, OwnedBy(symbol));
    forall row ensures row in RowsForSymbol(rows, symbol) <==> row in filtered {
      assert row in RowsForSymbol(rows, symbol) <==> row in multiset(RowsForSymbol(rows, symbol));
      assert row in filtered <==> row in multiset(filtered);
    }
  }
}

/**
 Validation of a whole dataset in one pass over its rows: counters for duplicate
 keys, for rows out of order, and for rows that are malformed in some way.
 */
module DatasetCheck {
  import opened KeyedRows
  import opened Numbers
  import opened Ordering
  import opened Wrappers

  /** What the pass looks at in one row: `complete` tells whether the row has every column of the schema,
      `ticker` is the ticker as it stands, `symbol` the normalised one. */
  datatype Rules<!K, !R> = Rules(
    key: R -> K,
    symbol: R -> string,
    ticker: R -> string,
    complete: R -> bool,
    localMatches: R -> bool,
    filled: R -> bool,
    numeric: R -> bool,
    dated: R -> bool)

  datatype Report = Report(passed: bool, rows: nat, tickers: nat, duplicates: nat, missingFields: nat,
                           invalidDates: nat,
                           outOfOrder: nat, mismatches: nat, missingSymbols: set<string>)

  // The counters as functions of the rows read so far.

  function Duplicates<K(==), R>(rows: seq<R>, key: R -> K): nat {
    if rows == [] then 0
    else
      var n := |rows| - 1;
      Duplicates(rows[..n], key) + Bump(exists i :: 0 <= i < n && key(rows[i]) == key(rows[n]))
  }

  function OutOfOrder<K, R>(rows: seq<R>, key: R -> K, less: (K, K) -> bool): nat {
    if |rows| < 2 then 0
    else
      var n := |rows| - 1;
      OutOfOrder(rows[..n], key, less) + Bump(less(key(rows[n]), key(rows[n - 1])))
  }

  function MissingFields<K, R>(rows: seq<R>, rules: Rules<K, R>): nat {
    if rows == [] then 0
    else
      var n := |rows| - 1;
      MissingFields(rows[..n], rules) +
      Bump(!rules.complete(rows[n])) + Bump(!rules.filled(rows[n])) + Bump(!rules.numeric(rows[n]))
  }

  function InvalidDates<K, R>(rows: seq<R>, rules: Rules<K, R>): nat {
    if rows == [] then 0
    else
      var n := |rows| - 1;
      InvalidDates(rows[..n], rules) + Bump(!rules.dated(rows[n]))
  }

  predicate Mismatch<K, R>(row: R, expected: set<string>, rules: Rules<K, R>) {
    rules.symbol(row) !in expected || !rules.localMatches(row)
  }

  function Mismatches<K, R>(rows: seq<R>, expected: set<string>, rules: Rules<K, R>): nat {
    if rows == [] then 0
    else
      var n := |rows| - 1;
      Mismatches(rows[..n], expected, rules) + Bump(Mismatch(rows[n], expected, rules))
  }

  predicate Present<K, R>(rows: seq<R>, symbol: string, rules: Rules<K, R>) {
    exists i :: 0 <= i < |rows| && rules.symbol(rows[i]) == symbol
  }

  function Tickers<K, R>(rows: seq<R>, rules: Rules<K, R>): set<string> {
    set i | 0 <= i < |rows| :: rules.ticker(rows[i])
  }

  datatype Counters = Counters(duplicates: nat, outOfOrder: nat, missingFields: nat, invalidDates: nat, mismatches: nat)

  /** The counters of a list of rows. */
  function Count<K(==), R>(rows: seq<R>, expected: set<string>, rules: Rules<K, R>, less: (K, K) -> bool): Counters {
    Counters(Duplicates(rows, rules.key), OutOfOrder(rows, rules.key, less), MissingFields(rows, rules),
             InvalidDates(rows, rules), Mismatches(rows, expected, rules))
  }

  /** The loop body: one more row is counted. */
  method CountRow<K(==), R>(rows: seq<R>, i: nat, counters: Counters, seen: set<K>, expected: set<string>,
                    rules: Rules<K, R>,
                            less: (K, K) -> bool)
    returns (counted: Counters)
    requires i < |rows| && counters == Count(rows[..i], expected, rules, less)
    requires seen == set j | 0 <= j < i :: rules.key(rows[j])
    ensures counted == Count(rows[..i + 1], expected, rules, less)
  {
    assert rows[..i + 1][..i] == rows[..i];
    assert forall j :: 0 <= j < i ==> rows[..i + 1][j] == rows[j];
    var row := rows[i];
    var Counters(duplicates, outOfOrder, missingFields, invalidDates, mismatches) := counters;
    if !rules.complete(row) { missingFields := missingFields + 1; }
    if !rules.filled(row) { missingFields := missingFields + 1; }
    if Mismatch(row, expected, rules) { mismatches := mismatches + 1; }
    if rules.key(row) in seen { duplicates := duplicates + 1; }
    if i > 0 && less(rules.key(row), rules.key(rows[i - 1])) { outOfOrder := outOfOrder + 1; }
    if !rules.dated(row) { invalidDates := invalidDates + 1; }
    if !rules.numeric(row) { missingFields := missingFields + 1; }
    counted := Counters(duplicates, outOfOrder, missingFields, invalidDates, mismatches);
  }

  /** validate_rows_against_schema. */
  method Validate<K(==), R>(rows: seq<R>, expected: set<string>, rules: Rules<K, R>, less: (K, K) -> bool)
    returns (report: Report)
    ensures report.duplicates == Duplicates(rows, rules.key)
    ensures report.outOfOrder == OutOfOrder(rows, rules.key, less)
    ensures report.missingFields == MissingFields(rows, rules)
    ensures report.invalidDates == InvalidDates(rows, rules)
    ensures report.mismatches == Mismatches(rows, expected, rules)
    ensures report.missingSymbols == set s | s in expected && !Present(rows, s, rules)
    ensures report.rows == |rows| && report.tickers == |Tickers(rows, rules)|
    ensures report.passed <==>
      && rows != [] && report.missingSymbols == {} && report.duplicates == 0 && report.outOfOrder == 0
      && report.missingFields == 0 && report.invalidDates == 0 && report.mismatches == 0
  {
    var c := Counters(0, 0, 0, 0, 0);
    var seen: set<K> := {};
    var symbols: set<string> := {};
    var tickers: set<string> := {};
    for i := 0 to |rows|
      invariant c == Count(rows[..i], expected, rules, less)
      invariant seen == set j | 0 <= j < i :: rules.key(rows[j])
      invariant symbols == set j | 0 <= j < i :: rules.symbol(rows[j])
      invariant tickers == set j | 0 <= j < i :: rules.ticker(rows[j])
    {
      c := CountRow(rows, i, c, seen, expected, rules, less);
      seen := seen + {rules.key(rows[i])};
      symbols := symbols + {rules.symbol(rows[i])};
      tickers := tickers + {rules.ticker(rows[i])};
    }
    assert rows[..|rows|] == rows;
    var missing := set s | s in expected && s !in symbols;
    report := Report(rows != [] && missing == {} && c == Counters(0, 0, 0, 0, 0), |rows|, |tickers|,
                     c.duplicates, c.missingFields, c.invalidDates, c.outOfOrder, c.mismatches, missing);
  }

  // ---------------------------------------------------------------------
  // What the counters mean

  ghost predicate Distinct<K(!new), R>(rows: seq<R>, key: R -> K) {
    forall i, j :: 0 <= i < j < |rows| ==> key(rows[i]) != key(rows[j])
  }

  ghost predicate NonDecreasing<K(!new), R>(rows: seq<R>, key: R -> K, less: (K, K) -> bool) {
    forall i, j :: 0 <= i < j < |rows| ==> !less(key(rows[j]), key(rows[i]))
  }

  ghost predicate Increases<K(!new), R>(rows: seq<R>, key: R -> K, less: (K, K) -> bool) {
    forall i, j :: 0 <= i < j < |rows| ==> less(key(rows[i]), key(rows[j]))
  }

  lemma {:induction false} NoDuplicatesIffDistinct<K(!new), R>(rows: seq<R>, key: R -> K)
    ensures Duplicates(rows, key) == 0 <==> Distinct(rows, key)
  {
    if rows != [] {
      var n := |rows| - 1;
      NoDuplicatesIffDistinct(rows[..n], key);
      assert forall i :: 0 <= i < n ==> rows[..n][i] == rows[i];
      if Distinct(rows, key) {
        assert Distinct(rows[..n], key);
      }
      if Duplicates(rows, key) == 0 {
        forall i, j | 0 <= i < j < |rows| ensures key(rows[i]) != key(rows[j]) {
          if j < n { assert rows[..n][i] == rows[i] && rows[..n][j] == rows[j]; }
        }
      }
    }
  }

  /** Comparing neighbours is enough: no row is out of order iff the rows are ordered globally. */
  lemma {:induction false} NeighboursDecideOrder<K(!new), R>(rows: seq<R>, key: R -> K, less: (K, K) -> bool)
    requires StrictTotal(less)
    ensures OutOfOrder(rows, key, less) == 0 <==> NonDecreasing(rows, key, less)
  {
    if |rows| >= 2 {
      var n := |rows| - 1;
      NeighboursDecideOrder(rows[..n], key, less);
      assert forall i :: 0 <= i < n ==> rows[..n][i] == rows[i];
      if NonDecreasing(rows, key, less) {
        assert NonDecreasing(rows[..n], key, less);
      }
      if OutOfOrder(rows, key, less) == 0 {
        forall i, j | 0 <= i < j < |rows| ensures !less(key(rows[j]), key(rows[i])) {
          if j < n {
            assert rows[..n][i] == rows[i] && rows[..n][j] == rows[j];
          } else if i < n - 1 {
            assert rows[..n][i] == rows[i] && rows[..n][n - 1] == rows[n - 1];
          }
        }
      }
    }
  }

  ghost predicate RowOk<K, R>(row: R, expected: set<string>, rules: Rules<K, R>) {
    rules.complete(row) && rules.filled(row) && rules.numeric(row) && rules.dated(row)
      && rules.symbol(row) in expected && rules.localMatches(row)
  }

  lemma {:induction false} NoMalformedRows<K, R>(rows: seq<R>, expected: set<string>, rules: Rules<K, R>)
    ensures MissingFields(rows, rules) == 0 && InvalidDates(rows, rules) == 0 && Mismatches(rows, expected, rules) == 0
      <==> forall i :: 0 <= i < |rows| ==> RowOk(rows[i], expected, rules)
  {
    if rows != [] {
      var n := |rows| - 1;
      NoMalformedRows(rows[..n], expected, rules);
      assert forall i :: 0 <= i < n ==> rows[..n][i] == rows[i];
      if forall i :: 0 <= i < |rows| ==> RowOk(rows[i], expected, rules) {
        assert RowOk(rows[n], expected, rules);
      }
    }
  }

  /** A dataset as it should be. */
  ghost predicate WellFormed<K(!new), R>(rows: seq<R>, expected: set<string>, rules: Rules<K, R>,
                               less: (K, K) -> bool) {
    && rows != []
    && (forall s :: s in expected ==> Present(rows, s, rules))
    && (forall i :: 0 <= i < |rows| ==> RowOk(rows[i], expected, rules))
    && Increases(rows, rules.key, less)
  }

  /** Validation passes exactly the well-formed datasets. */
  lemma PassesIffWellFormed<K(!new), R>(rows: seq<R>, expected: set<string>, rules: Rules<K, R>, less: (K, K) -> bool)
    requires StrictTotal(less)
    ensures
      && rows != [] && (forall s :: s in expected ==> Present(rows, s, rules))
      && Duplicates(rows, rules.key) == 0 && OutOfOrder(rows, rules.key, less) == 0
      && MissingFields(rows, rules) == 0 && InvalidDates(rows, rules) == 0 && Mismatches(rows, expected, rules) == 0
      <==> WellFormed(rows, expected, rules, less)
  {
    NoDuplicatesIffDistinct(rows, rules.key);
    NeighboursDecideOrder(rows, rules.key, less);
    NoMalformedRows(rows, expected, rules);
    if Distinct(rows, rules.key) && NonDecreasing(rows, rules.key, less) {
      assert Increases(rows, rules.key, less);
    }
    if Increases(rows, rules.key, less) {
      assert Distinct(rows, rules.key) && NonDecreasing(rows, rules.key, less);
    }
  }

  /** Validation passes exactly the well-formed datasets. */
  method Passes<K(==,!new), R>(rows: seq<R>, expected: set<string>, rules: Rules<K, R>, less: (K, K) -> bool)
    returns (passed: bool)
    requires StrictTotal(less)
    ensures passed <==> WellFormed(rows, expected, rules, less)
  {
    var report := Validate(rows, expected, rules, less);
    assert report.missingSymbols == {} <==> forall s :: s in expected ==> Present(rows, s, rules) by {
      if s :| s in expected && !Present(rows, s, rules) { assert s in report.missingSymbols; }
    }
    PassesIffWellFormed(rows, expected, rules, less);
    passed := report.passed;
  }

  /** Rows in key order show neither a duplicate nor an out-of-order row. */
  lemma OrderedRowsAreClean<K(!new), R>(rows: seq<R>, key: R -> Option<K>, raw: R -> K, less: (K, K) -> bool)
    requires StrictTotal(less) && InKeyOrder(rows, key, less)
    requires forall i :: 0 <= i < |rows| ==> key(rows[i]) == Some(raw(rows[i]))
    ensures Duplicates(rows, raw) == 0 && OutOfOrder(rows, raw, less) == 0
  {
    assert Increases(rows, raw, less) by {
      forall i, j | 0 <= i < j < |rows| ensures less(raw(rows[i]), raw(rows[j])) {
        assert less(key(rows[i]).value, key(rows[j]).value);
      }
    }
    NoDuplicatesIffDistinct(rows, raw);
    NeighboursDecideOrder(rows, raw, less);
  }
}

/**
 Rows collected in a dict by key and written out in key order, for any row type,
 any key function and any strict total order on keys.  A row without a key
 (`key(row) == None`) is skipped.
 */
module KeyedRows {
  import opened Lists
  import opened Ordering
  import opened Wrappers

  /** The dict that a pass over the rows builds: the last row with each key stays. */
  function Table<K(==), R>(rows: seq<R>, key: R -> Option<K>): map<K, R> {
    if rows == [] then map[]
    else
      var last := rows[|rows| - 1];
      var t := Table(rows[..|rows| - 1], key);
      if key(last).Some? then t[key(last).value := last] else t
  }

  ghost predicate WellKeyed<K(!new), R>(t: map<K, R>, key: R -> Option<K>) {
    forall k :: k in t ==> key(t[k]) == Some(k)
  }

  lemma {:induction false} TableIsWellKeyed<K(!new), R>(rows: seq<R>, key: R -> Option<K>)
    ensures WellKeyed(Table(rows, key), key)
  {
    if rows != [] {
      TableIsWellKeyed(rows[..|rows| - 1], key);
    }
  }

  function Pick<K, R>(ks: seq<K>, t: map<K, R>): (rows: seq<R>)
    requires forall k :: k in ks ==> k in t
    ensures |rows| == |ks|
    ensures forall i :: 0 <= i < |ks| ==> rows[i] == t[ks[i]]
  {
    seq(|ks|, i requires 0 <= i < |ks| => t[ks[i]])
  }

  /** The rows of a table in key order. */
  ghost function Listing<K(!new), R>(t: map<K, R>, less: (K, K) -> bool): seq<R>
    requires StrictTotal(less)
  {
    var ks := Sorted(t.Keys, less);
    assert forall k :: k in ks ==> k in Elements(ks);
    Pick(ks, t)
  }

  method ListRows<K(==,!new), R>(t: map<K, R>, less: (K, K) -> bool) returns (rows: seq<R>)
    requires StrictTotal(less)
    ensures rows == Listing(t, less)
  {
    var ks := Sort(t.Keys, less);
    assert forall k :: k in ks ==> k in Elements(ks);
    rows := Pick(ks, t);
  }

  /** Every row has a key and the keys strictly increase. */
  ghost predicate InKeyOrder<K(!new), R>(rows: seq<R>, key: R -> Option<K>, less: (K, K) -> bool) {
    && (forall i :: 0 <= i < |rows| ==> key(rows[i]).Some?)
    && (forall i, j :: 0 <= i < j < |rows| ==> less(key(rows[i]).value, key(rows[j]).value))
  }

  lemma ListingIsInKeyOrder<K(!new), R>(t: map<K, R>, key: R -> Option<K>, less: (K, K) -> bool)
    requires StrictTotal(less) && WellKeyed(t, key)
    ensures InKeyOrder(Listing(t, less), key, less)
  {
    var ks := Sorted(t.Keys, less);
    forall i | 0 <= i < |ks| ensures key(Listing(t, less)[i]) == Some(ks[i]) {
      assert ks[i] in Elements(ks);
    }
  }

  /** Rows in key order lose nothing in the dict. */
  lemma {:induction false} TableOfOrdered<K(!new), R>(rows: seq<R>, key: R -> Option<K>, less: (K, K) -> bool)
    requires StrictTotal(less) && InKeyOrder(rows, key, less)
    ensures forall i :: 0 <= i < |rows| ==>
      key(rows[i]).value in Table(rows, key) && Table(rows, key)[key(rows[i]).value] == rows[i]
    ensures forall k :: k in Table(rows, key) ==> exists i :: 0 <= i < |rows| && key(rows[i]) == Some(k)
  {
    if rows != [] {
      var n := |rows| - 1;
      var t := Table(rows[..n], key);
      assert InKeyOrder(rows[..n], key, less);
      TableOfOrdered(rows[..n], key, less);
      assert Table(rows, key) == t[key(rows[n]).value := rows[n]];
      forall i | 0 <= i < n
        ensures key(rows[i]).value in Table(rows, key) && Table(rows, key)[key(rows[i]).value] == rows[i]
      {
        assert rows[..n][i] == rows[i];
        assert less(key(rows[i]).value, key(rows[n]).value);
      }
      forall k | k in Table(rows, key) ensures exists i :: 0 <= i < |rows| && key(rows[i]) == Some(k) {
        if k in t {
          var i :| 0 <= i < n && key(rows[..n][i]) == Some(k);
          assert key(rows[i]) == Some(k);
        } else {
          assert key(rows[n]) == Some(k);
        }
      }
    }
  }

  /** Writing a table out and reading it back gives the same table. */
  lemma TableOfListing<K(!new), R>(t: map<K, R>, key: R -> Option<K>, less: (K, K) -> bool)
    requires StrictTotal(less) && WellKeyed(t, key)
    ensures Table(Listing(t, less), key) == t
  {
    var rows := Listing(t, less);
    var ks := Sorted(t.Keys, less);
    var t' := Table(rows, key);
    ListingIsInKeyOrder(t, key, less);
    TableOfOrdered(rows, key, less);
    forall k | k in t ensures k in t' && t'[k] == t[k] {
      assert k in Elements(ks);
      var i :| 0 <= i < |ks| && ks[i] == k;
      assert key(rows[i]).value in t';
    }
    forall k | k in t' ensures k in t {
      var i :| 0 <= i < |rows| && key(rows[i]) == Some(k);
      assert ks[i] in Elements(ks);
    }
  }

  function KeysOf<K, R>(rows: seq<R>, key: R -> Option<K>): (ks: seq<K>)
    requires forall i :: 0 <= i < |rows| ==> key(rows[i]).Some?
    ensures |ks| == |rows| && forall i :: 0 <= i < |rows| ==> ks[i] == key(rows[i]).value
  {
    seq(|rows|, i requires 0 <= i < |rows| => key(rows[i]).value)
  }

  /** Rows in key order are the listing of their own table: the order is canonical. */
  lemma ListingOfTable<K(!new), R>(rows: seq<R>, key: R -> Option<K>, less: (K, K) -> bool)
    requires StrictTotal(less) && InKeyOrder(rows, key, less)
    ensures Listing(Table(rows, key), less) == rows
  {
    var t := Table(rows, key);
    TableOfOrdered(rows, key, less);
    var ks := KeysOf(rows, key);
    assert Elements(ks) == t.Keys by {
      forall k | k in t ensures k in ks {
        var i :| 0 <= i < |rows| && key(rows[i]) == Some(k);
        assert ks[i] == k;
      }
    }
    ListingByAnyOrder(t, ks, less);
    PickBack(rows, key, t);
  }

  lemma ListingByAnyOrder<K(!new), R>(t: map<K, R>, ks: seq<K>, less: (K, K) -> bool)
    requires StrictTotal(less) && Increasing(ks, less) && Elements(ks) == t.Keys
    ensures forall k :: k in ks ==> k in t
    ensures Listing(t, less) == Pick(ks, t)
  {
    forall k | k in ks ensures k in t { assert k in Elements(ks); }
    IncreasingIsUnique(ks, Sorted(t.Keys, less), less);
  }

  lemma PickBack<K(!new), R>(rows: seq<R>, key: R -> Option<K>, t: map<K, R>)
    requires forall i :: 0 <= i < |rows| ==> key(rows[i]).Some?
    requires forall i :: 0 <= i < |rows| ==> key(rows[i]).value in t && t[key(rows[i]).value] == rows[i]
    ensures forall k :: k in KeysOf(rows, key) ==> k in t
    ensures Pick(KeysOf(rows, key), t) == rows
  {}

  /** Override of one row list by another, in key order. */
  ghost function Merge<K(!new), R>(existing: seq<R>, incoming: seq<R>, key: R -> Option<K>,
                         less: (K, K) -> bool): seq<R>
    requires StrictTotal(less)
  {
    Listing(Table(existing, key) + Table(incoming, key), less)
  }

  lemma TableOfMerge<K(!new), R>(a: seq<R>, b: seq<R>, key: R -> Option<K>, less: (K, K) -> bool)
    requires StrictTotal(less)
    ensures Table(Merge(a, b, key, less), key) == Table(a, key) + Table(b, key)
    ensures InKeyOrder(Merge(a, b, key, less), key, less)
  {
    TableIsWellKeyed(a, key);
    TableIsWellKeyed(b, key);
    ListingIsInKeyOrder(Table(a, key) + Table(b, key), key, less);
    TableOfListing(Table(a, key) + Table(b, key), key, less);
  }

  lemma OverrideIsAssociative<K, R>(x: map<K, R>, y: map<K, R>, z: map<K, R>)
    ensures x + y + z == x + (y + z)
    ensures x + y + y == x + y
  {}

  lemma MergeIsAssociative<K(!new), R>(a: seq<R>, b: seq<R>, c: seq<R>, key: R -> Option<K>, less: (K, K) -> bool)
    requires StrictTotal(less)
    ensures Merge(Merge(a, b, key, less), c, key, less) == Merge(a, Merge(b, c, key, less), key, less)
  {
    TableOfMerge(a, b, key, less);
    TableOfMerge(b, c, key, less);
    OverrideIsAssociative(Table(a, key), Table(b, key), Table(c, key));
  }

  /** Merging the same rows in again changes nothing. */
  lemma MergeIsIdempotent<K(!new), R>(a: seq<R>, b: seq<R>, key: R -> Option<K>, less: (K, K) -> bool)
    requires StrictTotal(less)
    ensures Merge(Merge(a, b, key, less), b, key, less) == Merge(a, b, key, less)
  {
    TableOfMerge(a, b, key, less);
    OverrideIsAssociative(Table(a, key), Table(b, key), map[]);
  }

  /** Rows that are already in key order are a fixed point. */
  lemma MergeKeepsOrdered<K(!new), R>(rows: seq<R>, key: R -> Option<K>, less: (K, K) -> bool)
    requires StrictTotal(less) && InKeyOrder(rows, key, less)
    ensures Merge([], rows, key, less) == rows
  {
    ListingOfTable(rows, key, less);
    assert Table([], key) + Table(rows, key) == Table(rows, key);
  }

  /** The last row with key `k`, if any. */
  function LastWith<K(==), R>(rows: seq<R>, k: K, key: R -> Option<K>): Option<R> {
    if rows == [] then None
    else if key(rows[|rows| - 1]) == Some(k) then Some(rows[|rows| - 1])
    else LastWith(rows[..|rows| - 1], k, key)
  }

  lemma {:induction false} TableHoldsTheLast<K(!new), R>(rows: seq<R>, k: K, key: R -> Option<K>)
    ensures k in Table(rows, key) <==> LastWith(rows, k, key).Some?
    ensures k in Table(rows, key) ==> Table(rows, key)[k] == LastWith(rows, k, key).value
  {
    if rows != [] {
      TableHoldsTheLast(rows[..|rows| - 1], k, key);
    }
  }

  /** merge_rows: two passes over one dict, then its rows in key order. */
  method MergeRows<K(==,!new), R>(existing: seq<R>, incoming: seq<R>, key: R -> Option<K>, less: (K, K) -> bool)
    returns (rows: seq<R>)
    requires StrictTotal(less)
    ensures rows == Merge(existing, incoming, key, less)
  {
    var merged: map<K, R> := map[];
    for i := 0 to |existing|
      invariant merged == Table(existing[..i], key)
    {
      assert existing[..i + 1][..i] == existing[..i];
      if key(existing[i]).Some? {
        merged := merged[key(existing[i]).value := existing[i]];
      }
    }
    assert existing[..|existing|] == existing;
    for i := 0 to |incoming|
      invariant merged == Table(existing, key) + Table(incoming[..i], key)
    {
      assert incoming[..i + 1][..i] == incoming[..i];
      if key(incoming[i]).Some? {
        merged := merged[key(incoming[i]).value := incoming[i]];
      }
    }
    assert incoming[..|incoming|] == incoming;
    rows := ListRows(merged, less);
  }

  function Restrict<K(==), R>(t: map<K, R>, keep: K -> bool): map<K, R> {
    map k | k in t && keep(k) :: t[k]
  }

  /** Filtering rows by a property of their key is filtering the table. */
  lemma {:induction false} TableOfFilter<K(!new), R>(rows: seq<R>, key: R -> Option<K>, keepRow: R -> bool,
                                           keepKey: K -> bool)
    requires forall r :: key(r).Some? ==> keepRow(r) == keepKey(key(r).value)
    ensures Table(Filter(rows, keepRow), key) == Restrict(Table(rows, key), keepKey)
  {
    if rows != [] {
      var n := |rows| - 1;
      var rest := Filter(rows[..n], keepRow);
      TableOfFilter(rows[..n], key, keepRow, keepKey);
      assert (rest + [rows[n]])[..|rest|] == rest;
    }
  }

  /** A property of the keys of all rows is a property of the table's keys. */
  lemma {:induction false} TableKeys<K(!new), R>(rows: seq<R>, key: R -> Option<K>, holds: K -> bool)
    requires forall i :: 0 <= i < |rows| && key(rows[i]).Some? ==> holds(key(rows[i]).value)
    ensures forall k :: k in Table(rows, key) ==> holds(k)
  {
    if rows != [] {
      assert forall i :: 0 <= i < |rows| - 1 ==> rows[..|rows| - 1][i] == rows[i];
      TableKeys(rows[..|rows| - 1], key, holds);
    }
  }

  lemma OverrideIsWellKeyed<K(!new), R>(a: map<K, R>, b: map<K, R>, key: R -> Option<K>)
    requires WellKeyed(a, key) && WellKeyed(b, key)
    ensures WellKeyed(a + b, key)
  {}

  /** A projection of the keys can be read off the listed rows as well as off the table. */
  lemma ListingProjects<K(!new), R, T(!new)>(t: map<K, R>, key: R -> Option<K>, less: (K, K) -> bool, of: K -> T,
                          ofRow: R -> T)
    requires StrictTotal(less) && WellKeyed(t, key)
    requires forall k :: k in t ==> ofRow(t[k]) == of(k)
    ensures (set i | 0 <= i < |Listing(t, less)| :: ofRow(Listing(t, less)[i])) == (set k | k in t :: of(k))
  {
    var rows := Listing(t, less);
    var ks := Sorted(t.Keys, less);
    var fromRows := set i | 0 <= i < |rows| :: ofRow(rows[i]);
    var fromKeys := set k | k in t :: of(k);
    forall i | 0 <= i < |rows| ensures rows[i] == t[ks[i]] && ks[i] in t && ofRow(rows[i]) in fromKeys {
      assert ks[i] in Elements(ks);
    }
    forall k | k in t ensures of(k) in fromRows {
      assert k in Elements(ks);
      var i :| 0 <= i < |ks| && ks[i] == k;
      assert ofRow(rows[i]) in fromRows;
    }
  }
}

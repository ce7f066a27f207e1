/** Strictly increasing sequences over a strict total order: Python's `sorted` on a dict's keys. */
module Ordering {

  ghost predicate StrictTotal<T(!new)>(less: (T, T) -> bool) {
    && (forall x :: !less(x, x))
    && (forall x, y :: less(x, y) || less(y, x) || x == y)
    && (forall x, y, z :: less(x, y) && less(y, z) ==> less(x, z))
  }

  ghost predicate Increasing<T>(s: seq<T>, less: (T, T) -> bool) {
    forall i, j :: 0 <= i < j < |s| ==> less(s[i], s[j])
  }

  function Elements<T>(s: seq<T>): set<T> {
    set x | x in s
  }

  lemma HasLeast<T(!new)>(keys: set<T>, less: (T, T) -> bool)
    requires StrictTotal(less) && keys != {}
    ensures exists m :: m in keys && forall x :: x in keys && x != m ==> less(m, x)
  {
    var k :| k in keys;
    if keys != {k} {
      HasLeast(keys - {k}, less);
      var m :| m in keys - {k} && forall x :: x in keys - {k} && x != m ==> less(m, x);
      var least := if less(m, k) then m else k;
      assert least in keys && forall x :: x in keys && x != least ==> less(least, x);
    }
  }

  ghost predicate Sorts<T(!new)>(s: seq<T>, keys: set<T>, less: (T, T) -> bool) {
    Increasing(s, less) && Elements(s) == keys
  }

  lemma {:induction false} CanSort<T(!new)>(keys: set<T>, less: (T, T) -> bool)
    requires StrictTotal(less)
    ensures exists s :: Sorts(s, keys, less)
  {
    if keys == {} {
      assert Sorts([], keys, less);
    } else {
      HasLeast(keys, less);
      var m :| m in keys && forall x :: x in keys && x != m ==> less(m, x);
      CanSort(keys - {m}, less);
      var rest :| Sorts(rest, keys - {m}, less);
      assert forall i :: 0 <= i < |rest| ==> rest[i] in Elements(rest);
      assert Elements([m] + rest) == {m} + Elements(rest);
      assert Sorts([m] + rest, keys, less);
    }
  }

  /** The keys in increasing order. */
  ghost function Sorted<T(!new)>(keys: set<T>, less: (T, T) -> bool): seq<T>
    requires StrictTotal(less)
  {
    CanSort(keys, less);
    var s :| Sorts(s, keys, less);
    s
  }

  lemma FirstIsLeast<T>(s: seq<T>, i: nat, less: (T, T) -> bool)
    requires Increasing(s, less) && i < |s|
    ensures s[0] == s[i] || less(s[0], s[i])
  {}

  lemma NotBothWays<T(!new)>(x: T, y: T, less: (T, T) -> bool)
    requires StrictTotal(less)
    ensures !(less(x, y) && less(y, x))
  {}

  lemma SameHead<T(!new)>(a: seq<T>, b: seq<T>, less: (T, T) -> bool)
    requires StrictTotal(less) && Increasing(a, less) && Increasing(b, less) && a != [] && b != []
    requires a[0] in b && b[0] in a
    ensures a[0] == b[0]
  {
    var i :| 0 <= i < |b| && b[i] == a[0];
    var j :| 0 <= j < |a| && a[j] == b[0];
    FirstIsLeast(b, i, less);
    FirstIsLeast(a, j, less);
    NotBothWays(a[0], b[0], less);
  }

  lemma HasElement<T(!new)>(s: seq<T>)
    requires s != []
    ensures Elements(s) != {}
  {
    assert s[0] in Elements(s);
  }

  lemma TailElements<T(!new)>(a: seq<T>, less: (T, T) -> bool)
    requires StrictTotal(less) && Increasing(a, less) && a != []
    ensures Elements(a[1..]) == Elements(a) - {a[0]}
  {
    assert a == [a[0]] + a[1..];
    forall x | x in a[1..] ensures x != a[0] {
      var i :| 0 <= i < |a[1..]| && a[1..][i] == x;
      assert less(a[0], a[i + 1]);
    }
  }

  /** An increasing listing of a set is unique, so it does not matter how it was made. */
  lemma {:induction false} IncreasingIsUnique<T(!new)>(a: seq<T>, b: seq<T>, less: (T, T) -> bool)
    requires StrictTotal(less) && Increasing(a, less) && Increasing(b, less) && Elements(a) == Elements(b)
    ensures a == b
  {
    if a == [] {
      if b != [] { HasElement(b); }
    } else {
      assert a[0] in Elements(b) && b[0] in Elements(a);
      SameHead(a, b, less);
      TailElements(a, less);
      TailElements(b, less);
      IncreasingIsUnique(a[1..], b[1..], less);
      assert a == [a[0]] + a[1..] && b == [b[0]] + b[1..];
    }
  }

  lemma {:induction false} CardinalityOf<T(!new)>(s: seq<T>, keys: set<T>, less: (T, T) -> bool)
    requires StrictTotal(less) && Sorts(s, keys, less)
    ensures |s| == |keys|
  {
    if s == [] {
      assert keys == {};
    } else {
      var n := |s| - 1;
      assert Elements(s[..n]) == keys - {s[n]} by {
        assert forall i :: 0 <= i < n ==> less(s[i], s[n]);
        assert s[n] in Elements(s);
      }
      CardinalityOf(s[..n], keys - {s[n]}, less);
      assert s[n] in keys;
    }
  }

  lemma PlacedElements<T>(s: seq<T>, i: nat, k: T)
    requires i <= |s|
    ensures Elements(s[..i] + [k] + s[i..]) == Elements(s) + {k}
  {
    assert s == s[..i] + s[i..];
  }

  lemma PlacedIncreases<T>(s: seq<T>, i: nat, k: T, less: (T, T) -> bool)
    requires Increasing(s, less) && i <= |s|
    requires forall j :: 0 <= j < i ==> less(s[j], k)
    requires forall j :: i <= j < |s| ==> less(k, s[j])
    ensures Increasing(s[..i] + [k] + s[i..], less)
  {
    var longer := s[..i] + [k] + s[i..];
    forall a, b | 0 <= a < b < |longer| ensures less(longer[a], longer[b]) {
      assert longer[a] == if a < i then s[a] else if a == i then k else s[a - 1];
      assert longer[b] == if b < i then s[b] else if b == i then k else s[b - 1];
    }
  }

  lemma Placed<T(!new)>(s: seq<T>, i: nat, k: T, less: (T, T) -> bool)
    requires StrictTotal(less) && Increasing(s, less) && i <= |s|
    requires i > 0 ==> less(s[i - 1], k)
    requires i < |s| ==> less(k, s[i])
    ensures Sorts(s[..i] + [k] + s[i..], Elements(s) + {k}, less)
  {
    PlacedElements(s, i, k);
    forall j | 0 <= j < i ensures less(s[j], k) {
      assert j < i - 1 ==> less(s[j], s[i - 1]);
    }
    forall j | i <= j < |s| ensures less(k, s[j]) {
      assert i < j ==> less(s[i], s[j]);
    }
    PlacedIncreases(s, i, k, less);
  }

  /** One round of an insertion sort. */
  method Insert<T(!new)>(s: seq<T>, k: T, less: (T, T) -> bool) returns (longer: seq<T>)
    requires StrictTotal(less) && Increasing(s, less) && k !in Elements(s)
    ensures Sorts(longer, Elements(s) + {k}, less)
  {
    var i := |s|;
    while i > 0 && less(k, s[i - 1])
      invariant 0 <= i <= |s| && (i < |s| ==> less(k, s[i]))
    {
      i := i - 1;
    }
    assert i > 0 ==> s[i - 1] in Elements(s);
    Placed(s, i, k, less);
    longer := s[..i] + [k] + s[i..];
  }

  /** Python's `sorted`, as an insertion sort over the keys in any order. */
  method Sort<T(==,!new)>(keys: set<T>, less: (T, T) -> bool) returns (s: seq<T>)
    requires StrictTotal(less)
    ensures s == Sorted(keys, less)
  {
    s := [];
    var rest := keys;
    while rest != {}
      invariant rest <= keys && Sorts(s, keys - rest, less)
      decreases |rest|
    {
      var k :| k in rest;
      s := Insert(s, k, less);
      assert keys - rest + {k} == keys - (rest - {k});
      rest := rest - {k};
    }
    assert keys - rest == keys;
    IncreasingIsUnique(s, Sorted(keys, less), less);
  }
}

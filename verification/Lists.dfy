/** Filtering, in the order of the list. */
module Lists {

  /** The items that satisfy `keep`, in their order. */
  function Filter<T>(s: seq<T>, keep: T -> bool): seq<T> {
    if s == [] then []
    else
      var rest := Filter(s[..|s| - 1], keep);
      if keep(s[|s| - 1]) then rest + [s[|s| - 1]] else rest
  }

  lemma {:induction false} FilterConcat<T>(a: seq<T>, b: seq<T>, keep: T -> bool)
    ensures Filter(a + b, keep) == Filter(a, keep) + Filter(b, keep)
  {
    if b == [] {
      assert a + b == a;
    } else {
      var n := |b| - 1;
      assert (a + b)[..|a + b| - 1] == a + b[..n];
      FilterConcat(a, b[..n], keep);
    }
  }

  lemma {:induction false} FilterMembers<T>(s: seq<T>, keep: T -> bool)
    ensures forall x :: x in Filter(s, keep) <==> x in s && keep(x)
  {
    if s != [] {
      var n := |s| - 1;
      assert s == s[..n] + [s[n]];
      FilterMembers(s[..n], keep);
    }
  }

  lemma {:induction false} FilterAll<T>(s: seq<T>, keep: T -> bool)
    requires forall x :: x in s ==> keep(x)
    ensures Filter(s, keep) == s
  {
    if s != [] {
      FilterAll(s[..|s| - 1], keep);
    }
  }

  lemma {:induction false} FilterNone<T>(s: seq<T>, keep: T -> bool)
    requires forall x :: x in s ==> !keep(x)
    ensures Filter(s, keep) == []
  {
    if s != [] {
      FilterNone(s[..|s| - 1], keep);
    }
  }

  lemma {:induction false} FilterAlike<T>(s: seq<T>, keep: T -> bool, same: T -> bool)
    requires forall x :: x in s ==> keep(x) == same(x)
    ensures Filter(s, keep) == Filter(s, same)
  {
    if s != [] {
      FilterAlike(s[..|s| - 1], keep, same);
    }
  }

  /** A filter that keeps less may be applied before or after one that keeps more. */
  lemma {:induction false} FilterFilter<T>(s: seq<T>, more: T -> bool, less: T -> bool)
    requires forall x :: x in s && less(x) ==> more(x)
    ensures Filter(Filter(s, more), less) == Filter(s, less)
  {
    if s != [] {
      var n := |s| - 1;
      FilterFilter(s[..n], more, less);
      assert s[n] in s;
      if more(s[n]) {
        FilterConcat(Filter(s[..n], more), [s[n]], less);
        assert Filter([s[n]], less) == if less(s[n]) then [s[n]] else [];
      }
    }
  }
}

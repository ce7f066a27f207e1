/** Sums over the values of a finite map. */
module Sums {

  /** The sum of `f` over the values; the order does not matter (see SumSplit). */
  ghost function Sum<K(!new), V>(m: map<K, V>, f: V -> real): real
    decreases |m|
  {
    if m == map[] then 0.0
    else
      assert m.Keys != {};
      var k :| k in m;
      f(m[k]) + Sum(m - {k}, f)
  }

  /** Any key may be taken out first. */
  lemma {:induction false} SumSplit<K(!new), V>(m: map<K, V>, k: K, f: V -> real)
    requires k in m
    ensures Sum(m, f) == f(m[k]) + Sum(m - {k}, f)
    decreases |m|
  {
    var first :| first in m && Sum(m, f) == f(m[first]) + Sum(m - {first}, f);
    if first != k {
      SumSplit(m - {first}, k, f);
      SumSplit(m - {k}, first, f);
      assert m - {first} - {k} == m - {k} - {first};
    }
  }

  lemma SumInsert<K(!new), V>(m: map<K, V>, k: K, v: V, f: V -> real)
    requires k !in m
    ensures Sum(m[k := v], f) == Sum(m, f) + f(v)
  {
    SumSplit(m[k := v], k, f);
    assert m[k := v] - {k} == m;
  }

  lemma SumUpdate<K(!new), V>(m: map<K, V>, k: K, v: V, f: V -> real)
    requires k in m
    ensures Sum(m[k := v], f) == Sum(m, f) - f(m[k]) + f(v)
  {
    SumSplit(m[k := v], k, f);
    SumSplit(m, k, f);
    assert m[k := v] - {k} == m - {k};
  }

  /** Two maps with the same keys on which two functions agree have the same sum. */
  lemma {:induction false} SumAgrees<K(!new), V, W>(m: map<K, V>, f: V -> real, m': map<K, W>, f': W -> real)
    requires m.Keys == m'.Keys && forall k :: k in m ==> f(m[k]) == f'(m'[k])
    ensures Sum(m, f) == Sum(m', f')
    decreases |m|
  {
    if m != map[] {
      assert m.Keys != {};
      var k :| k in m;
      SumSplit(m, k, f);
      SumSplit(m', k, f');
      SumAgrees(m - {k}, f, m' - {k}, f');
    } else {
      assert m'.Keys == {};
    }
  }

  /** Entries that contribute nothing may be left out. */
  lemma {:induction false} SumOfPart<K(!new), V>(m: map<K, V>, part: map<K, V>, f: V -> real)
    requires part.Keys <= m.Keys && forall k :: k in m ==> if k in part then part[k] == m[k] else f(m[k]) == 0.0
    ensures Sum(m, f) == Sum(part, f)
    decreases |m|
  {
    if m.Keys == part.Keys {
      SumAgrees(m, f, part, f);
    } else {
      var k :| k in m.Keys && k !in part.Keys;
      SumSplit(m, k, f);
      SumOfPart(m - {k}, part, f);
    }
  }

  method SumOf<K(==,!new), V>(m: map<K, V>, f: V -> real) returns (s: real)
    ensures s == Sum(m, f)
  {
    s := 0.0;
    var rest := m;
    while rest != map[]
      invariant rest.Keys <= m.Keys && s + Sum(rest, f) == Sum(m, f)
      decreases |rest|
    {
      assert rest.Keys != {};
      var k :| k in rest;
      SumSplit(rest, k, f);
      s := s + f(rest[k]);
      rest := rest - {k};
    }
  }

  function Zero<K(==)>(m: map<K, real>, k: K): real {
    if k in m then m[k] else 0.0
  }

  function Value(x: real): real {
    x
  }

  function Added<K(==)>(m: map<K, real>, k: K, x: real): map<K, real> {
    m[k := Zero(m, k) + x]
  }

  /** Adding to one entry, which starts at zero, adds to the sum of the entries. */
  lemma SumAdd<K(!new)>(m: map<K, real>, k: K, x: real)
    ensures Sum(Added(m, k, x), Value) == Sum(m, Value) + x
  {
    if k in m { SumUpdate(m, k, m[k] + x, Value); } else { SumInsert(m, k, x, Value); }
  }

  function Part<V>(group: V -> string, f: V -> real, g: string): V -> real {
    (v: V) => if group(v) == g then f(v) else 0.0
  }

  function Groups<K, V>(m: map<K, V>, group: V -> string): set<string> {
    set k | k in m :: group(m[k])
  }

  ghost predicate Grouped<K(!new), V>(sums: map<string, real>, m: map<K, V>, group: V -> string, f: V -> real) {
    && sums.Keys == Groups(m, group)
    && (forall g :: Zero(sums, g) == Sum(m, Part(group, f, g)))
    && Sum(sums, Value) == Sum(m, f)
  }

  lemma GroupedStep<K(!new), V>(sums: map<string, real>, m: map<K, V>, k: K, v: V, group: V -> string, f: V -> real)
    requires Grouped(sums, m, group, f) && k !in m
    ensures Grouped(Added(sums, group(v), f(v)), m[k := v], group, f)
  {
    SumAdd(sums, group(v), f(v));
    SumInsert(m, k, v, f);
    forall g ensures Zero(Added(sums, group(v), f(v)), g) == Sum(m[k := v], Part(group, f, g)) {
      PartStep(m, k, v, group, f, g);
    }
    GroupsStep(m, k, v, group);
  }

  lemma PartStep<K(!new), V>(m: map<K, V>, k: K, v: V, group: V -> string, f: V -> real, g: string)
    requires k !in m
    ensures Sum(m[k := v], Part(group, f, g)) == Sum(m, Part(group, f, g)) + if group(v) == g then f(v) else 0.0
  {
    SumInsert(m, k, v, Part(group, f, g));
  }

  lemma GroupsStep<K(!new), V>(m: map<K, V>, k: K, v: V, group: V -> string)
    requires k !in m
    ensures Groups(m[k := v], group) == Groups(m, group) + {group(v)}
  {
    var m' := m[k := v];
    forall j | j in m ensures group(m[j]) in Groups(m', group) { assert j in m' && m'[j] == m[j]; }
    assert k in m' && m'[k] == v;
  }

  lemma GroupedNothing<K(!new), V>(nothing: map<K, V>, group: V -> string, f: V -> real)
    requires nothing == map[]
    ensures Grouped(map[], nothing, group, f)
  {}

  /** GROUP BY: one sum for each group that occurs, and together they make the whole sum. */
  method GroupSums<K(==,!new), V>(m: map<K, V>, group: V -> string, f: V -> real) returns (sums: map<string, real>)
    ensures Grouped(sums, m, group, f)
  {
    sums := map[];
    var rest := m.Keys;
    ghost var done: map<K, V> := map[];
    GroupedNothing(done, group, f);
    while rest != {}
      invariant forall k :: k in m <==> k in done || k in rest
      invariant forall k :: k in rest ==> k !in done
      invariant forall k :: k in done ==> done[k] == m[k]
      invariant Grouped(sums, done, group, f)
      decreases |rest|
    {
      var k :| k in rest;
      GroupedStep(sums, done, k, m[k], group, f);
      sums := Added(sums, group(m[k]), f(m[k]));
      done := done[k := m[k]];
      rest := rest - {k};
    }
    assert done == m;
  }

  /** Adds the entries of one map to those of another. */
  method AddAll(a: map<string, real>, b: map<string, real>) returns (both: map<string, real>)
    ensures forall g :: Zero(both, g) == Zero(a, g) + Zero(b, g)
    ensures Sum(both, Value) == Sum(a, Value) + Sum(b, Value)
  {
    both := a;
    var rest := b;
    while rest != map[]
      invariant forall g :: Zero(both, g) + Zero(rest, g) == Zero(a, g) + Zero(b, g)
      invariant Sum(both, Value) + Sum(rest, Value) == Sum(a, Value) + Sum(b, Value)
      decreases |rest|
    {
      assert rest.Keys != {};
      var g :| g in rest;
      SumAdd(both, g, rest[g]);
      SumSplit(rest, g, Value);
      both := Added(both, g, rest[g]);
      rest := rest - {g};
    }
  }

  /** Of two sums the one with the smaller terms is smaller, and they are equal only term by term. */
  lemma {:induction false} SumCompares<K(!new), V>(m: map<K, V>, f: V -> real, g: V -> real)
    requires forall k :: k in m ==> f(m[k]) <= g(m[k])
    ensures Sum(m, f) <= Sum(m, g)
    ensures Sum(m, f) == Sum(m, g) <==> forall k :: k in m ==> f(m[k]) == g(m[k])
    decreases |m|
  {
    if m != map[] {
      assert m.Keys != {};
      var k :| k in m;
      SumSplit(m, k, f);
      SumSplit(m, k, g);
      SumCompares(m - {k}, f, g);
      assert forall j :: j in m ==> j == k || (j in m - {k} && (m - {k})[j] == m[j]);
    }
  }

  /** A part and the rest make the whole. */
  lemma {:induction false} SumParts<K(!new), V>(m: map<K, V>, part: set<K>, f: V -> real)
    ensures Sum(m, f) == Sum(map k | k in m && k in part :: m[k], f) + Sum(m - part, f)
    decreases |m|
  {
    var inside := map k | k in m && k in part :: m[k];
    if m == map[] {
      assert inside == map[] && m - part == map[];
    } else {
      assert m.Keys != {};
      var k :| k in m;
      SumSplit(m, k, f);
      SumParts(m - {k}, part, f);
      var rest := m - {k};
      var inside' := map j | j in rest && j in part :: rest[j];
      if k in part {
        SumSplit(inside, k, f);
        assert inside - {k} == inside' && rest - part == m - part;
      } else {
        SumSplit(m - part, k, f);
        assert inside == inside' && m - part - {k} == rest - part;
      }
    }
  }

  /** A sum of terms that are not negative is zero only if every term is. */
  lemma {:induction false} SumIsZero<K(!new), V>(m: map<K, V>, f: V -> real)
    requires forall k :: k in m ==> f(m[k]) >= 0.0
    ensures Sum(m, f) >= 0.0
    ensures Sum(m, f) == 0.0 <==> forall k :: k in m ==> f(m[k]) == 0.0
    decreases |m|
  {
    if m != map[] {
      assert m.Keys != {};
      var k :| k in m;
      SumSplit(m, k, f);
      SumIsZero(m - {k}, f);
      assert forall j :: j in m ==> j == k || (j in m - {k} && (m - {k})[j] == m[j]);
    }
  }

  /** `rename` takes the keys of one map to those of the other, one to one, and the terms agree. */
  ghost predicate Renames<J(!new), K(!new), V>(m: map<J, V>, m': map<K, V>, f: V -> real, f': V -> real,
                            rename: J -> K) {
    && (forall j :: j in m ==> rename(j) in m' && f(m[j]) == f'(m'[rename(j)]))
    && (forall i, j :: i in m && j in m && rename(i) == rename(j) ==> i == j)
    && (forall k :: k in m' ==> exists j :: j in m && rename(j) == k)
  }

  lemma RenamesLess<J(!new), K(!new), V>(m: map<J, V>, m': map<K, V>, f: V -> real, f': V -> real, rename: J -> K, j: J)
    requires Renames(m, m', f, f', rename) && j in m
    ensures Renames(m - {j}, m' - {rename(j)}, f, f', rename)
  {
    forall k | k in m' - {rename(j)} ensures exists i :: i in m - {j} && rename(i) == k {
      var i :| i in m && rename(i) == k;
      assert i in m - {j};
    }
  }

  /** Renaming the keys one to one does not change the sum. */
  lemma {:induction false} SumRenamed<J(!new), K(!new), V>(m: map<J, V>, m': map<K, V>, f: V -> real, f': V -> real,
                                        rename: J -> K)
    requires Renames(m, m', f, f', rename)
    ensures Sum(m, f) == Sum(m', f')
    decreases |m|
  {
    if m == map[] {
      assert m'.Keys == {};
      assert m' == map[];
    } else {
      assert m.Keys != {};
      var j :| j in m;
      SumSplit(m, j, f);
      SumSplit(m', rename(j), f');
      RenamesLess(m, m', f, f', rename, j);
      SumRenamed(m - {j}, m' - {rename(j)}, f, f', rename);
    }
  }
}

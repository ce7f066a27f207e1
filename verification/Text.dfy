/** The ASCII string operations the source relies on. */
module Text {
  import opened Ordering

  /** The characters that Python's `str.strip` removes. */
  predicate IsSpace(c: char) {
    '\t' <= c <= '\r' || 28 as char <= c <= 31 as char || c == ' '
  }

  function TrimLeft(s: string, drop: char -> bool): string {
    if s != [] && drop(s[0]) then TrimLeft(s[1..], drop) else s
  }

  function TrimRight(s: string, drop: char -> bool): string {
    if s != [] && drop(s[|s| - 1]) then TrimRight(s[..|s| - 1], drop) else s
  }

  function Trim(s: string, drop: char -> bool): string {
    TrimRight(TrimLeft(s, drop), drop)
  }

  function Strip(s: string): string {
    Trim(s, IsSpace)
  }

  function UpperChar(c: char): char {
    if 'a' <= c <= 'z' then (c as int - 32) as char else c
  }

  predicate NotDash(c: char) {
    c != '-'
  }

  function Upper(s: string): string {
    seq(|s|, i requires 0 <= i < |s| => UpperChar(s[i]))
  }

  /** Python's `<` on strings. */
  predicate Less(a: string, b: string) {
    b != [] && (a == [] || a[0] < b[0] || (a[0] == b[0] && Less(a[1..], b[1..])))
  }

  /** Strings are ordered by the first character in which they differ, and a prefix comes first. */
  lemma {:induction false} LessMeans(a: string, b: string, n: nat)
    requires n <= |a| && n < |b| && (n == |a| || a[n] < b[n])
    requires forall i :: 0 <= i < n ==> a[i] == b[i]
    ensures Less(a, b)
  {
    if n > 0 {
      LessMeans(a[1..], b[1..], n - 1);
    }
  }

  lemma {:induction false} TrimLeftMeans(s: string, drop: char -> bool) returns (i: nat)
    ensures i <= |s| && TrimLeft(s, drop) == s[i..]
    ensures (forall k :: 0 <= k < i ==> drop(s[k])) && (i < |s| ==> !drop(s[i]))
  {
    if s != [] && drop(s[0]) {
      var rest := s[1..];
      var j := TrimLeftMeans(rest, drop);
      i := j + 1;
      assert rest[j..] == s[i..];
      assert forall k :: 0 < k < i ==> s[k] == rest[k - 1];
    } else {
      i := 0;
    }
  }

  lemma {:induction false} TrimRightMeans(s: string, drop: char -> bool) returns (j: nat)
    ensures j <= |s| && TrimRight(s, drop) == s[..j]
    ensures (forall k :: j <= k < |s| ==> drop(s[k])) && (j > 0 ==> !drop(s[j - 1]))
  {
    if s != [] && drop(s[|s| - 1]) {
      var rest := s[..|s| - 1];
      j := TrimRightMeans(rest, drop);
      assert rest[..j] == s[..j];
      assert forall k :: 0 <= k < |rest| ==> s[k] == rest[k];
    } else {
      j := |s|;
    }
  }

  /** Stripping takes away white space at both ends, all of it and nothing else. */
  lemma StripMeans(s: string) returns (i: nat, j: nat)
    ensures i <= j <= |s| && Strip(s) == s[i..j]
    ensures forall k :: 0 <= k < i || j <= k < |s| ==>
      s[k] in {' ', '\t', '\n', '\r', 11 as char, 12 as char, 28 as char, 29 as char, 30 as char, 31 as char}
    ensures i < j ==> !IsSpace(s[i]) && !IsSpace(s[j - 1])
  {
    i := TrimLeftMeans(s, IsSpace);
    var rest := s[i..];
    var length := TrimRightMeans(rest, IsSpace);
    j := i + length;
    assert rest[..length] == s[i..j];
    forall k | 0 <= k < i || j <= k < |s| ensures IsSpace(s[k]) {
      if k >= j { assert s[k] == rest[k - i]; }
    }
  }

  lemma {:induction false} LessIrreflexive(a: string)
    ensures !Less(a, a)
  {
    if a != [] { LessIrreflexive(a[1..]); }
  }

  lemma {:induction false} LessConnected(a: string, b: string)
    ensures Less(a, b) || Less(b, a) || a == b
  {
    if a != [] && b != [] && a[0] == b[0] {
      LessConnected(a[1..], b[1..]);
      assert a == [a[0]] + a[1..] && b == [b[0]] + b[1..];
    }
  }

  lemma {:induction false} LessTransitive(a: string, b: string, c: string)
    requires Less(a, b) && Less(b, c)
    ensures Less(a, c)
  {
    if a != [] && a[0] == b[0] && b[0] == c[0] {
      LessTransitive(a[1..], b[1..], c[1..]);
    }
  }

  lemma LessIsStrictTotal()
    ensures StrictTotal(Less)
  {
    forall a ensures !Less(a, a) { LessIrreflexive(a); }
    forall a, b ensures Less(a, b) || Less(b, a) || a == b { LessConnected(a, b); }
    forall a, b, c | Less(a, b) && Less(b, c) ensures Less(a, c) { LessTransitive(a, b, c); }
  }
}

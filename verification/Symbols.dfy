/** Ticker symbols: the canonical form, and the form the broker wants. */
module Symbols {
  import opened Lists
  import opened Text

  predicate IsAlnum(c: char) {
    'A' <= c <= 'Z' || '0' <= c <= '9'
  }

  predicate IsQuote(c: char) {
    c == '\"' || c == '\''
  }

  predicate NotQuote(c: char) {
    !IsQuote(c)
  }

  predicate IsDot(c: char) {
    c == '.'
  }

  predicate InSymbol(c: char) {
    IsAlnum(c) || IsDot(c)
  }

  /** The separators `/`, space and `-` become dots. */
  function Dotted(c: char): char {
    if c == '/' || c == ' ' || c == '-' then '.' else c
  }

  function DotToSpace(c: char): char {
    if c == '.' then ' ' else c
  }

  function Map(s: string, f: char -> char): string {
    seq(|s|, i requires 0 <= i < |s| => f(s[i]))
  }

  /** Each run of dots becomes one. */
  function Collapse(s: string): string {
    if s == [] then s
    else
      var n := |s| - 1;
      if n > 0 && s[n] == '.' && s[n - 1] == '.' then Collapse(s[..n]) else Collapse(s[..n]) + [s[n]]
  }

  predicate IsAlias(value: string) {
    value == "BRKB" || value == "BFA" || value == "BFB" || value == "HEIA" || value == "LENB" || value == "UHALB"
  }

  /** SYMBOL_ALIASES: each gets a dot before its last letter. */
  function Unaliased(value: string): string {
    if IsAlias(value) then value[..|value| - 1] + "." + value[|value| - 1..] else value
  }

  /** Upper case, quotes removed, separators made dots, and everything else that is not A-Z, 0-9 removed. */
  function Letters(symbol: string): string {
    Filter(Map(Filter(Upper(Strip(symbol)), NotQuote), Dotted), InSymbol)
  }

  function Spelled(symbol: string): string {
    Trim(Collapse(Letters(symbol)), IsDot)
  }

  function CanonicalSymbol(symbol: string): string {
    Unaliased(Spelled(symbol))
  }

  function IbkrSymbol(symbol: string): string {
    Map(CanonicalSymbol(symbol), DotToSpace)
  }

  // ---------------------------------------------------------------------
  // Canonical symbols, said without the steps that make them

  /** Only letters, digits and dots, and no two dots in a row. */
  ghost predicate Sparse(s: string) {
    && (forall i :: 0 <= i < |s| ==> InSymbol(s[i]))
    && (forall i :: 0 < i < |s| ==> s[i - 1] != '.' || s[i] != '.')
  }

  /** Upper-case letters and digits in groups, one dot between two groups. */
  ghost predicate Grouped(s: string) {
    Sparse(s) && (s != [] ==> s[0] != '.' && s[|s| - 1] != '.')
  }

  ghost predicate Canonical(s: string) {
    Grouped(s) && !IsAlias(s)
  }

  // ---------------------------------------------------------------------
  // The steps, one by one

  lemma {:induction false} TrimLeftSparse(s: string)
    requires Sparse(s)
    ensures Sparse(TrimLeft(s, IsDot))
    ensures TrimLeft(s, IsDot) != [] ==> TrimLeft(s, IsDot)[0] != '.'
  {
    if s != [] && IsDot(s[0]) {
      TrimLeftSparse(s[1..]);
    }
  }

  lemma {:induction false} TrimRightSparse(s: string)
    requires Sparse(s) && (s != [] ==> s[0] != '.')
    ensures Grouped(TrimRight(s, IsDot))
  {
    if s != [] && IsDot(s[|s| - 1]) {
      TrimRightSparse(s[..|s| - 1]);
    }
  }

  lemma {:induction false} CollapseIsSparse(s: string)
    requires forall i :: 0 <= i < |s| ==> InSymbol(s[i])
    ensures Sparse(Collapse(s))
    ensures s != [] ==> Collapse(s) != [] && Collapse(s)[|Collapse(s)| - 1] == s[|s| - 1]
  {
    if s != [] {
      CollapseIsSparse(s[..|s| - 1]);
    }
  }

  lemma {:induction false} CollapseKeepsSparse(s: string)
    requires Sparse(s)
    ensures Collapse(s) == s
  {
    if s != [] {
      CollapseKeepsSparse(s[..|s| - 1]);
    }
  }

  lemma {:induction false} CollapseKeepsLetters(s: string)
    ensures Filter(Collapse(s), IsAlnum) == Filter(s, IsAlnum)
  {
    if s != [] {
      var n := |s| - 1;
      CollapseKeepsLetters(s[..n]);
      FilterConcat(Collapse(s[..n]), [s[n]], IsAlnum);
      FilterConcat(s[..n], [s[n]], IsAlnum);
      assert s == s[..n] + [s[n]];
      if s[n] == '.' {
        FilterNone([s[n]], IsAlnum);
      }
    }
  }

  lemma {:induction false} TrimLeftKeepsLetters(s: string, drop: char -> bool)
    requires forall c :: drop(c) ==> !IsAlnum(UpperChar(c))
    ensures Filter(Upper(TrimLeft(s, drop)), IsAlnum) == Filter(Upper(s), IsAlnum)
  {
    if s != [] && drop(s[0]) {
      TrimLeftKeepsLetters(s[1..], drop);
      assert Upper(s) == [UpperChar(s[0])] + Upper(s[1..]);
      FilterConcat([UpperChar(s[0])], Upper(s[1..]), IsAlnum);
      FilterNone([UpperChar(s[0])], IsAlnum);
    }
  }

  lemma {:induction false} TrimRightKeepsLetters(s: string, drop: char -> bool)
    requires forall c :: drop(c) ==> !IsAlnum(UpperChar(c))
    ensures Filter(Upper(TrimRight(s, drop)), IsAlnum) == Filter(Upper(s), IsAlnum)
  {
    if s != [] && drop(s[|s| - 1]) {
      var n := |s| - 1;
      TrimRightKeepsLetters(s[..n], drop);
      assert Upper(s) == Upper(s[..n]) + [UpperChar(s[n])];
      FilterConcat(Upper(s[..n]), [UpperChar(s[n])], IsAlnum);
      FilterNone([UpperChar(s[n])], IsAlnum);
    }
  }

  lemma TrimKeepsLetters(s: string, drop: char -> bool)
    requires forall c :: drop(c) ==> !IsAlnum(UpperChar(c))
    ensures Filter(Upper(Trim(s, drop)), IsAlnum) == Filter(Upper(s), IsAlnum)
  {
    TrimLeftKeepsLetters(s, drop);
    TrimRightKeepsLetters(TrimLeft(s, drop), drop);
  }

  lemma {:induction false} MapKeepsLetters(s: string, f: char -> char)
    requires forall c :: f(c) == c || (!IsAlnum(f(c)) && !IsAlnum(c))
    ensures Filter(Map(s, f), IsAlnum) == Filter(s, IsAlnum)
  {
    if s != [] {
      var n := |s| - 1;
      MapKeepsLetters(s[..n], f);
      assert Map(s, f)[..n] == Map(s[..n], f);
    }
  }

  lemma UpperKeepsSymbol(s: string)
    requires forall i :: 0 <= i < |s| ==> InSymbol(s[i]) || s[i] == ' '
    ensures Upper(s) == s
  {}

  // ---------------------------------------------------------------------
  // What the steps make of any string

  lemma LettersAreSymbols(s: string)
    ensures forall i :: 0 <= i < |Letters(s)| ==> InSymbol(Letters(s)[i])
  {
    FilterMembers(Map(Filter(Upper(Strip(s)), NotQuote), Dotted), InSymbol);
  }

  lemma AliasesAreLetters(value: string)
    requires IsAlias(value)
    ensures |value| >= 2 && forall i :: 0 <= i < |value| ==> IsAlnum(value[i])
  {}

  lemma AliasIsGrouped(value: string)
    requires IsAlias(value)
    ensures Grouped(Unaliased(value))
  {
    AliasesAreLetters(value);
    var alias := Unaliased(value);
    var n := |value| - 1;
    assert forall i :: 0 <= i < n ==> alias[i] == value[i];
    assert alias[n] == '.' && alias[n + 1] == value[n] && |alias| == n + 2;
  }

  lemma AliasIsNoKey(value: string)
    requires IsAlias(value)
    ensures !IsAlias(Unaliased(value))
  {
    var alias := Unaliased(value);
    assert |alias| >= 2 && alias[|alias| - 2] == '.';
    if IsAlias(alias) { AliasesAreLetters(alias); }
  }

  lemma UnaliasedIsCanonical(value: string)
    requires Grouped(value)
    ensures Canonical(Unaliased(value))
  {
    if IsAlias(value) {
      AliasIsGrouped(value);
      AliasIsNoKey(value);
    }
  }

  lemma UnaliasedKeepsLetters(value: string)
    ensures Filter(Unaliased(value), IsAlnum) == Filter(value, IsAlnum)
  {
    if IsAlias(value) {
      var n := |value| - 1;
      var (a, b) := (value[..n], value[n..]);
      assert value == a + b;
      FilterConcat(a, b, IsAlnum);
      FilterConcat(a + ".", b, IsAlnum);
      FilterConcat(a, ".", IsAlnum);
      FilterNone(".", IsAlnum);
    }
  }

  /** The result is never an alias key and has no leading, trailing or repeated dot. */
  lemma CanonicalSymbolIsCanonical(s: string)
    ensures Canonical(CanonicalSymbol(s))
  {
    LettersAreSymbols(s);
    var sparse := Collapse(Letters(s));
    CollapseIsSparse(Letters(s));
    TrimLeftSparse(sparse);
    TrimRightSparse(TrimLeft(sparse, IsDot));
    UnaliasedIsCanonical(Spelled(s));
  }

  /** A grouped symbol goes through the steps unchanged, with dots or with spaces in it. */
  lemma GroupedPasses(s: string, written: string)
    requires Grouped(s) && (written == s || written == Map(s, DotToSpace))
    ensures Spelled(written) == s
  {
    assert forall i :: 0 <= i < |s| ==> Map(s, DotToSpace)[i] == DotToSpace(s[i]);
    TrimKeeps(written, IsSpace);
    LettersPass(s, written);
    CollapseKeepsSparse(s);
    TrimKeeps(s, IsDot);
  }

  lemma TrimKeeps(s: string, drop: char -> bool)
    requires s == [] || (!drop(s[0]) && !drop(s[|s| - 1]))
    ensures Trim(s, drop) == s
  {}

  lemma LettersPass(s: string, written: string)
    requires |written| == |s| && Strip(written) == written
    requires forall i :: 0 <= i < |s| ==> InSymbol(s[i]) && (written[i] == s[i] || (written[i] == ' ' && s[i] == '.'))
    ensures Letters(written) == s
  {
    UpperKeepsSymbol(written);
    FilterAll(written, NotQuote);
    forall i | 0 <= i < |s| ensures Map(written, Dotted)[i] == s[i] {
      assert InSymbol(s[i]) && Map(written, Dotted)[i] == Dotted(written[i]);
    }
    assert Map(written, Dotted) == s;
    FilterAll(s, InSymbol);
  }

  /** The fixed points are exactly the canonical symbols, so canonicalising twice is canonicalising once. */
  lemma FixedIffCanonical(s: string)
    ensures CanonicalSymbol(s) == s <==> Canonical(s)
    ensures CanonicalSymbol(CanonicalSymbol(s)) == CanonicalSymbol(s)
  {
    CanonicalSymbolIsCanonical(s);
    GroupedPasses(CanonicalSymbol(s), CanonicalSymbol(s));
    if Canonical(s) { GroupedPasses(s, s); }
  }

  /** The broker's form leads back to the canonical one. */
  lemma IbkrRoundTrip(s: string)
    ensures CanonicalSymbol(IbkrSymbol(s)) == CanonicalSymbol(s)
  {
    CanonicalSymbolIsCanonical(s);
    GroupedPasses(CanonicalSymbol(s), IbkrSymbol(s));
  }

  /** No letter or digit is lost, added or moved: only the dots between them change. */
  lemma CanonicalSymbolKeepsLetters(s: string)
    ensures Filter(CanonicalSymbol(s), IsAlnum) == Filter(Upper(s), IsAlnum)
  {
    var upper := Upper(Strip(s));
    var bare := Filter(upper, NotQuote);
    TrimKeepsLetters(s, IsSpace);
    FilterFilter(upper, NotQuote, IsAlnum);
    MapKeepsLetters(bare, Dotted);
    FilterFilter(Map(bare, Dotted), InSymbol, IsAlnum);
    CollapseKeepsLetters(Letters(s));
    LettersAreSymbols(s);
    var sparse := Collapse(Letters(s));
    CollapseIsSparse(Letters(s));
    TrimDotsKeepsLetters(sparse);
    UnaliasedKeepsLetters(Spelled(s));
  }

  lemma TrimDotsKeepsLetters(s: string)
    requires Sparse(s)
    ensures Filter(Trim(s, IsDot), IsAlnum) == Filter(s, IsAlnum)
  {
    TrimKeepsLetters(s, IsDot);
    TrimLeftSparse(s);
    TrimRightSparse(TrimLeft(s, IsDot));
    UpperKeepsSymbol(s);
    UpperKeepsSymbol(Trim(s, IsDot));
  }

  /** A canonical symbol is upper case and has no space around it. */
  lemma CanonicalIsPlain(s: string)
    requires Canonical(s)
    ensures Upper(Strip(s)) == s
  {
    TrimKeeps(s, IsSpace);
    UpperKeepsSymbol(s);
  }
}

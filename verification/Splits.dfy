/** Split adjustment of a symbol's bars, checked in memory, in exact arithmetic. */
module Splits {
  import opened Numbers
  import opened Wrappers

  /** A day is a number; prices and volume are exact. */
  datatype Bar = Bar(day: int, open: real, high: real, low: real, close: real, volume: real)

  /** A row of the splits table; a part that does not parse is None. */
  datatype SplitRow = SplitRow(executionDate: Option<int>, splitFrom: Option<real>, splitTo: Option<real>)

  datatype Split = Split(day: int, factor: real)

  datatype Issues = Issues(negativePrices: nat, invalidOhlc: nat, negativeVolume: nat)

  predicate Usable(row: SplitRow) {
    row.executionDate.Some? && row.splitFrom.Some? && row.splitTo.Some? && row.splitFrom.value > 0.0
      && row.splitTo.value > 0.0
  }

  function SplitOf(row: SplitRow): Split
    requires Usable(row)
  {
    Split(row.executionDate.value, row.splitFrom.value / row.splitTo.value)
  }

  function SplitsOf(rows: seq<SplitRow>): seq<Split> {
    if rows == [] then []
    else
      var row := rows[|rows| - 1];
      SplitsOf(rows[..|rows| - 1]) + if Usable(row) then [SplitOf(row)] else []
  }

  predicate Positive(splits: seq<Split>) {
    forall i :: 0 <= i < |splits| ==> splits[i].factor > 0.0
  }

  lemma {:induction false} SplitsArePositive(rows: seq<SplitRow>)
    ensures Positive(SplitsOf(rows))
  {
    if rows != [] {
      var row := rows[|rows| - 1];
      SplitsArePositive(rows[..|rows| - 1]);
      if Usable(row) { QuotientIsPositive(row.splitFrom.value, row.splitTo.value); }
    }
  }

  lemma QuotientIsPositive(a: real, b: real)
    requires a > 0.0 && b > 0.0
    ensures a / b > 0.0
  {
    assert a / b * b == a;
  }

  // ---------------------------------------------------------------------
  // The adjustment factor

  function Times(a: real, b: real): real {
    a * b
  }

  /** The factors of the splits after the day, taken together one after the other. */
  function Combined(splits: seq<Split>, day: int, times: (real, real) -> real): real {
    if splits == [] then 1.0
    else
      var before := Combined(splits[..|splits| - 1], day, times);
      var s := splits[|splits| - 1];
      if day < s.day then times(before, s.factor) else before
  }

  function Factor(splits: seq<Split>, day: int): real {
    Combined(splits, day, Times)
  }

  lemma {:induction false} FactorIsPositive(splits: seq<Split>, day: int)
    requires Positive(splits)
    ensures Factor(splits, day) > 0.0
  {
    if splits != [] {
      var n := |splits| - 1;
      FactorIsPositive(splits[..n], day);
      ProductIsPositive(Factor(splits[..n], day), splits[n].factor);
    }
  }

  lemma ProductIsPositive(a: real, b: real)
    requires a > 0.0 && b > 0.0
    ensures a * b > 0.0
  {}

  /** A split with `splitTo` shares for each `splitFrom` divides the factor of every earlier day accordingly,
      and leaves that of its own day and of later days alone; a row that does not parse counts for nothing. */
  lemma OneMoreSplit(rows: seq<SplitRow>, row: SplitRow, day: int)
    ensures var (before, after) := (Factor(SplitsOf(rows), day), Factor(SplitsOf(rows + [row]), day));
      if row.executionDate.Some? && row.splitFrom.Some? && row.splitTo.Some?
        && row.splitFrom.value > 0.0 && row.splitTo.value > 0.0 && day < row.executionDate.value
      then after * row.splitTo.value == before * row.splitFrom.value
      else after == before
    ensures Factor(SplitsOf([]), day) == 1.0
  {
    var splits := SplitsOf(rows);
    assert (rows + [row])[..|rows|] == rows;
    if Usable(row) {
      assert (splits + [SplitOf(row)])[..|splits|] == splits;
      if day < row.executionDate.value {
        QuotientTimes(Factor(splits, day), row.splitFrom.value, row.splitTo.value);
      }
    } else {
      assert splits + [] == splits;
    }
  }

  lemma QuotientTimes(x: real, a: real, b: real)
    requires b > 0.0
    ensures Times(x, a / b) * b == x * a
  {
    var q := a / b;
    assert q * b == a;
    assert x * q * b == x * (q * b);
  }

  ghost predicate Commutes(times: (real, real) -> real) {
    forall a, b, c :: times(times(a, b), c) == times(times(a, c), b)
  }

  function Others<T>(s: seq<T>, i: nat): seq<T>
    requires i < |s|
  {
    s[..i] + s[i + 1..]
  }

  lemma OthersAsMultiset<T>(s: seq<T>, i: nat)
    requires i < |s|
    ensures multiset(Others(s, i)) == multiset(s) - multiset{s[i]}
  {
    assert s == s[..i] + [s[i]] + s[i + 1..];
  }

  function With(before: real, s: Split, day: int, times: (real, real) -> real): real {
    if day < s.day then times(before, s.factor) else before
  }

  /** A split may be moved from any place to the end. */
  lemma {:induction false} MovedToEnd(splits: seq<Split>, i: nat, day: int, times: (real, real) -> real)
    requires i < |splits| && Commutes(times)
    ensures Combined(splits, day, times) == With(Combined(Others(splits, i), day, times), splits[i], day, times)
    decreases |splits|
  {
    var n := |splits| - 1;
    if i == n {
      assert Others(splits, i) == splits[..n];
    } else {
      MovedToEnd(splits[..n], i, day, times);
      var others := Others(splits, i);
      assert others[..n - 1] == Others(splits[..n], i) && others[n - 1] == splits[n];
    }
  }

  lemma {:induction false} CombinedIgnoresOrder(a: seq<Split>, b: seq<Split>, day: int, times: (real, real) -> real)
    requires multiset(a) == multiset(b) && Commutes(times)
    ensures Combined(a, day, times) == Combined(b, day, times)
    decreases |a|
  {
    if a == [] {
      assert |multiset(b)| == 0;
    } else {
      var i := PlaceOf(b, a[0]);
      OthersAsMultiset(a, 0);
      OthersAsMultiset(b, i);
      CombinedIgnoresOrder(Others(a, 0), Others(b, i), day, times);
      MovedToEnd(a, 0, day, times);
      MovedToEnd(b, i, day, times);
    }
  }

  ghost function PlaceOf<T>(s: seq<T>, x: T): (i: nat)
    requires x in multiset(s)
    ensures i < |s| && s[i] == x
  {
    var i :| 0 <= i < |s| && s[i] == x;
    i
  }

  lemma TimesCommutes()
    ensures Commutes(Times)
  {
    forall a, b, c ensures Times(Times(a, b), c) == Times(Times(a, c), b) {
      assert a * b * c == a * c * b;
    }
  }

  /** The order in which the splits are listed does not matter. */
  lemma FactorIgnoresOrder(a: seq<Split>, b: seq<Split>, day: int)
    requires multiset(a) == multiset(b)
    ensures Factor(a, day) == Factor(b, day)
  {
    TimesCommutes();
    CombinedIgnoresOrder(a, b, day, Times);
  }

  // ---------------------------------------------------------------------
  // Adjusted bars

  function Scale(factor: real): real -> real {
    (price: real) => price * factor
  }

  function Repriced(b: Bar, scale: real -> real, volume: real): Bar {
    Bar(b.day, scale(b.open), scale(b.high), scale(b.low), scale(b.close), volume)
  }

  function Adjusted(b: Bar, factor: real): Bar {
    Repriced(b, Scale(factor), if factor != 0.0 then b.volume / factor else -1.0)
  }

  predicate BadPrice(b: Bar) {
    Min(b.open, Min(b.high, Min(b.low, b.close))) <= 0.0
  }

  predicate BadOhlc(b: Bar) {
    b.high < b.low || b.open < b.low || b.open > b.high || b.close < b.low || b.close > b.high
  }

  predicate BadVolume(b: Bar) {
    b.volume < 0.0
  }

  function Counted(issues: Issues, b: Bar): Issues {
    Issues(issues.negativePrices + Bump(BadPrice(b)), issues.invalidOhlc + Bump(BadOhlc(b)),
           issues.negativeVolume + Bump(BadVolume(b)))
  }

  /** The issues among bars as they are. */
  function IssuesOf(bars: seq<Bar>): Issues {
    if bars == [] then Issues(0, 0, 0) else Counted(IssuesOf(bars[..|bars| - 1]), bars[|bars| - 1])
  }

  /** What counts as an issue, and that prices are multiplied and volume is divided. */
  lemma IssuesMean(b: Bar, factor: real)
    ensures BadPrice(b) <==> b.open <= 0.0 || b.high <= 0.0 || b.low <= 0.0 || b.close <= 0.0
    ensures !BadOhlc(b) <==> b.low <= b.high && b.low <= b.open <= b.high && b.low <= b.close <= b.high
    ensures BadVolume(b) <==> b.volume < 0.0
    ensures var a := Adjusted(b, factor);
      && a.open == b.open * factor && a.high == b.high * factor && a.low == b.low * factor
      && a.close == b.close * factor && a.day == b.day
  {}

  lemma ScaleCompares(a: real, b: real, factor: real)
    requires factor > 0.0
    ensures a * factor < b * factor <==> a < b
  {
    var d := b - a;
    assert d * factor == b * factor - a * factor;
    ScaleKeepsSign(d, factor);
  }

  lemma ScaleKeepsSign(d: real, factor: real)
    requires factor > 0.0
    ensures d * factor > 0.0 <==> d > 0.0
  {
    if d < 0.0 { assert (-d) * factor > 0.0; }
  }

  lemma TurnoverKept(price: real, volume: real, factor: real)
    requires factor > 0.0
    ensures (price * factor) * (volume / factor) == price * volume
  {
    var q := volume / factor;
    assert q * factor == volume;
    assert price * factor * q == price * (factor * q);
  }

  lemma QuotientSign(volume: real, factor: real)
    requires factor > 0.0
    ensures volume / factor < 0.0 <==> volume < 0.0
  {
    var q := volume / factor;
    assert q * factor == volume;
    assert (-q) * factor == -volume;
    ScaleKeepsSign(-q, factor);
  }

  /** Turnover is conserved. */
  lemma TurnoverIsConserved(b: Bar, factor: real)
    requires factor > 0.0
    ensures Adjusted(b, factor).close * Adjusted(b, factor).volume == b.close * b.volume
    ensures Adjusted(b, factor).open * Adjusted(b, factor).volume == b.open * b.volume
    ensures Adjusted(b, factor).high * Adjusted(b, factor).volume == b.high * b.volume
    ensures Adjusted(b, factor).low * Adjusted(b, factor).volume == b.low * b.volume
  {
    TurnoverKept(b.close, b.volume, factor);
    TurnoverKept(b.open, b.volume, factor);
    TurnoverKept(b.high, b.volume, factor);
    TurnoverKept(b.low, b.volume, factor);
  }

  ghost predicate KeepsOrder(scale: real -> real) {
    && (forall x, y :: scale(x) < scale(y) <==> x < y)
    && scale(0.0) == 0.0
  }

  lemma ScaleKeepsOrder(factor: real)
    requires factor > 0.0
    ensures KeepsOrder(Scale(factor))
  {
    var scale := Scale(factor);
    forall x, y ensures scale(x) < scale(y) <==> x < y {
      ScaleCompares(x, y, factor);
    }
  }

  lemma RepricedIsFaithful(b: Bar, scale: real -> real, volume: real)
    requires KeepsOrder(scale)
    ensures BadPrice(Repriced(b, scale, volume)) <==> BadPrice(b)
    ensures BadOhlc(Repriced(b, scale, volume)) <==> BadOhlc(b)
  {}

  /** Adjusting neither hides an issue nor makes one. */
  lemma AdjustmentIsFaithful(b: Bar, factor: real, issues: Issues)
    requires factor > 0.0
    ensures Counted(issues, Adjusted(b, factor)) == Counted(issues, b)
  {
    ScaleKeepsOrder(factor);
    RepricedIsFaithful(b, Scale(factor), b.volume / factor);
    QuotientSign(b.volume, factor);
  }

  /** corrected_output_check: whatever the splits, it counts the issues of the raw bars. */
  method CorrectedOutputCheck(bars: seq<Bar>, splitRows: seq<SplitRow>) returns (issues: Issues)
    ensures issues == IssuesOf(bars)
  {
    var factorsByDate := [];
    for i := 0 to |splitRows|
      invariant factorsByDate == SplitsOf(splitRows[..i])
    {
      assert splitRows[..i + 1][..i] == splitRows[..i];
      if Usable(splitRows[i]) {
        factorsByDate := factorsByDate + [SplitOf(splitRows[i])];
      }
    }
    assert splitRows[..|splitRows|] == splitRows;
    SplitsArePositive(splitRows);

    issues := Issues(0, 0, 0);
    for i := 0 to |bars|
      invariant issues == IssuesOf(bars[..i])
    {
      assert bars[..i + 1][..i] == bars[..i];
      var factor := FactorFor(factorsByDate, bars[i].day);
      FactorIsPositive(factorsByDate, bars[i].day);
      AdjustmentIsFaithful(bars[i], factor, issues);
      issues := Counted(issues, Adjusted(bars[i], factor));
    }
    assert bars[..|bars|] == bars;
  }

  method FactorFor(splits: seq<Split>, day: int) returns (factor: real)
    ensures factor == Factor(splits, day)
  {
    factor := 1.0;
    for i := 0 to |splits|
      invariant factor == Factor(splits[..i], day)
    {
      assert splits[..i + 1][..i] == splits[..i];
      if day < splits[i].day {
        factor := factor * splits[i].factor;
      }
    }
    assert splits[..|splits|] == splits;
  }
}

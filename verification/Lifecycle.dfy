/** When the position that is open now was opened, and for how many sessions it has been held. */
module Lifecycle {
  import opened Lists
  import opened Numbers
  import opened OrderStore
  import opened Ordering
  import opened Symbols
  import opened Text
  import opened Wrappers

  datatype Trade = Trade(date: string, side: string, quantity: real)

  const TOLERANCE := 0.000000001

  predicate IsDigit(c: char) {
    '0' <= c <= '9'
  }

  function First(s: string, n: nat): string {
    if |s| > n then s[..n] else s
  }

  function DateKey(value: string): string {
    var text := Strip(value);
    if |text| >= 10 && '-' in text[..10] then Filter(text[..10], NotDash)
    else
      var digits := Filter(First(text, 10), IsDigit);
      if |digits| >= 8 then digits[..8] else ""
  }

  /** The date written as it may be: the first ten characters without dashes when there are any, else
      their first eight digits, and nothing when they are fewer. */
  lemma DateKeyMeans(value: string)
    ensures var text := Strip(value);
      var first := if |text| > 10 then text[..10] else text;
      if |text| >= 10 && '-' in first then DateKey(value) == Filter(first, (c: char) => c != '-')
      else
        var digits := Filter(first, (c: char) => '0' <= c <= '9');
        DateKey(value) == if |digits| >= 8 then digits[..8] else ""
  {
    var text := Strip(value);
    var first := if |text| > 10 then text[..10] else text;
    assert |text| >= 10 ==> first == text[..10];
    FilterAlike(first, NotDash, (c: char) => c != '-');
    FilterAlike(first, IsDigit, (c: char) => '0' <= c <= '9');
  }

  predicate IsBuy(t: Trade) {
    Upper(t.side) == "BUY"
  }

  predicate IsSell(t: Trade) {
    Upper(t.side) == "SELL"
  }

  /** What a trade does to the net position. */
  function Signed(t: Trade): real {
    if IsBuy(t) then Abs(t.quantity) else if IsSell(t) then -Abs(t.quantity) else 0.0
  }

  // ---------------------------------------------------------------------
  // The fold over the trades

  /** The quantity held and the trade whose date is the current entry. */
  datatype Cycle = Cycle(quantity: real, entry: Option<nat>)

  function Step(c: Cycle, t: Trade, i: nat): Cycle {
    if IsBuy(t) then Cycle(c.quantity + Abs(t.quantity), if c.quantity <= TOLERANCE then Some(i) else c.entry)
    else if IsSell(t) then
      if c.quantity - Abs(t.quantity) <= TOLERANCE then Cycle(0.0, None)
      else Cycle(c.quantity - Abs(t.quantity), c.entry)
    else c
  }

  /** One trade: a BUY adds its shares, and opens a position when next to nothing is held; a SELL takes
      its shares, and closes the position when next to nothing is left; the rest does nothing. */
  lemma StepMeans(c: Cycle, t: Trade, i: nat)
    ensures var (after, shares) := (Step(c, t, i), if t.quantity < 0.0 then -t.quantity else t.quantity);
      && (Upper(t.side) == "BUY" ==>
            after == Cycle(c.quantity + shares, if c.quantity <= 0.000000001 then Some(i) else c.entry))
      && (Upper(t.side) == "SELL" && c.quantity - shares <= 0.000000001 ==> after == Cycle(0.0, None))
      && (Upper(t.side) == "SELL" && c.quantity - shares > 0.000000001 ==>
            after == Cycle(c.quantity - shares, c.entry))
      && (Upper(t.side) !in {"BUY", "SELL"} ==> after == c)
  {}

  function Fold(trades: seq<Trade>): Cycle {
    if trades == [] then Cycle(0.0, None)
    else
      var n := |trades| - 1;
      Step(Fold(trades[..n]), trades[n], n)
  }

  // ---------------------------------------------------------------------
  // The position, said without the fold

  /** The running net position, oversold or not. */
  function Net(trades: seq<Trade>): real {
    if trades == [] then 0.0 else Net(trades[..|trades| - 1]) + Signed(trades[|trades| - 1])
  }

  /** The lowest the net position has been, counting the start. */
  function Lowest(trades: seq<Trade>): real {
    if trades == [] then 0.0 else Min(Lowest(trades[..|trades| - 1]), Net(trades))
  }

  /** How far the net position is above its lowest point. */
  function Height(trades: seq<Trade>): real {
    Net(trades) - Lowest(trades)
  }

  predicate Whole(x: real) {
    x == x.Floor as real
  }

  /** Trades in whole shares. */
  predicate WholeTrades(trades: seq<Trade>) {
    forall i :: 0 <= i < |trades| ==> Whole(trades[i].quantity)
  }

  /** Trade `i` is a BUY from the bottom, and the position has not been back there since. */
  ghost predicate OpensAt(trades: seq<Trade>, i: nat) {
    && i < |trades| && IsBuy(trades[i]) && Height(trades[..i]) == 0.0
    && forall k :: i < k <= |trades| ==> Height(trades[..k]) > 0.0
  }

  lemma WholeInt(n: int)
    ensures Whole(n as real)
  {}

  lemma WholeSum(x: real, y: real)
    requires Whole(x) && Whole(y)
    ensures Whole(x + y)
  {
    var n := x.Floor + y.Floor;
    assert x + y == n as real;
    WholeInt(n);
  }

  lemma WholeNegation(x: real)
    requires Whole(x)
    ensures Whole(-x)
  {
    assert -x == (-x.Floor) as real;
    WholeInt(-x.Floor);
  }

  lemma WholeIsZeroOrMore(x: real)
    requires Whole(x)
    ensures x <= TOLERANCE <==> x <= 0.0
  {
    if x > 0.0 { assert x.Floor >= 1; }
  }

  /** The fold's quantity is the height of the walk. */
  lemma {:induction false} FoldIsHeight(trades: seq<Trade>)
    requires WholeTrades(trades)
    ensures Fold(trades).quantity == Height(trades) >= 0.0 && Whole(Height(trades))
  {
    if trades != [] {
      var n := |trades| - 1;
      var (init, t) := (trades[..n], trades[n]);
      assert forall i :: 0 <= i < n ==> init[i] == trades[i];
      FoldIsHeight(init);
      var (h, q) := (Height(init), Abs(t.quantity));
      WholeNegation(t.quantity);
      WholeNegation(q);
      WholeSum(h, q);
      WholeSum(h, -q);
      WholeIsZeroOrMore(h - q);
      WholeInt(0);
    }
  }

  lemma OpensStill(trades: seq<Trade>, i: nat)
    requires trades != [] && OpensAt(trades[..|trades| - 1], i) && Height(trades) > 0.0
    ensures OpensAt(trades, i)
  {
    var init := trades[..|trades| - 1];
    assert trades[..|trades|] == trades;
    assert forall k :: 0 <= k <= |init| ==> init[..k] == trades[..k];
  }

  lemma OpensNow(trades: seq<Trade>)
    requires trades != []
    requires IsBuy(trades[|trades| - 1]) && Height(trades[..|trades| - 1]) == 0.0 && Height(trades) > 0.0
    ensures OpensAt(trades, |trades| - 1)
  {
    assert trades[..|trades|] == trades;
  }

  /** When shares are held, the fold's entry is the trade that opened them. */
  lemma {:induction false} FoldFindsOpening(trades: seq<Trade>)
    requires WholeTrades(trades) && Height(trades) > 0.0
    ensures Fold(trades).entry.Some? && OpensAt(trades, Fold(trades).entry.value)
  {
    var n := |trades| - 1;
    var (init, t) := (trades[..n], trades[n]);
    assert WholeTrades(init) by {
      assert forall i :: 0 <= i < n ==> init[i] == trades[i];
    }
    FoldIsHeight(init);
    FoldIsHeight(trades);
    WholeIsZeroOrMore(Height(init));
    if Height(init) > 0.0 {
      FoldFindsOpening(init);
      OpensStill(trades, Fold(init).entry.value);
    } else {
      OpensNow(trades);
    }
  }

  lemma OpeningIsUnique(trades: seq<Trade>, i: nat, j: nat)
    requires OpensAt(trades, i) && OpensAt(trades, j)
    ensures i == j
  {}

  ghost predicate NeverOversold(trades: seq<Trade>) {
    forall k :: 0 <= k <= |trades| ==> Net(trades[..k]) >= 0.0
  }

  lemma {:induction false} NeverOversoldHeight(trades: seq<Trade>, k: nat)
    requires NeverOversold(trades) && k <= |trades|
    ensures Height(trades[..k]) == Net(trades[..k])
  {
    if k > 0 {
      NeverOversoldHeight(trades, k - 1);
      assert trades[..k][..k - 1] == trades[..k - 1];
    }
  }

  lemma {:induction false} LowestIsLow(trades: seq<Trade>, k: nat)
    requires k <= |trades|
    ensures Lowest(trades) <= Net(trades[..k]) && Lowest(trades) <= 0.0
    decreases |trades|
  {
    if k == |trades| {
      assert trades[..k] == trades;
      if trades != [] { LowestIsLow(trades[..|trades| - 1], 0); }
    } else {
      LowestIsLow(trades[..|trades| - 1], k);
      assert trades[..|trades| - 1][..k] == trades[..k];
    }
  }

  /** The fold shows the net position exactly when no prefix of the trades is oversold. */
  lemma FoldIsNetIffNeverOversold(trades: seq<Trade>)
    requires WholeTrades(trades)
    ensures Fold(trades).quantity == Net(trades) <==> NeverOversold(trades)
  {
    FoldIsHeight(trades);
    if NeverOversold(trades) {
      NeverOversoldHeight(trades, |trades|);
      assert trades[..|trades|] == trades;
    } else {
      var k :| 0 <= k <= |trades| && Net(trades[..k]) < 0.0;
      LowestIsLow(trades, k);
    }
  }

  /** BUY number `i` last took the net position from zero to positive. */
  ghost predicate LastFromZero(trades: seq<Trade>, i: nat) {
    && i < |trades| && IsBuy(trades[i]) && Net(trades[..i]) == 0.0
    && forall k :: i < k <= |trades| ==> Net(trades[..k]) > 0.0
  }

  /** Without an oversold prefix the fold's quantity is the net position, and while that is
      positive its entry is the one BUY that last took it up from zero. */
  lemma EntryOfCurrentLong(trades: seq<Trade>, i: nat)
    requires WholeTrades(trades) && NeverOversold(trades)
    ensures Fold(trades).quantity == Net(trades)
    ensures Net(trades) > 0.0 ==> (LastFromZero(trades, i) <==> Fold(trades).entry == Some(i))
  {
    FoldIsHeight(trades);
    NeverOversoldHeight(trades, |trades|);
    assert trades[..|trades|] == trades;
    if Net(trades) > 0.0 {
      FoldFindsOpening(trades);
      var entry := Fold(trades).entry.value;
      SameOpening(trades, i);
      SameOpening(trades, entry);
      if LastFromZero(trades, i) { OpeningIsUnique(trades, i, entry); }
    }
  }

  lemma SameOpening(trades: seq<Trade>, i: nat)
    requires NeverOversold(trades)
    ensures LastFromZero(trades, i) <==> OpensAt(trades, i)
  {
    forall k | 0 <= k <= |trades| ensures Height(trades[..k]) == Net(trades[..k]) {
      NeverOversoldHeight(trades, k);
    }
  }

  /** A sale of more than is held is forgotten: the fold can show a position where the net is none. */
  lemma OversoldShowsShares(sell: Trade, buy: Trade)
    requires IsSell(sell) && !IsBuy(sell) && IsBuy(buy) && sell.quantity == buy.quantity == 5.0
    ensures Net([sell, buy]) == 0.0 && Fold([sell, buy]) == Cycle(5.0, Some(1))
  {
    assert [sell, buy][..1] == [sell] && [sell][..0] == [];
    assert Net([sell]) == -5.0 && Fold([sell]) == Cycle(0.0, None);
  }

  // ---------------------------------------------------------------------
  // infer_current_long_entry_date

  function EntryDate(trades: seq<Trade>): string {
    var c := Fold(trades);
    if c.entry.Some? && c.entry.value < |trades| then DateKey(trades[c.entry.value].date) else ""
  }

  /** Without an oversold prefix and while shares are held, it is the date of the BUY that last took the net
      position up from zero; and there is none when the fold holds nothing. */
  lemma EntryDateMeans(trades: seq<Trade>, i: nat)
    requires WholeTrades(trades) && NeverOversold(trades) && Net(trades) > 0.0 && LastFromZero(trades, i)
    ensures EntryDate(trades) == DateKey(trades[i].date)
  {
    EntryOfCurrentLong(trades, i);
  }

  /** The Flex part: the date of the current entry, or nothing. */
  method FlexEntry(trades: seq<Trade>) returns (entry: string)
    ensures entry == if Fold(trades).quantity > 0.000000001 then EntryDate(trades) else ""
  {
    var quantity, current := 0.0, "";
    for i := 0 to |trades|
      invariant Fold(trades[..i]).quantity == quantity && EntryDate(trades[..i]) == current
      invariant Fold(trades[..i]).entry.Some? ==> Fold(trades[..i]).entry.value < i
    {
      assert trades[..i + 1][..i] == trades[..i];
      assert forall j :: 0 <= j < i ==> trades[..i + 1][j] == trades[..i][j];
      var q := Abs(trades[i].quantity);
      if IsBuy(trades[i]) {
        if quantity <= TOLERANCE {
          current := DateKey(trades[i].date);
        }
        quantity := quantity + q;
      } else if IsSell(trades[i]) {
        quantity := quantity - q;
        if quantity <= TOLERANCE {
          quantity, current := 0.0, "";
        }
      }
    }
    assert trades[..|trades|] == trades;
    entry := if quantity > TOLERANCE then current else "";
  }

  /** When an order is evidence for the position: a submitted BUY of the symbol. */
  function SubmissionTime(order: Order, symbol: string): Option<string> {
    if CanonicalSymbol(order.symbol) == symbol && Upper(order.side) == "BUY" && order.submittedAt.Some?
      && order.submittedAt.value != ""
    then order.submittedAt else None
  }

  lemma SubmissionMeans(order: Order, symbol: string, at: string)
    ensures SubmissionTime(order, symbol) == Some(at) <==>
      CanonicalSymbol(order.symbol) == symbol && Upper(order.side) == "BUY" && order.submittedAt == Some(at) && at != ""
  {}

  function SubmissionTimes(orders: seq<Order>, symbol: string): (times: seq<Option<string>>)
    ensures |times| == |orders|
  {
    seq(|orders|, i requires 0 <= i < |orders| => SubmissionTime(orders[i], symbol))
  }

  /** Entry `i` is the first of the latest. */
  ghost predicate FirstLatest(times: seq<Option<string>>, i: nat, less: (string, string) -> bool) {
    && i < |times| && times[i].Some?
    && (forall j :: 0 <= j < |times| && times[j].Some? ==> !less(times[i].value, times[j].value))
    && (forall j :: 0 <= j < i && times[j].Some? ==> times[j] != times[i])
  }

  method FindLatest(times: seq<Option<string>>, less: (string, string) -> bool) returns (latest: Option<nat>)
    requires StrictTotal(less)
    ensures latest.Some? ==> FirstLatest(times, latest.value, less)
    ensures latest.None? ==> forall i :: 0 <= i < |times| ==> times[i].None?
  {
    latest := None;
    for i := 0 to |times|
      invariant latest.Some? ==> latest.value < i && FirstLatest(times[..i], latest.value, less)
      invariant latest.None? ==> forall j :: 0 <= j < i ==> times[j].None?
    {
      if times[i].Some? && (latest.None? || less(times[latest.value].value, times[i].value)) {
        latest := Some(i);
      }
    }
    assert times[..|times|] == times;
  }

  /** The trade date of the latest submission, or nothing when there is none. */
  ghost predicate IsFallback(entry: string, times: seq<Option<string>>, day: string -> string) {
    if forall i :: 0 <= i < |times| ==> times[i].None? then entry == ""
    else exists i: nat :: FirstLatest(times, i, Less) && entry == day(times[i].value)
  }

  /** infer_current_long_entry_date, on the symbol's Flex trades in order and the automated
      orders; `day` reads the trade date off a submission time. */
  method InferCurrentLongEntryDate(symbol: string, currentQuantity: real, trades: seq<Trade>, orders: seq<Order>,
                                   day: string -> string)
    returns (entry: string)
    ensures CanonicalSymbol(symbol) == "" || currentQuantity <= 0.0 ==> entry == ""
    ensures CanonicalSymbol(symbol) != "" && currentQuantity > 0.0 ==>
      if Fold(trades).quantity > 0.000000001 && EntryDate(trades) != "" then entry == EntryDate(trades)
      else IsFallback(entry, SubmissionTimes(orders, CanonicalSymbol(symbol)), day)
  {
    var canonical := CanonicalSymbol(symbol);
    if canonical == "" || currentQuantity <= 0.0 { return ""; }
    entry := FlexEntry(trades);
    if entry != "" { return; }
    LessIsStrictTotal();
    var times := SubmissionTimes(orders, canonical);
    var latest := FindLatest(times, Less);
    if latest.Some? {
      entry := day(times[latest.value].value);
    }
  }

  // ---------------------------------------------------------------------
  // holding_trading_days

  /** The distinct date keys among the sessions; unreadable dates have none. */
  function Keys(dates: seq<string>, key: string -> string): set<string> {
    set i | 0 <= i < |dates| && key(dates[i]) != "" :: key(dates[i])
  }

  function From(days: set<string>, entry: string, less: (string, string) -> bool): set<string> {
    set d | d in days && !less(d, entry)
  }

  function HoldingTradingDays(entryDate: string, dates: seq<string>): nat {
    var entry := DateKey(entryDate);
    if entry == "" then 0 else |From(Keys(dates, DateKey), entry, Less)|
  }

  lemma SameKeys(a: seq<string>, b: seq<string>, key: string -> string)
    requires forall d :: d in a <==> d in b
    ensures Keys(a, key) == Keys(b, key)
  {
    forall i | 0 <= i < |a| ensures exists j :: 0 <= j < |b| && b[j] == a[i] { assert a[i] in b; }
    forall i | 0 <= i < |b| ensures exists j :: 0 <= j < |a| && a[j] == b[i] { assert b[i] in a; }
  }

  /** The order of the sessions and their repetition do not matter. */
  lemma SessionsAreASet(entryDate: string, a: seq<string>, b: seq<string>)
    requires forall d :: d in a <==> d in b
    ensures HoldingTradingDays(entryDate, a) == HoldingTradingDays(entryDate, b)
    ensures DateKey(entryDate) == "" ==> HoldingTradingDays(entryDate, a) == 0
  {
    SameKeys(a, b, DateKey);
  }

  lemma KeysGrow(dates: seq<string>, later: string, key: string -> string)
    ensures Keys(dates + [later], key) == Keys(dates, key) + if key(later) != "" then {key(later)} else {}
  {
    var longer := dates + [later];
    assert longer[|dates|] == later && forall i :: 0 <= i < |dates| ==> longer[i] == dates[i];
  }

  lemma CountGrows(days: set<string>, day: string, entry: string, less: (string, string) -> bool)
    ensures |From(days + {day}, entry, less)| ==
      |From(days, entry, less)| + if day !in days && !less(day, entry) then 1 else 0
  {
    var (a, b) := (From(days, entry, less), From(days + {day}, entry, less));
    if day !in days && !less(day, entry) {
      assert b == a + {day} && day !in a;
    } else {
      assert b == a;
    }
  }

  /** One more session adds one day exactly when it is a date not counted yet, on or after the entry. */
  lemma OneMoreSession(entryDate: string, dates: seq<string>, later: string)
    requires DateKey(entryDate) != ""
    ensures HoldingTradingDays(entryDate, []) == 0
    ensures var (day, entry) := (DateKey(later), DateKey(entryDate));
      HoldingTradingDays(entryDate, dates + [later]) == HoldingTradingDays(entryDate, dates) +
        if day != "" && day !in Keys(dates, DateKey) && !Less(day, entry) then 1 else 0
  {
    KeysGrow(dates, later, DateKey);
    CountGrows(Keys(dates, DateKey), DateKey(later), DateKey(entryDate), Less);
    var days := Keys(dates, DateKey);
    assert days + {} == days;
    assert Keys([], DateKey) == {} && From({}, DateKey(entryDate), Less) == {};
  }
}

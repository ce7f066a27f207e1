/**
 The long-only guard of the manual console.  The broker lists its open orders,
 an order possibly several times; the guard adds up what the open SELL orders may
 still sell, and lets a new SELL through only for the shares that are left.
 */
module LongOnly {
  import opened Numbers
  import opened Sums
  import opened Wrappers

  datatype Contract = Contract(conId: int, symbol: string, secType: string, currency: string)

  datatype Side = Buy | Sell

  datatype Status =
    | ApiPending | PendingSubmit | PreSubmitted | Submitted
    | PendingCancel | Cancelled | ApiCancelled
    | Filled | Inactive
    | OtherStatus(text: string)

  /** One entry of the broker's list; an id of 0 is none, and a number the broker does not give is None. */
  datatype Trade = Trade(permId: int, orderId: int, contract: Contract, side: Side, orderType: string,
                         total: Option<real>, limitPrice: Option<real>, status: Status,
                         filled: Option<real>, remaining: Option<real>)

  datatype TradeKey =
    | PermId(id: int)
    | OrderId(id: int)
    | Fallback(conId: int, symbol: string, side: Side, orderType: string, total: Option<real>, limitPrice: Option<real>)

  /** _open_order_key. */
  function Key(t: Trade): TradeKey {
    if t.permId != 0 then PermId(t.permId)
    else if t.orderId != 0 then OrderId(t.orderId)
    else Fallback(t.contract.conId, t.contract.symbol, t.side, t.orderType, t.total, t.limitPrice)
  }

  predicate Final(s: Status) {
    s == Filled || s == Cancelled || s == ApiCancelled || s == Inactive
  }

  /** _is_terminal_or_not_open. */
  predicate NotOpen(t: Trade) {
    Final(t.status) || t.status == PendingCancel || t.remaining == Some(0.0)
  }

  /** _contract_matches. */
  predicate Matches(a: Contract, b: Contract) {
    if a.conId != 0 && b.conId != 0 then a.conId == b.conId
    else a.symbol == b.symbol && a.secType == b.secType && a.currency == b.currency
  }

  function NonNegative(x: real): real {
    if x > 0.0 then x else 0.0
  }

  function OrZero(x: Option<real>): real {
    if x.Some? then x.value else 0.0
  }

  /** What an order may still trade. */
  function Remaining(t: Trade): real {
    if t.remaining.Some? then NonNegative(t.remaining.value) else NonNegative(OrZero(t.total) - OrZero(t.filled))
  }

  /** When two entries count as one order: by permanent id, by order id when neither has one, and
      by contract, side, type, quantity and price when neither has either. */
  lemma KeyMeans(a: Trade, b: Trade)
    ensures a.permId != 0 || b.permId != 0 ==> (Key(a) == Key(b) <==> a.permId == b.permId)
    ensures a.permId == b.permId == 0 && (a.orderId != 0 || b.orderId != 0) ==>
      (Key(a) == Key(b) <==> a.orderId == b.orderId)
    ensures a.permId == b.permId == 0 && a.orderId == b.orderId == 0 ==>
      (Key(a) == Key(b) <==>
         (a.contract.conId == b.contract.conId && a.contract.symbol == b.contract.symbol && a.side == b.side
          && a.orderType == b.orderType && a.total == b.total && a.limitPrice == b.limitPrice))
  {}

  /** What closes an order: an end, a cancellation asked for, or nothing left. */
  lemma NotOpenMeans(t: Trade)
    ensures NotOpen(t) <==>
      t.status in {Filled, Cancelled, ApiCancelled, Inactive, PendingCancel} || t.remaining == Some(0.0)
  {}

  // ---------------------------------------------------------------------
  // Grouping the broker's list

  /** What the list says about one order: nothing, that it is not open, or its last entry. */
  datatype Group = Absent | Closed | Active(last: Trade)

  function GroupOf(trades: seq<Trade>, k: TradeKey): Group {
    if trades == [] then Absent
    else
      var t := trades[|trades| - 1];
      var before := GroupOf(trades[..|trades| - 1], k);
      if Key(t) != k then before
      else if before == Closed || NotOpen(t) then Closed
      else Active(t)
  }

  function Keys(trades: seq<Trade>): set<TradeKey> {
    set i | 0 <= i < |trades| :: Key(trades[i])
  }

  /** The orders that the list shows as open, each with its last entry. */
  function ActiveTrades(trades: seq<Trade>): map<TradeKey, Trade> {
    map k | k in Keys(trades) && GroupOf(trades, k).Active? :: GroupOf(trades, k).last
  }

  /** An order is open exactly if it is listed and none of its entries says otherwise; the last entry stands for it. */
  lemma {:induction false} GroupMeaning(trades: seq<Trade>, k: TradeKey)
    ensures GroupOf(trades, k).Absent? <==> forall i :: 0 <= i < |trades| ==> Key(trades[i]) != k
    ensures GroupOf(trades, k).Closed? <==> exists i :: 0 <= i < |trades| && Key(trades[i]) == k && NotOpen(trades[i])
    ensures GroupOf(trades, k).Active? ==>
      exists i :: 0 <= i < |trades| && Key(trades[i]) == k && trades[i] == GroupOf(trades, k).last &&
        forall j :: i < j < |trades| ==> Key(trades[j]) != k
  {
    if trades != [] {
      var n := |trades| - 1;
      var init := trades[..n];
      assert forall i :: 0 <= i < n ==> init[i] == trades[i];
      GroupMeaning(init, k);
    }
  }

  ghost predicate GroupsOf(grouped: map<TradeKey, seq<Trade>>, trades: seq<Trade>) {
    && grouped.Keys == Keys(trades)
    && forall k :: k in grouped ==> grouped[k] != [] && Summary(grouped[k]) == GroupOf(trades, k)
  }

  function Grouped(grouped: map<TradeKey, seq<Trade>>, t: Trade): map<TradeKey, seq<Trade>> {
    grouped[Key(t) := (if Key(t) in grouped then grouped[Key(t)] else []) + [t]]
  }

  lemma SummaryStep(group: seq<Trade>, t: Trade)
    ensures Summary(group + [t]) == if Summary(group) == Closed || NotOpen(t) then Closed else Active(t)
  {
    assert (group + [t])[..|group|] == group;
  }

  lemma GroupStep(trades: seq<Trade>, t: Trade, k: TradeKey)
    ensures GroupOf(trades + [t], k) ==
      if Key(t) != k then GroupOf(trades, k)
      else if GroupOf(trades, k) == Closed || NotOpen(t) then Closed
      else Active(t)
  {
    assert (trades + [t])[..|trades|] == trades;
  }

  lemma GroupsStepAt(grouped: map<TradeKey, seq<Trade>>, trades: seq<Trade>, t: Trade, k: TradeKey)
    requires GroupsOf(grouped, trades) && k in Grouped(grouped, t)
    ensures Grouped(grouped, t)[k] != [] && Summary(Grouped(grouped, t)[k]) == GroupOf(trades + [t], k)
  {
    GroupStep(trades, t, k);
    if k == Key(t) {
      if k in grouped {
        SummaryStep(grouped[k], t);
      } else {
        SummaryStep([], t);
        Unlisted(trades, k);
      }
    }
  }

  lemma GroupsStep(grouped: map<TradeKey, seq<Trade>>, trades: seq<Trade>, t: Trade)
    requires GroupsOf(grouped, trades)
    ensures GroupsOf(Grouped(grouped, t), trades + [t])
  {
    KeysGrow(trades, t);
    forall k | k in Grouped(grouped, t)
      ensures Grouped(grouped, t)[k] != [] && Summary(Grouped(grouped, t)[k]) == GroupOf(trades + [t], k)
    {
      GroupsStepAt(grouped, trades, t, k);
    }
  }

  method GroupTrades(trades: seq<Trade>) returns (grouped: map<TradeKey, seq<Trade>>)
    ensures GroupsOf(grouped, trades)
  {
    grouped := map[];
    ghost var seen := [];
    for i := 0 to |trades|
      invariant seen == trades[..i] && GroupsOf(grouped, seen)
    {
      GroupsStep(grouped, seen, trades[i]);
      seen := seen + [trades[i]];
      grouped := Grouped(grouped, trades[i]);
    }
    assert seen == trades;
  }

  /** _unique_active_open_trades: the dict of groups, then one entry for each open order. */
  method UniqueActiveOpenTrades(trades: seq<Trade>) returns (active: map<TradeKey, Trade>)
    ensures active == ActiveTrades(trades)
  {
    var grouped := GroupTrades(trades);
    active := map k | k in grouped && !AnyNotOpen(grouped[k]) :: grouped[k][|grouped[k]| - 1];
    forall k | k in grouped
      ensures AnyNotOpen(grouped[k]) <==> GroupOf(trades, k).Closed?
      ensures !AnyNotOpen(grouped[k]) ==> GroupOf(trades, k) == Active(grouped[k][|grouped[k]| - 1])
    {
      SummaryMeaning(grouped[k]);
    }
  }

  predicate AnyNotOpen(group: seq<Trade>) {
    exists i :: 0 <= i < |group| && NotOpen(group[i])
  }

  function Summary(group: seq<Trade>): Group {
    if group == [] then Absent
    else
      var t := group[|group| - 1];
      if Summary(group[..|group| - 1]) == Closed || NotOpen(t) then Closed else Active(t)
  }

  lemma {:induction false} SummaryMeaning(group: seq<Trade>)
    ensures Summary(group).Closed? <==> AnyNotOpen(group)
    ensures group != [] && !AnyNotOpen(group) ==> Summary(group) == Active(group[|group| - 1])
  {
    if group != [] {
      var n := |group| - 1;
      SummaryMeaning(group[..n]);
      assert forall i :: 0 <= i < n ==> group[..n][i] == group[i];
    }
  }

  lemma KeysGrow(trades: seq<Trade>, t: Trade)
    ensures Keys(trades + [t]) == Keys(trades) + {Key(t)}
  {
    assert (trades + [t])[|trades|] == t && forall i :: 0 <= i < |trades| ==> (trades + [t])[i] == trades[i];
  }

  lemma {:induction false} Unlisted(trades: seq<Trade>, k: TradeKey)
    requires k !in Keys(trades)
    ensures GroupOf(trades, k) == Absent
  {
    GroupMeaning(trades, k);
    assert forall i :: 0 <= i < |trades| ==> Key(trades[i]) in Keys(trades);
  }

  // ---------------------------------------------------------------------
  // What open SELL orders may still sell

  function SellAmount(t: Trade, contract: Contract): real {
    if t.side == Sell && Matches(t.contract, contract) && !Final(t.status) then Remaining(t) else 0.0
  }

  /** The contract of an order is that of another, by id when both have one. */
  ghost predicate SameContract(a: Contract, b: Contract) {
    && (a.conId != 0 && b.conId != 0 ==> a.conId == b.conId)
    && (a.conId == 0 || b.conId == 0 ==> a.symbol == b.symbol && a.secType == b.secType && a.currency == b.currency)
  }

  /** An unfinished SELL of the contract. */
  ghost predicate CanSell(t: Trade, contract: Contract) {
    t.side == Sell && SameContract(t.contract, contract) && t.status !in {Filled, Cancelled, ApiCancelled, Inactive}
  }

  /** What an order counts for: nothing unless it is an unfinished SELL of the contract, and then what
      remains of it, or as much as its quantity exceeds its fills when the broker gives no remainder. */
  lemma SellAmountMeans(t: Trade, contract: Contract)
    ensures !CanSell(t, contract) ==> SellAmount(t, contract) == 0.0
    ensures CanSell(t, contract) ==>
      var total := if t.total.Some? then t.total.value else 0.0;
      var filled := if t.filled.Some? then t.filled.value else 0.0;
      var left := if t.remaining.Some? then t.remaining.value else total - filled;
      SellAmount(t, contract) == if left > 0.0 then left else 0.0
  {}

  function SellPart(contract: Contract): Trade -> real {
    (t: Trade) => SellAmount(t, contract)
  }

  /** _open_sell_remaining, on what the broker lists. */
  method OpenSellRemaining(trades: seq<Trade>, contract: Contract) returns (remaining: real)
    ensures remaining == Sum(ActiveTrades(trades), SellPart(contract))
  {
    var active := UniqueActiveOpenTrades(trades);
    remaining := SumOf(active, SellPart(contract));
  }

  /** The broker's book holds each of its orders under the order's key.  A listing shows orders of
      the book as they are, and every open one at least once. */
  ghost predicate Shows(trades: seq<Trade>, book: map<TradeKey, Trade>) {
    && (forall i :: 0 <= i < |trades| ==> Key(trades[i]) in book && book[Key(trades[i])] == trades[i])
    && (forall k :: k in book && !NotOpen(book[k]) ==> k in Keys(trades))
  }

  /** What an open order may still sell. */
  function LiveAmount(t: Trade, contract: Contract): real {
    if NotOpen(t) then 0.0 else SellAmount(t, contract)
  }

  function LiveSell(contract: Contract): Trade -> real {
    (t: Trade) => LiveAmount(t, contract)
  }

  /** What the orders that count as open may still sell. */
  ghost function LiveRemaining(book: map<TradeKey, Trade>, contract: Contract): real {
    Sum(book, LiveSell(contract))
  }

  lemma ShownGroup(trades: seq<Trade>, book: map<TradeKey, Trade>, k: TradeKey)
    requires Shows(trades, book)
    ensures GroupOf(trades, k).Active? <==> k in book && !NotOpen(book[k])
    ensures GroupOf(trades, k).Active? ==> GroupOf(trades, k).last == book[k]
  {
    GroupMeaning(trades, k);
    if k in Keys(trades) {
      var i :| 0 <= i < |trades| && Key(trades[i]) == k;
      assert book[k] == trades[i];
    }
  }

  /** However often the broker repeats its orders, the guard finds exactly what the open SELL orders may still sell. */
  lemma OpenSellIsTrueSum(trades: seq<Trade>, book: map<TradeKey, Trade>, contract: Contract)
    requires Shows(trades, book)
    ensures Sum(ActiveTrades(trades), SellPart(contract)) == LiveRemaining(book, contract)
  {
    var active := ActiveTrades(trades);
    forall k ensures k in active <==> k in book && !NotOpen(book[k])
      ensures k in active ==> active[k] == book[k]
    {
      ShownGroup(trades, book, k);
      GroupMeaning(trades, k);
    }
    var open := map k | k in book && !NotOpen(book[k]) :: book[k];
    assert active == open;
    SumOfPart(book, open, LiveSell(contract));
    SumAgrees(open, LiveSell(contract), active, SellPart(contract));
  }

  // ---------------------------------------------------------------------
  // The guard

  datatype Refusal = QuantityNotPositive | NoLongPosition | ExceedsAvailable | SellAlreadyOpen

  predicate Permits(position: real, openSell: real, quantity: real) {
    quantity > 0.0 && position > 0.0 && quantity <= NonNegative(position - openSell)
  }

  /** validate_long_only_sell, at the broker's current position. */
  method ValidateLongOnlySell(trades: seq<Trade>, contract: Contract, position: real,
                              quantity: real) returns (refusal: Option<Refusal>)
    ensures refusal.None? <==> Permits(position, Sum(ActiveTrades(trades), SellPart(contract)), quantity)
    ensures var left := position - Sum(ActiveTrades(trades), SellPart(contract));
      && (refusal.None? <==> quantity > 0.0 && position > 0.0 && quantity <= left)
      && (refusal == Some(QuantityNotPositive) <==> quantity <= 0.0)
      && (refusal == Some(NoLongPosition) <==> quantity > 0.0 && position <= 0.0)
      && (refusal == Some(ExceedsAvailable) <==> quantity > 0.0 && position > 0.0 && quantity > left)
  {
    if quantity <= 0.0 { return Some(QuantityNotPositive); }
    if position <= 0.0 { return Some(NoLongPosition); }
    var openSell := OpenSellRemaining(trades, contract);
    if quantity > NonNegative(position - openSell) { return Some(ExceedsAvailable); }
    refusal := None;
  }

  /** liquidate_position: the quantity to sell, or why not. */
  method LiquidatePosition(trades: seq<Trade>, contract: Contract, position: real, stale: real)
    returns (quantity: real, refusal: Option<Refusal>)
    ensures var openSell := Sum(ActiveTrades(trades), SellPart(contract));
      && (refusal.None? <==> position > 0.0 && openSell <= 0.0 && stale != 0.0)
      && (refusal == Some(NoLongPosition) <==> position <= 0.0)
      && (refusal == Some(SellAlreadyOpen) <==> position > 0.0 && openSell > 0.0)
      && (refusal == Some(QuantityNotPositive) <==> position > 0.0 && openSell <= 0.0 && stale == 0.0)
    ensures refusal.None? ==>
      quantity <= position && quantity == (if Abs(stale) <= position then Abs(stale) else position)
  {
    quantity := 0.0;
    if position <= 0.0 { return quantity, Some(NoLongPosition); }
    var openSell := OpenSellRemaining(trades, contract);
    SellsAreNonNegative(trades, contract);
    if openSell > 0.0 { return quantity, Some(SellAlreadyOpen); }
    quantity := if Abs(stale) <= position then Abs(stale) else position;
    if quantity <= 0.0 { return quantity, Some(QuantityNotPositive); }
    refusal := ValidateLongOnlySell(trades, contract, position, quantity);
  }

  lemma SellsAreNonNegative(trades: seq<Trade>, contract: Contract)
    ensures Sum(ActiveTrades(trades), SellPart(contract)) >= 0.0
  {
    SumIsZero(ActiveTrades(trades), SellPart(contract));
  }

  // ---------------------------------------------------------------------
  // Any run at the broker

  /** How far the console is with a SELL: it reads the position, then the listing, then places. */
  datatype Check =
    | Idle
    | HasPosition(position: real)
    | HasListing(position: real, openSell: real)

  /** The net position in a stock, the broker's orders, and the console's check. */
  datatype World = World(position: real, book: map<TradeKey, Trade>, check: Check)

  datatype Event =
    | Bought(quantity: real)
    | ReadPosition
    | ReadListing(listing: seq<Trade>)
    | PlaceSell(order: Trade)
    | Executed(key: TradeKey, quantity: real)
    | Moved(key: TradeKey, status: Status)

  predicate Stock(order: Trade, contract: Contract) {
    order.side == Sell && Matches(order.contract, contract)
  }

  /** A partial or complete fill of an order. */
  function AfterFill(order: Trade, quantity: real): Trade {
    var filled := Some(OrZero(order.filled) + quantity);
    var remaining := if order.remaining.Some? then Some(order.remaining.value - quantity) else None;
    order.(filled := filled, remaining := remaining,
           status := if Remaining(order) == quantity then Filled else order.status)
  }

  /** What may happen, in any order and between any two steps of the console.  Each read shows
      the broker as it is then.  A SELL goes out only past the guard, on what was read, and gets
      a key of its own.  The broker fills only open orders, and never beyond what remains.  A
      status may change otherwise (a cancellation asked for or granted, a rejection), but an
      order that is not open does not come back. */
  ghost predicate CanHappen(w: World, e: Event, contract: Contract) {
    match e
    case Bought(quantity) => quantity > 0.0
    case ReadPosition => true
    case ReadListing(listing) => w.check.HasPosition? && Shows(listing, w.book)
    case PlaceSell(order) =>
      && w.check.HasListing? && Key(order) !in w.book && Stock(order, contract)
      && Remaining(order) == OrZero(order.total)
      && Permits(w.check.position, w.check.openSell, OrZero(order.total))
    case Executed(key, quantity) =>
      && key in w.book && Stock(w.book[key], contract) && !NotOpen(w.book[key])
      && 0.0 < quantity <= Remaining(w.book[key])
    case Moved(key, status) =>
      key in w.book && (NotOpen(w.book[key]) ==> NotOpen(w.book[key].(status := status)))
  }

  ghost function After(w: World, e: Event, contract: Contract): World {
    match e
    case Bought(quantity) => w.(position := w.position + quantity)
    case ReadPosition => w.(check := HasPosition(w.position))
    case ReadListing(listing) =>
      if w.check.HasPosition?
      then w.(check := HasListing(w.check.position, Sum(ActiveTrades(listing), SellPart(contract))))
      else w
    case PlaceSell(order) => w.(book := w.book[Key(order) := order], check := Idle)
    case Executed(key, quantity) =>
      if key in w.book
      then w.(position := w.position - quantity, book := w.book[key := AfterFill(w.book[key], quantity)])
      else w
    case Moved(key, status) =>
      if key in w.book then w.(book := w.book[key := w.book[key].(status := status)]) else w
  }

  /** What the broker does by itself: a fill takes its shares from the position and from the order, which is
      not open any more once nothing remains; a status changes the status. */
  lemma BrokerMoves(w: World, key: TradeKey, quantity: real, status: Status, contract: Contract)
    requires key in w.book && 0.0 < quantity <= Remaining(w.book[key])
    ensures var (order, filled) := (w.book[key], After(w, Executed(key, quantity), contract));
      && filled.position == w.position - quantity && filled.book.Keys == w.book.Keys
      && Remaining(filled.book[key]) == Remaining(order) - quantity
      && (quantity == Remaining(order) ==> filled.book[key].status == Filled)
      && (quantity < Remaining(order) ==> filled.book[key].status == order.status)
    ensures After(w, Moved(key, status), contract) == w.(book := w.book[key := w.book[key].(status := status)])
    ensures After(w, Bought(quantity), contract) == w.(position := w.position + quantity)
  {}

  /** Shares not yet spoken for by an open SELL. */
  ghost function Available(w: World, contract: Contract): real {
    w.position - LiveRemaining(w.book, contract)
  }

  lemma LiveSellOf(t: Trade, contract: Contract)
    ensures LiveSell(contract)(t) == if NotOpen(t) then 0.0 else SellAmount(t, contract)
    ensures LiveSell(contract)(t) >= 0.0
  {}

  lemma FillTakesRemaining(order: Trade, quantity: real, contract: Contract)
    requires Stock(order, contract) && !NotOpen(order) && 0.0 < quantity <= Remaining(order)
    ensures LiveSell(contract)(AfterFill(order, quantity)) == LiveSell(contract)(order) - quantity
  {
    LiveSellOf(order, contract);
    LiveSellOf(AfterFill(order, quantity), contract);
  }

  lemma MovedKeepsOrDrops(order: Trade, status: Status, contract: Contract)
    requires NotOpen(order) ==> NotOpen(order.(status := status))
    ensures LiveSell(contract)(order.(status := status)) <= LiveSell(contract)(order)
  {
    LiveSellOf(order, contract);
    LiveSellOf(order.(status := status), contract);
  }

  /** Only a SELL takes from the available shares, and it takes its quantity; so what the
      listing left available is still there when fills or cancellations come before the placing. */
  lemma AvailableAfter(w: World, e: Event, contract: Contract)
    requires CanHappen(w, e, contract)
    ensures e.PlaceSell? ==>
      Available(After(w, e, contract), contract) >= Available(w, contract) - OrZero(e.order.total)
    ensures e.Executed? || e.ReadPosition? || e.ReadListing? ==>
      Available(After(w, e, contract), contract) == Available(w, contract)
    ensures e.Bought? || e.Moved? ==> Available(After(w, e, contract), contract) >= Available(w, contract)
  {
    match e
    case Bought(_) =>
    case ReadPosition =>
    case ReadListing(_) =>
    case PlaceSell(order) => SumInsert(w.book, Key(order), order, LiveSell(contract));
    case Executed(key, quantity) =>
      FillTakesRemaining(w.book[key], quantity, contract);
      SumUpdate(w.book, key, AfterFill(w.book[key], quantity), LiveSell(contract));
    case Moved(key, status) =>
      MovedKeepsOrDrops(w.book[key], status, contract);
      SumUpdate(w.book, key, w.book[key].(status := status), LiveSell(contract));
  }

  ghost predicate Covered(w: World, contract: Contract) {
    w.position >= LiveRemaining(w.book, contract) >= 0.0
  }

  lemma {:induction false} LiveIsNonNegative(book: map<TradeKey, Trade>, contract: Contract)
    ensures LiveRemaining(book, contract) >= 0.0
    decreases |book|
  {
    if book != map[] {
      assert book.Keys != {};
      var k :| k in book;
      SumSplit(book, k, LiveSell(contract));
      LiveSellOf(book[k], contract);
      LiveIsNonNegative(book - {k}, contract);
    }
  }

  // ---------------------------------------------------------------------
  // The gap between the two reads

  /** The position read is not above the position at the listing, or too small to sell anything. */
  predicate InStep(read: real, position: real, live: real) {
    read <= position || read <= live
  }

  /** What the guard permits on the position it read is covered at the time of the listing,
      whatever the quantity, exactly when the two reads are in step. */
  lemma GuardIsSafeIffInStep(read: real, position: real, live: real)
    requires position >= live >= 0.0
    ensures (forall quantity :: Permits(read, live, quantity) ==> Permits(position, live, quantity))
      <==> InStep(read, position, live)
  {
    if !InStep(read, position, live) {
      assert Permits(read, live, read - live) && !Permits(position, live, read - live);
    }
  }

  /** The listing is taken while the position read before is in step with it. */
  ghost predicate ReadsInStep(w: World, e: Event, contract: Contract) {
    e.ReadListing? && w.check.HasPosition? ==>
      InStep(w.check.position, w.position, LiveRemaining(w.book, contract))
  }

  /** What the check would permit is available. */
  ghost predicate CheckFits(w: World, contract: Contract) {
    w.check.HasListing? ==> forall quantity ::
      Permits(w.check.position, w.check.openSell, quantity) ==> quantity <= Available(w, contract)
  }

  lemma CheckStillFits(w: World, e: Event, contract: Contract)
    requires Covered(w, contract) && CheckFits(w, contract) && CanHappen(w, e, contract) && ReadsInStep(w, e, contract)
    ensures CheckFits(After(w, e, contract), contract)
  {
    AvailableAfter(w, e, contract);
    if e.ReadListing? {
      OpenSellIsTrueSum(e.listing, w.book, contract);
      GuardIsSafeIffInStep(w.check.position, w.position, LiveRemaining(w.book, contract));
    }
  }

  lemma StaysCovered(w: World, e: Event, contract: Contract)
    requires Covered(w, contract) && CheckFits(w, contract) && CanHappen(w, e, contract)
    ensures Covered(After(w, e, contract), contract)
  {
    AvailableAfter(w, e, contract);
    LiveIsNonNegative(After(w, e, contract).book, contract);
  }

  ghost predicate Possible(w: World, events: seq<Event>, contract: Contract) {
    events == [] ||
    var (init, e) := (events[..|events| - 1], events[|events| - 1]);
    Possible(w, init, contract) && CanHappen(Run(w, init, contract), e, contract)
  }

  /** In every check of the run the two reads are in step. */
  ghost predicate AllInStep(w: World, events: seq<Event>, contract: Contract) {
    events == [] ||
    var (init, e) := (events[..|events| - 1], events[|events| - 1]);
    AllInStep(w, init, contract) && ReadsInStep(Run(w, init, contract), e, contract)
  }

  ghost function Run(w: World, events: seq<Event>, contract: Contract): World {
    if events == [] then w else After(Run(w, events[..|events| - 1], contract), events[|events| - 1], contract)
  }

  /** Over any run of guarded SELLs, partial fills, cancellations and purchases whose reads are in
      step, the position covers what the open SELL orders may still sell, and never becomes short. */
  lemma {:induction false} NeverShort(w: World, events: seq<Event>, contract: Contract)
    requires Covered(w, contract) && CheckFits(w, contract)
    requires Possible(w, events, contract) && AllInStep(w, events, contract)
    ensures Covered(Run(w, events, contract), contract) && CheckFits(Run(w, events, contract), contract)
    ensures Run(w, events, contract).position >= 0.0
  {
    if events != [] {
      var n := |events| - 1;
      NeverShort(w, events[..n], contract);
      CheckStillFits(Run(w, events[..n], contract), events[n], contract);
      StaysCovered(Run(w, events[..n], contract), events[n], contract);
    }
  }

  /** The guard refuses no more than it must: read and listed at one moment, a SELL of any shares
      that are available goes out. */
  lemma AvailableCanBeSold(w: World, listing: seq<Trade>, order: Trade, contract: Contract)
    requires Shows(listing, w.book) && Key(order) !in w.book && Stock(order, contract)
    requires 0.0 < OrZero(order.total) == Remaining(order) <= Available(w, contract)
    ensures var listed := After(After(w, ReadPosition, contract), ReadListing(listing), contract);
      CanHappen(listed, PlaceSell(order), contract)
  {
    OpenSellIsTrueSum(listing, w.book, contract);
    LiveIsNonNegative(w.book, contract);
  }

  /** Out of step, the guard lets a SELL of `read - live` shares through, and placing it right
      after the listing leaves the open SELLs uncovered. */
  lemma OutOfStepUncovers(w: World, listing: seq<Trade>, order: Trade, contract: Contract)
    requires Covered(w, contract) && w.check.HasPosition? && CanHappen(w, ReadListing(listing), contract)
    requires !ReadsInStep(w, ReadListing(listing), contract)
    requires Key(order) !in w.book && Stock(order, contract) && !NotOpen(order)
    requires Remaining(order) == OrZero(order.total) == w.check.position - LiveRemaining(w.book, contract)
    ensures var listed := After(w, ReadListing(listing), contract);
      && CanHappen(listed, PlaceSell(order), contract)
      && !Covered(After(listed, PlaceSell(order), contract), contract)
  {
    OpenSellIsTrueSum(listing, w.book, contract);
    SumInsert(w.book, Key(order), order, LiveSell(contract));
    LiveSellOf(order, contract);
  }

  /** So a SELL that fills between the two reads can make the position short: ten shares and an
      open SELL of them; the position is read, the SELL fills, and the listing no longer shows it;
      ten more are let through, and they fill as well. */
  lemma FillBetweenReadsGoesShort(order: Trade, again: Trade, contract: Contract)
    requires Stock(order, contract) && order.status == Submitted && order.remaining == Some(10.0)
    requires Stock(again, contract) && again.status == Submitted && again.total == Some(10.0)
    requires again.remaining == Some(10.0)
    requires Key(again) != Key(order)
    ensures var w := World(10.0, map[Key(order) := order], Idle);
      var events :=
        [ReadPosition, Executed(Key(order), 10.0), ReadListing([]), PlaceSell(again), Executed(Key(again), 10.0)];
      && Covered(w, contract) && Possible(w, events, contract)
      && Run(w, events, contract).position == -10.0
  {
    var w0 := World(10.0, map[Key(order) := order], Idle);
    var (a, b, c, d, e) :=
      (ReadPosition, Executed(Key(order), 10.0), ReadListing([]), PlaceSell(again), Executed(Key(again), 10.0));
    var filled := AfterFill(order, 10.0);
    OneInBook(order, contract);
    OneInBook(filled, contract);
    var w2 := World(0.0, map[Key(order) := filled], HasPosition(10.0));
    assert After(After(w0, a, contract), b, contract) == w2;
    assert Keys([]) == {} && Shows([], w2.book);
    OpenSellIsTrueSum([], w2.book, contract);
    var w3 := w2.(check := HasListing(10.0, 0.0));
    var w4 := World(0.0, map[Key(order) := filled, Key(again) := again], Idle);
    assert After(w2, c, contract) == w3 && After(w3, d, contract) == w4;
    assert After(w4, e, contract).position == -10.0;
    RunOfFive(w0, a, b, c, d, e, contract);
  }

  lemma OneInBook(order: Trade, contract: Contract)
    requires Stock(order, contract)
    ensures LiveRemaining(map[Key(order) := order], contract) == if NotOpen(order) then 0.0 else Remaining(order)
  {
    var book := map[Key(order) := order];
    SumSplit(book, Key(order), LiveSell(contract));
    assert book - {Key(order)} == map[];
    LiveSellOf(order, contract);
  }

  lemma OneMore(w: World, events: seq<Event>, e: Event, contract: Contract)
    ensures Run(w, events + [e], contract) == After(Run(w, events, contract), e, contract)
    ensures Possible(w, events + [e], contract) <==>
      Possible(w, events, contract) && CanHappen(Run(w, events, contract), e, contract)
  {
    assert (events + [e])[..|events|] == events;
  }

  lemma RunOfFive(w: World, a: Event, b: Event, c: Event, d: Event, e: Event, contract: Contract)
    ensures var (w1, w2) := (After(w, a, contract), After(After(w, a, contract), b, contract));
      var (w3, w4) := (After(w2, c, contract), After(After(w2, c, contract), d, contract));
      && Run(w, [a, b, c, d, e], contract) == After(w4, e, contract)
      && (Possible(w, [a, b, c, d, e], contract) <==>
        && CanHappen(w, a, contract) && CanHappen(w1, b, contract) && CanHappen(w2, c, contract)
        && CanHappen(w3, d, contract) && CanHappen(w4, e, contract))
  {
    OneMore(w, [], a, contract);
    OneMore(w, [] + [a], b, contract);
    OneMore(w, [] + [a] + [b], c, contract);
    OneMore(w, [] + [a] + [b] + [c], d, contract);
    OneMore(w, [] + [a] + [b] + [c] + [d], e, contract);
    assert [a, b, c, d, e] == [] + [a] + [b] + [c] + [d] + [e];
  }

  // ---------------------------------------------------------------------
  // What the premises are for

  /** The guard leaves out an order whose cancellation is asked for but not granted: what it
      finds is all that unfinished SELL orders could still sell exactly when no such order
      has anything left. */
  lemma GuardIsExactIffNothingPendsCancel(book: map<TradeKey, Trade>, contract: Contract)
    ensures LiveRemaining(book, contract) <= Sum(book, SellPart(contract))
    ensures LiveRemaining(book, contract) == Sum(book, SellPart(contract)) <==>
      forall k :: k in book && Stock(book[k], contract) && book[k].status == PendingCancel ==> Remaining(book[k]) == 0.0
  {
    var (f, g) := (LiveSell(contract), SellPart(contract));
    forall k | k in book
      ensures f(book[k]) <= g(book[k])
      ensures f(book[k]) == g(book[k]) <==>
        (Stock(book[k], contract) && book[k].status == PendingCancel ==> Remaining(book[k]) == 0.0)
    {
      LiveSellOf(book[k], contract);
    }
    SumCompares(book, f, g);
  }

  /** Such an order can make the position short: while its cancellation is pending, the guard
      lets the whole position be sold again, and then both orders fill. */
  lemma FillAfterPendingCancelGoesShort(order: Trade, again: Trade, contract: Contract)
    requires Stock(order, contract) && order.status == Submitted && order.remaining == Some(10.0)
    requires Stock(again, contract) && again.total == Some(10.0) && again.remaining == Some(10.0)
    requires Key(again) != Key(order)
    ensures var asked := order.(status := PendingCancel);
      var w := World(10.0, map[Key(order) := asked], HasPosition(10.0));
      var listed := After(w, ReadListing([asked]), contract);
      && CanHappen(w, ReadListing([asked]), contract) && ReadsInStep(w, ReadListing([asked]), contract)
      && CanHappen(listed, PlaceSell(again), contract)
      && After(listed, PlaceSell(again), contract).position - Remaining(asked) - Remaining(again) == -10.0
  {
    var asked := order.(status := PendingCancel);
    var (listing, book) := ([asked], map[Key(order) := asked]);
    assert Key(asked) == Key(order);
    assert listing[0] == asked && Keys(listing) == {Key(order)};
    assert Shows(listing, book);
    OpenSellIsTrueSum(listing, book, contract);
    OneInBook(asked, contract);
  }

  // A listing of distinct orders, some of which share a key, as orders without a permanent
  // id can.

  function Listed(trades: seq<Trade>): map<int, Trade> {
    map i | 0 <= i < |trades| :: trades[i]
  }

  /** What all listed orders may still sell, each entry an order of its own. */
  ghost function TrueRemaining(trades: seq<Trade>, contract: Contract): real {
    Sum(Listed(trades), LiveSell(contract))
  }

  /** Entry `i` stands for its key: no entry with the key is closed, and it is the last of them. */
  ghost predicate Visible(trades: seq<Trade>, i: int) {
    && 0 <= i < |trades| && GroupOf(trades, Key(trades[i])).Active?
    && forall j :: i < j < |trades| ==> Key(trades[j]) != Key(trades[i])
  }

  lemma VisibleStandsForKey(trades: seq<Trade>, i: int)
    requires Visible(trades, i)
    ensures Key(trades[i]) in ActiveTrades(trades) && ActiveTrades(trades)[Key(trades[i])] == trades[i]
    ensures !NotOpen(trades[i])
  {
    GroupMeaning(trades, Key(trades[i]));
  }

  lemma KeyHasVisible(trades: seq<Trade>, k: TradeKey)
    requires k in ActiveTrades(trades)
    ensures exists i :: Visible(trades, i) && Key(trades[i]) == k
  {
    GroupMeaning(trades, k);
    var i :| 0 <= i < |trades| && Key(trades[i]) == k && forall j :: i < j < |trades| ==> Key(trades[j]) != k;
    assert Visible(trades, i);
  }

  ghost function VisibleOf(trades: seq<Trade>): set<int> {
    set i | 0 <= i < |trades| && Visible(trades, i)
  }

  ghost function Shown(trades: seq<Trade>): map<int, Trade> {
    map i | i in Listed(trades) && i in VisibleOf(trades) :: Listed(trades)[i]
  }

  /** The guard's sum is that of the visible entries. */
  lemma GuardSeesTheVisible(trades: seq<Trade>, contract: Contract)
    ensures Sum(Shown(trades), LiveSell(contract)) == Sum(ActiveTrades(trades), SellPart(contract))
  {
    var (shown, active) := (Shown(trades), ActiveTrades(trades));
    var rename := (i: int) => if 0 <= i < |trades| then Key(trades[i]) else PermId(0);
    forall i | i in shown
      ensures rename(i) in active && LiveSell(contract)(shown[i]) == SellPart(contract)(active[rename(i)])
    {
      VisibleStandsForKey(trades, i);
    }
    forall k | k in active ensures exists i :: i in shown && rename(i) == k {
      KeyHasVisible(trades, k);
      var i :| Visible(trades, i) && Key(trades[i]) == k;
      assert i in shown;
    }
    SumRenamed(shown, active, LiveSell(contract), SellPart(contract), rename);
  }

  /** For any listing of distinct orders the guard finds no more than what they may still sell, and
      all of it exactly when every order hidden behind its key has nothing left to sell. */
  lemma GuardIsExactIffNothingIsHidden(trades: seq<Trade>, contract: Contract)
    ensures Sum(ActiveTrades(trades), SellPart(contract)) <= TrueRemaining(trades, contract)
    ensures Sum(ActiveTrades(trades), SellPart(contract)) == TrueRemaining(trades, contract) <==>
      forall i :: 0 <= i < |trades| && !Visible(trades, i) ==> LiveAmount(trades[i], contract) == 0.0
  {
    var (listed, visible) := (Listed(trades), VisibleOf(trades));
    SumParts(listed, visible, LiveSell(contract));
    GuardSeesTheVisible(trades, contract);
    var hidden := listed - visible;
    forall i | i in hidden ensures LiveSell(contract)(hidden[i]) == LiveAmount(trades[i], contract) >= 0.0 {
      LiveSellOf(trades[i], contract);
    }
    SumIsZero(hidden, LiveSell(contract));
  }

  /** Two orders listed under one key, as orders without a permanent id can be: the guard sees the last one at most. */
  lemma SharedKeyHidesAnOrder(a: Trade, b: Trade, contract: Contract)
    requires Key(a) == Key(b) && !NotOpen(b)
    ensures Sum(ActiveTrades([a, b]), SellPart(contract)) == if NotOpen(a) then 0.0 else SellAmount(b, contract)
  {
    var trades := [a, b];
    assert trades[..1] == [a] && [a][..0] == [];
    assert GroupOf([a], Key(a)) == if NotOpen(a) then Closed else Active(a);
    assert GroupOf(trades, Key(b)) == if NotOpen(a) then Closed else Active(b);
    assert trades[0] == a && trades[1] == b && Keys(trades) == {Key(b)};
    var active := ActiveTrades(trades);
    if NotOpen(a) {
      assert active == map[];
    } else {
      assert active == map[Key(b) := b];
      SumSplit(active, Key(b), SellPart(contract));
      assert active - {Key(b)} == map[];
    }
  }
}

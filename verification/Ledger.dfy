/**
 The execution ledger.  Fills are known from two sources: rows of the broker's
 Flex reports, and notices observed over its API.  Both tables are keyed, and
 realised P&L takes each execution from one of them.
 */
module Ledger {
  import opened Lists
  import opened Numbers
  import opened Sums
  import opened Text
  import opened Wrappers

  datatype FlexRow = FlexRow(sourceKey: string, execId: string, orderId: string, tradeDate: string, dateTime: string,
                             symbol: string, side: string, quantity: real, price: real, commission: real, pnl: real)

  /** A row of execution_notifications without its key. */
  datatype Notice = Notice(firstSource: string, symbol: string, side: string, quantity: real, price: real, time: string,
                           orderId: string, observedAt: string, confirmed: bool, notified: bool,
                           commission: Option<real>, commissionCurrency: string, pnl: Option<real>)

  datatype Fill = Fill(execId: string, source: string, symbol: string, side: string, quantity: real, price: real,
                       time: string, orderId: string)

  // ---------------------------------------------------------------------
  // Importing Flex rows

  /** INSERT OR IGNORE on the source key, row by row. */
  function Imported(flex: map<string, FlexRow>, rows: seq<FlexRow>): map<string, FlexRow> {
    if rows == [] then flex
    else
      var before := Imported(flex, rows[..|rows| - 1]);
      var row := rows[|rows| - 1];
      if row.sourceKey in before then before else before[row.sourceKey := row]
  }

  predicate HasSource(rows: seq<FlexRow>, key: string) {
    exists i :: 0 <= i < |rows| && rows[i].sourceKey == key
  }

  predicate IsFirst(rows: seq<FlexRow>, i: int) {
    0 <= i < |rows| && forall j :: 0 <= j < i ==> rows[j].sourceKey != rows[i].sourceKey
  }

  /** What is in the table stays; of the new rows with one key the first is taken, and no other. */
  lemma {:induction false} FirstRowWins(flex: map<string, FlexRow>, rows: seq<FlexRow>, key: string)
    ensures key in Imported(flex, rows) <==> key in flex || HasSource(rows, key)
    ensures key in flex ==> Imported(flex, rows)[key] == flex[key]
    ensures key !in flex && HasSource(rows, key) ==>
      exists i :: IsFirst(rows, i) && rows[i].sourceKey == key && Imported(flex, rows)[key] == rows[i]
  {
    if rows != [] {
      var n := |rows| - 1;
      var init := rows[..n];
      assert forall i :: 0 <= i < n ==> init[i] == rows[i];
      FirstRowWins(flex, init, key);
      if key !in flex && HasSource(init, key) {
        var i :| IsFirst(init, i) && init[i].sourceKey == key && Imported(flex, init)[key] == init[i];
        assert IsFirst(rows, i) && rows[i].sourceKey == key;
      } else if key !in flex && rows[n].sourceKey == key {
        assert IsFirst(rows, n);
      }
    }
  }

  /** Importing rows that are all known by key already changes nothing. */
  lemma {:induction false} ImportAgain(flex: map<string, FlexRow>, rows: seq<FlexRow>)
    requires forall i :: 0 <= i < |rows| ==> rows[i].sourceKey in flex
    ensures Imported(flex, rows) == flex
  {
    if rows != [] {
      ImportAgain(flex, rows[..|rows| - 1]);
    }
  }

  /** Importing a report twice is importing it once. */
  lemma ImportIsIdempotent(flex: map<string, FlexRow>, rows: seq<FlexRow>)
    ensures Imported(Imported(flex, rows), rows) == Imported(flex, rows)
  {
    forall i | 0 <= i < |rows| ensures rows[i].sourceKey in Imported(flex, rows) {
      FirstRowWins(flex, rows, rows[i].sourceKey);
    }
    ImportAgain(Imported(flex, rows), rows);
  }

  // ---------------------------------------------------------------------
  // Observing fills

  function NewNotice(fill: Fill, now: string): Notice {
    Notice(fill.source, fill.symbol, fill.side, fill.quantity, fill.price, fill.time, "", now, false, false, None, "",
           None)
  }

  function Renewed(n: Notice, fill: Fill): Notice {
    n.(symbol := if fill.symbol != "" then fill.symbol else n.symbol,
       side := if fill.side != "" then fill.side else n.side,
       quantity := if fill.quantity > 0.0 then fill.quantity else n.quantity,
       price := if fill.price > 0.0 then fill.price else n.price,
       time := if fill.time != "" then fill.time else n.time,
       orderId := if fill.orderId != "" then fill.orderId else n.orderId,
       confirmed := n.confirmed || Upper(fill.source) == "FLEX")
  }

  function Id(fill: Fill): string {
    Strip(fill.execId)
  }

  function Observed(notices: map<string, Notice>, fill: Fill, now: string): map<string, Notice> {
    if Id(fill) == "" then notices
    else notices[Id(fill) := Renewed(if Id(fill) in notices then notices[Id(fill)] else NewNotice(fill, now), fill)]
  }

  /** The notice of a fill: what the report gives, else what was known; a Flex report confirms it for
      good, and nothing of its first sighting, its accounting or its notification is touched. */
  ghost predicate Notes(n: Notice, was: Option<Notice>, fill: Fill, now: string) {
    && n.symbol == (if fill.symbol == "" && was.Some? then was.value.symbol else fill.symbol)
    && n.side == (if fill.side == "" && was.Some? then was.value.side else fill.side)
    && n.quantity == (if fill.quantity <= 0.0 && was.Some? then was.value.quantity else fill.quantity)
    && n.price == (if fill.price <= 0.0 && was.Some? then was.value.price else fill.price)
    && n.time == (if fill.time == "" && was.Some? then was.value.time else fill.time)
    && n.orderId == (if fill.orderId == "" && was.Some? then was.value.orderId else fill.orderId)
    && n.firstSource == (if was.Some? then was.value.firstSource else fill.source)
    && n.observedAt == (if was.Some? then was.value.observedAt else now)
    && (n.confirmed <==> Upper(fill.source) == "FLEX" || (was.Some? && was.value.confirmed))
    && (n.notified <==> was.Some? && was.value.notified)
    && n.pnl == (if was.Some? then was.value.pnl else None)
    && n.commission == (if was.Some? then was.value.commission else None)
  }

  lemma ObservedMeans(notices: map<string, Notice>, fill: Fill, now: string, id: string)
    ensures var (after, here) := (Observed(notices, fill, now), id != "" && id == Strip(fill.execId));
      && (id in after <==> id in notices || here)
      && (!here && id in notices ==> after[id] == notices[id])
      && (here ==> Notes(after[id], if id in notices then Some(notices[id]) else None, fill, now))
  {}

  /** Polling the same fill again, at any later time, changes nothing. */
  lemma ObserveIsIdempotent(notices: map<string, Notice>, fill: Fill, now: string, later: string)
    ensures Observed(Observed(notices, fill, now), fill, later) == Observed(notices, fill, now)
  {
    if Id(fill) != "" {
      var once := Observed(notices, fill, now);
      assert Renewed(once[Id(fill)], fill) == once[Id(fill)];
    }
  }

  lemma ObserveCommutes(notices: map<string, Notice>, a: Fill, b: Fill, nowA: string, nowB: string)
    requires Id(a) != Id(b)
    ensures Observed(Observed(notices, a, nowA), b, nowB) == Observed(Observed(notices, b, nowB), a, nowA)
  {}

  datatype Sighting = Sighting(fill: Fill, now: string)

  function ObservedAll(notices: map<string, Notice>, sightings: seq<Sighting>): map<string, Notice> {
    if sightings == [] then notices
    else
      var last := sightings[|sightings| - 1];
      Observed(ObservedAll(notices, sightings[..|sightings| - 1]), last.fill, last.now)
  }

  predicate Seen(sightings: seq<Sighting>, id: string) {
    id != "" && exists i :: 0 <= i < |sightings| && Id(sightings[i].fill) == id
  }

  /** What the reports of an execution agree on: the shares it moved, and the broker order it belongs
      to.  A report may leave the order out, as Flex does, and may differ in everything else. */
  predicate Fits(fill: Fill, quantity: string -> real, order: string -> string) {
    fill.quantity == quantity(Id(fill)) && (fill.orderId == "" || fill.orderId == order(Id(fill)))
  }

  ghost predicate Agree(sightings: seq<Sighting>, quantity: string -> real, order: string -> string) {
    forall i :: 0 <= i < |sightings| && Id(sightings[i].fill) != "" ==> Fits(sightings[i].fill, quantity, order)
  }

  /** Some report of the execution names its order. */
  predicate SeenWithOrder(sightings: seq<Sighting>, id: string) {
    id != "" && exists i :: 0 <= i < |sightings| && Id(sightings[i].fill) == id && sightings[i].fill.orderId != ""
  }

  /** The part of a notice that an order's quantity is made of. */
  datatype Share = Share(quantity: real, orderId: string)

  function ShareAt(notices: map<string, Notice>, id: string): Option<Share> {
    if id in notices then Some(Share(notices[id].quantity, notices[id].orderId)) else None
  }

  function Shared(share: Option<Share>, quantity: real, orderId: string): Share {
    Share(if share.None? || quantity > 0.0 then quantity else share.value.quantity,
          if orderId != "" then orderId else if share.Some? then share.value.orderId else "")
  }

  lemma ObserveStep(notices: map<string, Notice>, fill: Fill, now: string, id: string)
    ensures ShareAt(Observed(notices, fill, now), id) ==
      if Id(fill) == id && id != "" then Some(Shared(ShareAt(notices, id), fill.quantity, fill.orderId))
      else ShareAt(notices, id)
  {}

  lemma SeenStep(sightings: seq<Sighting>, id: string)
    requires sightings != []
    ensures var n := |sightings| - 1;
      var here := id != "" && Id(sightings[n].fill) == id;
      && (Seen(sightings, id) <==> Seen(sightings[..n], id) || here)
      && (SeenWithOrder(sightings, id) <==>
            SeenWithOrder(sightings[..n], id) || (here && sightings[n].fill.orderId != ""))
      && (SeenWithOrder(sightings, id) ==> Seen(sightings, id))
  {
    var n := |sightings| - 1;
    assert forall i :: 0 <= i < n ==> sightings[..n][i] == sightings[i];
  }

  /** What sightings of one execution make of its share. */
  function Settled(share: Option<Share>, seen: bool, withOrder: bool, quantity: real, order: string): Option<Share> {
    if seen then Some(Shared(share, quantity, if withOrder then order else "")) else share
  }

  lemma SettledFurther(share: Option<Share>, seen: bool, withOrder: bool, quantity: real, order: string,
                       orderId: string)
    requires (withOrder ==> seen) && (orderId == "" || orderId == order)
    ensures Some(Shared(Settled(share, seen, withOrder, quantity, order), quantity, orderId)) ==
      Settled(share, true, withOrder || orderId != "", quantity, order)
  {}

  /** After any polling, an execution's share depends only on whether it was seen, and whether with its order. */
  lemma {:induction false} SightingsSettle(notices: map<string, Notice>, sightings: seq<Sighting>,
                                           quantity: string -> real,
                                           order: string -> string, id: string)
    requires Agree(sightings, quantity, order)
    ensures ShareAt(ObservedAll(notices, sightings), id) ==
      Settled(ShareAt(notices, id), Seen(sightings, id), SeenWithOrder(sightings, id), quantity(id), order(id))
  {
    if sightings != [] {
      var n := |sightings| - 1;
      var (init, fill) := (sightings[..n], sightings[n].fill);
      SeenStep(sightings, id);
      assert forall i :: 0 <= i < n ==> init[i] == sightings[i];
      SightingsSettle(notices, init, quantity, order, id);
      ObserveStep(ObservedAll(notices, init), fill, sightings[n].now, id);
      if Id(fill) == id && id != "" {
        assert Fits(fill, quantity, order);
        WithOrderIsSeen(init, id);
        SettledFurther(ShareAt(notices, id), Seen(init, id), SeenWithOrder(init, id), quantity(id), order(id),
                       fill.orderId);
      }
    }
  }

  lemma WithOrderIsSeen(sightings: seq<Sighting>, id: string)
    ensures SeenWithOrder(sightings, id) ==> Seen(sightings, id)
  {}

  function QuantityIn(orderId: string): Notice -> real {
    (n: Notice) => if n.orderId == orderId then n.quantity else 0.0
  }

  /** The quantity that _aggregate_api_order finds for a broker order. */
  ghost function ApiQuantity(notices: map<string, Notice>, orderId: string): real {
    Sum(notices, QuantityIn(orderId))
  }

  /** Two pollings that saw the same executions, in any order, any number of times and from either
      source, agree on every order's filled quantity. */
  lemma PollingOrderIsIrrelevant(notices: map<string, Notice>, a: seq<Sighting>, b: seq<Sighting>,
                                 quantity: string -> real,
                                 order: string -> string, orderId: string)
    requires Agree(a, quantity, order) && Agree(b, quantity, order)
    requires forall id :: (Seen(a, id) <==> Seen(b, id)) && (SeenWithOrder(a, id) <==> SeenWithOrder(b, id))
    ensures ApiQuantity(ObservedAll(notices, a), orderId) == ApiQuantity(ObservedAll(notices, b), orderId)
  {
    var (x, y) := (ObservedAll(notices, a), ObservedAll(notices, b));
    var f := QuantityIn(orderId);
    forall id ensures id in x <==> id in y
      ensures id in x ==> f(x[id]) == f(y[id])
    {
      SightingsSettle(notices, a, quantity, order, id);
      SightingsSettle(notices, b, quantity, order, id);
      assert (Seen(a, id) <==> Seen(b, id)) && ShareAt(x, id) == ShareAt(y, id);
    }
    SumAgrees(x, f, y, f);
  }

  /** The executions that were seen as part of an order. */
  function SeenOf(sightings: seq<Sighting>, orderId: string): set<string> {
    set i | 0 <= i < |sightings| && Id(sightings[i].fill) != "" && sightings[i].fill.orderId == orderId ::
      Id(sightings[i].fill)
  }

  /** The notices of an order are those of its executions seen. */
  lemma NoticesOfOrder(sightings: seq<Sighting>, quantity: string -> real, order: string -> string, orderId: string,
                       id: string)
    requires Agree(sightings, quantity, order) && orderId != ""
    ensures var table := ObservedAll(map[], sightings);
      && (id in table && table[id].orderId == orderId <==> id in SeenOf(sightings, orderId))
      && (id in table ==> table[id].quantity == quantity(id))
  {
    var table := ObservedAll(map[], sightings);
    SightingsSettle(map[], sightings, quantity, order, id);
    assert id in table ==> ShareAt(table, id) == Some(Share(table[id].quantity, table[id].orderId));
    if SeenWithOrder(sightings, id) {
      var i :| 0 <= i < |sightings| && Id(sightings[i].fill) == id && sightings[i].fill.orderId != "";
      assert Fits(sightings[i].fill, quantity, order);
    }
    if id in SeenOf(sightings, orderId) {
      var i :| 0 <= i < |sightings| && Id(sightings[i].fill) == id && sightings[i].fill.orderId == orderId && id != "";
      assert Fits(sightings[i].fill, quantity, order);
    }
  }

  /** The shares of a set of executions. */
  function SharesOf(ids: set<string>, quantity: string -> real): map<string, real> {
    map id | id in ids :: quantity(id)
  }

  /** Starting from nothing, an order's filled quantity counts each of its executions exactly once,
      whether the API, Flex or both reported it, and however often. */
  lemma EachFillCountsOnce(sightings: seq<Sighting>, quantity: string -> real, order: string -> string, orderId: string)
    requires Agree(sightings, quantity, order) && orderId != ""
    ensures ApiQuantity(ObservedAll(map[], sightings), orderId) ==
      Sum(SharesOf(SeenOf(sightings, orderId), quantity), Value)
  {
    var table := ObservedAll(map[], sightings);
    var of := map id | id in table && table[id].orderId == orderId :: table[id];
    var shares := SharesOf(SeenOf(sightings, orderId), quantity);
    forall id ensures id in of <==> id in shares
      ensures id in of ==> table[id].quantity == quantity(id)
    {
      NoticesOfOrder(sightings, quantity, order, orderId, id);
    }
    SumOfPart(table, of, QuantityIn(orderId));
    SumAgrees(of, QuantityIn(orderId), shares, Value);
  }

  // ---------------------------------------------------------------------
  // Flex rows and executions

  /** No two rows carry one execution id; a row without an id stands for an execution of its own. */
  ghost predicate OneRowEach(rows: map<string, FlexRow>) {
    forall k, k' :: k in rows && k' in rows && rows[k].execId != "" && rows[k].execId == rows[k'].execId ==> k == k'
  }

  /** `pick` chooses one of the rows for each execution id on record. */
  ghost predicate Picks(pick: string -> string, rows: map<string, FlexRow>) {
    forall k :: k in rows && rows[k].execId != "" ==>
      pick(rows[k].execId) in rows && rows[pick(rows[k].execId)].execId == rows[k].execId
  }

  /** One row for each execution: every row without an id, and for each id the chosen one. */
  function Chosen(rows: map<string, FlexRow>, pick: string -> string): map<string, FlexRow> {
    map k | k in rows && (rows[k].execId == "" || pick(rows[k].execId) == k) :: rows[k]
  }

  lemma AllChosenIffOneRowEach(rows: map<string, FlexRow>, pick: string -> string)
    requires Picks(pick, rows)
    ensures rows - Chosen(rows, pick).Keys == map[] <==> OneRowEach(rows)
  {
    var rest := rows - Chosen(rows, pick).Keys;
    if OneRowEach(rows) {
      assert forall k :: k in rows ==> k in Chosen(rows, pick);
    } else {
      var k, k' :| k in rows && k' in rows && rows[k].execId != "" && rows[k].execId == rows[k'].execId && k != k';
      assert k in rest || k' in rest;
    }
  }

  function FlexQuantity(row: FlexRow): real {
    row.quantity
  }

  /** The shares of a set of Flex rows are those of their distinct executions exactly when no two of
      the rows carry one execution id; otherwise they are more. */
  lemma RowsCountExecutionsOnce(rows: map<string, FlexRow>, pick: string -> string)
    requires Picks(pick, rows) && forall k :: k in rows ==> rows[k].quantity > 0.0
    ensures Sum(rows, FlexQuantity) >= Sum(Chosen(rows, pick), FlexQuantity)
    ensures Sum(rows, FlexQuantity) == Sum(Chosen(rows, pick), FlexQuantity) <==> OneRowEach(rows)
  {
    var chosen := Chosen(rows, pick);
    SumParts(rows, chosen.Keys, FlexQuantity);
    assert (map k | k in rows && k in chosen.Keys :: rows[k]) == chosen;
    PositiveSum(rows - chosen.Keys);
    AllChosenIffOneRowEach(rows, pick);
  }

  lemma PositiveSum(rows: map<string, FlexRow>)
    requires forall k :: k in rows ==> rows[k].quantity > 0.0
    ensures Sum(rows, FlexQuantity) >= 0.0
    ensures Sum(rows, FlexQuantity) == 0.0 <==> rows == map[]
  {
    SumIsZero(rows, FlexQuantity);
    if rows != map[] {
      assert rows.Keys != {};
      var k :| k in rows;
      assert FlexQuantity(rows[k]) != 0.0;
    }
  }

  /** A new row keeps executions apart exactly when its id is blank or not yet on record. */
  lemma NewRowKeepsOneEach(rows: map<string, FlexRow>, row: FlexRow)
    requires OneRowEach(rows) && row.sourceKey !in rows
    ensures OneRowEach(rows[row.sourceKey := row]) <==> row.execId == "" || !InFlex(rows, row.execId)
  {
    var rows' := rows[row.sourceKey := row];
    if row.execId != "" && InFlex(rows, row.execId) {
      var k :| k in rows && rows[k].execId == row.execId;
      assert k in rows' && rows'[k].execId == rows'[row.sourceKey].execId && k != row.sourceKey;
    }
  }

  // ---------------------------------------------------------------------
  // Realised profit and loss

  function FlexPnl(row: FlexRow): real {
    row.pnl
  }

  function NoticePnl(n: Notice): real {
    if n.pnl.Some? then n.pnl.value else 0.0
  }

  function Day(s: string): string {
    if |s| > 10 then s[..10] else s
  }

  predicate TradedOnOrAfter(row: FlexRow, startDate: string) {
    !Less(row.tradeDate, Filter(startDate, NotDash))
  }

  /** The Flex rows on or after the start date. */
  function Confirmed(flex: map<string, FlexRow>, startDate: string): map<string, FlexRow> {
    map k | k in flex && TradedOnOrAfter(flex[k], startDate) :: flex[k]
  }

  predicate InFlex(flex: map<string, FlexRow>, execId: string) {
    exists k :: k in flex && flex[k].execId == execId
  }

  predicate OnOrAfter(n: Notice, startDate: string) {
    !Less(Day(if n.time != "" then n.time else n.observedAt), Day(startDate))
  }

  /** The notices on or after the start date that Flex does not confirm. */
  function Waiting(notices: map<string, Notice>, flex: map<string, FlexRow>, startDate: string): map<string, Notice> {
    map id | id in notices && !notices[id].confirmed && !InFlex(flex, id) && OnOrAfter(notices[id], startDate) ::
      notices[id]
  }

  ghost function TotalPnl(notices: map<string, Notice>, flex: map<string, FlexRow>, startDate: string): real {
    Sum(Confirmed(flex, startDate), FlexPnl) + Sum(Waiting(notices, flex, startDate), NoticePnl)
  }

  /** No execution is counted as confirmed and as pending. */
  lemma NeverCountedTwice(notices: map<string, Notice>, flex: map<string, FlexRow>, startDate: string, id: string)
    requires id in Waiting(notices, flex, startDate)
    ensures forall k :: k in Confirmed(flex, startDate) ==> Confirmed(flex, startDate)[k].execId != id
  {}

  /** How often an execution counts: once for each confirmed row, once if it is pending. */
  function Counts(notices: map<string, Notice>, flex: map<string, FlexRow>, startDate: string, id: string): nat {
    |ConfirmedRows(flex, startDate, id)| + if id in Waiting(notices, flex, startDate) then 1 else 0
  }

  function ConfirmedRows(flex: map<string, FlexRow>, startDate: string, id: string): set<string> {
    var confirmed := Confirmed(flex, startDate);
    set k | k in confirmed && confirmed[k].execId == id
  }

  lemma PendingCountsOnce(notices: map<string, Notice>, flex: map<string, FlexRow>, startDate: string, id: string)
    requires id in Waiting(notices, flex, startDate)
    ensures Counts(notices, flex, startDate, id) == 1
  {
    NeverCountedTwice(notices, flex, startDate, id);
    assert ConfirmedRows(flex, startDate, id) == {};
  }

  lemma RowsOfId(confirmed: map<string, FlexRow>, id: string)
    requires OneRowEach(confirmed) && id != ""
    ensures |set k | k in confirmed && confirmed[k].execId == id| <= 1
  {
    var rows := set k | k in confirmed && confirmed[k].execId == id;
    if k :| k in rows {
      assert rows == {k};
    }
  }

  /** A pending execution counts once, and every execution counts at most once exactly when no
      two rows in range carry one execution id. */
  lemma EachExecutionCountsOnce(notices: map<string, Notice>, flex: map<string, FlexRow>, startDate: string)
    ensures forall id :: id in Waiting(notices, flex, startDate) ==> Counts(notices, flex, startDate, id) == 1
    ensures (forall id :: id != "" ==> Counts(notices, flex, startDate, id) <= 1) <==>
      OneRowEach(Confirmed(flex, startDate))
  {
    var confirmed := Confirmed(flex, startDate);
    forall id | id in Waiting(notices, flex, startDate) ensures Counts(notices, flex, startDate, id) == 1 {
      PendingCountsOnce(notices, flex, startDate, id);
    }
    if OneRowEach(confirmed) {
      forall id | id != "" ensures Counts(notices, flex, startDate, id) <= 1 {
        RowsOfId(confirmed, id);
      }
    } else {
      var k, k' :| k in confirmed && k' in confirmed && confirmed[k].execId != ""
        && confirmed[k].execId == confirmed[k'].execId && k != k';
      var id := confirmed[k].execId;
      var rows := ConfirmedRows(flex, startDate, id);
      assert {k, k'} <= rows;
      SubsetIsSmaller({k, k'}, rows);
      assert id != "" && Counts(notices, flex, startDate, id) > 1;
    }
  }

  lemma SubsetIsSmaller<T>(a: set<T>, b: set<T>)
    requires a <= b
    ensures |a| <= |b|
  {
    assert b == a + (b - a);
  }

  lemma InFlexGrows(flex: map<string, FlexRow>, row: FlexRow, id: string)
    requires row.sourceKey !in flex
    ensures InFlex(flex[row.sourceKey := row], id) <==> InFlex(flex, id) || id == row.execId
  {
    var flex' := flex[row.sourceKey := row];
    if InFlex(flex, id) {
      var k :| k in flex && flex[k].execId == id;
      assert k in flex' && flex'[k].execId == id;
    }
    assert row.sourceKey in flex' && flex'[row.sourceKey] == row;
  }

  lemma WaitingLoses(notices: map<string, Notice>, flex: map<string, FlexRow>, startDate: string, row: FlexRow)
    requires row.sourceKey !in flex
    ensures Waiting(notices, flex[row.sourceKey := row], startDate) == Waiting(notices, flex, startDate) - {row.execId}
  {
    var flex' := flex[row.sourceKey := row];
    forall id
      ensures id in Waiting(notices, flex', startDate) <==> id in Waiting(notices, flex, startDate) && id != row.execId
    {
      InFlexGrows(flex, row, id);
    }
  }

  lemma ConfirmedGains(flex: map<string, FlexRow>, startDate: string, row: FlexRow)
    requires row.sourceKey !in flex
    ensures Sum(Confirmed(flex[row.sourceKey := row], startDate), FlexPnl) ==
      Sum(Confirmed(flex, startDate), FlexPnl) + if TradedOnOrAfter(row, startDate) then row.pnl else 0.0
  {
    var flex' := flex[row.sourceKey := row];
    var (confirmed, confirmed') := (Confirmed(flex, startDate), Confirmed(flex', startDate));
    var counts := TradedOnOrAfter(row, startDate);
    if counts {
      assert confirmed' == confirmed[row.sourceKey := row];
      SumInsert(confirmed, row.sourceKey, row, FlexPnl);
    } else {
      assert confirmed' == confirmed;
    }
  }

  lemma OneLess<V>(m: map<string, V>, k: string)
    requires k in m
    ensures |m - {k}| == |m| - 1
  {
    assert (m - {k}).Keys == m.Keys - {k};
  }

  /** What a Flex row counts for. */
  ghost function RowShare(row: FlexRow, startDate: string): real {
    if Less(row.tradeDate, Filter(startDate, (c: char) => c != '-')) then 0.0 else row.pnl
  }

  /** What a notice counts for: nothing once Flex confirmed it or carries a row of its execution, nor
      when it is from before the start date. */
  ghost function NoticeShare(notices: map<string, Notice>, id: string, flex: map<string, FlexRow>,
                             startDate: string): real {
    if id !in notices || notices[id].confirmed || notices[id].pnl.None? then 0.0
    else if exists k :: k in flex && flex[k].execId == id then 0.0
    else
      var moment := if notices[id].time == "" then notices[id].observedAt else notices[id].time;
      var day := if |moment| > 10 then moment[..10] else moment;
      if Less(day, if |startDate| > 10 then startDate[..10] else startDate) then 0.0 else notices[id].pnl.value
  }

  lemma RowShareIs(row: FlexRow, startDate: string)
    ensures RowShare(row, startDate) == if TradedOnOrAfter(row, startDate) then row.pnl else 0.0
  {
    FilterAlike(startDate, NotDash, (c: char) => c != '-');
  }

  lemma NoticeShareIs(notices: map<string, Notice>, id: string, flex: map<string, FlexRow>, startDate: string)
    ensures NoticeShare(notices, id, flex, startDate) ==
      if id in Waiting(notices, flex, startDate) then NoticePnl(notices[id]) else 0.0
  {}

  /** What a new Flex row does to the total: its own share comes in, and that of the notice of its
      execution goes out. */
  lemma RowAdds(notices: map<string, Notice>, flex: map<string, FlexRow>, startDate: string, row: FlexRow)
    requires row.sourceKey !in flex
    ensures TotalPnl(notices, flex[row.sourceKey := row], startDate) == TotalPnl(notices, flex, startDate)
      + RowShare(row, startDate) - NoticeShare(notices, row.execId, flex, startDate)
  {
    WaitingLoses(notices, flex, startDate, row);
    ConfirmedGains(flex, startDate, row);
    RowShareIs(row, startDate);
    NoticeShareIs(notices, row.execId, flex, startDate);
    var waiting := Waiting(notices, flex, startDate);
    if row.execId in waiting {
      PendingLoses(notices, flex, startDate, row.execId);
    } else {
      assert waiting - {row.execId} == waiting;
    }
  }

  /** What a new or changed notice does to the total. */
  lemma NoticeAdds(notices: map<string, Notice>, flex: map<string, FlexRow>, startDate: string, id: string, n: Notice)
    ensures var after := notices[id := n];
      TotalPnl(after, flex, startDate) == TotalPnl(notices, flex, startDate)
        - NoticeShare(notices, id, flex, startDate) + NoticeShare(after, id, flex, startDate)
  {
    var after := notices[id := n];
    var (waiting, waiting') := (Waiting(notices, flex, startDate), Waiting(after, flex, startDate));
    NoticeShareIs(notices, id, flex, startDate);
    NoticeShareIs(after, id, flex, startDate);
    OthersWait(notices, flex, startDate, id, n);
    SumWithout(waiting, id, NoticePnl);
    SumWithout(waiting', id, NoticePnl);
  }

  lemma OthersWait(notices: map<string, Notice>, flex: map<string, FlexRow>, startDate: string, id: string, n: Notice)
    ensures Waiting(notices[id := n], flex, startDate) - {id} == Waiting(notices, flex, startDate) - {id}
  {}

  lemma SumWithout<V>(m: map<string, V>, k: string, f: V -> real)
    ensures Sum(m, f) == Sum(m - {k}, f) + if k in m then f(m[k]) else 0.0
  {
    if k in m { SumSplit(m, k, f); } else { assert m - {k} == m; }
  }

  /** With these two laws, this fixes the total of every ledger. */
  lemma NothingCounts(startDate: string)
    ensures TotalPnl(map[], map[], startDate) == 0.0
  {
    assert Confirmed(map[], startDate) == map[] && Waiting(map[], map[], startDate) == map[];
  }

  /** The Flex row of a pending execution arrives: the execution stops being pending, and the
      total keeps its value exactly if the row counts for what the notice counted for. */
  lemma ConfirmationKeepsTotal(notices: map<string, Notice>, flex: map<string, FlexRow>, startDate: string,
                               row: FlexRow)
    requires row.sourceKey !in flex && row.execId in Waiting(notices, flex, startDate)
    ensures var flex' := Imported(flex, [row]);
      && Waiting(notices, flex', startDate) == Waiting(notices, flex, startDate) - {row.execId}
      && |Waiting(notices, flex', startDate)| == |Waiting(notices, flex, startDate)| - 1
      && (TotalPnl(notices, flex', startDate) == TotalPnl(notices, flex, startDate) <==>
            NoticePnl(notices[row.execId]) == if TradedOnOrAfter(row, startDate) then row.pnl else 0.0)
  {
    ImportOne(flex, row);
    WaitingLoses(notices, flex, startDate, row);
    PendingLoses(notices, flex, startDate, row.execId);
    ConfirmedGains(flex, startDate, row);
  }

  lemma ImportOne(flex: map<string, FlexRow>, row: FlexRow)
    requires row.sourceKey !in flex
    ensures Imported(flex, [row]) == flex[row.sourceKey := row]
  {
    assert [row][..0] == [];
  }

  lemma PendingLoses(notices: map<string, Notice>, flex: map<string, FlexRow>, startDate: string, id: string)
    requires id in Waiting(notices, flex, startDate)
    ensures var waiting := Waiting(notices, flex, startDate);
      && Sum(waiting - {id}, NoticePnl) == Sum(waiting, NoticePnl) - NoticePnl(notices[id])
      && |waiting - {id}| == |waiting| - 1
  {
    OneLess(Waiting(notices, flex, startDate), id);
    SumSplit(Waiting(notices, flex, startDate), id, NoticePnl);
  }

  /** The row is new, and confirms a pending execution with the P&L that was observed, in range. */
  ghost predicate Confirms(row: FlexRow, notices: map<string, Notice>, flex: map<string, FlexRow>, startDate: string) {
    && row.sourceKey !in flex && row.execId in Waiting(notices, flex, startDate)
    && row.execId in notices && row.pnl == NoticePnl(notices[row.execId]) && TradedOnOrAfter(row, startDate)
  }

  ghost predicate ConfirmEach(rows: seq<FlexRow>, notices: map<string, Notice>, flex: map<string, FlexRow>,
                              startDate: string) {
    rows == [] ||
    (ConfirmEach(rows[..|rows| - 1], notices, flex, startDate) &&
     Confirms(rows[|rows| - 1], notices, Imported(flex, rows[..|rows| - 1]), startDate))
  }

  /** A report whose rows each confirm a pending execution moves as many executions from
      pending to confirmed as it has rows, and leaves the total as it was. */
  lemma {:induction false} ReportKeepsTotal(notices: map<string, Notice>, flex: map<string, FlexRow>,
                                            startDate: string, rows: seq<FlexRow>)
    requires ConfirmEach(rows, notices, flex, startDate)
    ensures TotalPnl(notices, Imported(flex, rows), startDate) == TotalPnl(notices, flex, startDate)
    ensures |Waiting(notices, Imported(flex, rows), startDate)| == |Waiting(notices, flex, startDate)| - |rows|
  {
    if rows != [] {
      var n := |rows| - 1;
      ReportKeepsTotal(notices, flex, startDate, rows[..n]);
      ConfirmationKeepsTotal(notices, Imported(flex, rows[..n]), startDate, rows[n]);
      OneMoreRow(flex, rows);
    }
  }

  lemma OneMoreRow(flex: map<string, FlexRow>, rows: seq<FlexRow>)
    requires rows != []
    ensures Imported(flex, rows) == Imported(Imported(flex, rows[..|rows| - 1]), [rows[|rows| - 1]])
  {
    assert [rows[|rows| - 1]][..0] == [];
  }

  // ---------------------------------------------------------------------
  // The ledger as the program keeps it

  datatype Summary = Summary(total: real, confirmed: real, pending: real, pendingCount: nat,
                             perSymbol: map<string, real>, confirmedCommission: real, pendingCommission: real)

  function FlexCommission(row: FlexRow): real {
    row.commission
  }

  /** Commissions reported over the API are costs without a sign. */
  function NoticeCommission(n: Notice): real {
    if n.commission.Some? then -Abs(n.commission.value) else 0.0
  }

  /** What a commission counts for: a Flex row's as it stands, a notice's as a cost, and none as nothing. */
  lemma CommissionsMean(row: FlexRow, n: Notice)
    ensures FlexCommission(row) == row.commission
    ensures n.commission.None? ==> NoticeCommission(n) == 0.0
    ensures n.commission.Some? && n.commission.value >= 0.0 ==> NoticeCommission(n) == -n.commission.value
    ensures n.commission.Some? && n.commission.value < 0.0 ==> NoticeCommission(n) == n.commission.value
  {}

  function FlexSymbol(row: FlexRow): string {
    row.symbol
  }

  function NoticeSymbol(n: Notice): string {
    n.symbol
  }

  /** What one symbol contributes to the total. */
  ghost function SymbolPnl(notices: map<string, Notice>, flex: map<string, FlexRow>, startDate: string,
                           symbol: string): real {
    Sum(Confirmed(flex, startDate), Part(FlexSymbol, FlexPnl, symbol)) +
    Sum(Waiting(notices, flex, startDate), Part(NoticeSymbol, NoticePnl, symbol))
  }

  /** The rows that are new in the table, each once. */
  ghost predicate AddedTo(before: map<string, FlexRow>, after: map<string, FlexRow>, rows: seq<FlexRow>) {
    && (forall i :: 0 <= i < |rows| ==>
          rows[i].sourceKey !in before && rows[i].sourceKey in after && after[rows[i].sourceKey] == rows[i])
    && (forall i, j :: 0 <= i < j < |rows| ==> rows[i].sourceKey != rows[j].sourceKey)
    && (forall k :: k in after && k !in before ==> HasSource(rows, k))
  }

  lemma ListsOneMore(rows: seq<FlexRow>, row: FlexRow, key: string)
    ensures HasSource(rows + [row], key) <==> HasSource(rows, key) || row.sourceKey == key
  {
    var longer := rows + [row];
    assert longer[|rows|] == row && forall i :: 0 <= i < |rows| ==> longer[i] == rows[i];
  }

  lemma AddedStep(before: map<string, FlexRow>, after: map<string, FlexRow>, rows: seq<FlexRow>, row: FlexRow)
    requires AddedTo(before, after, rows) && before.Keys <= after.Keys && row.sourceKey !in after
    ensures AddedTo(before, after[row.sourceKey := row], rows + [row])
  {
    var after' := after[row.sourceKey := row];
    forall k | k in after' && k !in before ensures HasSource(rows + [row], k) {
      ListsOneMore(rows, row, k);
    }
  }

  class ExecutionLedger {
    var flex: map<string, FlexRow>
    var notices: map<string, Notice>

    constructor ()
      ensures flex == map[] && notices == map[]
    {
      flex, notices := map[], map[];
    }

    /** import_flex_xml, on the parsed rows. */
    method ImportFlexXml(rows: seq<FlexRow>) returns (inserted: nat, duplicates: nat, insertedRows: seq<FlexRow>)
      modifies this`flex
      ensures flex == Imported(old(flex), rows)
      ensures inserted + duplicates == |rows| && inserted == |insertedRows| == |flex| - |old(flex)|
      ensures AddedTo(old(flex), flex, insertedRows)
    {
      inserted, duplicates, insertedRows := 0, 0, [];
      for i := 0 to |rows|
        invariant flex == Imported(old(flex), rows[..i])
        invariant inserted + duplicates == i && inserted == |insertedRows| == |flex| - |old(flex)|
        invariant old(flex).Keys <= flex.Keys && AddedTo(old(flex), flex, insertedRows)
      {
        assert rows[..i + 1][..i] == rows[..i];
        if rows[i].sourceKey in flex {
          duplicates := duplicates + 1;
        } else {
          AddedStep(old(flex), flex, insertedRows, rows[i]);
          flex := flex[rows[i].sourceKey := rows[i]];
          inserted := inserted + 1;
          insertedRows := insertedRows + [rows[i]];
        }
      }
      assert rows[..|rows|] == rows;
    }

    /** observe_execution: the answer says whether a notification is still due. */
    method ObserveExecution(fill: Fill, now: string) returns (due: bool)
      modifies this`notices
      ensures notices == Observed(old(notices), fill, now)
      ensures due <==> Id(fill) in notices && Id(fill) != "" && !notices[Id(fill)].notified
    {
      var id := Id(fill);
      if id == "" { return false; }
      if id !in notices {
        notices := notices[id := NewNotice(fill, now)];
      }
      var n := notices[id];
      if fill.orderId != "" && n.orderId == "" {
        n := n.(orderId := fill.orderId);
      }
      n := Renewed(n, fill);
      notices := notices[id := n];
      due := !n.notified;
    }

    /** record_commission_report: an execution that was never observed is ignored. */
    method RecordCommissionReport(execId: string, commission: Option<real>, currency: string, pnl: Option<real>)
      modifies this`notices
      ensures notices ==
        if Strip(execId) in old(notices) && Strip(execId) != ""
        then
          old(notices)[Strip(execId) := old(notices)[Strip(execId)]
            .(commission := commission, commissionCurrency := currency, pnl := pnl)]
        else old(notices)
    {
      var id := Strip(execId);
      if id == "" { return; }
      if id in notices {
        notices := notices[id := notices[id].(commission := commission, commissionCurrency := currency, pnl := pnl)];
      }
    }

    method Commissions(startDate: string) returns (confirmed: real, pending: real)
      ensures confirmed == Sum(Confirmed(flex, startDate), FlexCommission)
      ensures pending == Sum(Waiting(notices, flex, startDate), NoticeCommission)
    {
      confirmed := SumOf(Confirmed(flex, startDate), FlexCommission);
      pending := SumOf(Waiting(notices, flex, startDate), NoticeCommission);
    }

    /** pnl_summary: the parts of the total, and its split by symbol. */
    method PnlSummary(startDate: string) returns (summary: Summary)
      ensures summary.total == TotalPnl(notices, flex, startDate) == summary.confirmed + summary.pending
      ensures summary.confirmed == Sum(Confirmed(flex, startDate), FlexPnl)
      ensures summary.pendingCount == |Waiting(notices, flex, startDate)|
      ensures Sum(summary.perSymbol, Value) == summary.total
      ensures forall s :: Zero(summary.perSymbol, s) == SymbolPnl(notices, flex, startDate, s)
      ensures summary.confirmedCommission == Sum(Confirmed(flex, startDate), FlexCommission)
      ensures summary.pendingCommission == Sum(Waiting(notices, flex, startDate), NoticeCommission)
    {
      var confirmed := Confirmed(flex, startDate);
      var waiting := Waiting(notices, flex, startDate);
      var confirmedTotal := SumOf(confirmed, FlexPnl);
      var pendingTotal := SumOf(waiting, NoticePnl);
      var bySymbol := GroupSums(confirmed, FlexSymbol, FlexPnl);
      var pendingBySymbol := GroupSums(waiting, NoticeSymbol, NoticePnl);
      var perSymbol := AddAll(bySymbol, pendingBySymbol);
      var confirmedCommission, pendingCommission := Commissions(startDate);
      summary := Summary(confirmedTotal + pendingTotal, confirmedTotal, pendingTotal, |waiting|, perSymbol,
                         confirmedCommission, pendingCommission);
    }
  }
}

/**
 Completion alerts: every observed fill is recorded, and an order is announced
 once its fills cover its quantity.  The announcement goes out before it is
 noted as sent, so a process that dies in between will announce again; and the
 order store is brought up to date last.
 */
module Alerts {
  import opened Ledger
  import opened OrderStore
  import opened Sums
  import opened Symbols
  import opened Text
  import opened Wrappers

  datatype Alert = Alert(key: OrderKey, filled: real, expected: real, price: real)

  datatype Completion = Completion(symbol: string, side: string, expected: real, filled: real, average: real,
                                   source: string)

  /** Where in process_execution the process dies, if it does: between the alert and the note
      that it was sent, or after the note, with some of the executions marked notified. */
  datatype Death = Survives | AfterAlert | AfterNote(marked: set<string>)

  /** The import of a Flex report, or one call of process_execution, where `match_` is the automated
      order found for the fill. */
  datatype Event =
    | Import(rows: seq<FlexRow>)
    | Observe(fill: Fill, match_: Option<Order>, flexOrderId: string, now: string, death: Death)

  datatype Desk = Desk(notices: map<string, Notice>, flex: map<string, FlexRow>, completed: map<OrderKey, Completion>,
                       orders: seq<Order>, alerts: seq<Alert>)

  const SLACK := 0.0000001

  function Cleaned(fill: Fill): Fill {
    fill.(symbol := CanonicalSymbol(fill.symbol), side := Upper(fill.side), source := Upper(fill.source))
  }

  // ---------------------------------------------------------------------
  // Aggregates over the fills of one broker order

  datatype Aggregate = Aggregate(filled: real, average: real, execIds: set<string>)

  function FlexQuantityIn(orderId: string): FlexRow -> real {
    (row: FlexRow) => if row.orderId == orderId then row.quantity else 0.0
  }

  function FlexCostIn(orderId: string): FlexRow -> real {
    (row: FlexRow) => if row.orderId == orderId then row.quantity * row.price else 0.0
  }

  function CostIn(orderId: string): Notice -> real {
    (n: Notice) => if n.orderId == orderId then n.quantity * n.price else 0.0
  }

  function Average(cost: real, quantity: real): real {
    if quantity > 0.0 then cost / quantity else 0.0
  }

  ghost function ApiAggregate(notices: map<string, Notice>, orderId: string): Aggregate {
    var filled := ApiQuantity(notices, orderId);
    Aggregate(filled, Average(Sum(notices, CostIn(orderId)), filled),
              set id | id in notices && notices[id].orderId == orderId)
  }

  ghost function FlexAggregate(flex: map<string, FlexRow>, orderId: string): Aggregate {
    var filled := Sum(flex, FlexQuantityIn(orderId));
    Aggregate(filled, Average(Sum(flex, FlexCostIn(orderId)), filled),
              set k | k in flex && flex[k].orderId == orderId && flex[k].execId != "" :: Strip(flex[k].execId))
  }

  predicate ByFlex(e: Event)
    requires e.Observe?
  {
    Upper(e.fill.source) == "FLEX" && e.flexOrderId != ""
  }

  /** Which aggregate decides about an event, if any. */
  ghost function Evidence(notices: map<string, Notice>, flex: map<string, FlexRow>, e: Event): Option<Aggregate>
    requires e.Observe?
  {
    if ByFlex(e) then Some(FlexAggregate(flex, e.flexOrderId))
    else if e.fill.orderId != "" then Some(ApiAggregate(notices, e.fill.orderId))
    else None
  }

  // ---------------------------------------------------------------------
  // One event

  /** mark_execution_notified for each of the executions. */
  function Marked(notices: map<string, Notice>, ids: set<string>): map<string, Notice> {
    map id | id in notices :: if id in ids && id != "" then notices[id].(notified := true) else notices[id]
  }

  function FilledOrder(order: Order, expected: real, aggregate: Aggregate, now: string): Order {
    order.(filled := aggregate.filled,
           remaining := if expected - aggregate.filled > 0.0 then expected - aggregate.filled else 0.0,
           averagePrice := Some(aggregate.average), status := "Filled", updatedAt := now,
           history := Recent(order.history + [Moment(now, "Filled", BrokerSaid("order_completion_evidence"))]))
  }

  /** The order with the key is marked filled. */
  function WithFilled(orders: seq<Order>, key: OrderKey, expected: real, aggregate: Aggregate,
                      now: string): seq<Order> {
    var i := Place(orders, key.logical);
    if i < |orders| && orders[i].key == key then orders[i := FilledOrder(orders[i], expected, aggregate, now)]
    else orders
  }

  function Noted(completed: map<OrderKey, Completion>, order: Order, aggregate: Aggregate,
                 source: string): map<OrderKey, Completion> {
    completed[order.key :=
      Completion(CanonicalSymbol(order.symbol), Upper(order.side), order.quantity, aggregate.filled, aggregate.average,
                 source)]
  }

  /** The executions that are marked before the process dies. */
  function MarksMade(ids: set<string>, death: Death): set<string> {
    if death.AfterNote? then ids * death.marked else ids
  }

  function Recorded(d: Desk, e: Event): Desk
    requires e.Observe?
  {
    d.(notices := Observed(d.notices, Cleaned(e.fill), e.now))
  }

  /** One event: a Flex import, or process_execution. */
  ghost function Processed(d: Desk, e: Event): Desk {
    match e
    case Import(rows) => d.(flex := Imported(d.flex, rows))
    case Observe(_, match_, _, _, _) =>
      var evidence := Evidence(Recorded(d, e).notices, d.flex, e);
      if match_.None? || match_.value.quantity <= 0.0 || evidence.None? then Recorded(d, e)
      else Judged(Recorded(d, e), e, match_.value, evidence.value)
  }

  ghost function Judged(d: Desk, e: Event, order: Order, aggregate: Aggregate): Desk
    requires e.Observe?
  {
    if aggregate.filled + SLACK < order.quantity then d
    else if order.key in d.completed then d.(notices := Marked(d.notices, MarksMade(aggregate.execIds, e.death)))
    else
      var announced := d.(alerts := d.alerts + [Alert(order.key, aggregate.filled, order.quantity, aggregate.average)]);
      if e.death.AfterAlert? then announced
      else
        var noted := announced.(completed := Noted(d.completed, order, aggregate, e.fill.source),
                                notices := Marked(d.notices, MarksMade(aggregate.execIds, e.death)));
        if e.death.AfterNote? then noted
        else noted.(orders := WithFilled(d.orders, order.key, order.quantity, aggregate, e.now))
  }

  ghost function Run(d: Desk, events: seq<Event>): Desk {
    if events == [] then d else Processed(Run(d, events[..|events| - 1]), events[|events| - 1])
  }

  // ---------------------------------------------------------------------
  // How often an order is announced

  /** The event sends an alert: its evidence covers its order, which is not noted as announced yet. */
  ghost predicate Announces(d: Desk, e: Event) {
    && e.Observe? && e.match_.Some? && e.match_.value.quantity > 0.0 && e.match_.value.key !in d.completed
    && var evidence := Evidence(Recorded(d, e).notices, d.flex, e);
      evidence.Some? && evidence.value.filled + SLACK >= e.match_.value.quantity
  }

  ghost function AlertOf(d: Desk, e: Event): Alert
    requires Announces(d, e)
  {
    var aggregate := Evidence(Recorded(d, e).notices, d.flex, e).value;
    Alert(e.match_.value.key, aggregate.filled, e.match_.value.quantity, aggregate.average)
  }

  function AlertsFor(alerts: seq<Alert>, key: OrderKey): nat {
    if alerts == [] then 0
    else AlertsFor(alerts[..|alerts| - 1], key) + if alerts[|alerts| - 1].key == key then 1 else 0
  }

  /** How often an alert for the order was sent whose note was lost with the process. */
  ghost function LostNotes(d: Desk, events: seq<Event>, key: OrderKey): nat {
    if events == [] then 0
    else
      var (init, e) := (events[..|events| - 1], events[|events| - 1]);
      LostNotes(d, init, key) + if LosesNote(Run(d, init), e, key) then 1 else 0
  }

  ghost predicate LosesNote(d: Desk, e: Event, key: OrderKey) {
    Announces(d, e) && e.match_.value.key == key && e.death == AfterAlert
  }

  /** What judging an order does, part by part. */
  lemma JudgedParts(d: Desk, e: Event, order: Order, aggregate: Aggregate)
    requires e.Observe?
    ensures var (j, first) :=
      (Judged(d, e, order, aggregate), aggregate.filled + SLACK >= order.quantity && order.key !in d.completed);
      && j.flex == d.flex
      && j.alerts == d.alerts +
           (if first then [Alert(order.key, aggregate.filled, order.quantity, aggregate.average)] else [])
      && j.completed.Keys == d.completed.Keys + (if first && e.death != AfterAlert then {order.key} else {})
      && j.orders ==
           if first && e.death.Survives? then WithFilled(d.orders, order.key, order.quantity, aggregate, e.now)
           else d.orders
  {
    assert d.alerts + [] == d.alerts;
  }

  /** An observation ends with the fill recorded, or goes on to judge the order. */
  lemma ProcessedParts(d: Desk, e: Event)
    requires e.Observe?
    ensures var evidence := Evidence(Recorded(d, e).notices, d.flex, e);
      if e.match_.Some? && e.match_.value.quantity > 0.0 && evidence.Some?
      then Processed(d, e) == Judged(Recorded(d, e), e, e.match_.value, evidence.value)
      else Processed(d, e) == Recorded(d, e) && !Announces(d, e)
  {}

  lemma ProcessedAlerts(d: Desk, e: Event)
    ensures Processed(d, e).alerts == d.alerts + if Announces(d, e) then [AlertOf(d, e)] else []
    ensures forall key :: key in Processed(d, e).completed <==>
      key in d.completed || (Announces(d, e) && e.match_.value.key == key && e.death != AfterAlert)
  {
    if e.Observe? {
      ProcessedParts(d, e);
      var evidence := Evidence(Recorded(d, e).notices, d.flex, e);
      if e.match_.Some? && evidence.Some? { JudgedParts(Recorded(d, e), e, e.match_.value, evidence.value); }
    }
    assert d.alerts + [] == d.alerts;
  }

  lemma OneMoreAlert(alerts: seq<Alert>, alert: Alert, key: OrderKey)
    ensures AlertsFor(alerts + [alert], key) == AlertsFor(alerts, key) + if alert.key == key then 1 else 0
  {
    assert (alerts + [alert])[..|alerts|] == alerts;
  }

  /** In any run, an order is announced once for each lost note, and once more if it gets noted. */
  lemma {:induction false} AlertsAreCounted(d: Desk, events: seq<Event>, key: OrderKey)
    ensures var after := Run(d, events);
      AlertsFor(after.alerts, key) == AlertsFor(d.alerts, key) + LostNotes(d, events, key) +
        if key in after.completed && key !in d.completed then 1 else 0
    ensures d.completed.Keys <= Run(d, events).completed.Keys
  {
    if events != [] {
      var (init, e) := (events[..|events| - 1], events[|events| - 1]);
      var s := Run(d, init);
      AlertsAreCounted(d, init, key);
      ProcessedAlerts(s, e);
      if Announces(s, e) { OneMoreAlert(s.alerts, AlertOf(s, e), key); } else { assert s.alerts + [] == s.alerts; }
    }
  }

  /** An order that was not announced before is announced at most once exactly when no note was
      lost, or a single one and the order is still not noted. */
  lemma AlertsAreBounded(d: Desk, events: seq<Event>, key: OrderKey)
    requires AlertsFor(d.alerts, key) == 0 && key !in d.completed
    ensures var after := Run(d, events);
      AlertsFor(after.alerts, key) <= 1 <==>
        LostNotes(d, events, key) == 0 || (LostNotes(d, events, key) == 1 && key !in after.completed)
  {
    AlertsAreCounted(d, events, key);
  }

  /** An order noted as announced is never announced again. */
  lemma {:induction false} AnnouncedStaysQuiet(d: Desk, events: seq<Event>, key: OrderKey)
    requires key in d.completed
    ensures key in Run(d, events).completed && AlertsFor(Run(d, events).alerts, key) == AlertsFor(d.alerts, key)
  {
    if events != [] {
      var (init, e) := (events[..|events| - 1], events[|events| - 1]);
      var s := Run(d, init);
      AnnouncedStaysQuiet(d, init, key);
      ProcessedAlerts(s, e);
      if Announces(s, e) { OneMoreAlert(s.alerts, AlertOf(s, e), key); } else { assert s.alerts + [] == s.alerts; }
    }
  }

  lemma AnnouncesAgain(d: Desk, e: Event)
    requires Announces(d, e)
    ensures var (s, again) := (Processed(d, e.(death := AfterAlert)), e.(death := Survives));
      Announces(s, again) && AlertOf(s, again) == AlertOf(d, e)
  {
    ObserveIsIdempotent(d.notices, Cleaned(e.fill), e.now, e.now);
  }

  /** Whenever the process dies right after an alert, the same fill, polled again, sends it again. */
  lemma LostNoteAnnouncesTwice(d: Desk, e: Event)
    requires Announces(d, e)
    ensures Processed(Processed(d, e.(death := AfterAlert)), e.(death := Survives)).alerts ==
      d.alerts + [AlertOf(d, e), AlertOf(d, e)]
  {
    var dying := e.(death := AfterAlert);
    ProcessedAlerts(d, dying);
    AnnouncesAgain(d, e);
    ProcessedAlerts(Processed(d, dying), e.(death := Survives));
  }

  /** Such a fill exists: the whole of an order in one execution, on an empty desk. */
  lemma WholeFillAnnounces(d: Desk, fill: Fill, order: Order, now: string, death: Death)
    requires d.notices == map[] && d.completed == map[]
    requires Id(fill) != "" && fill.orderId != "" && fill.source == "IBKR_API" && fill.quantity == order.quantity > 0.0
    ensures Announces(d, Observe(fill, Some(order), "", now, death))
  {
    var e := Observe(fill, Some(order), "", now, death);
    var (id, table) := (Id(fill), Recorded(d, e).notices);
    assert table.Keys == {id};
    SumSplit(table, id, QuantityIn(fill.orderId));
    assert table - {id} == map[];
  }

  /** So on an empty desk a fill of a whole order, with a death after its alert, is announced twice. */
  lemma AnOrderCanBeAnnouncedTwice(d: Desk, fill: Fill, order: Order, now: string)
    requires d.notices == map[] && d.completed == map[] && d.alerts == []
    requires Id(fill) != "" && fill.orderId != "" && fill.source == "IBKR_API" && fill.quantity == order.quantity > 0.0
    ensures var e := Observe(fill, Some(order), "", now, Survives);
      AlertsFor(Processed(Processed(d, e.(death := AfterAlert)), e).alerts, order.key) == 2
  {
    var e := Observe(fill, Some(order), "", now, Survives);
    WholeFillAnnounces(d, fill, order, now, Survives);
    LostNoteAnnouncesTwice(d, e);
    var alert := AlertOf(d, e);
    assert [alert, alert] == [] + [alert] + [alert];
    OneMoreAlert([], alert, order.key);
    OneMoreAlert([] + [alert], alert, order.key);
    assert d.alerts + [alert, alert] == [alert, alert];
  }

  // ---------------------------------------------------------------------
  // An alert only when the distinct fills cover the order

  /** Tables that differ at most in which executions are marked notified. */
  ghost predicate Alike(a: map<string, Notice>, b: map<string, Notice>) {
    a.Keys == b.Keys && forall id :: id in a ==> a[id].(notified := false) == b[id].(notified := false)
  }

  lemma ObservedAlike(a: map<string, Notice>, b: map<string, Notice>, fill: Fill, now: string)
    requires Alike(a, b)
    ensures Alike(Observed(a, fill, now), Observed(b, fill, now))
  {
    var id := Id(fill);
    if id in a {
      assert Renewed(a[id], fill).(notified := false) == Renewed(b[id], fill).(notified := false);
    }
  }

  lemma MarkedAlike(notices: map<string, Notice>, ids: set<string>)
    ensures Alike(Marked(notices, ids), notices)
  {}

  lemma ProcessedAlike(d: Desk, e: Event)
    ensures Alike(Processed(d, e).notices, if e.Observe? then Recorded(d, e).notices else d.notices)
  {
    if e.Observe? {
      var evidence := Evidence(Recorded(d, e).notices, d.flex, e);
      ProcessedParts(d, e);
      if e.match_.Some? && evidence.Some? { JudgedAlike(Recorded(d, e), e, e.match_.value, evidence.value); }
    }
  }

  lemma JudgedAlike(d: Desk, e: Event, order: Order, aggregate: Aggregate)
    requires e.Observe?
    ensures Alike(Judged(d, e, order, aggregate).notices, d.notices)
  {
    MarkedAlike(d.notices, MarksMade(aggregate.execIds, e.death));
  }

  lemma AlikeQuantity(a: map<string, Notice>, b: map<string, Notice>, orderId: string)
    requires Alike(a, b)
    ensures ApiQuantity(a, orderId) == ApiQuantity(b, orderId)
  {
    var f := QuantityIn(orderId);
    forall id | id in a ensures f(a[id]) == f(b[id]) {
      assert f(a[id]) == f(a[id].(notified := false)) && f(b[id]) == f(b[id].(notified := false));
    }
    SumAgrees(a, f, b, f);
  }

  /** The fills observed in a run, from either source. */
  function Sightings(events: seq<Event>): seq<Sighting> {
    if events == [] then []
    else
      var e := events[|events| - 1];
      Sightings(events[..|events| - 1]) + if e.Observe? then [Sighting(Cleaned(e.fill), e.now)] else []
  }

  /** The Flex rows imported in a run. */
  function Reports(events: seq<Event>): seq<FlexRow> {
    if events == [] then []
    else
      var e := events[|events| - 1];
      Reports(events[..|events| - 1]) + if e.Import? then e.rows else []
  }

  lemma OneMoreSighting(notices: map<string, Notice>, sightings: seq<Sighting>, s: Sighting)
    ensures ObservedAll(notices, sightings + [s]) == Observed(ObservedAll(notices, sightings), s.fill, s.now)
  {
    assert (sightings + [s])[..|sightings|] == sightings;
  }

  /** But for the marks, a run makes of the notices what its observations alone make of them. */
  lemma {:induction false} RunAlike(d: Desk, events: seq<Event>)
    ensures Alike(Run(d, events).notices, ObservedAll(d.notices, Sightings(events)))
  {
    if events != [] {
      var (init, e) := (events[..|events| - 1], events[|events| - 1]);
      RunAlike(d, init);
      ProcessedAlike(Run(d, init), e);
      if e.Observe? {
        ObservedAlike(Run(d, init).notices, ObservedAll(d.notices, Sightings(init)), Cleaned(e.fill), e.now);
        OneMoreSighting(d.notices, Sightings(init), Sighting(Cleaned(e.fill), e.now));
      } else {
        assert Sightings(init) + [] == Sightings(init);
      }
    }
  }

  lemma ObservedQuantity(d: Desk, events: seq<Event>, e: Event, orderId: string)
    requires e.Observe?
    ensures ApiQuantity(Recorded(Run(d, events), e).notices, orderId) ==
      ApiQuantity(ObservedAll(d.notices, Sightings(events + [e])), orderId)
  {
    RunAlike(d, events);
    ObservedAlike(Run(d, events).notices, ObservedAll(d.notices, Sightings(events)), Cleaned(e.fill), e.now);
    assert (events + [e])[..|events|] == events;
    OneMoreSighting(d.notices, Sightings(events), Sighting(Cleaned(e.fill), e.now));
    AlikeQuantity(Recorded(Run(d, events), e).notices, ObservedAll(d.notices, Sightings(events + [e])), orderId);
  }

  /** What the last event of a run announces is its order, with the total of its evidence. */
  lemma AlertIsCovered(d: Desk, events: seq<Event>, e: Event)
    requires |Run(d, events + [e]).alerts| > |Run(d, events).alerts|
    ensures Announces(Run(d, events), e)
    ensures Run(d, events + [e]).alerts == Run(d, events).alerts + [AlertOf(Run(d, events), e)]
  {
    assert (events + [e])[..|events|] == events;
    ProcessedAlerts(Run(d, events), e);
  }

  /** Over any run, whatever is repeated or reordered and whether the API, Flex or both report a fill:
      an alert on the evidence of the API counts each execution seen of its broker order once, and
      goes out only when they cover the order. */
  lemma AlertCountsDistinctFills(d: Desk, events: seq<Event>, e: Event, quantity: string -> real,
                                 order: string -> string)
    requires d.notices == map[] && Agree(Sightings(events + [e]), quantity, order)
    requires e.Observe? && e.fill.orderId != "" && !ByFlex(e)
    requires |Run(d, events + [e]).alerts| > |Run(d, events).alerts|
    ensures var alert := Run(d, events + [e]).alerts[|Run(d, events).alerts|];
      && e.match_.Some? && alert.key == e.match_.value.key && alert.expected == e.match_.value.quantity
      && alert.filled == Sum(SharesOf(SeenOf(Sightings(events + [e]), e.fill.orderId), quantity), Value)
      && alert.filled + SLACK >= alert.expected
  {
    AlertIsCovered(d, events, e);
    ObservedQuantity(d, events, e, e.fill.orderId);
    EachFillCountsOnce(Sightings(events + [e]), quantity, order, e.fill.orderId);
  }

  // ---------------------------------------------------------------------
  // The same on the evidence of Flex

  function OfOrder(flex: map<string, FlexRow>, orderId: string): map<string, FlexRow> {
    map k | k in flex && flex[k].orderId == orderId :: flex[k]
  }

  function FlexCost(row: FlexRow): real {
    row.quantity * row.price
  }

  /** The cost of one share, and nothing when there are no shares. */
  ghost predicate IsAverage(average: real, cost: real, quantity: real) {
    if quantity > 0.0 then average * quantity == cost else average == 0.0
  }

  lemma AverageIsCostPerShare(cost: real, quantity: real)
    ensures IsAverage(Average(cost, quantity), cost, quantity)
  {}

  lemma FlexShares(flex: map<string, FlexRow>, orderId: string)
    ensures FlexAggregate(flex, orderId).filled == Sum(OfOrder(flex, orderId), FlexQuantity)
  {
    FlexPart(flex, orderId, FlexQuantityIn(orderId), FlexQuantity);
  }

  lemma FlexCosts(flex: map<string, FlexRow>, orderId: string)
    ensures Sum(flex, FlexCostIn(orderId)) == Sum(OfOrder(flex, orderId), FlexCost)
  {
    FlexPart(flex, orderId, FlexCostIn(orderId), FlexCost);
  }

  /** _aggregate_flex_order adds up the rows of the order and no others: shares, cost and ids. */
  lemma FlexAggregateMeans(flex: map<string, FlexRow>, orderId: string)
    ensures var (a, rows) := (FlexAggregate(flex, orderId), OfOrder(flex, orderId));
      && a.filled == Sum(rows, FlexQuantity)
      && IsAverage(a.average, Sum(rows, FlexCost), a.filled)
      && a.execIds == set k | k in rows && rows[k].execId != "" :: Strip(rows[k].execId)
  {
    FlexShares(flex, orderId);
    FlexCosts(flex, orderId);
    var (cost, filled) := (Sum(flex, FlexCostIn(orderId)), FlexAggregate(flex, orderId).filled);
    AverageIsCostPerShare(cost, filled);
    FlexIds(flex, orderId);
  }

  lemma FlexIds(flex: map<string, FlexRow>, orderId: string)
    ensures var rows := OfOrder(flex, orderId);
      FlexAggregate(flex, orderId).execIds == set k | k in rows && rows[k].execId != "" :: Strip(rows[k].execId)
  {
    var rows := OfOrder(flex, orderId);
    var (a, b) :=
      (FlexAggregate(flex, orderId).execIds, set k | k in rows && rows[k].execId != "" :: Strip(rows[k].execId));
    forall id | id in a ensures id in b {
      var k :| k in flex && flex[k].orderId == orderId && flex[k].execId != "" && Strip(flex[k].execId) == id;
      assert k in rows && rows[k] == flex[k];
    }
    forall id | id in b ensures id in a {
      var k :| k in rows && rows[k].execId != "" && Strip(rows[k].execId) == id;
      assert k in flex && flex[k] == rows[k];
    }
  }

  lemma FlexPart(flex: map<string, FlexRow>, orderId: string, f: FlexRow -> real, g: FlexRow -> real)
    requires forall row :: f(row) == if row.orderId == orderId then g(row) else 0.0
    ensures Sum(flex, f) == Sum(OfOrder(flex, orderId), g)
  {
    SumOfPart(flex, OfOrder(flex, orderId), f);
    SumAgrees(OfOrder(flex, orderId), f, OfOrder(flex, orderId), g);
  }

  lemma {:induction false} ImportInTurn(flex: map<string, FlexRow>, a: seq<FlexRow>, b: seq<FlexRow>)
    ensures Imported(flex, a + b) == Imported(Imported(flex, a), b)
  {
    if b == [] {
      assert a + b == a;
    } else {
      assert (a + b)[..|a + b| - 1] == a + b[..|b| - 1];
      ImportInTurn(flex, a, b[..|b| - 1]);
    }
  }

  lemma ProcessedFlex(d: Desk, e: Event)
    ensures e.Import? ==> Processed(d, e).flex == Imported(d.flex, e.rows)
    ensures e.Observe? ==> Processed(d, e).flex == d.flex
  {
    if e.Observe? {
      ProcessedParts(d, e);
      var evidence := Evidence(Recorded(d, e).notices, d.flex, e);
      if e.match_.Some? && evidence.Some? { JudgedParts(Recorded(d, e), e, e.match_.value, evidence.value); }
    }
  }

  /** The Flex table after a run is the one its imports make, in turn. */
  lemma {:induction false} RunFlex(d: Desk, events: seq<Event>)
    ensures Run(d, events).flex == Imported(d.flex, Reports(events))
  {
    if events != [] {
      var (init, e) := (events[..|events| - 1], events[|events| - 1]);
      RunFlex(d, init);
      ProcessedFlex(Run(d, init), e);
      if e.Import? { ImportInTurn(d.flex, Reports(init), e.rows); } else { assert Reports(init) + [] == Reports(init); }
    }
  }

  /** Parsing keeps only rows with a positive quantity. */
  ghost predicate PositiveRows(rows: seq<FlexRow>) {
    forall i :: 0 <= i < |rows| ==> rows[i].quantity > 0.0
  }

  ghost predicate PositiveTable(flex: map<string, FlexRow>) {
    forall k :: k in flex ==> flex[k].quantity > 0.0
  }

  lemma {:induction false} ImportedArePositive(flex: map<string, FlexRow>, rows: seq<FlexRow>)
    requires PositiveTable(flex) && PositiveRows(rows)
    ensures PositiveTable(Imported(flex, rows))
  {
    if rows != [] {
      ImportedArePositive(flex, rows[..|rows| - 1]);
    }
  }

  /** An alert on the evidence of Flex carries the shares of the order's rows imported so far, which
      cover the order. */
  lemma FlexAlertIsCovered(d: Desk, events: seq<Event>, e: Event) returns (alert: Alert)
    requires e.Observe? && ByFlex(e) && |Run(d, events + [e]).alerts| > |Run(d, events).alerts|
    ensures Run(d, events + [e]).alerts == Run(d, events).alerts + [alert]
    ensures e.match_.Some? && alert.key == e.match_.value.key && alert.expected == e.match_.value.quantity
    ensures alert.filled == Sum(OfOrder(Imported(d.flex, Reports(events)), e.flexOrderId), FlexQuantity)
    ensures alert.filled + SLACK >= alert.expected
  {
    AlertIsCovered(d, events, e);
    FlexAlert(d, events, e);
    alert := AlertOf(Run(d, events), e);
  }

  /** They are the shares of the order's distinct executions exactly when no two of those rows
      carry one execution id. */
  lemma AlertCountsDistinctRows(d: Desk, events: seq<Event>, e: Event, rows: map<string, FlexRow>,
                                pick: string -> string)
    returns (alert: Alert)
    requires e.Observe? && ByFlex(e) && |Run(d, events + [e]).alerts| > |Run(d, events).alerts|
    requires PositiveTable(d.flex) && PositiveRows(Reports(events))
    requires rows == OfOrder(Imported(d.flex, Reports(events)), e.flexOrderId) && Picks(pick, rows)
    ensures Run(d, events + [e]).alerts == Run(d, events).alerts + [alert]
    ensures alert.filled == Sum(Chosen(rows, pick), FlexQuantity) <==> OneRowEach(rows)
  {
    alert := FlexAlertIsCovered(d, events, e);
    OrderRowsCountOnce(Imported(d.flex, Reports(events)), d.flex, Reports(events), e.flexOrderId, pick);
  }

  lemma FlexAlert(d: Desk, events: seq<Event>, e: Event)
    requires e.Observe? && ByFlex(e) && Announces(Run(d, events), e)
    ensures AlertOf(Run(d, events), e).filled ==
      Sum(OfOrder(Imported(d.flex, Reports(events)), e.flexOrderId), FlexQuantity)
  {
    RunFlex(d, events);
    FlexShares(Run(d, events).flex, e.flexOrderId);
  }

  lemma OrderRowsCountOnce(flex: map<string, FlexRow>, before: map<string, FlexRow>, reports: seq<FlexRow>,
                           orderId: string,
                           pick: string -> string)
    requires flex == Imported(before, reports) && Picks(pick, OfOrder(flex, orderId))
    requires PositiveTable(before) && PositiveRows(reports)
    ensures Sum(OfOrder(flex, orderId), FlexQuantity) == Sum(Chosen(OfOrder(flex, orderId), pick), FlexQuantity) <==>
      OneRowEach(OfOrder(flex, orderId))
  {
    ImportedArePositive(before, reports);
    RowsCountExecutionsOnce(OfOrder(flex, orderId), pick);
  }

  // ---------------------------------------------------------------------
  // When an order is announced, and what that leaves behind

  /** The notices after the fill of an event is recorded, under its canonical symbol. */
  function Noticed(d: Desk, e: Event): map<string, Notice>
    requires e.Observe?
  {
    Observed(d.notices,
             e.fill.(symbol := CanonicalSymbol(e.fill.symbol), side := Upper(e.fill.side),
                     source := Upper(e.fill.source)), e.now)
  }

  /** The fills known for the broker order cover the automated one: rows of the order when Flex reports
      the fill with its order, and notices of it otherwise. */
  ghost predicate Covers(d: Desk, e: Event, quantity: real)
    requires e.Observe?
  {
    if Upper(e.fill.source) == "FLEX" && e.flexOrderId != ""
    then Sum(OfOrder(d.flex, e.flexOrderId), FlexQuantity) + 0.0000001 >= quantity
    else e.fill.orderId != "" && ApiQuantity(Noticed(d, e), e.fill.orderId) + 0.0000001 >= quantity
  }

  /** An order is announced whenever a fill comes in for it, the fills cover its quantity, and it is not
      noted yet; and never otherwise. */
  lemma AnnouncedIff(d: Desk, e: Event)
    requires e.Observe?
    ensures var announced := e.match_.Some? && e.match_.value.quantity > 0.0
                             && e.match_.value.key !in d.completed && Covers(d, e, e.match_.value.quantity);
      && (announced <==> Announces(d, e))
      && |Processed(d, e).alerts| == |d.alerts| + (if announced then 1 else 0)
  {
    FlexShares(d.flex, e.flexOrderId);
    ProcessedAlerts(d, e);
  }

  /** The executions that the fills of the broker order came in. */
  ghost predicate InEvidence(d: Desk, e: Event, id: string)
    requires e.Observe?
  {
    if Upper(e.fill.source) == "FLEX" && e.flexOrderId != ""
    then exists k :: k in d.flex && d.flex[k].orderId == e.flexOrderId && d.flex[k].execId != ""
           && Strip(d.flex[k].execId) == id
    else id in Noticed(d, e) && Noticed(d, e)[id].orderId == e.fill.orderId
  }

  /** Executions are marked notified once their order was announced, as far as its process got. */
  ghost predicate MarksIt(d: Desk, e: Event, id: string)
    requires e.Observe?
  {
    && e.match_.Some? && e.match_.value.quantity > 0.0 && Covers(d, e, e.match_.value.quantity)
    && id != "" && InEvidence(d, e, id)
    && match e.death
       case Survives => true
       case AfterAlert => e.match_.value.key in d.completed
       case AfterNote(marked) => id in marked
  }

  lemma EvidenceMeans(d: Desk, e: Event)
    requires e.Observe?
    ensures var evidence := Evidence(Recorded(d, e).notices, d.flex, e);
      && (evidence.Some? <==> (Upper(e.fill.source) == "FLEX" && e.flexOrderId != "") || e.fill.orderId != "")
      && forall quantity :: Covers(d, e, quantity) <==> evidence.Some? && evidence.value.filled + 0.0000001 >= quantity
    ensures var evidence := Evidence(Recorded(d, e).notices, d.flex, e);
      evidence.Some? ==> forall id :: id in evidence.value.execIds <==> InEvidence(d, e, id)
  {
    FlexShares(d.flex, e.flexOrderId);
  }

  /** The executions that judging an order marks, as far as its process gets. */
  lemma JudgedNotices(d: Desk, e: Event, order: Order, aggregate: Aggregate)
    requires e.Observe?
    ensures var marks :=
        aggregate.filled + SLACK >= order.quantity && (e.death == AfterAlert ==> order.key in d.completed);
      Judged(d, e, order, aggregate).notices ==
        if marks then Marked(d.notices, MarksMade(aggregate.execIds, e.death)) else d.notices
  {}

  lemma MarkedAt(notices: map<string, Notice>, ids: set<string>, id: string)
    requires id in notices
    ensures Marked(notices, ids)[id] == if id in ids && id != "" then notices[id].(notified := true) else notices[id]
  {}

  /** What an event leaves of each notice: the fill recorded, and the mark if there is one to make. */
  lemma NoticesAfter(d: Desk, e: Event, id: string)
    requires e.Observe?
    ensures var (noticed, after) := (Noticed(d, e), Processed(d, e).notices);
      && after.Keys == noticed.Keys
      && (id in noticed ==>
            after[id] == if MarksIt(d, e, id) then noticed[id].(notified := true) else noticed[id])
  {
    var evidence := Evidence(Recorded(d, e).notices, d.flex, e);
    EvidenceMeans(d, e);
    ProcessedParts(d, e);
    if e.match_.Some? && evidence.Some? {
      JudgedNotices(Recorded(d, e), e, e.match_.value, evidence.value);
      if id in Noticed(d, e) { MarkedAt(Noticed(d, e), MarksMade(evidence.value.execIds, e.death), id); }
    }
  }

  /** The note of an announcement, and no other note touched. */
  ghost predicate NotedIn(before: map<OrderKey, Completion>, after: map<OrderKey, Completion>, order: Order,
                          aggregate: Aggregate, source: string) {
    && after.Keys == before.Keys + {order.key}
    && (forall key :: key in before && key != order.key ==> after[key] == before[key])
    && after[order.key] == Completion(CanonicalSymbol(order.symbol), Upper(order.side), order.quantity,
                                      aggregate.filled, aggregate.average, source)
  }

  /** In the store, the order is filled if it is there, and every other one is as it was. */
  ghost predicate FilledIn(before: seq<Order>, after: seq<Order>, order: Order, aggregate: Aggregate, now: string) {
    |after| == |before| && forall i :: 0 <= i < |before| ==>
      if before[i].key == order.key then FilledBy(before[i], after[i], order.quantity, aggregate, now)
      else after[i] == before[i]
  }

  /** What the alert says, what its note says, and what the order in the store says after it. */
  lemma AnnouncementIsWritten(d: Desk, e: Event, aggregate: Aggregate)
    requires Announces(d, e) && Evidence(Recorded(d, e).notices, d.flex, e) == Some(aggregate) && Good(d.orders)
    ensures var (order, after) := (e.match_.value, Processed(d, e));
      && after.alerts == d.alerts + [Alert(order.key, aggregate.filled, order.quantity, aggregate.average)]
      && (e.death != AfterAlert ==> NotedIn(d.completed, after.completed, order, aggregate, e.fill.source))
      && (e.death.Survives? ==> FilledIn(d.orders, after.orders, order, aggregate, e.now))
  {
    ProcessedAlerts(d, e);
    ProcessedOrders(d, e);
    ProcessedParts(d, e);
    JudgedNote(Recorded(d, e), e, e.match_.value, aggregate);
    StoreIsFilled(d.orders, e.match_.value, aggregate, e.now);
  }

  lemma JudgedNote(d: Desk, e: Event, order: Order, aggregate: Aggregate)
    requires e.Observe? && aggregate.filled + SLACK >= order.quantity && order.key !in d.completed
    ensures var after := Judged(d, e, order, aggregate).completed;
      if e.death == AfterAlert then after == d.completed
      else NotedIn(d.completed, after, order, aggregate, e.fill.source)
  {}

  lemma StoreIsFilled(orders: seq<Order>, order: Order, aggregate: Aggregate, now: string)
    requires Good(orders)
    ensures FilledIn(orders, WithFilled(orders, order.key, order.quantity, aggregate, now), order, aggregate, now)
  {
    PlaceOfKey(orders, order.key);
    var p := Place(orders, order.key.logical);
    forall i | 0 <= i < |orders| && orders[i].key == order.key ensures i == p {
      assert HasKey(orders, order.key);
    }
  }

  /** The order as the evidence leaves it. */
  ghost predicate FilledBy(before: Order, after: Order, expected: real, aggregate: Aggregate, now: string) {
    && after.status == "Filled" && after.filled == aggregate.filled && after.averagePrice == Some(aggregate.average)
    && after.remaining == (if aggregate.filled < expected then expected - aggregate.filled else 0.0)
    && after.updatedAt == now && after.history != [] && after.history[|after.history| - 1].status == "Filled"
    && after.(status := before.status, filled := before.filled, averagePrice := before.averagePrice,
              remaining := before.remaining, updatedAt := before.updatedAt, history := before.history) == before
  }

  function OfNotices(notices: map<string, Notice>, orderId: string): map<string, Notice> {
    map id | id in notices && notices[id].orderId == orderId :: notices[id]
  }

  function NoticeQuantity(n: Notice): real {
    n.quantity
  }

  function NoticeCost(n: Notice): real {
    n.quantity * n.price
  }

  /** The notices of an order, as evidence: shares, cost and executions of that order and no other. */
  lemma ApiAggregateMeans(notices: map<string, Notice>, orderId: string)
    ensures var (a, own) := (ApiAggregate(notices, orderId), OfNotices(notices, orderId));
      && a.filled == Sum(own, NoticeQuantity) && a.execIds == own.Keys
      && IsAverage(a.average, Sum(own, NoticeCost), a.filled)
  {
    OwnNotices(notices, orderId, QuantityIn(orderId), NoticeQuantity);
    OwnNotices(notices, orderId, CostIn(orderId), NoticeCost);
    AverageIsCostPerShare(Sum(notices, CostIn(orderId)), ApiQuantity(notices, orderId));
  }

  lemma OwnNotices(notices: map<string, Notice>, orderId: string, f: Notice -> real, g: Notice -> real)
    requires forall n :: f(n) == if n.orderId == orderId then g(n) else 0.0
    ensures Sum(notices, f) == Sum(OfNotices(notices, orderId), g)
  {
    var own := OfNotices(notices, orderId);
    SumOfPart(notices, own, f);
    SumAgrees(own, f, own, g);
  }

  // ---------------------------------------------------------------------
  // The order store stays sound

  lemma WithFilledIsGood(orders: seq<Order>, key: OrderKey, expected: real, aggregate: Aggregate, now: string)
    requires Good(orders)
    ensures Good(WithFilled(orders, key, expected, aggregate, now))
  {
    var i := Place(orders, key.logical);
    if i < |orders| && orders[i].key == key {
      ReplacedIsGood(orders, i, FilledOrder(orders[i], expected, aggregate, now));
    }
  }

  lemma ProcessedOrders(d: Desk, e: Event)
    ensures Processed(d, e).orders ==
      if Announces(d, e) && e.death.Survives?
      then
        WithFilled(d.orders, e.match_.value.key, e.match_.value.quantity,
                   Evidence(Recorded(d, e).notices, d.flex, e).value, e.now)
      else d.orders
  {
    if e.Observe? {
      ProcessedParts(d, e);
      var evidence := Evidence(Recorded(d, e).notices, d.flex, e);
      if e.match_.Some? && evidence.Some? { JudgedParts(Recorded(d, e), e, e.match_.value, evidence.value); }
    }
  }

  lemma ProcessedIsGood(d: Desk, e: Event)
    requires Good(d.orders)
    ensures Good(Processed(d, e).orders)
  {
    ProcessedOrders(d, e);
    if Announces(d, e) {
      WithFilledIsGood(d.orders, e.match_.value.key, e.match_.value.quantity,
                       Evidence(Recorded(d, e).notices, d.flex, e).value, e.now);
    }
  }

  /** Orders with this key are the same in both lists. */
  ghost predicate SameUnder(a: seq<Order>, b: seq<Order>, key: OrderKey) {
    |a| == |b| && forall i :: 0 <= i < |a| && (a[i].key == key || b[i].key == key) ==> a[i] == b[i]
  }

  lemma ProcessedKeepsNoted(d: Desk, e: Event, key: OrderKey)
    requires key in d.completed
    ensures SameUnder(d.orders, Processed(d, e).orders, key)
  {
    ProcessedOrders(d, e);
    if Announces(d, e) {
      WithFilledElsewhere(d.orders, e.match_.value.key, e.match_.value.quantity,
                          Evidence(Recorded(d, e).notices, d.flex, e).value, e.now, key);
    }
  }

  lemma WithFilledElsewhere(orders: seq<Order>, filled: OrderKey, expected: real, aggregate: Aggregate, now: string,
                            key: OrderKey)
    requires filled != key
    ensures SameUnder(orders, WithFilled(orders, filled, expected, aggregate, now), key)
  {}

  /** Once an order is noted as announced, no later event touches it in the store. */
  lemma {:induction false} NotedIsNeverFilledLater(d: Desk, events: seq<Event>, key: OrderKey)
    requires key in d.completed
    ensures SameUnder(d.orders, Run(d, events).orders, key)
  {
    if events != [] {
      var init := events[..|events| - 1];
      NotedIsNeverFilledLater(d, init, key);
      AnnouncedStaysQuiet(d, init, key);
      ProcessedKeepsNoted(Run(d, init), events[|events| - 1], key);
    }
  }

  /** So as far as alerting goes, a process that dies after the note and before the store leaves the
      order there as it was. */
  lemma DeathAfterNoteIsFinal(d: Desk, e: Event, events: seq<Event>)
    requires Announces(d, e) && e.death.AfterNote?
    ensures SameUnder(d.orders, Run(Processed(d, e), events).orders, e.match_.value.key)
  {
    ProcessedAlerts(d, e);
    ProcessedOrders(d, e);
    NotedIsNeverFilledLater(Processed(d, e), events, e.match_.value.key);
  }

  /** Some event announces the order, and its process survives. */
  ghost predicate Survivor(d: Desk, events: seq<Event>, key: OrderKey) {
    events != [] &&
    var (init, e) := (events[..|events| - 1], events[|events| - 1]);
    Survivor(d, init, key) || (Announces(Run(d, init), e) && e.match_.value.key == key && e.death.Survives?)
  }

  /** The order with the key is marked filled in the store. */
  predicate FilledUnder(orders: seq<Order>, key: OrderKey) {
    exists i :: 0 <= i < |orders| && orders[i].key == key && orders[i].status == "Filled"
  }

  /** A surviving announcement marks its order filled, and touches no other. */
  lemma SurvivorFills(d: Desk, e: Event, key: OrderKey)
    requires Good(d.orders) && Announces(d, e) && e.death.Survives?
    ensures HasKey(d.orders, e.match_.value.key) ==> FilledUnder(Processed(d, e).orders, e.match_.value.key)
    ensures key != e.match_.value.key ==> SameUnder(d.orders, Processed(d, e).orders, key)
  {
    ProcessedOrders(d, e);
    var (filled, order) := (e.match_.value.key, e.match_.value);
    var evidence := Evidence(Recorded(d, e).notices, d.flex, e).value;
    PlaceOfKey(d.orders, filled);
    FilledHere(d.orders, filled, order.quantity, evidence, e.now);
    if key != filled { WithFilledElsewhere(d.orders, filled, order.quantity, evidence, e.now, key); }
  }

  lemma FilledHere(orders: seq<Order>, key: OrderKey, expected: real, aggregate: Aggregate, now: string)
    ensures var i := Place(orders, key.logical);
      i < |orders| && orders[i].key == key ==> FilledUnder(WithFilled(orders, key, expected, aggregate, now), key)
  {
    var (i, after) := (Place(orders, key.logical), WithFilled(orders, key, expected, aggregate, now));
    if i < |orders| && orders[i].key == key {
      assert after[i].key == key && after[i].status == "Filled";
    }
  }

  lemma SameUnderTwice(a: seq<Order>, b: seq<Order>, c: seq<Order>, key: OrderKey)
    requires SameUnder(a, b, key)
    ensures SameUnder(b, c, key) ==> SameUnder(a, c, key)
    ensures FilledUnder(a, key) ==> FilledUnder(b, key)
    ensures HasKey(a, key) ==> HasKey(b, key)
  {}

  lemma {:induction false} RunIsGood(d: Desk, events: seq<Event>)
    requires Good(d.orders)
    ensures Good(Run(d, events).orders)
  {
    if events != [] {
      RunIsGood(d, events[..|events| - 1]);
      ProcessedIsGood(Run(d, events[..|events| - 1]), events[|events| - 1]);
    }
  }

  /** What one event does to an order that is not noted yet. */
  lemma SurvivorStep(d: Desk, e: Event, key: OrderKey)
    requires Good(d.orders)
    ensures var survives := Announces(d, e) && e.match_.value.key == key && e.death.Survives?;
      && (survives && HasKey(d.orders, key) ==> FilledUnder(Processed(d, e).orders, key))
      && (survives ==> key in Processed(d, e).completed)
      && (!survives ==> SameUnder(d.orders, Processed(d, e).orders, key))
  {
    ProcessedAlerts(d, e);
    if Announces(d, e) && e.death.Survives? {
      SurvivorFills(d, e, key);
    } else {
      ProcessedOrders(d, e);
    }
  }

  /** To the end of any run, an order held in the store and not noted before is noted and filled if
      some announcement of it survives, and is as it was if none does. */
  lemma {:induction false} SurvivorDecides(d: Desk, events: seq<Event>, key: OrderKey)
    requires Good(d.orders) && HasKey(d.orders, key) && key !in d.completed
    ensures var after := Run(d, events);
      if Survivor(d, events, key) then key in after.completed && FilledUnder(after.orders, key)
      else SameUnder(d.orders, after.orders, key)
  {
    if events != [] {
      var (init, e) := (events[..|events| - 1], events[|events| - 1]);
      var s := Run(d, init);
      SurvivorDecides(d, init, key);
      RunIsGood(d, init);
      SurvivorStep(s, e, key);
      ProcessedAlerts(s, e);
      if Survivor(d, init, key) {
        ProcessedKeepsNoted(s, e, key);
        SameUnderTwice(s.orders, Processed(s, e).orders, [], key);
      } else {
        SameUnderTwice(d.orders, s.orders, Processed(s, e).orders, key);
      }
    }
  }

  /** So an order that was noted in a run is marked filled at its end exactly if it was before, or
      the process that announced it survived. */
  lemma NotedIsFilledIffSurvivor(d: Desk, events: seq<Event>, key: OrderKey)
    requires Good(d.orders) && HasKey(d.orders, key) && key !in d.completed && key in Run(d, events).completed
    ensures FilledUnder(Run(d, events).orders, key) <==> FilledUnder(d.orders, key) || Survivor(d, events, key)
  {
    SurvivorDecides(d, events, key);
    if !Survivor(d, events, key) {
      var after := Run(d, events).orders;
      if FilledUnder(d.orders, key) { SameUnderTwice(d.orders, after, [], key); }
      if FilledUnder(after, key) {
        var i :| 0 <= i < |after| && after[i].key == key && after[i].status == "Filled";
        assert d.orders[i] == after[i];
      }
    }
  }

  // ---------------------------------------------------------------------
  // The alerting process

  class CompletionDesk {
    const ledger: ExecutionLedger
    const store: Store
    var completed: map<OrderKey, Completion>
    var alerts: seq<Alert>

    constructor (ledger: ExecutionLedger, store: Store)
      ensures this.ledger == ledger && this.store == store && completed == map[] && alerts == []
    {
      this.ledger, this.store := ledger, store;
      completed, alerts := map[], [];
    }

    ghost function Now(): Desk
      reads this, ledger, store
    {
      Desk(ledger.notices, ledger.flex, completed, store.orders, alerts)
    }

    method AggregateApiOrder(orderId: string) returns (aggregate: Aggregate)
      ensures aggregate == ApiAggregate(ledger.notices, orderId)
    {
      var filled := SumOf(ledger.notices, QuantityIn(orderId));
      var cost := SumOf(ledger.notices, CostIn(orderId));
      aggregate := Aggregate(filled, Average(cost, filled),
                             set id | id in ledger.notices && ledger.notices[id].orderId == orderId);
    }

    method AggregateFlexOrder(orderId: string) returns (aggregate: Aggregate)
      ensures aggregate == FlexAggregate(ledger.flex, orderId)
    {
      var flex := ledger.flex;
      var filled := SumOf(flex, FlexQuantityIn(orderId));
      var cost := SumOf(flex, FlexCostIn(orderId));
      aggregate := Aggregate(filled, Average(cost, filled),
                             set k | k in flex && flex[k].orderId == orderId && flex[k].execId != "" ::
                               Strip(flex[k].execId));
    }

    method FindEvidence(e: Event) returns (evidence: Option<Aggregate>)
      requires e.Observe?
      ensures evidence == Evidence(ledger.notices, ledger.flex, e)
    {
      if ByFlex(e) {
        var aggregate := AggregateFlexOrder(e.flexOrderId);
        return Some(aggregate);
      } else if e.fill.orderId != "" {
        var aggregate := AggregateApiOrder(e.fill.orderId);
        return Some(aggregate);
      }
      evidence := None;
    }

    method MarkFilled(key: OrderKey, expected: real, aggregate: Aggregate, now: string)
      requires Good(store.orders)
      modifies store
      ensures store.orders == WithFilled(old(store.orders), key, expected, aggregate, now)
    {
      var found := store.FindOrder(key);
      if found.Some? {
        store.orders := store.orders[found.value := FilledOrder(store.orders[found.value], expected, aggregate, now)];
      }
    }

    /** The rest of process_execution once the evidence is there. */
    method Judge(e: Event, order: Order, aggregate: Aggregate) returns (announced: bool)
      requires Good(store.orders) && e.Observe?
      modifies this, ledger, store
      ensures Now() == Judged(old(Now()), e, order, aggregate)
      ensures announced <==>
        aggregate.filled + SLACK >= order.quantity && order.key !in old(completed) && e.death.Survives?
    {
      if aggregate.filled + SLACK < order.quantity { return false; }
      var marks := MarksMade(aggregate.execIds, e.death);
      if order.key in completed {
        ledger.notices := Marked(ledger.notices, marks);
        return false;
      }
      alerts := alerts + [Alert(order.key, aggregate.filled, order.quantity, aggregate.average)];
      if e.death.AfterAlert? { return false; }
      completed := Noted(completed, order, aggregate, e.fill.source);
      ledger.notices := Marked(ledger.notices, marks);
      if e.death.AfterNote? { return false; }
      MarkFilled(order.key, order.quantity, aggregate, e.now);
      announced := true;
    }

    /** process_execution. */
    method ProcessExecution(e: Event) returns (announced: bool)
      requires Good(store.orders) && e.Observe?
      modifies this, ledger, store
      ensures Good(store.orders) && Now() == Processed(old(Now()), e)
      ensures announced <==> Announces(old(Now()), e) && e.death.Survives?
    {
      ProcessedIsGood(Now(), e);
      var _ := ledger.ObserveExecution(Cleaned(e.fill), e.now);
      if e.match_.None? { return false; }
      var order := e.match_.value;
      if order.quantity <= 0.0 { return false; }
      var evidence := FindEvidence(e);
      if evidence.None? { return false; }
      announced := Judge(e, order, evidence.value);
    }
  }
}

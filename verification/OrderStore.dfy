/**
 The persistent store of automated orders.  An order is found by its key, the
 digest of its full identity, or failing that by its logical identity, which
 leaves the limit price out.
 */
module OrderStore {
  import opened Lists
  import opened Symbols
  import opened Text
  import opened Wrappers

  datatype Intent = Intent(symbol: string, side: string, orderType: string, limitPrice: Option<real>,
                           signalDate: string, configuration: string, strategyVersion: string,
                           quantity: real, notional: Option<real>, submittedAt: Option<string>, rejection: Reason)

  datatype Logical = Logical(symbol: string, side: string, orderType: string, signalDate: string,
                             configuration: string, strategyVersion: string)

  /** What the digest is taken of; the digest is taken to be injective. */
  datatype OrderKey = OrderKey(logical: Logical, limitPrice: Option<real>)

  datatype Signal = Signal(symbol: string, side: string, signalDate: string, strategyVersion: string)

  /** The reasons that the program attaches to an order; NoReason is the empty text. */
  datatype Reason =
    | NoReason
    | BuyBlocked(text: string)
    | QuantityNotPositive
    | InsufficientCash
    | NoLivePosition
    | SubmittedToIbkr
    | ExecutionDisabled
    | LongOnlyGuard(text: string)
    | BrokerSaid(text: string)

  datatype Moment = Moment(at: string, status: string, reason: Reason)

  datatype Order = Order(key: OrderKey, symbol: string, side: string, orderType: string, limitPrice: Option<real>,
                         signalDate: string, configuration: string, strategyVersion: string, quantity: real,
                         submittedAt: Option<string>, ibkrOrderId: Option<int>, permId: Option<int>,
                         filled: real, remaining: real, averagePrice: Option<real>,
                         rejection: Reason, cancellationReason: string,
                         createdAt: string, updatedAt: string, status: string, history: seq<Moment>)

  /** What a broker report may bring along. */
  datatype Report = Report(ibkrOrderId: Option<int>, permId: Option<int>, filled: Option<real>, remaining: Option<real>,
                           averagePrice: Option<real>, rejection: Reason, cancellationReason: string)

  // ---------------------------------------------------------------------
  // Identities

  function LogicalOf(intent: Intent): Logical {
    Logical(CanonicalSymbol(intent.symbol), Upper(intent.side), Upper(intent.orderType), intent.signalDate,
            intent.configuration, intent.strategyVersion)
  }

  function KeyOf(intent: Intent): OrderKey {
    OrderKey(LogicalOf(intent), intent.limitPrice)
  }

  function OrderLogical(order: Order): Logical {
    Logical(CanonicalSymbol(order.symbol), Upper(order.side), Upper(order.orderType), order.signalDate,
            order.configuration, order.strategyVersion)
  }

  function SignalPart(logical: Logical): Signal {
    Signal(logical.symbol, logical.side, logical.signalDate, logical.strategyVersion)
  }

  function SignalOf(intent: Intent): Signal {
    SignalPart(LogicalOf(intent))
  }

  /** When two intents are the same order, the same order but for its price, and of the same signal. */
  lemma IdentityMeans(a: Intent, b: Intent)
    ensures var signal := CanonicalSymbol(a.symbol) == CanonicalSymbol(b.symbol) && Upper(a.side) == Upper(b.side)
      && a.signalDate == b.signalDate && a.strategyVersion == b.strategyVersion;
      var logical := signal && Upper(a.orderType) == Upper(b.orderType) && a.configuration == b.configuration;
      && (SignalOf(a) == SignalOf(b) <==> signal)
      && (LogicalOf(a) == LogicalOf(b) <==> logical)
      && (KeyOf(a) == KeyOf(b) <==> logical && a.limitPrice == b.limitPrice)
  {}

  // ---------------------------------------------------------------------
  // Statuses

  predicate NotSpace(c: char) {
    c != ' '
  }

  predicate NotUnderscore(c: char) {
    c != '_'
  }

  function NormalizeStatus(status: string, error: bool): string {
    var value := Upper(Filter(Strip(status), NotSpace));
    if error then "REJECTED"
    else if value == "PENDINGSUBMIT" then "PendingSubmit"
    else if value == "PRESUBMITTED" then "PreSubmitted"
    else if value == "SUBMITTED" then "Submitted"
    else if value == "PARTIALLYFILLED" then "PartiallyFilled"
    else if value == "FILLED" then "Filled"
    else if value == "CANCELLED" || value == "APICANCELLED" then "Cancelled"
    else if value == "INACTIVE" then "Inactive"
    else if value == "REJECTED" then "Rejected"
    else if status == "" then "Unknown"
    else status
  }

  predicate IsFilled(status: string) {
    var value := Upper(Filter(status, NotUnderscore));
    value == "FILLED" || value == "PARTIALLYFILLED"
  }

  predicate IsFinal(status: string) {
    var value := Upper(Filter(Filter(status, NotSpace), NotUnderscore));
    value == "FILLED" || value == "CANCELLED" || value == "APICANCELLED" || value == "INACTIVE" ||
    value == "REJECTED" || value == "UNCONFIRMED"
  }

  /** The spellings of a status, whatever their case, spaces and underscores. */
  lemma StatusMeans(status: string)
    ensures var plain := Upper(Filter(Strip(status), NotSpace));
      && (plain == "SUBMITTED" ==> NormalizeStatus(status, false) == "Submitted")
      && (plain == "PRESUBMITTED" ==> NormalizeStatus(status, false) == "PreSubmitted")
      && (plain == "PENDINGSUBMIT" ==> NormalizeStatus(status, false) == "PendingSubmit")
      && (plain == "FILLED" ==> NormalizeStatus(status, false) == "Filled")
      && (plain == "PARTIALLYFILLED" ==> NormalizeStatus(status, false) == "PartiallyFilled")
      && (plain in {"CANCELLED", "APICANCELLED"} ==> NormalizeStatus(status, false) == "Cancelled")
      && (plain == "INACTIVE" ==> NormalizeStatus(status, false) == "Inactive")
      && (plain == "REJECTED" ==> NormalizeStatus(status, false) == "Rejected")
      && (plain !in {"SUBMITTED", "PRESUBMITTED", "PENDINGSUBMIT", "FILLED", "PARTIALLYFILLED", "CANCELLED",
                     "APICANCELLED", "INACTIVE", "REJECTED"} ==>
            NormalizeStatus(status, false) == if status == "" then "Unknown" else status)
    ensures NormalizeStatus(status, true) == "REJECTED"
    ensures IsFilled(status) <==> Upper(Filter(status, (c: char) => c != '_')) in {"FILLED", "PARTIALLYFILLED"}
    ensures IsFinal(status) <==>
      Upper(Filter(Filter(status, (c: char) => c != ' '), (c: char) => c != '_')) in
        {"FILLED", "CANCELLED", "APICANCELLED", "INACTIVE", "REJECTED", "UNCONFIRMED"}
  {
    FilterAlike(status, NotUnderscore, (c: char) => c != '_');
    FilterAlike(status, NotSpace, (c: char) => c != ' ');
    FilterAlike(Filter(status, NotSpace), NotUnderscore, (c: char) => c != '_');
  }

  // ---------------------------------------------------------------------
  // One order

  const HISTORY_LIMIT := 50

  function Recent(history: seq<Moment>): seq<Moment> {
    if |history| > HISTORY_LIMIT then history[|history| - HISTORY_LIMIT..] else history
  }

  function NewOrder(intent: Intent, status: string, reason: Reason, now: string): Order {
    Order(KeyOf(intent), CanonicalSymbol(intent.symbol), Upper(intent.side), intent.orderType, intent.limitPrice,
          intent.signalDate, intent.configuration, intent.strategyVersion, intent.quantity,
          intent.submittedAt, None, None, 0.0, intent.quantity, None, intent.rejection, "",
          now, now, status, [Moment(now, status, reason)])
  }

  /** `existing.update(...)`: the row's values that are not None replace the order's. */
  function Refresh(order: Order, intent: Intent, status: string, reason: Reason, now: string): Order {
    var history :=
      if order.history == [] || order.history[|order.history| - 1].status != status || reason != NoReason
      then order.history + [Moment(now, status, reason)] else order.history;
    Order(KeyOf(intent), CanonicalSymbol(intent.symbol), Upper(intent.side), intent.orderType,
          if intent.limitPrice.Some? then intent.limitPrice else order.limitPrice,
          intent.signalDate, intent.configuration, intent.strategyVersion, intent.quantity,
          if intent.submittedAt.Some? then intent.submittedAt else order.submittedAt,
          order.ibkrOrderId, order.permId, 0.0, intent.quantity, order.averagePrice, intent.rejection, "",
          order.createdAt, now, status, Recent(history))
  }

  function Or<T>(new_: Option<T>, old_: Option<T>): Option<T> {
    if new_.Some? then new_ else old_
  }

  function Reported(order: Order, status: string, report: Report, now: string): Order {
    var normal := NormalizeStatus(status, false);
    order.(status := normal, updatedAt := now,
           ibkrOrderId := Or(report.ibkrOrderId, order.ibkrOrderId),
           permId := Or(report.permId, order.permId),
           filled := if report.filled.Some? then report.filled.value else order.filled,
           remaining := if report.remaining.Some? then report.remaining.value else order.remaining,
           averagePrice := Or(report.averagePrice, order.averagePrice),
           rejection := if report.rejection != NoReason then report.rejection else order.rejection,
           cancellationReason :=
             if report.cancellationReason != "" then report.cancellationReason else order.cancellationReason,
           history := Recent(order.history + [Moment(now, normal, report.rejection)]))
  }

  // ---------------------------------------------------------------------
  // The list of orders

  ghost predicate GoodOrder(order: Order) {
    && order.key.logical == OrderLogical(order)
    && 1 <= |order.history| <= HISTORY_LIMIT
    && order.history[|order.history| - 1].status == order.status
  }

  /** No two orders share a logical identity, so no two share a key. */
  ghost predicate Good(orders: seq<Order>) {
    && (forall i :: 0 <= i < |orders| ==> GoodOrder(orders[i]))
    && (forall i, j :: 0 <= i < j < |orders| ==> orders[i].key.logical != orders[j].key.logical)
  }

  function Logicals(orders: seq<Order>): set<Logical> {
    set i | 0 <= i < |orders| :: orders[i].key.logical
  }

  /** The place of the order with a logical identity; the end of the list if there is none. */
  function Place(orders: seq<Order>, logical: Logical): (i: nat)
    ensures i <= |orders|
    ensures i < |orders| ==> orders[i].key.logical == logical
    ensures forall j :: 0 <= j < i ==> orders[j].key.logical != logical
  {
    if orders == [] then 0
    else if orders[0].key.logical == logical then 0
    else
      var i := Place(orders[1..], logical);
      assert forall j :: 0 < j < i + 1 ==> orders[j] == orders[1..][j - 1];
      i + 1
  }

  /** The order with a logical identity. */
  function Lookup(orders: seq<Order>, logical: Logical): Option<Order> {
    var i := Place(orders, logical);
    if i < |orders| then Some(orders[i]) else None
  }

  /** Finding an order in a list that agrees on everything with another logical identity. */
  lemma PlaceUnchanged(orders: seq<Order>, after: seq<Order>, logical: Logical)
    requires |orders| <= |after|
    requires forall j :: 0 <= j < |orders| ==>
      after[j] == orders[j] || (orders[j].key.logical != logical && after[j].key.logical != logical)
    requires forall j :: |orders| <= j < |after| ==> after[j].key.logical != logical
    ensures Lookup(after, logical) == Lookup(orders, logical)
  {
    var (p, p') := (Place(orders, logical), Place(after, logical));
    assert p < |orders| ==> after[p] == orders[p];
  }

  lemma PlaceElsewhere(orders: seq<Order>, i: nat, order: Order, logical: Logical)
    requires i <= |orders| && order.key.logical != logical
    requires i < |orders| ==> orders[i].key.logical != logical
    ensures Lookup(if i < |orders| then orders[i := order] else orders + [order], logical) == Lookup(orders, logical)
  {
    PlaceUnchanged(orders, if i < |orders| then orders[i := order] else orders + [order], logical);
  }

  /** upsert_order_intent, as one rule on logical identities. */
  function Upserted(orders: seq<Order>, intent: Intent, status: string, reason: Reason, now: string): seq<Order> {
    var i := Place(orders, LogicalOf(intent));
    if i < |orders| then orders[i := Refresh(orders[i], intent, status, reason, now)]
    else orders + [NewOrder(intent, status, reason, now)]
  }

  /** update_order_status: a key that is no longer current finds nothing. */
  function Updated(orders: seq<Order>, key: OrderKey, status: string, report: Report, now: string): seq<Order> {
    var i := Place(orders, key.logical);
    if i < |orders| && orders[i].key == key then orders[i := Reported(orders[i], status, report, now)] else orders
  }

  /** Canonicalising the symbol and the side first does not change who the intent is. */
  function Normalized(intent: Intent): Intent {
    intent.(symbol := CanonicalSymbol(intent.symbol), side := Upper(intent.side))
  }

  lemma NormalizedIsSame(intent: Intent)
    ensures KeyOf(Normalized(intent)) == KeyOf(intent)
  {
    FixedIffCanonical(intent.symbol);
    assert Upper(Upper(intent.side)) == Upper(intent.side);
  }

  lemma NewOrderIsGood(intent: Intent, status: string, reason: Reason, now: string)
    ensures GoodOrder(NewOrder(intent, status, reason, now))
  {
    NormalizedIsSame(intent);
  }

  lemma RefreshIsGood(order: Order, intent: Intent, status: string, reason: Reason, now: string)
    requires GoodOrder(order)
    ensures GoodOrder(Refresh(order, intent, status, reason, now))
  {
    NormalizedIsSame(intent);
  }

  lemma ReportedIsGood(order: Order, status: string, report: Report, now: string)
    requires GoodOrder(order)
    ensures GoodOrder(Reported(order, status, report, now)) && Reported(order, status, report, now).key == order.key
  {}

  /** The older history, the oldest entries aside, is still there, with at most one entry more. */
  ghost predicate HistoryGrew(before: seq<Moment>, after: seq<Moment>) {
    exists dropped: nat, added: seq<Moment> {:trigger before[dropped..] + added} ::
      dropped <= |before| && |added| <= 1 && after == before[dropped..] + added
        && (dropped > 0 ==> |after| == HISTORY_LIMIT)
  }

  lemma RecentGrows(history: seq<Moment>, added: seq<Moment>)
    requires |history| <= HISTORY_LIMIT && |added| <= 1
    ensures HistoryGrew(history, Recent(history + added))
  {
    var dropped := if |history + added| > HISTORY_LIMIT then 1 else 0;
    assert Recent(history + added) == history[dropped..] + added;
  }

  /** Nothing is ever taken out of a history but its oldest entries, and an entry is added only
      for a new status or a reason. */
  lemma UpsertHistoryGrows(order: Order, intent: Intent, status: string, reason: Reason, now: string)
    requires GoodOrder(order)
    ensures HistoryGrew(order.history, Refresh(order, intent, status, reason, now).history)
    ensures status == order.status && reason == NoReason ==>
      Refresh(order, intent, status, reason, now).history == order.history
  {
    if status == order.status && reason == NoReason {
      RecentGrows(order.history, []);
      assert order.history + [] == order.history;
    } else {
      RecentGrows(order.history, [Moment(now, status, reason)]);
    }
  }

  /** A report changes only what it carries, and its entry ends the history. */
  lemma ReportKeepsTheRest(order: Order, status: string, report: Report, now: string)
    requires GoodOrder(order)
    ensures var (after, normal) := (Reported(order, status, report, now), NormalizeStatus(status, false));
      && after.status == normal && after.updatedAt == now && after.createdAt == order.createdAt
      && after.filled == (if report.filled.Some? then report.filled.value else order.filled)
      && after.remaining == (if report.remaining.Some? then report.remaining.value else order.remaining)
      && after.permId == (if report.permId.Some? then report.permId else order.permId)
      && after.ibkrOrderId == (if report.ibkrOrderId.Some? then report.ibkrOrderId else order.ibkrOrderId)
      && after.averagePrice == (if report.averagePrice.Some? then report.averagePrice else order.averagePrice)
      && after.rejection == (if report.rejection == NoReason then order.rejection else report.rejection)
      && after.cancellationReason ==
           (if report.cancellationReason == "" then order.cancellationReason else report.cancellationReason)
      && after.key == order.key && after.symbol == order.symbol && after.side == order.side
      && after.orderType == order.orderType && after.signalDate == order.signalDate
      && after.configuration == order.configuration && after.strategyVersion == order.strategyVersion
      && after.quantity == order.quantity && after.limitPrice == order.limitPrice
      && after.submittedAt == order.submittedAt
      && HistoryGrew(order.history, after.history)
      && after.history[|after.history| - 1] == Moment(now, normal, report.rejection)
  {
    RecentGrows(order.history, [Moment(now, NormalizeStatus(status, false), report.rejection)]);
  }

  /** The order as an intent leaves it: the whole quantity open again, and nothing filled. */
  ghost predicate Carries(order: Order, intent: Intent, status: string, reason: Reason, now: string) {
    && order.key == KeyOf(intent) && order.symbol == CanonicalSymbol(intent.symbol) && order.side == Upper(intent.side)
    && order.orderType == intent.orderType && order.signalDate == intent.signalDate
    && order.configuration == intent.configuration && order.strategyVersion == intent.strategyVersion
    && order.quantity == order.remaining == intent.quantity && order.filled == 0.0
    && order.rejection == intent.rejection && order.cancellationReason == ""
    && (intent.limitPrice.Some? ==> order.limitPrice == intent.limitPrice)
    && (intent.submittedAt.Some? ==> order.submittedAt == intent.submittedAt)
    && order.status == status && order.updatedAt == now
    && order.history != [] && order.history[|order.history| - 1].status == status
    && (reason != NoReason ==> order.history[|order.history| - 1] == Moment(now, status, reason))
  }

  /** What an upsert leaves alone: the time of creation and what the broker gave the order. */
  ghost predicate KeepsEvidence(was: Order, order: Order) {
    && order.createdAt == was.createdAt && order.permId == was.permId && order.ibkrOrderId == was.ibkrOrderId
    && order.averagePrice == was.averagePrice
  }

  ghost predicate BrandNew(order: Order, now: string) {
    order.createdAt == now && order.ibkrOrderId == order.permId == None && order.averagePrice == None
  }

  lemma RefreshCarries(order: Order, intent: Intent, status: string, reason: Reason, now: string)
    ensures Carries(Refresh(order, intent, status, reason, now), intent, status, reason, now)
    ensures KeepsEvidence(order, Refresh(order, intent, status, reason, now))
  {}

  lemma NewCarries(intent: Intent, status: string, reason: Reason, now: string)
    ensures Carries(NewOrder(intent, status, reason, now), intent, status, reason, now)
    ensures BrandNew(NewOrder(intent, status, reason, now), now)
  {}

  /** After an upsert the order with the intent's logical identity is the intent's: new, or with what
      the broker gave it before.  Every other order is what it was. */
  lemma UpsertedMeans(orders: seq<Order>, intent: Intent, status: string, reason: Reason, now: string, other: Logical)
    requires Good(orders)
    ensures var after := Upserted(orders, intent, status, reason, now);
      var (was, order) := (Lookup(orders, LogicalOf(intent)), Lookup(after, LogicalOf(intent)));
      && order.Some? && Carries(order.value, intent, status, reason, now)
      && (was.None? ==> BrandNew(order.value, now) && |after| == |orders| + 1)
      && (was.Some? ==> KeepsEvidence(was.value, order.value) && |after| == |orders|)
      && (other != LogicalOf(intent) ==> Lookup(after, other) == Lookup(orders, other))
  {
    var i := Place(orders, LogicalOf(intent));
    if i < |orders| {
      RefreshCarries(orders[i], intent, status, reason, now);
      PutAt(orders, i, Refresh(orders[i], intent, status, reason, now), other);
    } else {
      NewCarries(intent, status, reason, now);
      PutAt(orders, i, NewOrder(intent, status, reason, now), other);
    }
  }

  /** An order put at the place of its identity is found there, and the others where they were. */
  lemma PutAt(orders: seq<Order>, i: nat, order: Order, other: Logical)
    requires i == Place(orders, order.key.logical)
    ensures var after := if i < |orders| then orders[i := order] else orders + [order];
      && Lookup(after, order.key.logical) == Some(order)
      && (other != order.key.logical ==> Lookup(after, other) == Lookup(orders, other))
  {
    var after := if i < |orders| then orders[i := order] else orders + [order];
    assert after[i] == order && forall j :: 0 <= j < i ==> after[j] == orders[j];
    assert Place(after, order.key.logical) == i;
    if other != order.key.logical { PlaceElsewhere(orders, i, order, other); }
  }

  /** The order with that key, after a report. */
  ghost predicate Reports(orders: seq<Order>, after: seq<Order>, key: OrderKey, status: string, report: Report,
                          now: string) {
    exists i :: 0 <= i < |orders| && orders[i].key == key
      && Lookup(after, key.logical) == Some(Reported(orders[i], status, report, now))
  }

  /** A report reaches the order with its key, if that key is current, and no other order. */
  lemma UpdatedMeans(orders: seq<Order>, key: OrderKey, status: string, report: Report, now: string, other: Logical)
    requires Good(orders)
    ensures var after := Updated(orders, key, status, report, now);
      && |after| == |orders|
      && (if HasKey(orders, key) then Reports(orders, after, key, status, report, now) else after == orders)
      && (other != key.logical ==> Lookup(after, other) == Lookup(orders, other))
  {
    var i := Place(orders, key.logical);
    PlaceOfKey(orders, key);
    if HasKey(orders, key) { PutAt(orders, i, Reported(orders[i], status, report, now), other); }
  }

  predicate HasKey(orders: seq<Order>, key: OrderKey) {
    exists i :: 0 <= i < |orders| && orders[i].key == key
  }

  lemma PlaceOfKey(orders: seq<Order>, key: OrderKey)
    requires Good(orders)
    ensures var i := Place(orders, key.logical); HasKey(orders, key) <==> i < |orders| && orders[i].key == key
  {
    var i := Place(orders, key.logical);
    if HasKey(orders, key) {
      var j :| 0 <= j < |orders| && orders[j].key == key;
      assert i == j;
    }
  }

  lemma ReplacedIsGood(orders: seq<Order>, i: nat, order: Order)
    requires Good(orders) && i < |orders| && GoodOrder(order) && order.key.logical == orders[i].key.logical
    ensures Good(orders[i := order]) && Logicals(orders[i := order]) == Logicals(orders)
  {
    var orders' := orders[i := order];
    assert forall j :: 0 <= j < |orders| ==> orders'[j].key.logical == orders[j].key.logical;
  }

  lemma AppendedIsGood(orders: seq<Order>, order: Order)
    requires Good(orders) && GoodOrder(order) && order.key.logical !in Logicals(orders)
    ensures Good(orders + [order]) && Logicals(orders + [order]) == Logicals(orders) + {order.key.logical}
  {
    assert (orders + [order])[|orders|] == order;
    assert forall j :: 0 <= j < |orders| ==> (orders + [order])[j] == orders[j];
  }

  lemma UpsertedIsGood(orders: seq<Order>, intent: Intent, status: string, reason: Reason, now: string)
    requires Good(orders)
    ensures Good(Upserted(orders, intent, status, reason, now))
    ensures Logicals(Upserted(orders, intent, status, reason, now)) == Logicals(orders) + {LogicalOf(intent)}
  {
    var i := Place(orders, LogicalOf(intent));
    if i < |orders| {
      RefreshIsGood(orders[i], intent, status, reason, now);
      ReplacedIsGood(orders, i, Refresh(orders[i], intent, status, reason, now));
      assert orders[i].key.logical in Logicals(orders);
    } else {
      NewOrderIsGood(intent, status, reason, now);
      AppendedIsGood(orders, NewOrder(intent, status, reason, now));
    }
  }

  lemma UpdatedIsGood(orders: seq<Order>, key: OrderKey, status: string, report: Report, now: string)
    requires Good(orders)
    ensures Good(Updated(orders, key, status, report, now))
    ensures Logicals(Updated(orders, key, status, report, now)) == Logicals(orders)
  {
    var i := Place(orders, key.logical);
    if i < |orders| && orders[i].key == key {
      ReportedIsGood(orders[i], status, report, now);
      ReplacedIsGood(orders, i, Reported(orders[i], status, report, now));
    }
  }

  // ---------------------------------------------------------------------
  // Any run of the store

  datatype Change =
    | Upsert(intent: Intent, status: string, reason: Reason, now: string)
    | Update(key: OrderKey, status: string, report: Report, now: string)

  function Changed(orders: seq<Order>, change: Change): seq<Order> {
    match change
    case Upsert(intent, status, reason, now) => Upserted(orders, intent, status, reason, now)
    case Update(key, status, report, now) => Updated(orders, key, status, report, now)
  }

  function Replay(changes: seq<Change>): seq<Order> {
    if changes == [] then [] else Changed(Replay(changes[..|changes| - 1]), changes[|changes| - 1])
  }

  /** The logical identities that were ever upserted. */
  function Upserts(changes: seq<Change>): set<Logical> {
    set i | 0 <= i < |changes| && changes[i].Upsert? :: LogicalOf(changes[i].intent)
  }

  function UpsertOf(change: Change): set<Logical> {
    if change.Upsert? then {LogicalOf(change.intent)} else {}
  }

  lemma ChangedLogicals(orders: seq<Order>, change: Change)
    requires Good(orders)
    ensures Good(Changed(orders, change)) && Logicals(Changed(orders, change)) == Logicals(orders) + UpsertOf(change)
  {
    match change
    case Upsert(intent, status, reason, now) => UpsertedIsGood(orders, intent, status, reason, now);
    case Update(key, status, report, now) => UpdatedIsGood(orders, key, status, report, now);
  }

  lemma UpsertsGrow(changes: seq<Change>)
    requires changes != []
    ensures Upserts(changes) == Upserts(changes[..|changes| - 1]) + UpsertOf(changes[|changes| - 1])
  {
    var n := |changes| - 1;
    assert forall j :: 0 <= j < n ==> changes[..n][j] == changes[j];
  }

  lemma {:induction false} DistinctLogicals(orders: seq<Order>)
    requires forall i, j :: 0 <= i < j < |orders| ==> orders[i].key.logical != orders[j].key.logical
    ensures |Logicals(orders)| == |orders|
  {
    if orders != [] {
      var n := |orders| - 1;
      DistinctLogicals(orders[..n]);
      assert Logicals(orders) == Logicals(orders[..n]) + {orders[n].key.logical};
    }
  }

  lemma {:induction false} RunLogicals(changes: seq<Change>)
    ensures Good(Replay(changes)) && Logicals(Replay(changes)) == Upserts(changes)
  {
    if changes != [] {
      var n := |changes| - 1;
      var init := changes[..n];
      RunLogicals(init);
      ChangedLogicals(Replay(init), changes[n]);
      UpsertsGrow(changes);
    }
  }

  /** After any run from an empty store: one order per logical identity ever upserted, no two
      orders sharing a logical identity or a key, and every history ends with the current status. */
  lemma StoreInvariant(changes: seq<Change>)
    ensures var orders := Replay(changes);
      && |orders| == |Upserts(changes)|
      && (forall i, j :: 0 <= i < j < |orders| ==>
            orders[i].key != orders[j].key && OrderLogical(orders[i]) != OrderLogical(orders[j]))
      && (forall i :: 0 <= i < |orders| ==>
            && 1 <= |orders[i].history| <= 50
            && orders[i].history[|orders[i].history| - 1].status == orders[i].status)
  {
    RunLogicals(changes);
    DistinctLogicals(Replay(changes));
  }

  /** What is once known of an order is never forgotten, though it may become better known. */
  predicate Remembers(before: Order, after: Order) {
    && after.key.logical == before.key.logical && after.createdAt == before.createdAt
    && (before.ibkrOrderId.Some? ==> after.ibkrOrderId.Some?) && (before.permId.Some? ==> after.permId.Some?)
    && (before.averagePrice.Some? ==> after.averagePrice.Some?)
    && (before.submittedAt.Some? ==> after.submittedAt.Some?)
    && (before.limitPrice.Some? ==> after.limitPrice.Some?)
  }

  lemma RefreshRemembers(order: Order, intent: Intent, status: string, reason: Reason, now: string)
    requires order.key.logical == LogicalOf(intent)
    ensures Remembers(order, Refresh(order, intent, status, reason, now))
  {}

  lemma ReportRemembers(order: Order, status: string, report: Report, now: string)
    ensures Remembers(order, Reported(order, status, report, now))
  {}

  /** At most one order of the list is replaced, and the rest stay where they are. */
  lemma OneReplaced(orders: seq<Order>, p: nat, order: Order, i: nat)
    requires i < |orders| && (p < |orders| ==> Remembers(orders[p], order))
    ensures p < |orders| ==> Remembers(orders[i], orders[p := order][i])
    ensures Remembers(orders[i], (orders + [order])[i])
  {}

  lemma ChangeRemembers(orders: seq<Order>, change: Change, i: nat)
    requires i < |orders|
    ensures i < |Changed(orders, change)| && Remembers(orders[i], Changed(orders, change)[i])
  {
    match change
    case Upsert(intent, status, reason, now) =>
      var p := Place(orders, LogicalOf(intent));
      if p < |orders| {
        RefreshRemembers(orders[p], intent, status, reason, now);
        OneReplaced(orders, p, Refresh(orders[p], intent, status, reason, now), i);
      } else {
        OneReplaced(orders, p, NewOrder(intent, status, reason, now), i);
      }
    case Update(key, status, report, now) =>
      var p := Place(orders, key.logical);
      if p < |orders| && orders[p].key == key {
        ReportRemembers(orders[p], status, report, now);
        OneReplaced(orders, p, Reported(orders[p], status, report, now), i);
      }
  }

  /** Through any run an order keeps its place and all that was known of it. */
  lemma {:induction false} EvidenceStays(changes: seq<Change>, n: nat, i: nat)
    requires n <= |changes| && i < |Replay(changes[..n])|
    ensures i < |Replay(changes)| && Remembers(Replay(changes[..n])[i], Replay(changes)[i])
    decreases |changes|
  {
    if n == |changes| {
      assert changes[..n] == changes;
    } else {
      var init := changes[..|changes| - 1];
      assert init[..n] == changes[..n];
      EvidenceStays(init, n, i);
      ChangeRemembers(Replay(init), changes[|changes| - 1], i);
    }
  }

  // ---------------------------------------------------------------------
  // The store as the program keeps it

  datatype Position = Position(symbol: string, quantity: real)

  datatype OpenOrder = OpenOrder(symbol: string, side: string, status: string)

  datatype Duplicate =
    | NoDuplicate
    | CurrentPosition
    | CurrentOpenOrder
    | DryRunIntent
    | PersistedOrder
    | SameSignalOrder

  /** What the broker already shows for an intent. */
  predicate AtBroker(intent: Intent, positions: seq<Position>, openOrders: seq<OpenOrder>) {
    (IsBuy(intent) && Held(intent, positions)) || Opened(intent, openOrders)
  }

  predicate IsBuy(intent: Intent) {
    Upper(intent.side) == "BUY"
  }

  predicate Held(intent: Intent, positions: seq<Position>) {
    exists i :: 0 <= i < |positions| && Holds(positions[i], intent)
  }

  predicate Opened(intent: Intent, openOrders: seq<OpenOrder>) {
    exists i :: 0 <= i < |openOrders| && Opens(openOrders[i], intent)
  }

  predicate Holds(position: Position, intent: Intent) {
    CanonicalSymbol(position.symbol) == CanonicalSymbol(intent.symbol) && position.quantity > 0.0
  }

  predicate Opens(open: OpenOrder, intent: Intent) {
    && CanonicalSymbol(open.symbol) == CanonicalSymbol(intent.symbol)
    && Upper(open.side) == Upper(intent.side)
    && !IsFinal(open.status)
  }

  predicate Blocks(status: string, dryRun: bool) {
    IsFilled(status) || (dryRun && status == "NotTransmitted")
  }

  /** The store already holds an order for the same signal that was filled, or kept from the broker. */
  predicate InStore(orders: seq<Order>, signal: Signal, dryRun: bool) {
    exists i :: 0 <= i < |orders| && SignalPart(orders[i].key.logical) == signal && Blocks(orders[i].status, dryRun)
  }

  class Store {
    var orders: seq<Order>

    constructor ()
      ensures orders == []
    {
      orders := [];
    }

    method FindOrder(key: OrderKey) returns (found: Option<nat>)
      requires Good(orders)
      ensures found ==
        var i := Place(orders, key.logical); if i < |orders| && orders[i].key == key then Some(i) else None
    {
      for i := 0 to |orders|
        invariant forall j :: 0 <= j < i ==> orders[j].key != key
      {
        if orders[i].key == key { return Some(i); }
      }
      found := None;
    }

    method FindLogicalOrder(intent: Intent) returns (found: Option<nat>)
      requires Good(orders)
      ensures found == var i := Place(orders, LogicalOf(intent)); if i < |orders| then Some(i) else None
    {
      var logical := LogicalOf(intent);
      for i := 0 to |orders|
        invariant forall j :: 0 <= j < i ==> orders[j].key.logical != logical
      {
        assert GoodOrder(orders[i]);
        if OrderLogical(orders[i]) == logical { return Some(i); }
      }
      found := None;
    }

    method UpsertOrderIntent(intent: Intent, status: string, reason: Reason, now: string) returns (order: Order)
      requires Good(orders)
      modifies this
      ensures Good(orders) && orders == Upserted(old(orders), intent, status, reason, now)
      ensures order in orders && order.key == KeyOf(intent) && order.status == status
    {
      UpsertedIsGood(orders, intent, status, reason, now);
      NormalizedIsSame(intent);
      var row := Normalized(intent);
      var found := FindOrder(KeyOf(row));
      if found.None? {
        found := FindLogicalOrder(row);
      }
      if found.None? {
        order := NewOrder(intent, status, reason, now);
        orders := orders + [order];
      } else {
        order := Refresh(orders[found.value], intent, status, reason, now);
        orders := orders[found.value := order];
      }
    }

    method UpdateOrderStatus(key: OrderKey, status: string, report: Report, now: string) returns (known: bool)
      requires Good(orders)
      modifies this
      ensures Good(orders) && orders == Updated(old(orders), key, status, report, now)
      ensures known <==> HasKey(old(orders), key)
    {
      UpdatedIsGood(orders, key, status, report, now);
      PlaceOfKey(orders, key);
      var found := FindOrder(key);
      known := found.Some?;
      if known {
        orders := orders[found.value := Reported(orders[found.value], status, report, now)];
      }
    }

    /** find_duplicate: the store blocks an intent exactly through the orders of its signal,
        whatever their limit price, order type or configuration. */
    method FindDuplicate(intent: Intent, positions: seq<Position>, openOrders: seq<OpenOrder>, dryRun: bool)
      returns (duplicate: Duplicate)
      requires Good(orders)
      ensures duplicate == NoDuplicate <==>
        !AtBroker(intent, positions, openOrders) && !InStore(orders, SignalOf(intent), dryRun)
      ensures duplicate in {CurrentPosition, CurrentOpenOrder} <==> AtBroker(intent, positions, openOrders)
    {
      duplicate := FindAtBroker(intent, positions, openOrders);
      if duplicate == NoDuplicate {
        duplicate := FindPersisted(intent, dryRun);
      }
    }

    static method FindAtBroker(intent: Intent, positions: seq<Position>, openOrders: seq<OpenOrder>)
      returns (duplicate: Duplicate)
      ensures duplicate ==
        if IsBuy(intent) && Held(intent, positions) then CurrentPosition
        else if Opened(intent, openOrders) then CurrentOpenOrder
        else NoDuplicate
    {
      var held := IsHeld(intent, positions);
      if held && IsBuy(intent) { return CurrentPosition; }
      var open := IsOpened(intent, openOrders);
      duplicate := if open then CurrentOpenOrder else NoDuplicate;
    }

    static method IsHeld(intent: Intent, positions: seq<Position>) returns (held: bool)
      ensures held <==> Held(intent, positions)
    {
      for i := 0 to |positions|
        invariant forall j :: 0 <= j < i ==> !Holds(positions[j], intent)
      {
        held := Holds(positions[i], intent);
        if held { return; }
      }
      held := false;
    }

    static method IsOpened(intent: Intent, openOrders: seq<OpenOrder>) returns (open: bool)
      ensures open <==> Opened(intent, openOrders)
    {
      for i := 0 to |openOrders|
        invariant forall j :: 0 <= j < i ==> !Opens(openOrders[j], intent)
      {
        open := Opens(openOrders[i], intent);
        if open { return; }
      }
      open := false;
    }

    method FindPersisted(intent: Intent, dryRun: bool) returns (duplicate: Duplicate)
      requires Good(orders)
      ensures duplicate == NoDuplicate <==> !InStore(orders, SignalOf(intent), dryRun)
      ensures duplicate !in {CurrentPosition, CurrentOpenOrder}
    {
      var found := FindOrder(KeyOf(intent));
      if found.None? {
        found := FindLogicalOrder(intent);
      }
      if found.Some? {
        assert SignalPart(orders[found.value].key.logical) == SignalOf(intent);
        duplicate := Blocking(orders[found.value].status, dryRun, PersistedOrder);
        if duplicate != NoDuplicate { return; }
      }
      duplicate := FindSameSignal(intent, dryRun);
    }

    static method Blocking(status: string, dryRun: bool, filled: Duplicate) returns (duplicate: Duplicate)
      requires filled in {PersistedOrder, SameSignalOrder}
      ensures duplicate == NoDuplicate <==> !Blocks(status, dryRun)
      ensures duplicate in {NoDuplicate, DryRunIntent, filled}
    {
      if dryRun && status == "NotTransmitted" { return DryRunIntent; }
      duplicate := if IsFilled(status) then filled else NoDuplicate;
    }

    method FindSameSignal(intent: Intent, dryRun: bool) returns (duplicate: Duplicate)
      requires Good(orders)
      ensures duplicate == NoDuplicate <==> !InStore(orders, SignalOf(intent), dryRun)
      ensures duplicate !in {CurrentPosition, CurrentOpenOrder}
    {
      var signal := SignalOf(intent);
      for i := 0 to |orders|
        invariant !InStore(orders[..i], signal, dryRun)
      {
        InStoreStep(orders, i, signal, dryRun);
        if SignalPart(OrderLogical(orders[i])) == signal {
          duplicate := Blocking(orders[i].status, dryRun, SameSignalOrder);
          if duplicate != NoDuplicate { return; }
        }
      }
      assert orders[..|orders|] == orders;
      duplicate := NoDuplicate;
    }
  }

  lemma InStoreStep(orders: seq<Order>, i: nat, signal: Signal, dryRun: bool)
    requires i < |orders|
    ensures var here := SignalPart(orders[i].key.logical) == signal && Blocks(orders[i].status, dryRun);
      && (InStore(orders[..i + 1], signal, dryRun) <==> InStore(orders[..i], signal, dryRun) || here)
      && (here ==> InStore(orders, signal, dryRun))
  {
    var (shorter, longer) := (orders[..i], orders[..i + 1]);
    assert forall j :: 0 <= j < i ==> shorter[j] == longer[j];
    assert longer[i] == orders[i];
  }
}

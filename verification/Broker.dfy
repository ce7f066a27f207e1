/**
 The plan processor: each intent of a cycle is checked against the broker and
 the store, recorded, and perhaps transmitted; once all are placed, the broker's
 acknowledgements are recorded.
 */
module Broker {
  import opened OrderStore
  import opened Lists
  import Sizing
  import opened Symbols
  import opened Text
  import opened Wrappers

  /** One look at a placed order: its status, and the errors in its log joined together. */
  datatype Poll = Poll(status: string, errors: string, report: Report)

  datatype Ack = Ack(status: string, report: Report)

  /** What the broker does with an intent: the final guard may refuse a SELL, or else the
      order is placed and acknowledged. */
  datatype Reply = Reply(refusal: Option<string>, ack: Ack)

  /** The circumstances of one cycle. */
  datatype World = World(positions: seq<Position>, openOrders: seq<OpenOrder>, permitted: bool, now: string)

  datatype Pending = Pending(intent: Intent, key: OrderKey, ack: Ack)

  /** The store, the placed orders still to be acknowledged, and every intent that was
      transmitted to the broker so far. */
  datatype State = State(orders: seq<Order>, pending: seq<Pending>, sent: seq<Intent>)

  // ---------------------------------------------------------------------
  // Acknowledgement

  predicate Confirmed(status: string) {
    status == "PreSubmitted" || status == "Submitted" || status == "PartiallyFilled" || status == "Filled"
  }

  predicate Failed(status: string) {
    status == "Cancelled" || status == "Inactive" || status == "Rejected"
  }

  predicate Decisive(poll: Poll) {
    var status := NormalizeStatus(poll.status, false);
    poll.errors != "" || Confirmed(status) || Failed(status)
  }

  /** The acknowledgement that a decisive look gives, or the last one when time has run out. */
  function Verdict(poll: Poll): Ack {
    var status := NormalizeStatus(poll.status, false);
    if poll.errors != "" then Ack("Rejected", poll.report.(rejection := BrokerSaid(poll.errors)))
    else if Confirmed(status) then Ack(status, poll.report)
    else if Failed(status) then Ack(status, poll.report.(rejection := BrokerSaid(status)))
    else
      Ack("Unconfirmed",
          poll.report.(rejection := BrokerSaid("submission_not_confirmed_by_ibkr:last_status=" + status)))
  }

  /** The first decisive look, or the last look if none is. */
  predicate FirstDecisive(polls: seq<Poll>, i: int) {
    && 0 <= i < |polls|
    && (forall j :: 0 <= j < i ==> !Decisive(polls[j]))
    && (Decisive(polls[i]) || i == |polls| - 1)
  }

  /** What the deciding look makes of an order: an error in its log is a rejection, whatever the status; a
      confirmed status counts as it stands; a failed one gives its own reason; any other is unconfirmed. */
  ghost predicate Acknowledges(poll: Poll, ack: Ack) {
    var status := NormalizeStatus(poll.status, false);
    && (poll.errors != "" ==> ack.status == "Rejected" && ack.report.rejection == BrokerSaid(poll.errors))
    && (poll.errors == "" && IsConfirmation(status) ==> ack == Ack(status, poll.report))
    && (poll.errors == "" && IsFailure(status) ==> ack.status == status && ack.report.rejection == BrokerSaid(status))
    && (poll.errors == "" && !IsConfirmation(status) && !IsFailure(status) ==>
          && ack.status == "Unconfirmed"
          && ack.report.rejection == BrokerSaid("submission_not_confirmed_by_ibkr:last_status=" + status))
    && ack.report == poll.report.(rejection := ack.report.rejection)
  }

  predicate IsConfirmation(status: string) {
    status in {"PreSubmitted", "Submitted", "PartiallyFilled", "Filled"}
  }

  predicate IsFailure(status: string) {
    status in {"Cancelled", "Inactive", "Rejected"}
  }

  /** The look has nothing to say yet: no error, and a status that neither confirms nor fails. */
  predicate Silent(poll: Poll) {
    var status := NormalizeStatus(poll.status, false);
    poll.errors == "" && !IsConfirmation(status) && !IsFailure(status)
  }

  lemma VerdictMeaning(poll: Poll)
    ensures Acknowledges(poll, Verdict(poll)) && (Decisive(poll) <==> !Silent(poll))
    ensures Verdict(poll).status == "Unconfirmed" <==> Silent(poll)
  {
    assert !IsConfirmation("Unconfirmed") && !IsFailure("Unconfirmed") && "Rejected" != "Unconfirmed";
  }

  /** _wait_for_broker_ack over the looks it takes before its deadline: an order counts as
      confirmed only if the first decisive look shows it so, without an error. */
  method WaitForBrokerAck(polls: seq<Poll>) returns (ack: Ack)
    requires polls != []
    ensures exists i :: FirstDecisive(polls, i) && ack == Verdict(polls[i])
    ensures exists i :: FirstDecisive(polls, i) && Acknowledges(polls[i], ack)
    ensures ack.status == "Unconfirmed" <==> forall i :: 0 <= i < |polls| ==> Silent(polls[i])
    ensures Confirmed(ack.status) || Failed(ack.status) || ack.status == "Unconfirmed"
  {
    var i := 0;
    while i < |polls| - 1 && !Decisive(polls[i])
      invariant 0 <= i < |polls| && forall j :: 0 <= j < i ==> !Decisive(polls[j])
    {
      VerdictMeaning(polls[i]);
      i := i + 1;
    }
    ack := Verdict(polls[i]);
    forall j | 0 <= j <= i ensures Decisive(polls[j]) <==> !Silent(polls[j]) {
      VerdictMeaning(polls[j]);
    }
    assert FirstDecisive(polls, i);
  }

  // ---------------------------------------------------------------------
  // The steps of a cycle

  predicate IsDuplicate(orders: seq<Order>, intent: Intent, world: World) {
    AtBroker(intent, world.positions, world.openOrders) || InStore(orders, SignalOf(intent), !world.permitted)
  }

  const NOTHING := Report(None, None, None, None, None, NoReason, "")

  function Submission(intent: Intent, world: World): Intent {
    intent.(submittedAt := Some(world.now))
  }

  predicate IsSell(intent: Intent) {
    Upper(intent.side) == "SELL"
  }

  /** The loop body of process_order_plan. */
  function Handled(s: State, intent: Intent, world: World, reply: Reply): State {
    if IsDuplicate(s.orders, intent, world) then s
    else if intent.rejection != NoReason then
      s.(orders := Upserted(s.orders, intent, "Rejected", intent.rejection, world.now))
    else if !world.permitted then
      s.(orders := Upserted(s.orders, intent, "NotTransmitted", ExecutionDisabled, world.now))
    else Transmitted(s, intent, world, reply)
  }

  function Transmitted(s: State, intent: Intent, world: World, reply: Reply): State {
    var orders := Upserted(s.orders, Submission(intent, world), "PendingSubmit", SubmittedToIbkr, world.now);
    if IsSell(intent) && reply.refusal.Some? then
      s.(orders := Updated(orders, KeyOf(intent), "Rejected", NOTHING.(rejection := LongOnlyGuard(reply.refusal.value)),
                           world.now))
    else
      State(orders, s.pending + [Pending(intent, KeyOf(intent), reply.ack)], s.sent + [intent])
  }

  /** One acknowledgement, in the order in which the intents were placed. */
  function Acknowledged(s: State, now: string): State {
    if s.pending == [] then s
    else
      var p := s.pending[0];
      State(Updated(s.orders, p.key, p.ack.status, p.ack.report, now), s.pending[1..], s.sent)
  }

  /** How the report lists an intent; None is one that was placed, and is listed by its acknowledgement. */
  datatype Outcome = Duplicated | Refused | Kept | Submitted

  function OutcomeOf(s: State, intent: Intent, world: World, reply: Reply): Option<Outcome> {
    if IsDuplicate(s.orders, intent, world) then Some(Duplicated)
    else if intent.rejection != NoReason then Some(Refused)
    else if !world.permitted then Some(Kept)
    else if IsSell(intent) && reply.refusal.Some? then Some(Refused)
    else None
  }

  // ---------------------------------------------------------------------
  // Runs: any number of cycles, each of which may break off after any step

  datatype Event =
    | Begin
    | Handle(intent: Intent, world: World, reply: Reply)
    | Acknowledge(now: string)

  function After(s: State, e: Event): State {
    match e
    case Begin => s.(pending := [])
    case Handle(intent, world, reply) => Handled(s, intent, world, reply)
    case Acknowledge(now) => Acknowledged(s, now)
  }

  function Run(s: State, events: seq<Event>): State {
    if events == [] then s else After(Run(s, events[..|events| - 1]), events[|events| - 1])
  }

  /** The signals handled since the cycle began. */
  function Signals(events: seq<Event>): set<Signal> {
    if events == [] then {}
    else
      var e := events[|events| - 1];
      match e
      case Begin => {}
      case Handle(intent, _, _) => Signals(events[..|events| - 1]) + {SignalOf(intent)}
      case Acknowledge(_) => Signals(events[..|events| - 1])
  }

  /** No cycle handles a signal twice; distinct (symbol, side) pairs in each plan see to that. */
  ghost predicate OncePerCycle(events: seq<Event>) {
    events == [] ||
    var (init, e) := (events[..|events| - 1], events[|events| - 1]);
    OncePerCycle(init) && (e.Handle? ==> SignalOf(e.intent) !in Signals(init))
  }

  // ---------------------------------------------------------------------
  // The invariant

  function PendingSignal(p: Pending): Signal {
    SignalPart(p.key.logical)
  }

  /** Every order still to be acknowledged belongs to a signal of this cycle, different from
      the others', for which nothing has been filled yet. */
  ghost predicate Inv(s: State, handled: set<Signal>) {
    && Good(s.orders)
    && (forall i :: 0 <= i < |s.pending| ==>
          PendingSignal(s.pending[i]) in handled && !InStore(s.orders, PendingSignal(s.pending[i]), false))
    && (forall i, j :: 0 <= i < j < |s.pending| ==> PendingSignal(s.pending[i]) != PendingSignal(s.pending[j]))
  }

  // ---------------------------------------------------------------------
  // What one change of the store does to one signal and to one logical identity

  lemma PlainIsNotFilled(status: string)
    requires |status| != 6 && |status| != 15 && forall i :: 0 <= i < |status| ==> status[i] != '_'
    ensures !IsFilled(status)
  {
    FilterAll(status, NotUnderscore);
    assert |"FILLED"| == 6 && |"PARTIALLYFILLED"| == 15;
  }

  lemma RejectedIsNormal()
    ensures NormalizeStatus("Rejected", false) == "Rejected"
  {
    var s := "Rejected";
    assert Strip(s) == s;
    FilterAll(s, NotSpace);
    assert Upper(s) == "REJECTED";
  }

  lemma UpsertKeepsSignal(orders: seq<Order>, intent: Intent, status: string, reason: Reason, now: string,
                          signal: Signal)
    requires Good(orders) && !InStore(orders, signal, false) && (SignalOf(intent) == signal ==> !IsFilled(status))
    ensures !InStore(Upserted(orders, intent, status, reason, now), signal, false)
  {
    var i := Place(orders, LogicalOf(intent));
    var orders' := Upserted(orders, intent, status, reason, now);
    assert orders'[i].key.logical == LogicalOf(intent) && orders'[i].status == status;
    assert forall j :: 0 <= j < |orders| && j != i ==> orders'[j] == orders[j];
  }

  lemma UpdateKeepsSignal(orders: seq<Order>, key: OrderKey, status: string, report: Report, now: string,
                          signal: Signal)
    requires Good(orders) && !InStore(orders, signal, false)
    requires SignalPart(key.logical) == signal ==> !IsFilled(NormalizeStatus(status, false))
    ensures !InStore(Updated(orders, key, status, report, now), signal, false)
  {
    var i := Place(orders, key.logical);
    var orders' := Updated(orders, key, status, report, now);
    assert |orders'| == |orders| && forall j :: 0 <= j < |orders| && j != i ==> orders'[j] == orders[j];
    assert i < |orders| && orders[i].key == key ==>
      orders'[i].key == key && orders'[i].status == NormalizeStatus(status, false);
  }

  lemma UpsertElsewhere(orders: seq<Order>, intent: Intent, status: string, reason: Reason, now: string,
                        logical: Logical)
    requires Good(orders) && LogicalOf(intent) != logical
    ensures Lookup(Upserted(orders, intent, status, reason, now), logical) == Lookup(orders, logical)
  {
    var i := Place(orders, LogicalOf(intent));
    PlaceElsewhere(orders, i, Upserted(orders, intent, status, reason, now)[i], logical);
  }

  lemma UpdateElsewhere(orders: seq<Order>, key: OrderKey, status: string, report: Report, now: string,
                        logical: Logical)
    requires Good(orders) && key.logical != logical
    ensures Lookup(Updated(orders, key, status, report, now), logical) == Lookup(orders, logical)
  {
    var i := Place(orders, key.logical);
    if i < |orders| && orders[i].key == key {
      PlaceElsewhere(orders, i, Updated(orders, key, status, report, now)[i], logical);
    }
  }

  lemma FilledIsInStore(orders: seq<Order>, logical: Logical, dryRun: bool)
    requires Lookup(orders, logical).Some? && IsFilled(Lookup(orders, logical).value.status)
    ensures InStore(orders, SignalPart(logical), dryRun)
  {
    var i := Place(orders, logical);
    assert Blocks(orders[i].status, dryRun);
  }

  // ---------------------------------------------------------------------
  // What one step of a cycle does

  /** The store after an intent that is no duplicate has been recorded, whatever the outcome. */
  lemma RecordedIsGood(s: State, intent: Intent, world: World, reply: Reply)
    requires Good(s.orders)
    ensures Good(Handled(s, intent, world, reply).orders)
  {
    if !IsDuplicate(s.orders, intent, world) {
      if intent.rejection != NoReason {
        UpsertedIsGood(s.orders, intent, "Rejected", intent.rejection, world.now);
      } else if !world.permitted {
        UpsertedIsGood(s.orders, intent, "NotTransmitted", ExecutionDisabled, world.now);
      } else {
        var orders := Upserted(s.orders, Submission(intent, world), "PendingSubmit", SubmittedToIbkr, world.now);
        UpsertedIsGood(s.orders, Submission(intent, world), "PendingSubmit", SubmittedToIbkr, world.now);
        if reply.refusal.Some? {
          UpdatedIsGood(orders, KeyOf(intent), "Rejected", NOTHING.(rejection := LongOnlyGuard(reply.refusal.value)),
                        world.now);
        }
      }
    }
  }

  lemma SubmissionIsSame(intent: Intent, world: World)
    ensures KeyOf(Submission(intent, world)) == KeyOf(intent)
    ensures LogicalOf(Submission(intent, world)) == LogicalOf(intent)
  {}

  lemma HandledElsewhere(s: State, intent: Intent, world: World, reply: Reply, logical: Logical)
    requires Good(s.orders) && LogicalOf(intent) != logical
    ensures Lookup(Handled(s, intent, world, reply).orders, logical) == Lookup(s.orders, logical)
  {
    if !IsDuplicate(s.orders, intent, world) {
      if intent.rejection != NoReason {
        UpsertElsewhere(s.orders, intent, "Rejected", intent.rejection, world.now, logical);
      } else if !world.permitted {
        UpsertElsewhere(s.orders, intent, "NotTransmitted", ExecutionDisabled, world.now, logical);
      } else {
        SubmissionIsSame(intent, world);
        var orders := Upserted(s.orders, Submission(intent, world), "PendingSubmit", SubmittedToIbkr, world.now);
        UpsertElsewhere(s.orders, Submission(intent, world), "PendingSubmit", SubmittedToIbkr, world.now, logical);
        UpsertedIsGood(s.orders, Submission(intent, world), "PendingSubmit", SubmittedToIbkr, world.now);
        if reply.refusal.Some? {
          UpdateElsewhere(orders, KeyOf(intent), "Rejected", NOTHING.(rejection := LongOnlyGuard(reply.refusal.value)),
                          world.now, logical);
        }
      }
    }
  }

  lemma NoneOfTheseIsFilled()
    ensures !IsFilled("Rejected") && !IsFilled("NotTransmitted") && !IsFilled("PendingSubmit")
    ensures !IsFilled(NormalizeStatus("Rejected", false))
  {
    PlainIsNotFilled("Rejected");
    PlainIsNotFilled("NotTransmitted");
    PlainIsNotFilled("PendingSubmit");
    RejectedIsNormal();
  }

  /** Handling an intent never makes a signal look filled. */
  lemma HandledKeepsSignal(s: State, intent: Intent, world: World, reply: Reply, signal: Signal)
    requires Good(s.orders) && !InStore(s.orders, signal, false)
    ensures !InStore(Handled(s, intent, world, reply).orders, signal, false)
  {
    if !IsDuplicate(s.orders, intent, world) {
      NoneOfTheseIsFilled();
      if intent.rejection != NoReason {
        UpsertKeepsSignal(s.orders, intent, "Rejected", intent.rejection, world.now, signal);
      } else if !world.permitted {
        UpsertKeepsSignal(s.orders, intent, "NotTransmitted", ExecutionDisabled, world.now, signal);
      } else {
        var orders := Upserted(s.orders, Submission(intent, world), "PendingSubmit", SubmittedToIbkr, world.now);
        UpsertKeepsSignal(s.orders, Submission(intent, world), "PendingSubmit", SubmittedToIbkr, world.now, signal);
        UpsertedIsGood(s.orders, Submission(intent, world), "PendingSubmit", SubmittedToIbkr, world.now);
        if reply.refusal.Some? {
          UpdateKeepsSignal(orders, KeyOf(intent), "Rejected",
                            NOTHING.(rejection := LongOnlyGuard(reply.refusal.value)), world.now, signal);
        }
      }
    }
  }

  /** Handling an intent leaves every filled order alone and sends nothing for its signal. */
  lemma HandledKeepsFilled(s: State, intent: Intent, world: World, reply: Reply, logical: Logical)
    requires Good(s.orders) && Lookup(s.orders, logical).Some? && IsFilled(Lookup(s.orders, logical).value.status)
    ensures var s' := Handled(s, intent, world, reply);
      && Lookup(s'.orders, logical) == Lookup(s.orders, logical)
      && (s'.sent == s.sent || (s'.sent == s.sent + [intent] && SignalOf(intent) != SignalPart(logical)))
  {
    FilledIsInStore(s.orders, logical, !world.permitted);
    if SignalOf(intent) == SignalPart(logical) {
      assert IsDuplicate(s.orders, intent, world);
    } else {
      HandledElsewhere(s, intent, world, reply, logical);
    }
  }

  lemma HandledInv(s: State, handled: set<Signal>, intent: Intent, world: World, reply: Reply)
    requires Inv(s, handled) && SignalOf(intent) !in handled
    ensures Inv(Handled(s, intent, world, reply), handled + {SignalOf(intent)})
  {
    var s' := Handled(s, intent, world, reply);
    RecordedIsGood(s, intent, world, reply);
    forall i | 0 <= i < |s'.pending|
      ensures PendingSignal(s'.pending[i]) in handled + {SignalOf(intent)}
      ensures !InStore(s'.orders, PendingSignal(s'.pending[i]), false)
    {
      if i < |s.pending| {
        HandledKeepsSignal(s, intent, world, reply, PendingSignal(s.pending[i]));
      } else {
        HandledKeepsSignal(s, intent, world, reply, SignalOf(intent));
      }
    }
  }

  lemma AcknowledgedInv(s: State, handled: set<Signal>, now: string)
    requires Inv(s, handled)
    ensures Inv(Acknowledged(s, now), handled)
  {
    if s.pending != [] {
      var p := s.pending[0];
      UpdatedIsGood(s.orders, p.key, p.ack.status, p.ack.report, now);
      forall i | 0 < i < |s.pending|
        ensures !InStore(Acknowledged(s, now).orders, PendingSignal(s.pending[i]), false)
      {
        UpdateKeepsSignal(s.orders, p.key, p.ack.status, p.ack.report, now, PendingSignal(s.pending[i]));
      }
    }
  }

  lemma AcknowledgedKeepsFilled(s: State, handled: set<Signal>, now: string, logical: Logical)
    requires Inv(s, handled) && Lookup(s.orders, logical).Some? && IsFilled(Lookup(s.orders, logical).value.status)
    ensures Lookup(Acknowledged(s, now).orders, logical) == Lookup(s.orders, logical)
  {
    if s.pending != [] {
      var p := s.pending[0];
      FilledIsInStore(s.orders, logical, false);
      assert PendingSignal(p) != SignalPart(logical);
      UpdateElsewhere(s.orders, p.key, p.ack.status, p.ack.report, now, logical);
    }
  }

  lemma {:induction false} RunInv(s: State, events: seq<Event>)
    requires Good(s.orders) && s.pending == [] && OncePerCycle(events)
    ensures Inv(Run(s, events), Signals(events))
  {
    if events != [] {
      var (init, e) := (events[..|events| - 1], events[|events| - 1]);
      RunInv(s, init);
      match e
      case Begin =>
      case Handle(intent, world, reply) => HandledInv(Run(s, init), Signals(init), intent, world, reply);
      case Acknowledge(now) => AcknowledgedInv(Run(s, init), Signals(init), now);
    }
  }

  /** Once an order is filled or partially filled, no later step of any cycle touches it, and
      nothing more is transmitted for its symbol, side, signal date and strategy version,
      whatever limit price, order type or configuration the intent carries. */
  lemma {:induction false} FilledIsFinal(s: State, events: seq<Event>, n: nat, logical: Logical)
    requires Good(s.orders) && s.pending == [] && OncePerCycle(events) && n <= |events|
    requires var then_ := Lookup(Run(s, events[..n]).orders, logical); then_.Some? && IsFilled(then_.value.status)
    ensures Lookup(Run(s, events).orders, logical) == Lookup(Run(s, events[..n]).orders, logical)
    ensures var (before, after) := (Run(s, events[..n]).sent, Run(s, events).sent);
      before <= after && forall k :: |before| <= k < |after| ==> SignalOf(after[k]) != SignalPart(logical)
    decreases |events|
  {
    if n == |events| {
      assert events[..n] == events;
    } else {
      var (init, e) := (events[..|events| - 1], events[|events| - 1]);
      assert init[..n] == events[..n];
      FilledIsFinal(s, init, n, logical);
      RunInv(s, init);
      match e
      case Begin =>
      case Handle(intent, world, reply) => HandledKeepsFilled(Run(s, init), intent, world, reply, logical);
      case Acknowledge(now) => AcknowledgedKeepsFilled(Run(s, init), Signals(init), now, logical);
    }
  }

  // ---------------------------------------------------------------------
  // One plan as a run of events

  function Handles(intents: seq<Intent>, world: World, replies: seq<Reply>): seq<Event>
    requires |replies| == |intents|
  {
    if intents == [] then []
    else
      var n := |intents| - 1;
      Handles(intents[..n], world, replies[..n]) + [Handle(intents[n], world, replies[n])]
  }

  function Acknowledgements(n: nat, now: string): seq<Event> {
    if n == 0 then [] else Acknowledgements(n - 1, now) + [Acknowledge(now)]
  }

  /** The state once all intents have been handled, and once all placed ones have been acknowledged. */
  function Placed(s: State, intents: seq<Intent>, world: World, replies: seq<Reply>): State
    requires |replies| == |intents|
  {
    Run(After(s, Begin), Handles(intents, world, replies))
  }

  function Completed(s: State, intents: seq<Intent>, world: World, replies: seq<Reply>): State
    requires |replies| == |intents|
  {
    var placed := Placed(s, intents, world, replies);
    Run(placed, Acknowledgements(|placed.pending|, world.now))
  }

  ghost predicate DistinctSides(intents: seq<Intent>) {
    forall i, j :: 0 <= i < j < |intents| ==>
      CanonicalSymbol(intents[i].symbol) != CanonicalSymbol(intents[j].symbol)
        || Upper(intents[i].side) != Upper(intents[j].side)
  }

  function SignalsOf(intents: seq<Intent>): set<Signal> {
    set i | 0 <= i < |intents| :: SignalOf(intents[i])
  }

  lemma Regroup(a: seq<Event>, b: seq<Event>, e: Event)
    ensures a + (b + [e]) == a + b + [e]
  {}

  lemma FrontAndLast(events: seq<Event>, e: Event)
    ensures (events + [e])[..|events + [e]| - 1] == events
    ensures (events + [e])[|events + [e]| - 1] == e
  {}

  lemma SignalsStep(events: seq<Event>, e: Event)
    ensures Signals(events + [e]) ==
      if e.Begin? then {} else if e.Handle? then Signals(events) + {SignalOf(e.intent)} else Signals(events)
  {
    FrontAndLast(events, e);
  }

  lemma OneMore(events: seq<Event>, e: Event)
    requires OncePerCycle(events) && (e.Handle? ==> SignalOf(e.intent) !in Signals(events))
    ensures OncePerCycle(events + [e])
  {
    FrontAndLast(events, e);
  }

  /** A plan with distinct (symbol, side) pairs meets the premise of FilledIsFinal, after any earlier run. */
  lemma {:induction false} PlansAreOncePerCycle(events: seq<Event>, intents: seq<Intent>, world: World,
                                                replies: seq<Reply>)
    requires |replies| == |intents| && DistinctSides(intents) && OncePerCycle(events)
    ensures var plan := events + [Begin] + Handles(intents, world, replies);
      OncePerCycle(plan) && Signals(plan) == SignalsOf(intents)
  {
    if intents == [] {
      OneMore(events, Begin);
      SignalsStep(events, Begin);
      assert events + [Begin] + [] == events + [Begin];
    } else {
      var n := |intents| - 1;
      var init := intents[..n];
      assert forall i :: 0 <= i < n ==> init[i] == intents[i];
      PlansAreOncePerCycle(events, init, world, replies[..n]);
      SignalIsNew(intents);
      var (begun, e) := (events + [Begin], Handle(intents[n], world, replies[n]));
      OneMore(begun + Handles(init, world, replies[..n]), e);
      SignalsStep(begun + Handles(init, world, replies[..n]), e);
      Regroup(begun, Handles(init, world, replies[..n]), e);
    }
  }

  lemma SignalIsNew(intents: seq<Intent>)
    requires intents != [] && DistinctSides(intents)
    ensures SignalOf(intents[|intents| - 1]) !in SignalsOf(intents[..|intents| - 1])
    ensures SignalsOf(intents) == SignalsOf(intents[..|intents| - 1]) + {SignalOf(intents[|intents| - 1])}
  {
    var n := |intents| - 1;
    assert forall i :: 0 <= i < n ==> intents[..n][i] == intents[i];
    assert forall i :: 0 <= i < n ==> SignalOf(intents[i]) != SignalOf(intents[n]);
  }

  lemma {:induction false} AcknowledgementsAreFree(events: seq<Event>, n: nat, now: string)
    requires OncePerCycle(events)
    ensures OncePerCycle(events + Acknowledgements(n, now))
  {
    if n == 0 {
      assert events + [] == events;
    } else {
      AcknowledgementsAreFree(events, n - 1, now);
      var (acks, e) := (Acknowledgements(n - 1, now), Acknowledge(now));
      OneMore(events + acks, e);
      Regroup(events, acks, e);
    }
  }

  lemma {:induction false} RunConcat(s: State, a: seq<Event>, b: seq<Event>)
    ensures Run(s, a + b) == Run(Run(s, a), b)
  {
    if b == [] {
      assert a + b == a;
    } else {
      var n := |b| - 1;
      assert (a + b)[..|a + b| - 1] == a + b[..n];
      RunConcat(s, a, b[..n]);
    }
  }

  function PlanEvents(s: State, intents: seq<Intent>, world: World, replies: seq<Reply>): seq<Event>
    requires |replies| == |intents|
  {
    [Begin] + Handles(intents, world, replies) +
    Acknowledgements(|Placed(s, intents, world, replies).pending|, world.now)
  }

  /** What process_order_plan does to the state is a run of the events of one cycle. */
  lemma CompletedIsRun(s: State, intents: seq<Intent>, world: World, replies: seq<Reply>)
    requires |replies| == |intents|
    ensures Completed(s, intents, world, replies) == Run(s, PlanEvents(s, intents, world, replies))
  {
    var handles := Handles(intents, world, replies);
    assert Run(s, []) == s;
    assert [Begin][..0] == [];
    assert Run(s, [Begin]) == After(s, Begin);
    RunConcat(s, [Begin], handles);
    RunConcat(s, [Begin] + handles, Acknowledgements(|Placed(s, intents, world, replies).pending|, world.now));
  }

  lemma LastHandled(s: State, intents: seq<Intent>, world: World, replies: seq<Reply>)
    requires |replies| == |intents| && intents != []
    ensures var n := |intents| - 1;
      Placed(s, intents, world, replies) ==
        Handled(Placed(s, intents[..n], world, replies[..n]), intents[n], world, replies[n])
  {
    PlacedStep(s, intents, world, replies, |intents| - 1);
    assert intents[..|intents|] == intents && replies[..|intents|] == replies;
  }

  lemma HandledUnpermitted(s: State, intent: Intent, world: World, reply: Reply)
    requires !world.permitted
    ensures Handled(s, intent, world, reply).sent == s.sent && Handled(s, intent, world, reply).pending == s.pending
  {}

  datatype Plan = Plan(intents: seq<Intent>, world: World, replies: seq<Reply>)

  ghost predicate Wellformed(plan: Plan) {
    |plan.replies| == |plan.intents| && DistinctSides(plan.intents)
  }

  ghost predicate AllWellformed(plans: seq<Plan>) {
    forall i :: 0 <= i < |plans| ==> Wellformed(plans[i])
  }

  /** The state after process_order_plan has been called for each of the plans. */
  ghost function AfterPlans(s: State, plans: seq<Plan>): State
    requires AllWellformed(plans)
  {
    if plans == [] then s
    else
      var plan := plans[|plans| - 1];
      Completed(AfterPlans(s, plans[..|plans| - 1]), plan.intents, plan.world, plan.replies)
  }

  ghost function EventsOf(s: State, plans: seq<Plan>): seq<Event>
    requires AllWellformed(plans)
  {
    if plans == [] then []
    else
      var (init, plan) := (plans[..|plans| - 1], plans[|plans| - 1]);
      EventsOf(s, init) + PlanEvents(AfterPlans(s, init), plan.intents, plan.world, plan.replies)
  }

  lemma OnePlanIsOncePerCycle(events: seq<Event>, s: State, plan: Plan)
    requires Wellformed(plan) && OncePerCycle(events)
    ensures OncePerCycle(events + PlanEvents(s, plan.intents, plan.world, plan.replies))
  {
    var handles := Handles(plan.intents, plan.world, plan.replies);
    var n := |Placed(s, plan.intents, plan.world, plan.replies).pending|;
    PlansAreOncePerCycle(events, plan.intents, plan.world, plan.replies);
    AcknowledgementsAreFree(events + [Begin] + handles, n, plan.world.now);
    RegroupAll(events, [Begin], handles, Acknowledgements(n, plan.world.now));
  }

  lemma RegroupAll(a: seq<Event>, b: seq<Event>, c: seq<Event>, d: seq<Event>)
    ensures a + (b + c + d) == a + b + c + d
  {}

  lemma {:induction false} PlansAreEvents(s: State, plans: seq<Plan>)
    requires AllWellformed(plans)
    ensures OncePerCycle(EventsOf(s, plans)) && Run(s, EventsOf(s, plans)) == AfterPlans(s, plans)
  {
    if plans != [] {
      var (init, plan) := (plans[..|plans| - 1], plans[|plans| - 1]);
      PlansAreEvents(s, init);
      OnePlanIsOncePerCycle(EventsOf(s, init), AfterPlans(s, init), plan);
      CompletedIsRun(AfterPlans(s, init), plan.intents, plan.world, plan.replies);
      RunConcat(s, EventsOf(s, init), PlanEvents(AfterPlans(s, init), plan.intents, plan.world, plan.replies));
    }
  }

  lemma {:induction false} EarlierEvents(s: State, plans: seq<Plan>, m: nat)
    requires AllWellformed(plans) && m <= |plans|
    ensures EventsOf(s, plans[..m]) <= EventsOf(s, plans)
    decreases |plans|
  {
    if m == |plans| {
      assert plans[..m] == plans;
    } else {
      EarlierEvents(s, plans[..|plans| - 1], m);
      assert plans[..|plans| - 1][..m] == plans[..m];
    }
  }

  lemma EarlierRun(s: State, plans: seq<Plan>, m: nat) returns (n: nat)
    requires AllWellformed(plans) && m <= |plans|
    ensures var events := EventsOf(s, plans);
      && OncePerCycle(events) && n <= |events|
      && Run(s, events) == AfterPlans(s, plans) && Run(s, events[..n]) == AfterPlans(s, plans[..m])
  {
    PlansAreEvents(s, plans);
    PlansAreEvents(s, plans[..m]);
    EarlierEvents(s, plans, m);
    n := |EventsOf(s, plans[..m])|;
    assert EventsOf(s, plans)[..n] == EventsOf(s, plans[..m]);
  }

  /** Across any sequence of process_order_plan calls with distinct (symbol, side) pairs in each
      plan: an order that is filled or partially filled after one of them is the same after all
      later ones, and none of those transmits anything for its signal. */
  lemma FilledStaysFilled(s: State, plans: seq<Plan>, m: nat, logical: Logical)
    requires Good(s.orders) && s.pending == [] && AllWellformed(plans) && m <= |plans|
    requires var then_ := Lookup(AfterPlans(s, plans[..m]).orders, logical); then_.Some? && IsFilled(then_.value.status)
    ensures var (before, after) := (AfterPlans(s, plans[..m]), AfterPlans(s, plans));
      && Lookup(after.orders, logical) == Lookup(before.orders, logical)
      && before.sent <= after.sent
      && forall k :: |before.sent| <= k < |after.sent| ==> SignalOf(after.sent[k]) != SignalPart(logical)
  {
    var n := EarlierRun(s, plans, m);
    FilledIsFinal(s, EventsOf(s, plans), n, logical);
  }

  /** Without permission nothing reaches the broker. */
  lemma {:induction false} NothingIsSentUnpermitted(s: State, intents: seq<Intent>, world: World, replies: seq<Reply>)
    requires |replies| == |intents| && !world.permitted
    ensures Placed(s, intents, world, replies).sent == s.sent && Placed(s, intents, world, replies).pending == []
  {
    if intents != [] {
      var n := |intents| - 1;
      NothingIsSentUnpermitted(s, intents[..n], world, replies[..n]);
      HandledUnpermitted(Placed(s, intents[..n], world, replies[..n]), intents[n], world, replies[n]);
      LastHandled(s, intents, world, replies);
    }
  }

  // ---------------------------------------------------------------------
  // What is transmitted, and what is recorded

  /** No order of the intent's symbol, side, signal date and strategy version was filled, or kept from the
      broker when that counts. */
  ghost predicate NotInStore(orders: seq<Order>, intent: Intent, dryRun: bool) {
    forall i :: 0 <= i < |orders| && SignalPart(orders[i].key.logical) == SignalOf(intent) ==>
      !IsFilled(orders[i].status) && !(dryRun && orders[i].status == "NotTransmitted")
  }

  /** The broker shows no long position, for a BUY, and no open order for the intent's symbol and side. */
  ghost predicate NotAtBroker(intent: Intent, world: World) {
    && (Upper(intent.side) == "BUY" ==> forall i ::
          0 <= i < |world.positions| && CanonicalSymbol(world.positions[i].symbol) == CanonicalSymbol(intent.symbol) ==>
            world.positions[i].quantity <= 0.0)
    && (forall i ::
          0 <= i < |world.openOrders| && CanonicalSymbol(world.openOrders[i].symbol) == CanonicalSymbol(intent.symbol)
            && Upper(world.openOrders[i].side) == Upper(intent.side) ==>
            IsFinal(world.openOrders[i].status))
  }

  lemma DuplicateMeaning(orders: seq<Order>, intent: Intent, world: World)
    ensures IsDuplicate(orders, intent, world) <==>
      !NotAtBroker(intent, world) || !NotInStore(orders, intent, !world.permitted)
  {}

  /** What must hold for an intent to go out. */
  ghost predicate MayBeSent(orders: seq<Order>, intent: Intent, world: World, reply: Reply) {
    && intent.rejection == NoReason && world.permitted
    && NotAtBroker(intent, world) && NotInStore(orders, intent, false)
    && (Upper(intent.side) == "SELL" ==> reply.refusal.None?)
  }

  /** An intent is transmitted exactly if sizing did not reject it, transmission is permitted, neither the
      broker nor the store has it already, and, for a SELL, the final guard lets it through. */
  lemma SentIff(s: State, intent: Intent, world: World, reply: Reply)
    ensures Handled(s, intent, world, reply).sent ==
      if MayBeSent(s.orders, intent, world, reply) then s.sent + [intent] else s.sent
  {
    DuplicateMeaning(s.orders, intent, world);
  }

  /** The list that an intent ends in when it is not placed, and that it is placed exactly if it may be sent. */
  lemma OutcomeMeaning(s: State, intent: Intent, world: World, reply: Reply)
    ensures var (outcome, known) := (OutcomeOf(s, intent, world, reply),
                                     !NotAtBroker(intent, world) || !NotInStore(s.orders, intent, !world.permitted));
      && (outcome == None <==> MayBeSent(s.orders, intent, world, reply))
      && (outcome == Some(Duplicated) <==> known)
      && (outcome == Some(Kept) <==> !known && intent.rejection == NoReason && !world.permitted)
      && outcome != Some(Submitted)
  {
    DuplicateMeaning(s.orders, intent, world);
  }

  /** Over any run, nothing is taken back, and whatever went out met those conditions when it did; so in
      particular no intent that sizing rejected is ever transmitted. */
  lemma {:induction false} OnlyAllowedIsSent(s: State, events: seq<Event>, k: nat) returns (n: nat)
    requires |s.sent| <= k < |Run(s, events).sent|
    ensures s.sent <= Run(s, events).sent && n < |events| && events[n].Handle?
    ensures var e := events[n];
      e.intent == Run(s, events).sent[k] && MayBeSent(Run(s, events[..n]).orders, e.intent, e.world, e.reply)
  {
    var (init, e) := (events[..|events| - 1], events[|events| - 1]);
    SentGrows(s, init);
    if k < |Run(s, init).sent| {
      n := OnlyAllowedIsSent(s, init, k);
      assert init[..n] == events[..n] && init[n] == events[n];
      if e.Handle? { SentIff(Run(s, init), e.intent, e.world, e.reply); }
    } else {
      n := |events| - 1;
      if e.Handle? { SentIff(Run(s, init), e.intent, e.world, e.reply); }
    }
  }

  lemma {:induction false} SentGrows(s: State, events: seq<Event>)
    ensures s.sent <= Run(s, events).sent
  {
    if events != [] {
      var e := events[|events| - 1];
      SentGrows(s, events[..|events| - 1]);
      if e.Handle? { SentIff(Run(s, events[..|events| - 1]), e.intent, e.world, e.reply); }
    }
  }

  /** The status with which the store records an intent that is no duplicate, and the reason. */
  ghost predicate RecordedAs(order: Order, intent: Intent, world: World, reply: Reply) {
    && order.key == KeyOf(intent)
    && if intent.rejection != NoReason then order.status == "Rejected" && order.rejection == intent.rejection
       else if !world.permitted then order.status == "NotTransmitted"
       else if Upper(intent.side) == "SELL" && reply.refusal.Some? then
         order.status == "Rejected" && order.rejection == LongOnlyGuard(reply.refusal.value)
       else order.status == "PendingSubmit" && order.submittedAt == Some(world.now)
  }

  lemma UpsertRecords(orders: seq<Order>, intent: Intent, status: string, reason: Reason, now: string)
    requires Good(orders)
    ensures var after := Lookup(Upserted(orders, intent, status, reason, now), LogicalOf(intent));
      && after.Some? && after.value.key == KeyOf(intent) && after.value.status == status
      && after.value.rejection == intent.rejection
      && (intent.submittedAt.Some? ==> after.value.submittedAt == intent.submittedAt)
  {
    var (i, after) := (Place(orders, LogicalOf(intent)), Upserted(orders, intent, status, reason, now));
    UpsertedIsGood(orders, intent, status, reason, now);
    assert after[i].key == KeyOf(intent);
    PlaceOfKey(after, KeyOf(intent));
  }

  lemma RefusalRecords(orders: seq<Order>, intent: Intent, text: string, now: string)
    requires Good(orders) && Lookup(orders, LogicalOf(intent)).Some?
    requires Lookup(orders, LogicalOf(intent)).value.key == KeyOf(intent)
    ensures var report := NOTHING.(rejection := LongOnlyGuard(text));
      var after := Lookup(Updated(orders, KeyOf(intent), "Rejected", report, now), LogicalOf(intent));
      && after.Some? && after.value.key == KeyOf(intent)
      && after.value.status == "Rejected" && after.value.rejection == LongOnlyGuard(text)
  {
    var report := NOTHING.(rejection := LongOnlyGuard(text));
    var (i, after) := (Place(orders, LogicalOf(intent)), Updated(orders, KeyOf(intent), "Rejected", report, now));
    RejectedIsNormal();
    UpdatedIsGood(orders, KeyOf(intent), "Rejected", report, now);
    assert after[i].key == KeyOf(intent);
    PlaceOfKey(after, KeyOf(intent));
  }

  /** A duplicate leaves everything as it was, and any other intent is recorded as what became of it. */
  lemma HandledRecords(s: State, intent: Intent, world: World, reply: Reply)
    requires Good(s.orders)
    ensures var s' := Handled(s, intent, world, reply);
      if IsDuplicate(s.orders, intent, world) then s' == s
      else
        var order := Lookup(s'.orders, LogicalOf(intent));
        order.Some? && RecordedAs(order.value, intent, world, reply)
  {
    if !IsDuplicate(s.orders, intent, world) {
      if intent.rejection != NoReason {
        UpsertRecords(s.orders, intent, "Rejected", intent.rejection, world.now);
      } else if !world.permitted {
        UpsertRecords(s.orders, intent, "NotTransmitted", ExecutionDisabled, world.now);
      } else {
        TransmittedRecords(s, intent, world, reply);
      }
    }
  }

  lemma TransmittedRecords(s: State, intent: Intent, world: World, reply: Reply)
    requires Good(s.orders) && intent.rejection == NoReason && world.permitted
    ensures var order := Lookup(Transmitted(s, intent, world, reply).orders, LogicalOf(intent));
      order.Some? && RecordedAs(order.value, intent, world, reply)
  {
    var submission := Submission(intent, world);
    SubmissionIsSame(intent, world);
    UpsertRecords(s.orders, submission, "PendingSubmit", SubmittedToIbkr, world.now);
    UpsertedIsGood(s.orders, submission, "PendingSubmit", SubmittedToIbkr, world.now);
    if IsSell(intent) && reply.refusal.Some? {
      RefusalRecords(Upserted(s.orders, submission, "PendingSubmit", SubmittedToIbkr, world.now), intent,
                     reply.refusal.value, world.now);
    }
  }

  // ---------------------------------------------------------------------
  // What one cycle can spend

  function Spent(intents: seq<Intent>): real {
    if intents == [] then 0.0 else Spent(intents[..|intents| - 1]) + Sizing.Notional(intents[|intents| - 1])
  }

  ghost predicate NoneEarns(intents: seq<Intent>) {
    forall i :: 0 <= i < |intents| && intents[i].rejection == NoReason ==> Sizing.Notional(intents[i]) >= 0.0
  }

  lemma OneMoreSent(sent: seq<Intent>, before: seq<Intent>, intent: Intent)
    requires sent <= before
    ensures Spent((before + [intent])[|sent|..]) == Spent(before[|sent|..]) + Sizing.Notional(intent)
  {
    var new_ := (before + [intent])[|sent|..];
    assert new_ == before[|sent|..] + [intent] && new_[..|new_| - 1] == before[|sent|..];
  }

  /** What a plan transmits costs at most what its accepted intents cost. */
  lemma {:induction false} SpentWithinCommitted(s: State, intents: seq<Intent>, world: World, replies: seq<Reply>)
    requires |replies| == |intents| && NoneEarns(intents)
    ensures var sent := Placed(s, intents, world, replies).sent;
      s.sent <= sent && 0.0 <= Spent(sent[|s.sent|..]) <= Sizing.Committed(intents)
  {
    if intents == [] {
      assert Placed(s, [], world, []) == After(s, Begin) && s.sent[|s.sent|..] == [];
    } else {
      var n := |intents| - 1;
      var init := intents[..n];
      assert forall i :: 0 <= i < n ==> init[i] == intents[i];
      SpentWithinCommitted(s, init, world, replies[..n]);
      LastHandled(s, intents, world, replies);
      var before := Placed(s, init, world, replies[..n]);
      SentIff(before, intents[n], world, replies[n]);
      OneMoreSent(s.sent, before.sent, intents[n]);
    }
  }

  lemma {:induction false} CommittedConcat(a: seq<Intent>, b: seq<Intent>)
    ensures Sizing.Committed(a + b) == Sizing.Committed(a) + Sizing.Committed(b)
  {
    if b == [] {
      assert a + b == a;
    } else {
      assert (a + b)[..|a + b| - 1] == a + b[..|b| - 1];
      CommittedConcat(a, b[..|b| - 1]);
    }
  }

  lemma {:induction false} SellsCommitNothing(sells: seq<Intent>)
    requires forall i :: 0 <= i < |sells| ==> sells[i].notional == None
    ensures Sizing.Committed(sells) == 0.0
  {
    if sells != [] {
      assert forall i :: 0 <= i < |sells| - 1 ==> sells[..|sells| - 1][i] == sells[i];
      SellsCommitNothing(sells[..|sells| - 1]);
    }
  }

  /** One cycle on the intents that sizing makes, sells first: what it transmits costs nothing, or at most
      each of cash, available funds and buying power, with one tolerance. */
  lemma CycleStaysAffordable(s: State, sells: seq<Intent>, buys: seq<Intent>, plans: seq<Sizing.BuyPlan>,
                             account: Sizing.Account, scan: Sizing.Scan, world: World, replies: seq<Reply>)
    requires Sizing.BuysOf(buys, plans, account, scan) && forall i :: 0 <= i < |sells| ==> sells[i].notional == None
    requires |replies| == |sells + buys|
    ensures var sent := Placed(s, sells + buys, world, replies).sent;
      && s.sent <= sent
      && var spent := Spent(sent[|s.sent|..]); spent == 0.0 || Sizing.Affordable(account, spent)
  {
    forall i | 0 <= i < |buys| && buys[i].rejection == NoReason ensures Sizing.Notional(buys[i]) >= 0.0 {
      Sizing.AcceptedCosts(buys, i, plans, account, scan);
    }
    SpentWithinCommitted(s, sells + buys, world, replies);
    CommittedConcat(sells, buys);
    SellsCommitNothing(sells);
  }

  // ---------------------------------------------------------------------
  // What the premise is for

  predicate Plain(intent: Intent, world: World) {
    intent.rejection == NoReason && !IsSell(intent) && world.permitted && world.positions == []
      && world.openOrders == []
  }

  lemma FirstPlacing(intent: Intent, world: World, reply: Reply)
    requires Plain(intent, world)
    ensures Handled(State([], [], []), intent, world, reply) ==
      State([NewOrder(Submission(intent, world), "PendingSubmit", SubmittedToIbkr, world.now)],
            [Pending(intent, KeyOf(intent), reply.ack)], [intent])
  {
    assert !Opened(intent, []) && !Held(intent, []);
  }

  lemma SecondPlacing(order: Order, p: Pending, intent: Intent, world: World, reply: Reply)
    requires Plain(intent, world) && Good([order]) && order.key == KeyOf(intent) && !IsFilled(order.status)
    ensures var s := Handled(State([order], [p], [intent]), intent, world, reply);
      && |s.orders| == 1 && s.orders[0].key == KeyOf(intent)
      && s.pending == [p, Pending(intent, KeyOf(intent), reply.ack)] && s.sent == [intent, intent]
  {
    assert !Opened(intent, []) && !Held(intent, []);
    assert !InStore([order], SignalOf(intent), false);
  }

  lemma KnownStatuses()
    ensures NormalizeStatus("Filled", false) == "Filled" && NormalizeStatus("Cancelled", false) == "Cancelled"
  {
    assert Strip("Filled") == "Filled" && Strip("Cancelled") == "Cancelled";
    FilterAll("Filled", NotSpace);
    FilterAll("Cancelled", NotSpace);
    assert Upper("Filled") == "FILLED" && Upper("Cancelled") == "CANCELLED";
  }

  /** A plan that carries one intent twice: both are transmitted, and the acknowledgement of
      the second overwrites the fill of the first. */
  lemma RepeatedIntentUndoesAFill(intent: Intent, world: World)
    requires Plain(intent, world)
    ensures var (filled, cancelled) := (Reply(None, Ack("Filled", NOTHING)), Reply(None, Ack("Cancelled", NOTHING)));
      var s1 := Handled(Handled(State([], [], []), intent, world, filled), intent, world, cancelled);
      var s2 := Acknowledged(s1, world.now);
      var s3 := Acknowledged(s2, world.now);
      && s1.sent == [intent, intent]
      && |s2.orders| == |s3.orders| == 1
      && s2.orders[0].status == "Filled" && s3.orders[0].status == "Cancelled"
  {
    var (filled, cancelled) := (Reply(None, Ack("Filled", NOTHING)), Reply(None, Ack("Cancelled", NOTHING)));
    FirstPlacing(intent, world, filled);
    var order := NewOrder(Submission(intent, world), "PendingSubmit", SubmittedToIbkr, world.now);
    NewOrderIsGood(Submission(intent, world), "PendingSubmit", SubmittedToIbkr, world.now);
    PlainIsNotFilled("PendingSubmit");
    SecondPlacing(order, Pending(intent, KeyOf(intent), filled.ack), intent, world, cancelled);
    KnownStatuses();
  }

  lemma RepricedPlacing(order: Order, p: Pending, first: Intent, intent: Intent, world: World, reply: Reply)
    requires Plain(intent, world) && Good([order]) && order.key.logical == LogicalOf(intent) && !IsFilled(order.status)
    ensures var s := Handled(State([order], [p], [first]), intent, world, reply);
      && |s.orders| == 1 && s.orders[0].key == KeyOf(intent) && s.orders[0].filled == 0.0
      && s.pending == [p, Pending(intent, KeyOf(intent), reply.ack)] && s.sent == [first, intent]
  {
    assert !Opened(intent, []) && !Held(intent, []);
    assert !InStore([order], SignalOf(intent), false);
  }

  /** One order acknowledged under a key that is not its own any more, then under its own. */
  lemma StaleThenCurrent(s: State, stale: Pending, current: Pending, now: string)
    requires |s.orders| == 1 && s.pending == [stale, current] && stale.key.logical == current.key.logical
    requires s.orders[0].key == current.key != stale.key && current.ack.report == NOTHING
    ensures var end := Acknowledged(Acknowledged(s, now), now);
      && |end.orders| == 1 && end.orders[0].status == NormalizeStatus(current.ack.status, false)
      && end.orders[0].filled == s.orders[0].filled
  {
    assert Acknowledged(s, now).orders == s.orders && Acknowledged(s, now).pending == [current];
  }

  /** A plan that carries one intent at two limit prices: both are transmitted, and the fill of
      the first is dropped, since the second has moved the order to its own key. */
  lemma RepricedIntentLosesAFill(a: Intent, b: Intent, world: World)
    requires Plain(a, world) && b == a.(limitPrice := b.limitPrice) && b.limitPrice != a.limitPrice
    ensures var (filled, cancelled) := (Reply(None, Ack("Filled", NOTHING)), Reply(None, Ack("Cancelled", NOTHING)));
      var s1 := Handled(Handled(State([], [], []), a, world, filled), b, world, cancelled);
      var s3 := Acknowledged(Acknowledged(s1, world.now), world.now);
      && s1.sent == [a, b] && |s3.orders| == 1
      && s3.orders[0].status == "Cancelled" && s3.orders[0].filled == 0.0
  {
    var (filled, cancelled) := (Reply(None, Ack("Filled", NOTHING)), Reply(None, Ack("Cancelled", NOTHING)));
    FirstPlacing(a, world, filled);
    var order := NewOrder(Submission(a, world), "PendingSubmit", SubmittedToIbkr, world.now);
    NewOrderIsGood(Submission(a, world), "PendingSubmit", SubmittedToIbkr, world.now);
    PlainIsNotFilled("PendingSubmit");
    RepricedPlacing(order, Pending(a, KeyOf(a), filled.ack), a, b, world, cancelled);
    var s1 := Handled(State([order], [Pending(a, KeyOf(a), filled.ack)], [a]), b, world, cancelled);
    StaleThenCurrent(s1, Pending(a, KeyOf(a), filled.ack), Pending(b, KeyOf(b), cancelled.ack), world.now);
    KnownStatuses();
  }

  // ---------------------------------------------------------------------
  // Exactly when a fill survives the other acknowledgements of its cycle

  /** `step` applied to `start` for 0, 1, .. up to `n`. */
  function Fold<T>(step: (T, nat) -> T, start: T, n: nat): T {
    if n == 0 then start else step(Fold(step, start, n - 1), n - 1)
  }

  lemma {:induction false} FoldKeeps<T(!new)>(step: (T, nat) -> T, start: T, m: nat, n: nat, inv: iset<T>)
    requires m <= n && Fold(step, start, m) in inv
    requires forall t, i: nat :: t in inv && m <= i < n ==> step(t, i) in inv
    ensures Fold(step, start, n) in inv
  {
    if m < n {
      FoldKeeps(step, start, m, n - 1, inv);
    }
  }

  function AckStep(pending: seq<Pending>, now: string): (seq<Order>, nat) -> seq<Order> {
    (orders: seq<Order>, i: nat) =>
      if i < |pending| then Updated(orders, pending[i].key, pending[i].ack.status, pending[i].ack.report, now)
      else orders
  }

  /** The placed orders, but acknowledged in other ways. */
  function WithAcks(pending: seq<Pending>, acks: seq<Ack>): (again: seq<Pending>)
    requires |acks| == |pending|
    ensures |again| == |acks| && forall i :: 0 <= i < |acks| ==> again[i] == pending[i].(ack := acks[i])
  {
    seq(|acks|, i requires 0 <= i < |acks| => pending[i].(ack := acks[i]))
  }

  /** The store after the first `n` placed orders have been acknowledged by `acks`. */
  function Acked(s: State, acks: seq<Ack>, n: nat, now: string): seq<Order>
    requires |acks| == |s.pending|
  {
    Fold(AckStep(WithAcks(s.pending, acks), now), s.orders, n)
  }

  function AckState(now: string): (State, nat) -> State {
    (s: State, i: nat) => Acknowledged(s, now)
  }

  lemma {:induction false} AcksAreFold(s: State, n: nat, now: string)
    ensures Run(s, Acknowledgements(n, now)) == Fold(AckState(now), s, n)
  {
    if n > 0 {
      AcksAreFold(s, n - 1, now);
      AcknowledgedNext(s, n - 1, now);
    }
  }

  /** Steps that keep two states related lead to related states. */
  lemma {:induction false} FoldsMatch<S(!new), T(!new)>(f: (S, nat) -> S, g: (T, nat) -> T, s: S, t: T, n: nat,
                                        matching: iset<(S, T, nat)>)
    requires (s, t, 0) in matching
    requires forall a, b, i: nat :: i < n && (a, b, i) in matching ==> (f(a, i), g(b, i), i + 1) in matching
    ensures (Fold(f, s, n), Fold(g, t, n), n) in matching
  {
    if n > 0 {
      FoldsMatch(f, g, s, t, n - 1, matching);
      assert (f(Fold(f, s, n - 1), n - 1), g(Fold(g, t, n - 1), n - 1), n - 1 + 1) in matching;
    }
  }

  ghost predicate AckMatches(before: State, orders: seq<Order>, left: seq<Pending>, n: nat) {
    before.orders == orders && n <= |left| && before.pending == left[n..]
  }

  lemma FirstAcknowledged(before: State, orders: seq<Order>, left: seq<Pending>, n: nat, now: string)
    requires n < |left| && AckMatches(before, orders, left, n)
    ensures AckMatches(AckState(now)(before, n), AckStep(left, now)(orders, n), left, n + 1)
  {}

  lemma FoldsAgree(s: State, n: nat, now: string)
    requires n <= |s.pending|
    ensures Fold(AckState(now), s, n).orders == Fold(AckStep(s.pending, now), s.orders, n)
  {
    var matching := iset p: (State, seq<Order>, nat) | AckMatches(p.0, p.1, s.pending, p.2);
    var (f, g) := (AckState(now), AckStep(s.pending, now));
    forall a, b, i: nat | i < n && (a, b, i) in matching ensures (f(a, i), g(b, i), i + 1) in matching {
      FirstAcknowledged(a, b, s.pending, i, now);
    }
    FoldsMatch(f, g, s, s.orders, n, matching);
  }

  /** Recording the acknowledgements is a run of the program. */
  lemma AckedIsRun(s: State, acks: seq<Ack>, n: nat, now: string)
    requires |acks| == |s.pending| && n <= |acks|
    ensures Acked(s, acks, n, now) == Run(s.(pending := WithAcks(s.pending, acks)), Acknowledgements(n, now)).orders
  {
    AcksAreFold(s.(pending := WithAcks(s.pending, acks)), n, now);
    FoldsAgree(s.(pending := WithAcks(s.pending, acks)), n, now);
  }

  /** Two placed orders share a key that is current in the store. */
  ghost predicate SharedKey(s: State) {
    exists i, j :: 0 <= i < j < |s.pending| && s.pending[i].key == s.pending[j].key
      && HasKey(s.orders, s.pending[i].key)
  }

  /** Every placed order's key is the one the store has for it, and no other placed order has it. */
  ghost predicate KeysAreCurrent(s: State) {
    && (forall i :: 0 <= i < |s.pending| ==> HasKey(s.orders, s.pending[i].key))
    && (forall i, j :: 0 <= i < j < |s.pending| ==> s.pending[i].key != s.pending[j].key)
  }

  /** No placed order's signal has a fill in the store yet. */
  ghost predicate NoneFilled(s: State) {
    forall i :: 0 <= i < |s.pending| ==> !InStore(s.orders, PendingSignal(s.pending[i]), false)
  }

  predicate FilledAt(orders: seq<Order>, logical: Logical) {
    Lookup(orders, logical).Some? && IsFilled(Lookup(orders, logical).value.status)
  }

  /** If acknowledgement `i` reports a fill, the store shows one when all are recorded. */
  ghost predicate FillKept(s: State, acks: seq<Ack>, i: nat, now: string)
    requires |acks| == |s.pending| && i < |acks|
  {
    IsFilled(NormalizeStatus(acks[i].status, false)) ==> FilledAt(Acked(s, acks, |acks|, now), s.pending[i].key.logical)
  }

  ghost predicate FillsAreKept(s: State, now: string) {
    forall acks: seq<Ack>, i: nat :: |acks| == |s.pending| && i < |acks| ==> FillKept(s, acks, i, now)
  }

  ghost predicate SameKeys(before: seq<Order>, after: seq<Order>) {
    |before| == |after| && forall j :: 0 <= j < |before| ==> after[j].key == before[j].key
  }

  lemma UpdateKeepsKeys(orders: seq<Order>, key: OrderKey, status: string, report: Report, now: string)
    requires Good(orders)
    ensures SameKeys(orders, Updated(orders, key, status, report, now))
  {}

  /** The states of the store while acknowledgements are recorded. */
  ghost function Siblings(orders: seq<Order>): iset<seq<Order>> {
    iset after: seq<Order> | Good(after) && SameKeys(orders, after)
  }

  lemma AckIsSibling(orders: seq<Order>, before: seq<Order>, key: OrderKey, status: string, report: Report, now: string)
    requires before in Siblings(orders)
    ensures Updated(before, key, status, report, now) in Siblings(orders)
  {
    UpdatedIsGood(before, key, status, report, now);
    UpdateKeepsKeys(before, key, status, report, now);
  }

  lemma AckedAreSiblings(s: State, acks: seq<Ack>, n: nat, now: string)
    requires Good(s.orders) && |acks| == |s.pending|
    ensures Acked(s, acks, n, now) in Siblings(s.orders)
  {
    var step := AckStep(WithAcks(s.pending, acks), now);
    forall t, i: nat | t in Siblings(s.orders) && 0 <= i < n ensures step(t, i) in Siblings(s.orders) {
      if i < |acks| { AckIsSibling(s.orders, t, s.pending[i].key, acks[i].status, acks[i].report, now); }
    }
    FoldKeeps(step, s.orders, 0, n, Siblings(s.orders));
  }

  lemma SiblingHasKey(orders: seq<Order>, after: seq<Order>, key: OrderKey)
    requires Good(orders) && after in Siblings(orders) && HasKey(orders, key)
    ensures Lookup(after, key.logical).Some? && Lookup(after, key.logical).value.key == key
  {
    var j :| 0 <= j < |orders| && orders[j].key == key;
    assert after[j].key == key;
    PlaceOfKey(after, key);
  }

  /** A report under another key, current or not, leaves the order alone. */
  lemma OtherKeyIsElsewhere(orders: seq<Order>, key: OrderKey, other: OrderKey, status: string, report: Report,
                            now: string)
    requires Good(orders) && other != key && Lookup(orders, key.logical).Some?
    requires Lookup(orders, key.logical).value.key == key
    ensures Lookup(Updated(orders, other, status, report, now), key.logical) == Lookup(orders, key.logical)
  {
    if other.logical != key.logical { UpdateElsewhere(orders, other, status, report, now, key.logical); }
  }

  /** The states in which the order under `logical` is as given. */
  ghost function Showing(orders: seq<Order>, logical: Logical, order: Option<Order>): iset<seq<Order>> {
    iset after: seq<Order> | after in Siblings(orders) && Lookup(after, logical) == order
  }

  lemma OtherAckShowsTheSame(orders: seq<Order>, before: seq<Order>, key: OrderKey, order: Option<Order>,
                             other: OrderKey, ack: Ack, now: string)
    requires Good(orders) && HasKey(orders, key) && before in Showing(orders, key.logical, order) && other != key
    ensures Updated(before, other, ack.status, ack.report, now) in Showing(orders, key.logical, order)
  {
    AckIsSibling(orders, before, other, ack.status, ack.report, now);
    SiblingHasKey(orders, before, key);
    OtherKeyIsElsewhere(before, key, other, ack.status, ack.report, now);
  }

  /** When no later acknowledgement is for the same key, none of them touches the order. */
  lemma Untouched(s: State, acks: seq<Ack>, i: nat, now: string)
    requires Good(s.orders) && |acks| == |s.pending| && i < |acks| && !SharedKey(s)
    requires HasKey(s.orders, s.pending[i].key)
    ensures var logical := s.pending[i].key.logical;
      Lookup(Acked(s, acks, |acks|, now), logical) == Lookup(Acked(s, acks, i + 1, now), logical)
  {
    var (key, step) := (s.pending[i].key, AckStep(WithAcks(s.pending, acks), now));
    var inv := Showing(s.orders, key.logical, Lookup(Acked(s, acks, i + 1, now), key.logical));
    AckedAreSiblings(s, acks, i + 1, now);
    forall t, n: nat | t in inv && i + 1 <= n < |acks| ensures step(t, n) in inv {
      OtherAckShowsTheSame(s.orders, t, key, Lookup(Acked(s, acks, i + 1, now), key.logical), s.pending[n].key,
                           acks[n], now);
    }
    FoldKeeps(step, s.orders, i + 1, |acks|, inv);
  }

  lemma UpdateSets(orders: seq<Order>, key: OrderKey, status: string, report: Report, now: string)
    requires Good(orders) && Lookup(orders, key.logical).Some? && Lookup(orders, key.logical).value.key == key
    ensures var after := Lookup(Updated(orders, key, status, report, now), key.logical);
      after.Some? && after.value.status == NormalizeStatus(status, false)
  {
    var i := Place(orders, key.logical);
    var orders' := Updated(orders, key, status, report, now);
    UpdatedIsGood(orders, key, status, report, now);
    UpdateKeepsKeys(orders, key, status, report, now);
    assert orders'[i].key == key;
    PlaceOfKey(orders', key);
  }

  /** The states in which the order under `key` has the given status. */
  ghost function InStatus(orders: seq<Order>, key: OrderKey, status: string): iset<seq<Order>> {
    iset after: seq<Order> | after in Siblings(orders) && Lookup(after, key.logical).Some?
      && Lookup(after, key.logical).value.status == status
  }

  lemma AckSetsStatus(orders: seq<Order>, before: seq<Order>, key: OrderKey, ack: Ack, now: string)
    requires Good(orders) && HasKey(orders, key) && before in Siblings(orders)
    ensures Updated(before, key, ack.status, ack.report, now) in
      InStatus(orders, key, NormalizeStatus(ack.status, false))
  {
    AckIsSibling(orders, before, key, ack.status, ack.report, now);
    SiblingHasKey(orders, before, key);
    UpdateSets(before, key, ack.status, ack.report, now);
  }

  lemma OtherAckKeepsStatus(orders: seq<Order>, before: seq<Order>, key: OrderKey, status: string, other: OrderKey,
                            ack: Ack, now: string)
    requires Good(orders) && HasKey(orders, key) && before in InStatus(orders, key, status) && other != key
    ensures Updated(before, other, ack.status, ack.report, now) in InStatus(orders, key, status)
  {
    OtherAckShowsTheSame(orders, before, key, Lookup(before, key.logical), other, ack, now);
  }

  lemma SetsStatus(s: State, acks: seq<Ack>, i: nat, now: string)
    requires Good(s.orders) && |acks| == |s.pending| && i < |acks| && HasKey(s.orders, s.pending[i].key)
    ensures Acked(s, acks, i + 1, now) in InStatus(s.orders, s.pending[i].key, NormalizeStatus(acks[i].status, false))
  {
    AckedAreSiblings(s, acks, i, now);
    AckSetsStatus(s.orders, Acked(s, acks, i, now), s.pending[i].key, acks[i], now);
  }

  /** When all acknowledgements for a key from entry `j` on bring one status, the order ends in it. */
  lemma EndsInStatus(s: State, acks: seq<Ack>, j: nat, status: string, now: string)
    requires Good(s.orders) && |acks| == |s.pending| && j < |acks| && HasKey(s.orders, s.pending[j].key)
    requires forall n :: j <= n < |acks| && s.pending[n].key == s.pending[j].key ==>
      NormalizeStatus(acks[n].status, false) == status
    ensures Acked(s, acks, |acks|, now) in InStatus(s.orders, s.pending[j].key, status)
  {
    var (key, step) := (s.pending[j].key, AckStep(WithAcks(s.pending, acks), now));
    var inv := InStatus(s.orders, key, status);
    SetsStatus(s, acks, j, now);
    forall t, n: nat | t in inv && j + 1 <= n < |acks| ensures step(t, n) in inv {
      if s.pending[n].key == key {
        AckSetsStatus(s.orders, t, key, acks[n], now);
      } else {
        OtherAckKeepsStatus(s.orders, t, key, status, s.pending[n].key, acks[n], now);
      }
    }
    FoldKeeps(step, s.orders, j + 1, |acks|, inv);
  }

  /** Entry `i` gets one status and all others another. */
  function OneGets(n: nat, i: nat, status: string, other: string): (acks: seq<Ack>)
    ensures |acks| == n
    ensures forall k :: 0 <= k < n ==> acks[k] == Ack(if k == i then status else other, NOTHING)
  {
    seq(n, k => Ack(if k == i then status else other, NOTHING))
  }

  /** A fill at entry `i` is undone by entry `j`, acknowledged later under the same key. */
  lemma SharedKeyLosesAFill(s: State, i: nat, j: nat, status: string, other: string, now: string)
    requires Good(s.orders) && i < j < |s.pending| && s.pending[i].key == s.pending[j].key
    requires HasKey(s.orders, s.pending[i].key)
    requires IsFilled(NormalizeStatus(status, false)) && !IsFilled(NormalizeStatus(other, false))
    ensures !FillKept(s, OneGets(|s.pending|, i, status, other), i, now)
  {
    EndsInStatus(s, OneGets(|s.pending|, i, status, other), j, NormalizeStatus(other, false), now);
  }

  /** The states of the store in which a signal has no fill. */
  ghost function Unfilled(orders: seq<Order>, signal: Signal): iset<seq<Order>> {
    iset after: seq<Order> | after in Siblings(orders) && !InStore(after, signal, false)
  }

  lemma AckStaysUnfilled(orders: seq<Order>, before: seq<Order>, signal: Signal, p: Pending, now: string)
    requires before in Unfilled(orders, signal)
    requires !HasKey(orders, p.key) || !IsFilled(NormalizeStatus(p.ack.status, false))
    ensures Updated(before, p.key, p.ack.status, p.ack.report, now) in Unfilled(orders, signal)
  {
    AckIsSibling(orders, before, p.key, p.ack.status, p.ack.report, now);
    if HasKey(orders, p.key) {
      UpdateKeepsSignal(before, p.key, p.ack.status, p.ack.report, now, signal);
    } else {
      var i := Place(before, p.key.logical);
      assert i < |before| ==> orders[i].key == before[i].key;
    }
  }

  /** A fill whose key is not current any more finds nothing in the store. */
  lemma StaleKeyLosesAFill(s: State, i: nat, status: string, other: string, now: string)
    requires Good(s.orders) && NoneFilled(s) && i < |s.pending| && !HasKey(s.orders, s.pending[i].key)
    requires IsFilled(NormalizeStatus(status, false)) && !IsFilled(NormalizeStatus(other, false))
    ensures !FillKept(s, OneGets(|s.pending|, i, status, other), i, now)
  {
    var acks := OneGets(|s.pending|, i, status, other);
    var (signal, again) := (PendingSignal(s.pending[i]), WithAcks(s.pending, acks));
    var (step, inv) := (AckStep(again, now), Unfilled(s.orders, signal));
    forall t, n: nat | t in inv && 0 <= n < |acks| ensures step(t, n) in inv {
      AckStaysUnfilled(s.orders, t, signal, again[n], now);
    }
    FoldKeeps(step, s.orders, 0, |acks|, inv);
    var (end, logical) := (Acked(s, acks, |acks|, now), s.pending[i].key.logical);
    if FilledAt(end, logical) { FilledIsInStore(end, logical, false); }
  }

  /** A fill under a key that is current, and no other placed order's, is kept. */
  lemma CurrentKeyKeepsAFill(s: State, acks: seq<Ack>, i: nat, now: string)
    requires Good(s.orders) && KeysAreCurrent(s) && |acks| == |s.pending| && i < |acks|
    ensures FillKept(s, acks, i, now)
  {
    SetsStatus(s, acks, i, now);
    Untouched(s, acks, i, now);
  }

  lemma FillIsFilled()
    ensures IsFilled("Filled") && !IsFilled("Cancelled")
  {
    FilterAll("Filled", NotUnderscore);
    PlainIsNotFilled("Cancelled");
    assert Upper("Filled") == "FILLED";
  }

  /** Once a plan is placed: every fill that an acknowledgement reports is in the store when all
      are recorded, whatever the others report, exactly when every placed order's key is
      current in the store and no two placed orders have the same one. */
  lemma FillsAreKeptIffKeysAreCurrent(s: State, now: string)
    requires Good(s.orders) && NoneFilled(s)
    ensures FillsAreKept(s, now) <==> KeysAreCurrent(s)
  {
    if KeysAreCurrent(s) {
      forall acks: seq<Ack>, i: nat | |acks| == |s.pending| && i < |acks| ensures FillKept(s, acks, i, now) {
        CurrentKeyKeepsAFill(s, acks, i, now);
      }
    } else {
      SomeFillIsLost(s, now);
    }
  }

  lemma SomeFillIsLost(s: State, now: string)
    requires Good(s.orders) && NoneFilled(s) && !KeysAreCurrent(s)
    ensures !FillsAreKept(s, now)
  {
    KnownStatuses();
    FillIsFilled();
    if i :| 0 <= i < |s.pending| && !HasKey(s.orders, s.pending[i].key) {
      StaleKeyLosesAFill(s, i, "Filled", "Cancelled", now);
    } else {
      var i, j :| 0 <= i < j < |s.pending| && s.pending[i].key == s.pending[j].key;
      SharedKeyLosesAFill(s, i, j, "Filled", "Cancelled", now);
    }
  }

  /** What is placed has no fill in the store yet, for any plan on any store. */
  lemma {:induction false} PlacedIsUnfilled(s: State, intents: seq<Intent>, world: World, replies: seq<Reply>)
    requires Good(s.orders) && |replies| == |intents|
    ensures Good(Placed(s, intents, world, replies).orders) && NoneFilled(Placed(s, intents, world, replies))
  {
    if intents == [] {
      assert Placed(s, [], world, []) == After(s, Begin);
    } else {
      var n := |intents| - 1;
      PlacedIsUnfilled(s, intents[..n], world, replies[..n]);
      LastHandled(s, intents, world, replies);
      HandledIsUnfilled(Placed(s, intents[..n], world, replies[..n]), intents[n], world, replies[n]);
    }
  }

  lemma HandledIsUnfilled(s: State, intent: Intent, world: World, reply: Reply)
    requires Good(s.orders) && NoneFilled(s)
    ensures Good(Handled(s, intent, world, reply).orders) && NoneFilled(Handled(s, intent, world, reply))
  {
    var s' := Handled(s, intent, world, reply);
    RecordedIsGood(s, intent, world, reply);
    forall i | 0 <= i < |s'.pending| ensures !InStore(s'.orders, PendingSignal(s'.pending[i]), false) {
      HandledKeepsSignal(s, intent, world, reply,
                         if i < |s.pending| then PendingSignal(s.pending[i]) else SignalOf(intent));
    }
  }

  /** A plan with distinct (symbol, side) pairs keeps every fill. */
  lemma DistinctSidesKeepFills(s: State, intents: seq<Intent>, world: World, replies: seq<Reply>, now: string)
    requires Good(s.orders) && |replies| == |intents| && DistinctSides(intents)
    ensures KeysAreCurrent(Placed(s, intents, world, replies)) && FillsAreKept(Placed(s, intents, world, replies), now)
  {
    PlacedIsCurrent(s, intents, world, replies);
    PlacedIsUnfilled(s, intents, world, replies);
    FillsAreKeptIffKeysAreCurrent(Placed(s, intents, world, replies), now);
  }

  /** The pending orders are current, and all belong to signals handled so far. */
  ghost predicate CurrentWithin(s: State, handled: set<Signal>) {
    && Good(s.orders) && KeysAreCurrent(s)
    && forall i :: 0 <= i < |s.pending| ==> PendingSignal(s.pending[i]) in handled
  }

  lemma {:induction false} PlacedIsCurrent(s: State, intents: seq<Intent>, world: World, replies: seq<Reply>)
    requires Good(s.orders) && |replies| == |intents| && DistinctSides(intents)
    ensures CurrentWithin(Placed(s, intents, world, replies), SignalsOf(intents))
  {
    if intents == [] {
      assert Placed(s, [], world, []) == After(s, Begin);
    } else {
      var n := |intents| - 1;
      assert forall i :: 0 <= i < n ==> intents[..n][i] == intents[i];
      PlacedIsCurrent(s, intents[..n], world, replies[..n]);
      LastHandled(s, intents, world, replies);
      SignalIsNew(intents);
      HandledIsCurrent(Placed(s, intents[..n], world, replies[..n]), SignalsOf(intents[..n]), intents[n], world,
                       replies[n]);
    }
  }

  /** What one step does to the placed orders. */
  lemma PendingAfter(s: State, intent: Intent, world: World, reply: Reply)
    ensures var pending := Handled(s, intent, world, reply).pending;
      pending == s.pending || pending == s.pending + [Pending(intent, KeyOf(intent), reply.ack)]
  {}

  lemma HandledHasKey(s: State, handled: set<Signal>, intent: Intent, world: World, reply: Reply, i: nat)
    requires CurrentWithin(s, handled) && SignalOf(intent) !in handled && i < |Handled(s, intent, world, reply).pending|
    ensures HasKey(Handled(s, intent, world, reply).orders, Handled(s, intent, world, reply).pending[i].key)
  {
    PendingAfter(s, intent, world, reply);
    if i < |s.pending| {
      assert PendingSignal(s.pending[i]) in handled;
      StaysCurrent(s, intent, world, reply, s.pending[i].key);
    } else {
      PlacedKeyIsCurrent(s, intent, world, reply);
    }
  }

  lemma OneMoreKey(before: seq<Pending>, after: seq<Pending>, handled: set<Signal>, p: Pending)
    requires forall i :: 0 <= i < |before| ==> PendingSignal(before[i]) in handled
    requires forall i, j :: 0 <= i < j < |before| ==> before[i].key != before[j].key
    requires PendingSignal(p) !in handled && (after == before || after == before + [p])
    ensures forall i :: 0 <= i < |after| ==> PendingSignal(after[i]) in handled + {PendingSignal(p)}
    ensures forall i, j :: 0 <= i < j < |after| ==> after[i].key != after[j].key
  {}

  lemma HandledIsCurrent(s: State, handled: set<Signal>, intent: Intent, world: World, reply: Reply)
    requires CurrentWithin(s, handled) && SignalOf(intent) !in handled
    ensures CurrentWithin(Handled(s, intent, world, reply), handled + {SignalOf(intent)})
  {
    var s' := Handled(s, intent, world, reply);
    RecordedIsGood(s, intent, world, reply);
    PendingAfter(s, intent, world, reply);
    OneMoreKey(s.pending, s'.pending, handled, Pending(intent, KeyOf(intent), reply.ack));
    forall i | 0 <= i < |s'.pending| ensures HasKey(s'.orders, s'.pending[i].key) {
      HandledHasKey(s, handled, intent, world, reply, i);
    }
  }

  lemma StaysCurrent(s: State, intent: Intent, world: World, reply: Reply, key: OrderKey)
    requires Good(s.orders) && HasKey(s.orders, key) && SignalOf(intent) != SignalPart(key.logical)
    ensures HasKey(Handled(s, intent, world, reply).orders, key)
  {
    var after := Handled(s, intent, world, reply).orders;
    PlaceOfKey(s.orders, key);
    HandledElsewhere(s, intent, world, reply, key.logical);
    assert after[Place(after, key.logical)].key == key;
  }

  lemma PlacedKeyIsCurrent(s: State, intent: Intent, world: World, reply: Reply)
    requires Good(s.orders) && |Handled(s, intent, world, reply).pending| > |s.pending|
    ensures HasKey(Handled(s, intent, world, reply).orders, KeyOf(intent))
  {
    SubmissionIsSame(intent, world);
    var i := Place(s.orders, LogicalOf(intent));
    assert Handled(s, intent, world, reply).orders[i].key == KeyOf(intent);
  }

  // ---------------------------------------------------------------------
  // process_order_plan

  class PlanProcessor {
    const store: Store
    var sent: seq<Intent>
    var pending: seq<Pending>

    constructor (store: Store)
      ensures this.store == store && sent == [] && pending == []
    {
      this.store := store;
      sent, pending := [], [];
    }

    ghost function Now(): State
      reads this, store
    {
      State(store.orders, pending, sent)
    }

    /** Records and places one intent, unless the final guard refuses it. */
    method Transmit(intent: Intent, world: World, reply: Reply) returns (outcome: Option<Outcome>)
      requires Good(store.orders)
      modifies this`sent, this`pending, store
      ensures Good(store.orders) && Now() == Transmitted(old(Now()), intent, world, reply)
      ensures pending == old(pending) + (if outcome.None? then [Pending(intent, KeyOf(intent), reply.ack)] else [])
      ensures outcome == if IsSell(intent) && reply.refusal.Some? then Some(Refused) else None
    {
      SubmissionIsSame(intent, world);
      var row := store.UpsertOrderIntent(Submission(intent, world), "PendingSubmit", SubmittedToIbkr, world.now);
      if IsSell(intent) && reply.refusal.Some? {
        var refused := NOTHING.(rejection := LongOnlyGuard(reply.refusal.value));
        var _ := store.UpdateOrderStatus(row.key, "Rejected", refused, world.now);
        return Some(Refused);
      }
      sent := sent + [intent];
      pending := pending + [Pending(intent, row.key, reply.ack)];
      outcome := None;
    }

    /** The loop body for one intent; the outcome of a placed one is still open. */
    method ProcessIntent(intent: Intent, world: World, reply: Reply) returns (outcome: Option<Outcome>)
      requires Good(store.orders)
      modifies this`sent, this`pending, store
      ensures Good(store.orders) && Now() == Handled(old(Now()), intent, world, reply)
      ensures pending == old(pending) + (if outcome.None? then [Pending(intent, KeyOf(intent), reply.ack)] else [])
      ensures outcome == OutcomeOf(old(Now()), intent, world, reply) && outcome != Some(Submitted)
    {
      var duplicate := store.FindDuplicate(intent, world.positions, world.openOrders, !world.permitted);
      if duplicate != NoDuplicate { return Some(Duplicated); }
      if intent.rejection != NoReason {
        var _ := store.UpsertOrderIntent(intent, "Rejected", intent.rejection, world.now);
        return Some(Refused);
      }
      if !world.permitted {
        var _ := store.UpsertOrderIntent(intent, "NotTransmitted", ExecutionDisabled, world.now);
        return Some(Kept);
      }
      outcome := Transmit(intent, world, reply);
    }

    /** Appends an intent to the report list that its outcome calls for. */
    static method File(outcome: Option<Outcome>, intent: Intent, ghost before: seq<Pending>, ghost after: seq<Pending>,
                       rejected0: seq<Intent>, duplicates0: seq<Intent>, kept0: seq<Intent>)
      returns (rejected: seq<Intent>, duplicates: seq<Intent>, kept: seq<Intent>)
      requires outcome != Some(Submitted)
      requires outcome.Some? ==> after == before
      requires outcome.None? ==>
        |after| == |before| + 1 && after[..|before|] == before && after[|before|].intent == intent
      ensures Filed(outcome, intent, rejected0, duplicates0, kept0, rejected, duplicates, kept)
      ensures Accounted(after, rejected, duplicates, kept) ==
        Accounted(before, rejected0, duplicates0, kept0) + multiset{intent}
    {
      rejected, duplicates, kept := rejected0, duplicates0, kept0;
      match outcome {
        case Some(Duplicated) => duplicates := duplicates + [intent];
        case Some(Refused) => rejected := rejected + [intent];
        case Some(Kept) => kept := kept + [intent];
        case None =>
          IntentsGrow(before, after[|before|]);
          assert after == before + [after[|before|]];
      }
    }

    method PlaceNext(ghost start: State, intents: seq<Intent>, world: World, replies: seq<Reply>, i: nat,
                     rejected0: seq<Intent>, duplicates0: seq<Intent>, kept0: seq<Intent>)
      returns (rejected: seq<Intent>, duplicates: seq<Intent>, kept: seq<Intent>)
      requires |replies| == |intents| && i < |intents|
      requires PlacedSoFar(start, Now(), intents, world, replies, i, rejected0, duplicates0, kept0)
      modifies this`sent, this`pending, store
      ensures PlacedSoFar(start, Now(), intents, world, replies, i + 1, rejected, duplicates, kept)
    {
      ghost var before := Now();
      var outcome := ProcessIntent(intents[i], world, replies[i]);
      rejected, duplicates, kept := File(outcome, intents[i], before.pending, pending, rejected0, duplicates0, kept0);
      PlacedFurther(start, before, Now(), intents, world, replies, i, rejected0, duplicates0, kept0, rejected,
                    duplicates, kept);
    }

    /** Records, checks and places every intent. */
    method PlaceAll(intents: seq<Intent>, world: World, replies: seq<Reply>)
      returns (rejected: seq<Intent>, duplicates: seq<Intent>, kept: seq<Intent>)
      requires Good(store.orders) && |replies| == |intents|
      modifies this`sent, this`pending, store
      ensures Good(store.orders) && Now() == Placed(old(Now()), intents, world, replies)
      ensures Accounted(pending, rejected, duplicates, kept) == multiset(intents)
      ensures ListedAs(old(Now()), intents, world, replies, rejected, duplicates, kept)
    {
      pending := [];
      rejected, duplicates, kept := [], [], [];
      for i := 0 to |intents|
        invariant PlacedSoFar(old(Now()), Now(), intents, world, replies, i, rejected, duplicates, kept)
      {
        rejected, duplicates, kept := PlaceNext(old(Now()), intents, world, replies, i, rejected, duplicates, kept);
      }
      assert intents[..|intents|] == intents && replies[..|intents|] == replies;
    }

    method AcknowledgeNext(ghost start: State, ghost n: nat, world: World, submitted0: seq<Intent>,
                           rejected0: seq<Intent>)
      returns (submitted: seq<Intent>, rejected: seq<Intent>)
      requires n < |start.pending| && AcknowledgedSoFar(start, Now(), world.now, n, submitted0, rejected0)
      modifies this`pending, store
      ensures AcknowledgedSoFar(start, Now(), world.now, n + 1, submitted, rejected)
    {
      ghost var before := Now();
      var p := pending[0];
      var _ := store.UpdateOrderStatus(p.key, p.ack.status, p.ack.report, world.now);
      pending := pending[1..];
      submitted, rejected := submitted0, rejected0;
      if Confirmed(p.ack.status) {
        submitted := submitted + [p.intent];
      } else {
        rejected := rejected + [p.intent];
      }
      AcknowledgedFurther(start, before, Now(), world.now, n, submitted0, rejected0, submitted, rejected);
    }

    /** Records the acknowledgement of every placed order. */
    method AcknowledgeAll(world: World) returns (submitted: seq<Intent>, rejected: seq<Intent>)
      requires Good(store.orders)
      modifies this`pending, store
      ensures Good(store.orders) && Now() == Run(old(Now()), Acknowledgements(|old(pending)|, world.now))
      ensures pending == []
      ensures submitted == ConfirmedOf(old(pending)) && rejected == UnconfirmedOf(old(pending))
      ensures multiset(submitted) + multiset(rejected) == multiset(Intents(old(pending)))
    {
      submitted, rejected := [], [];
      ghost var n := 0;
      ghost var start := Now();
      while pending != []
        invariant n <= |start.pending| && AcknowledgedSoFar(start, Now(), world.now, n, submitted, rejected)
        decreases |pending|
      {
        submitted, rejected := AcknowledgeNext(start, n, world, submitted, rejected);
        n := n + 1;
      }
      assert start.pending[..n] == start.pending;
      AllAccounted(start.pending);
    }

    /** process_order_plan: its effect on the store is that of the events of one cycle, and
        every intent ends in exactly one list of the report. */
    method ProcessOrderPlan(intents: seq<Intent>, world: World, replies: seq<Reply>)
      returns (submitted: seq<Intent>, rejected: seq<Intent>, duplicates: seq<Intent>, kept: seq<Intent>)
      requires Good(store.orders) && |replies| == |intents|
      modifies this`sent, this`pending, store
      ensures Good(store.orders) && Now() == Completed(old(Now()), intents, world, replies)
      ensures multiset(submitted) + multiset(rejected) + multiset(duplicates) + multiset(kept) == multiset(intents)
      ensures duplicates == Listed(old(Now()), intents, world, replies, Duplicated)
      ensures kept == Listed(old(Now()), intents, world, replies, Kept)
      ensures var placed := Placed(old(Now()), intents, world, replies).pending;
        && submitted == ConfirmedOf(placed)
        && rejected == Listed(old(Now()), intents, world, replies, Refused) + UnconfirmedOf(placed)
      ensures pending == [] && (!world.permitted ==> sent == old(sent) && submitted == [])
    {
      if !world.permitted { NothingIsSentUnpermitted(Now(), intents, world, replies); }
      rejected, duplicates, kept := PlaceAll(intents, world, replies);
      var unconfirmed;
      submitted, unconfirmed := AcknowledgeAll(world);
      rejected := rejected + unconfirmed;
    }
  }

  /** The intents that are not placed and end in one list, in their order. */
  ghost function Listed(s: State, intents: seq<Intent>, world: World, replies: seq<Reply>, outcome: Outcome)
    : seq<Intent>
    requires |replies| == |intents|
  {
    if intents == [] then []
    else
      var n := |intents| - 1;
      Listed(s, intents[..n], world, replies[..n], outcome) +
        if OutcomeOf(Placed(s, intents[..n], world, replies[..n]), intents[n], world, replies[n]) == Some(outcome)
        then [intents[n]]
        else []
  }

  ghost predicate ListedAs(s: State, intents: seq<Intent>, world: World, replies: seq<Reply>,
                           rejected: seq<Intent>, duplicates: seq<Intent>, kept: seq<Intent>)
    requires |replies| == |intents|
  {
    && rejected == Listed(s, intents, world, replies, Refused)
    && duplicates == Listed(s, intents, world, replies, Duplicated)
    && kept == Listed(s, intents, world, replies, Kept)
  }

  lemma ListedFurther(s: State, intents: seq<Intent>, world: World, replies: seq<Reply>, i: nat, outcome: Outcome)
    requires |replies| == |intents| && i < |intents|
    ensures Listed(s, intents[..i + 1], world, replies[..i + 1], outcome) ==
      Listed(s, intents[..i], world, replies[..i], outcome) +
        if OutcomeOf(Placed(s, intents[..i], world, replies[..i]), intents[i], world, replies[i]) == Some(outcome)
        then [intents[i]]
        else []
  {
    assert intents[..i + 1][..i] == intents[..i] && replies[..i + 1][..i] == replies[..i];
  }

  /** The placed orders and the lists of the report, taken together. */
  ghost function Accounted(pending: seq<Pending>, rejected: seq<Intent>, duplicates: seq<Intent>,
                           kept: seq<Intent>): multiset<Intent> {
    multiset(Intents(pending)) + multiset(rejected) + multiset(duplicates) + multiset(kept)
  }

  function ConfirmedOf(pending: seq<Pending>): seq<Intent> {
    if pending == [] then []
    else
      var n := |pending| - 1;
      ConfirmedOf(pending[..n]) + if Confirmed(pending[n].ack.status) then [pending[n].intent] else []
  }

  function UnconfirmedOf(pending: seq<Pending>): seq<Intent> {
    if pending == [] then []
    else
      var n := |pending| - 1;
      UnconfirmedOf(pending[..n]) + if Confirmed(pending[n].ack.status) then [] else [pending[n].intent]
  }

  lemma {:induction false} AllAccounted(pending: seq<Pending>)
    ensures multiset(ConfirmedOf(pending)) + multiset(UnconfirmedOf(pending)) == multiset(Intents(pending))
  {
    if pending != [] {
      var n := |pending| - 1;
      AllAccounted(pending[..n]);
      IntentsGrow(pending[..n], pending[n]);
      assert pending == pending[..n] + [pending[n]];
    }
  }

  lemma AcknowledgedNext(s: State, n: nat, now: string)
    ensures Run(s, Acknowledgements(n + 1, now)) == Acknowledged(Run(s, Acknowledgements(n, now)), now)
  {
    var acks := Acknowledgements(n, now);
    assert (acks + [Acknowledge(now)])[..|acks|] == acks;
  }

  function Intents(pending: seq<Pending>): seq<Intent> {
    seq(|pending|, i requires 0 <= i < |pending| => pending[i].intent)
  }

  lemma IntentsGrow(before: seq<Pending>, p: Pending)
    ensures Intents(before + [p]) == Intents(before) + [p.intent]
  {}

  /** The first `i` intents have been handled, and each of them is accounted for. */
  ghost predicate PlacedSoFar(start: State, now: State, intents: seq<Intent>, world: World, replies: seq<Reply>, i: nat,
                              rejected: seq<Intent>, duplicates: seq<Intent>, kept: seq<Intent>)
    requires |replies| == |intents| && i <= |intents|
  {
    && Good(now.orders) && now == Placed(start, intents[..i], world, replies[..i])
    && Accounted(now.pending, rejected, duplicates, kept) == multiset(intents[..i])
    && ListedAs(start, intents[..i], world, replies[..i], rejected, duplicates, kept)
  }

  /** The lists grow as the outcome of the intent says. */
  ghost predicate Filed(outcome: Option<Outcome>, intent: Intent, rejected0: seq<Intent>, duplicates0: seq<Intent>,
                        kept0: seq<Intent>, rejected: seq<Intent>, duplicates: seq<Intent>, kept: seq<Intent>)
  {
    && rejected == rejected0 + (if outcome == Some(Refused) then [intent] else [])
    && duplicates == duplicates0 + (if outcome == Some(Duplicated) then [intent] else [])
    && kept == kept0 + (if outcome == Some(Kept) then [intent] else [])
  }

  lemma PlacedFurther(start: State, before: State, now: State, intents: seq<Intent>, world: World, replies: seq<Reply>,
                      i: nat, rejected0: seq<Intent>, duplicates0: seq<Intent>, kept0: seq<Intent>,
                      rejected: seq<Intent>, duplicates: seq<Intent>, kept: seq<Intent>)
    requires |replies| == |intents| && i < |intents|
    requires PlacedSoFar(start, before, intents, world, replies, i, rejected0, duplicates0, kept0)
    requires Good(now.orders) && now == Handled(before, intents[i], world, replies[i])
    requires Accounted(now.pending, rejected, duplicates, kept) ==
      Accounted(before.pending, rejected0, duplicates0, kept0) + multiset{intents[i]}
    requires Filed(OutcomeOf(before, intents[i], world, replies[i]), intents[i], rejected0, duplicates0, kept0,
                   rejected, duplicates, kept)
    ensures PlacedSoFar(start, now, intents, world, replies, i + 1, rejected, duplicates, kept)
  {
    PlacedStep(start, intents, world, replies, i);
    OneMoreIntent(intents, i);
    ListedFurther(start, intents, world, replies, i, Refused);
    ListedFurther(start, intents, world, replies, i, Duplicated);
    ListedFurther(start, intents, world, replies, i, Kept);
  }

  lemma OneMoreIntent(intents: seq<Intent>, i: nat)
    requires i < |intents|
    ensures multiset(intents[..i + 1]) == multiset(intents[..i]) + multiset{intents[i]}
  {
    assert intents[..i + 1] == intents[..i] + [intents[i]];
  }

  /** The first `n` of the placed orders have been acknowledged. */
  ghost predicate AcknowledgedSoFar(start: State, s: State, now: string, n: nat, submitted: seq<Intent>,
                                    rejected: seq<Intent>)
    requires n <= |start.pending|
  {
    && Good(s.orders) && s.pending == start.pending[n..] && s == Run(start, Acknowledgements(n, now))
    && submitted == ConfirmedOf(start.pending[..n]) && rejected == UnconfirmedOf(start.pending[..n])
  }

  lemma AcknowledgedFurther(start: State, before: State, s: State, now: string, n: nat,
                            submitted0: seq<Intent>, rejected0: seq<Intent>, submitted: seq<Intent>,
                            rejected: seq<Intent>)
    requires n < |start.pending| && AcknowledgedSoFar(start, before, now, n, submitted0, rejected0)
    requires Good(s.orders) && s == Acknowledged(before, now)
    requires var p := start.pending[n];
      && submitted == submitted0 + (if Confirmed(p.ack.status) then [p.intent] else [])
      && rejected == rejected0 + (if Confirmed(p.ack.status) then [] else [p.intent])
    ensures AcknowledgedSoFar(start, s, now, n + 1, submitted, rejected)
  {
    AcknowledgedNext(start, n, now);
    ListsStep(start.pending, n);
    assert before.pending[0] == start.pending[n] && before.pending[1..] == start.pending[n + 1..];
  }

  lemma ListsStep(pending: seq<Pending>, n: nat)
    requires n < |pending|
    ensures ConfirmedOf(pending[..n + 1]) ==
      ConfirmedOf(pending[..n]) + (if Confirmed(pending[n].ack.status) then [pending[n].intent] else [])
    ensures UnconfirmedOf(pending[..n + 1]) ==
      UnconfirmedOf(pending[..n]) + (if Confirmed(pending[n].ack.status) then [] else [pending[n].intent])
  {
    assert pending[..n + 1][..n] == pending[..n];
  }

  lemma PlacedStep(s: State, intents: seq<Intent>, world: World, replies: seq<Reply>, i: nat)
    requires |replies| == |intents| && i < |intents|
    ensures Placed(s, intents[..i + 1], world, replies[..i + 1]) ==
      Handled(Placed(s, intents[..i], world, replies[..i]), intents[i], world, replies[i])
  {
    assert intents[..i + 1][..i] == intents[..i] && replies[..i + 1][..i] == replies[..i];
    var handles := Handles(intents[..i], world, replies[..i]);
    assert (handles + [Handle(intents[i], world, replies[i])])[..|handles|] == handles;
  }
}

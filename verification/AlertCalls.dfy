/**
 process_execution as it really runs: the execution monitor, the Flex sync and
 reconciliation call it from processes of their own, without a lock.  The steps of
 the calls interleave freely, and a call may end between any two of them, by an
 exception or with its process.
 */
module AlertCalls {
  import opened Alerts
  import opened Ledger
  import opened Numbers
  import opened OrderStore
  import opened Sums
  import opened Wrappers

  /** What a call is given, and the automated order found for it. */
  datatype Call = Call(fill: Fill, match_: Option<Order>, flexOrderId: string, now: string)

  function AsEvent(call: Call, death: Death): (e: Event)
    ensures e.Observe?
  {
    Observe(call.fill, call.match_, call.flexOrderId, call.now, death)
  }

  /** How far a call is: its fill is recorded, its evidence covers the order, the order was found not
      to be noted, the alert is out, the note is written (and some executions are still to be marked).
      Repeated is a call that found the order noted and has only executions to mark. */
  datatype Phase =
    | Begun(call: Call)
    | Gathered(call: Call, order: Order, aggregate: Aggregate)
    | Cleared(call: Call, order: Order, aggregate: Aggregate)
    | Alerted(call: Call, order: Order, aggregate: Aggregate)
    | Written(call: Call, order: Order, aggregate: Aggregate, left: set<string>)
    | Repeated(left: set<string>)

  /** The tables and the store that all processes share, and the calls that are under way. */
  datatype Scene = Scene(desk: Desk, calls: map<int, Phase>)

  datatype Step =
    | Imports(rows: seq<FlexRow>)
    | Observes(caller: int, call: Call)
    | Gathers(caller: int)
    | Checks(caller: int)
    | Sends(caller: int)
    | Notes(caller: int)
    | Marks(caller: int, ids: set<string>)
    | Fills(caller: int)
    | Ends(caller: int)

  // ---------------------------------------------------------------------
  // One step of one call

  /** The match, the expected quantity and the aggregate; a call without evidence that covers returns. */
  ghost function AfterGather(s: Scene, c: int, call: Call): Scene {
    var evidence := Evidence(s.desk.notices, s.desk.flex, AsEvent(call, Survives));
    if call.match_.None? || call.match_.value.quantity <= 0.0 || evidence.None?
      || evidence.value.filled + SLACK < call.match_.value.quantity
    then s.(calls := s.calls - {c})
    else s.(calls := s.calls[c := Gathered(call, call.match_.value, evidence.value)])
  }

  /** _already_notified. */
  function AfterCheck(s: Scene, c: int, p: Phase): Scene
    requires p.Gathered?
  {
    if p.order.key in s.desk.completed then s.(calls := s.calls[c := Repeated(p.aggregate.execIds)])
    else s.(calls := s.calls[c := Cleared(p.call, p.order, p.aggregate)])
  }

  function AlertIn(p: Phase): Alert
    requires p.Gathered? || p.Cleared? || p.Alerted?
  {
    Alert(p.order.key, p.aggregate.filled, p.order.quantity, p.aggregate.average)
  }

  function AfterSend(s: Scene, c: int, p: Phase): Scene
    requires p.Cleared?
  {
    Scene(s.desk.(alerts := s.desk.alerts + [AlertIn(p)]), s.calls[c := Alerted(p.call, p.order, p.aggregate)])
  }

  /** _mark_order_notified: a note that is there already stays as it is. */
  function AfterNoting(s: Scene, c: int, p: Phase): Scene
    requires p.Alerted?
  {
    var completed := if p.order.key in s.desk.completed then s.desk.completed
                     else Noted(s.desk.completed, p.order, p.aggregate, p.call.fill.source);
    Scene(s.desk.(completed := completed), s.calls[c := Written(p.call, p.order, p.aggregate, p.aggregate.execIds)])
  }

  function AfterMarks(s: Scene, c: int, p: Phase, ids: set<string>): Scene
    requires p.Written? || p.Repeated?
  {
    Scene(s.desk.(notices := Marked(s.desk.notices, ids * p.left)), s.calls[c := p.(left := p.left - ids)])
  }

  function AfterFill(s: Scene, c: int, p: Phase): Scene
    requires p.Written?
  {
    Scene(s.desk.(orders := WithFilled(s.desk.orders, p.order.key, p.order.quantity, p.aggregate, p.call.now)),
          s.calls - {c})
  }

  /** A step that is not the caller's next one changes nothing. */
  ghost function Next(s: Scene, step: Step): Scene {
    match step
    case Imports(rows) => s.(desk := s.desk.(flex := Imported(s.desk.flex, rows)))
    case Observes(c, call) =>
      if c in s.calls then s else Scene(Recorded(s.desk, AsEvent(call, Survives)), s.calls[c := Begun(call)])
    case Gathers(c) => if c in s.calls && s.calls[c].Begun? then AfterGather(s, c, s.calls[c].call) else s
    case Checks(c) => if c in s.calls && s.calls[c].Gathered? then AfterCheck(s, c, s.calls[c]) else s
    case Sends(c) => if c in s.calls && s.calls[c].Cleared? then AfterSend(s, c, s.calls[c]) else s
    case Notes(c) => if c in s.calls && s.calls[c].Alerted? then AfterNoting(s, c, s.calls[c]) else s
    case Marks(c, ids) =>
      if c in s.calls && (s.calls[c].Written? || s.calls[c].Repeated?) then AfterMarks(s, c, s.calls[c], ids) else s
    case Fills(c) =>
      if c in s.calls && s.calls[c].Written? && s.calls[c].left == {} then AfterFill(s, c, s.calls[c]) else s
    case Ends(c) => s.(calls := s.calls - {c})
  }

  ghost function Play(s: Scene, steps: seq<Step>): Scene {
    if steps == [] then s else Next(Play(s, steps[..|steps| - 1]), steps[|steps| - 1])
  }

  lemma PlayMore(s: Scene, steps: seq<Step>, step: Step)
    ensures Play(s, steps + [step]) == Next(Play(s, steps), step)
  {
    assert (steps + [step])[..|steps|] == steps;
  }

  lemma {:induction false} PlayConcat(s: Scene, a: seq<Step>, b: seq<Step>)
    ensures Play(s, a + b) == Play(Play(s, a), b)
  {
    if b == [] {
      assert a + b == a;
    } else {
      assert (a + b)[..|a + b| - 1] == a + b[..|b| - 1];
      PlayConcat(s, a, b[..|b| - 1]);
    }
  }

  // ---------------------------------------------------------------------
  // The calls that stand between their check and their note

  function ClearedFor(s: Scene, key: OrderKey): set<int> {
    set c | c in s.calls && s.calls[c].Cleared? && s.calls[c].order.key == key
  }

  function AlertedFor(s: Scene, key: OrderKey): set<int> {
    set c | c in s.calls && s.calls[c].Alerted? && s.calls[c].order.key == key
  }

  function InFlight(s: Scene, key: OrderKey): nat {
    |ClearedFor(s, key)| + |AlertedFor(s, key)|
  }

  /** The call passes the check. */
  predicate Clears(s: Scene, step: Step, key: OrderKey) {
    && step.Checks? && step.caller in s.calls && s.calls[step.caller].Gathered?
    && s.calls[step.caller].order.key == key && key !in s.desk.completed
  }

  predicate SendsFor(s: Scene, step: Step, key: OrderKey) {
    step.Sends? && step.caller in ClearedFor(s, key)
  }

  predicate NotesFor(s: Scene, step: Step, key: OrderKey) {
    step.Notes? && step.caller in AlertedFor(s, key)
  }

  /** The alert is out and its note is lost. */
  predicate LosesFor(s: Scene, step: Step, key: OrderKey) {
    step.Ends? && step.caller in AlertedFor(s, key)
  }

  /** The call ends past its check and before its alert. */
  predicate GivesUp(s: Scene, step: Step, key: OrderKey) {
    step.Ends? && step.caller in ClearedFor(s, key)
  }

  lemma StepOnDesk(s: Scene, step: Step, key: OrderKey)
    ensures AlertsFor(Next(s, step).desk.alerts, key) ==
      AlertsFor(s.desk.alerts, key) + Bump(SendsFor(s, step, key))
    ensures key in Next(s, step).desk.completed <==> key in s.desk.completed || NotesFor(s, step, key)
  {
    if step.Sends? && step.caller in s.calls && s.calls[step.caller].Cleared? {
      OneMoreAlert(s.desk.alerts, AlertIn(s.calls[step.caller]), key);
    }
  }

  lemma StepOnCleared(s: Scene, step: Step, key: OrderKey)
    ensures ClearedFor(Next(s, step), key) ==
      if Clears(s, step, key) then ClearedFor(s, key) + {step.caller}
      else if SendsFor(s, step, key) || GivesUp(s, step, key) then ClearedFor(s, key) - {step.caller}
      else ClearedFor(s, key)
  {}

  lemma StepOnAlerted(s: Scene, step: Step, key: OrderKey)
    ensures AlertedFor(Next(s, step), key) ==
      if SendsFor(s, step, key) then AlertedFor(s, key) + {step.caller}
      else if NotesFor(s, step, key) || LosesFor(s, step, key) then AlertedFor(s, key) - {step.caller}
      else AlertedFor(s, key)
  {}

  lemma JoinsOrLeaves(a: set<int>, c: int)
    ensures c !in a ==> |a + {c}| == |a| + 1
    ensures c in a ==> |a - {c}| == |a| - 1 && a + {c} == a
  {}

  /** What a step does to the numbers of calls past their check and of alerts. */
  lemma StepCounts(s: Scene, step: Step, key: OrderKey)
    ensures var s' := Next(s, step);
      && |ClearedFor(s', key)| == |ClearedFor(s, key)| + Bump(Clears(s, step, key))
           - Bump(SendsFor(s, step, key) || GivesUp(s, step, key))
      && |AlertedFor(s', key)| == |AlertedFor(s, key)| + Bump(SendsFor(s, step, key))
           - Bump(NotesFor(s, step, key) || LosesFor(s, step, key))
      && AlertsFor(s'.desk.alerts, key) == AlertsFor(s.desk.alerts, key) + Bump(SendsFor(s, step, key))
      && (key in s'.desk.completed <==> key in s.desk.completed || NotesFor(s, step, key))
  {
    StepOnDesk(s, step, key);
    StepOnCleared(s, step, key);
    StepOnAlerted(s, step, key);
    if !step.Imports? {
      JoinsOrLeaves(ClearedFor(s, key), step.caller);
      JoinsOrLeaves(AlertedFor(s, key), step.caller);
    }
  }

  // ---------------------------------------------------------------------
  // How often an order is announced

  /** The alerts whose note was lost. */
  ghost function Lost(s: Scene, steps: seq<Step>, key: OrderKey): nat {
    if steps == [] then 0
    else
      var (init, last) := (steps[..|steps| - 1], steps[|steps| - 1]);
      Lost(s, init, key) + Bump(LosesFor(Play(s, init), last, key))
  }

  /** The alerts whose note found another there already. */
  ghost function Ignored(s: Scene, steps: seq<Step>, key: OrderKey): nat {
    if steps == [] then 0
    else
      var (init, last) := (steps[..|steps| - 1], steps[|steps| - 1]);
      Ignored(s, init, key) + Bump(NotesFor(Play(s, init), last, key) && key in Play(s, init).desk.completed)
  }

  /** In any interleaving an order is announced once for each lost note, once for each ignored one,
      once if it gets noted, and once for each call that has yet to write its note. */
  lemma {:induction false} AlertsAreCounted(s: Scene, steps: seq<Step>, key: OrderKey)
    ensures var s' := Play(s, steps);
      && AlertsFor(s'.desk.alerts, key) + |AlertedFor(s, key)| ==
           AlertsFor(s.desk.alerts, key) + Lost(s, steps, key) + Ignored(s, steps, key) + |AlertedFor(s', key)|
           + Bump(key in s'.desk.completed && key !in s.desk.completed)
      && (key in s.desk.completed ==> key in s'.desk.completed)
  {
    if steps != [] {
      var init := steps[..|steps| - 1];
      AlertsAreCounted(s, init, key);
      StepCounts(Play(s, init), steps[|steps| - 1], key);
    }
  }

  /** No call is under way, and the order was neither announced nor noted. */
  ghost predicate Calm(s: Scene, key: OrderKey) {
    s.calls == map[] && AlertsFor(s.desk.alerts, key) == 0 && key !in s.desk.completed
  }

  lemma CalmIsEmpty(s: Scene, key: OrderKey)
    requires s.calls == map[]
    ensures ClearedFor(s, key) == {} && AlertedFor(s, key) == {}
  {}

  /** Once all calls have ended, an order was announced at most once exactly when no note was lost or
      ignored, or the one note there was is the one that was lost. */
  lemma AlertsAreBounded(s: Scene, steps: seq<Step>, key: OrderKey)
    requires Calm(s, key) && Play(s, steps).calls == map[]
    ensures var (s', lost, ignored) := (Play(s, steps), Lost(s, steps, key), Ignored(s, steps, key));
      AlertsFor(s'.desk.alerts, key) <= 1 <==>
        ignored == 0 && (lost == 0 || (lost == 1 && key !in s'.desk.completed))
  {
    AlertsAreCounted(s, steps, key);
    CalmIsEmpty(s, key);
    CalmIsEmpty(Play(s, steps), key);
    IgnoredIsNoted(s, steps, key);
  }

  lemma {:induction false} IgnoredIsNoted(s: Scene, steps: seq<Step>, key: OrderKey)
    ensures Ignored(s, steps, key) > 0 ==> key in Play(s, steps).desk.completed
  {
    if steps != [] {
      var init := steps[..|steps| - 1];
      IgnoredIsNoted(s, init, key);
      StepOnDesk(Play(s, init), steps[|steps| - 1], key);
    }
  }

  // ---------------------------------------------------------------------
  // Overlap

  /** No two calls for the order stand between their check and their note at once. */
  ghost predicate Serial(s: Scene, steps: seq<Step>, key: OrderKey) {
    InFlight(Play(s, steps), key) <= 1 && (steps == [] || Serial(s, steps[..|steps| - 1], key))
  }

  /** Every call for the order that passes the check sends its alert, unless it is still under way. */
  ghost predicate NoneGivesUp(s: Scene, steps: seq<Step>, key: OrderKey) {
    steps == [] ||
    var (init, last) := (steps[..|steps| - 1], steps[|steps| - 1]);
    NoneGivesUp(s, init, key) && !GivesUp(Play(s, init), last, key)
  }

  /** Without overlap no note is ignored, whoever dies: what is left is the count of lost notes. */
  lemma {:induction false} SerialNeverIgnores(s: Scene, steps: seq<Step>, key: OrderKey)
    requires Serial(s, steps, key) && (key in s.desk.completed ==> InFlight(s, key) == 0)
    ensures Ignored(s, steps, key) == 0
    ensures key in Play(s, steps).desk.completed ==> InFlight(Play(s, steps), key) == 0
  {
    if steps != [] {
      var init := steps[..|steps| - 1];
      SerialNeverIgnores(s, init, key);
      StepCounts(Play(s, init), steps[|steps| - 1], key);
      SomeoneStands(Play(s, init), steps[|steps| - 1], key);
    }
  }

  /** Whoever sends, notes or ends past the check was in flight. */
  lemma SomeoneStands(s: Scene, step: Step, key: OrderKey)
    ensures SendsFor(s, step, key) || GivesUp(s, step, key) ==> |ClearedFor(s, key)| >= 1
    ensures NotesFor(s, step, key) || LosesFor(s, step, key) ==> |AlertedFor(s, key)| >= 1
  {}

  /** Alerts sent and alerts about to be sent only become more, and no alerted call is without its alert. */
  lemma {:induction false} AlertsOnlyGrow(s: Scene, steps: seq<Step>, n: nat, key: OrderKey)
    requires Calm(s, key) && NoneGivesUp(s, steps, key) && n <= |steps|
    ensures var (then_, end) := (Play(s, steps[..n]), Play(s, steps));
      && AlertsFor(then_.desk.alerts, key) + |ClearedFor(then_, key)| <=
           AlertsFor(end.desk.alerts, key) + |ClearedFor(end, key)|
      && AlertsFor(end.desk.alerts, key) >= |AlertedFor(end, key)|
    decreases |steps|
  {
    if steps == [] {
      CalmIsEmpty(s, key);
    } else {
      var init := steps[..|steps| - 1];
      StepCounts(Play(s, init), steps[|steps| - 1], key);
      if n == |steps| {
        assert steps[..n] == steps;
        AlertsOnlyGrow(s, init, 0, key);
      } else {
        assert init[..n] == steps[..n];
        AlertsOnlyGrow(s, init, n, key);
      }
    }
  }

  /** Some moment of a run that is not serial has two calls in flight. */
  lemma {:induction false} OverlapMoment(s: Scene, steps: seq<Step>, key: OrderKey) returns (n: nat)
    requires !Serial(s, steps, key)
    ensures n <= |steps| && InFlight(Play(s, steps[..n]), key) >= 2
  {
    if InFlight(Play(s, steps), key) >= 2 {
      n := |steps|;
      assert steps[..n] == steps;
    } else {
      n := OverlapMoment(s, steps[..|steps| - 1], key);
      assert steps[..|steps| - 1][..n] == steps[..n];
    }
  }

  lemma NoneGivesUpBefore(s: Scene, steps: seq<Step>, n: nat, key: OrderKey)
    requires NoneGivesUp(s, steps, key) && n <= |steps|
    ensures NoneGivesUp(s, steps[..n], key)
    decreases |steps|
  {
    if n == |steps| {
      assert steps[..n] == steps;
    } else {
      NoneGivesUpBefore(s, steps[..|steps| - 1], n, key);
      assert steps[..|steps| - 1][..n] == steps[..n];
    }
  }

  lemma OverlapAnnouncesMore(s: Scene, steps: seq<Step>, key: OrderKey)
    requires Calm(s, key) && NoneGivesUp(s, steps, key) && !Serial(s, steps, key)
    ensures AlertsFor(Play(s, steps).desk.alerts, key) + |ClearedFor(Play(s, steps), key)| >= 2
  {
    var n := OverlapMoment(s, steps, key);
    AlertsOnlyGrow(s, steps, n, key);
    NoneGivesUpBefore(s, steps, n, key);
    AlertsOnlyGrow(s, steps[..n], n, key);
  }

  /** At every moment of a run in which whoever passes the check goes on to the alert: the alerts that are
      out and about to be sent are at most one exactly when no call ever passed the check while another
      stood between its check and its note, and there is one lost note, one note or one call in flight at most. */
  lemma OneAlertIffSerial(s: Scene, steps: seq<Step>, key: OrderKey)
    requires Calm(s, key) && NoneGivesUp(s, steps, key)
    ensures var s' := Play(s, steps);
      AlertsFor(s'.desk.alerts, key) + |ClearedFor(s', key)| <= 1 <==>
        Serial(s, steps, key) && Lost(s, steps, key) + Bump(key in s'.desk.completed) + InFlight(s', key) <= 1
  {
    CalmIsEmpty(s, key);
    AlertsAreCounted(s, steps, key);
    if Serial(s, steps, key) {
      SerialNeverIgnores(s, steps, key);
    } else {
      OverlapAnnouncesMore(s, steps, key);
    }
  }

  /** So once all calls have ended, an order was announced at most once exactly when no two calls
      overlapped between check and note and no note was lost, or the only note was. */
  lemma OneAlertIffSerialAndNoneLost(s: Scene, steps: seq<Step>, key: OrderKey)
    requires Calm(s, key) && NoneGivesUp(s, steps, key) && Play(s, steps).calls == map[]
    ensures var (s', lost) := (Play(s, steps), Lost(s, steps, key));
      && (AlertsFor(s'.desk.alerts, key) <= 1 <==>
            Serial(s, steps, key) && (lost == 0 || (lost == 1 && key !in s'.desk.completed)))
      && (lost == 0 ==> (AlertsFor(s'.desk.alerts, key) >= 1 <==> key in s'.desk.completed))
  {
    OneAlertIffSerial(s, steps, key);
    CalmIsEmpty(s, key);
    CalmIsEmpty(Play(s, steps), key);
    AlertsAreCounted(s, steps, key);
    IgnoredIsNoted(s, steps, key);
  }

  /** Once an order is noted and no call for it is in flight, it is never announced again. */
  lemma {:induction false} NotedStaysQuiet(s: Scene, steps: seq<Step>, key: OrderKey)
    requires key in s.desk.completed && InFlight(s, key) == 0
    ensures var s' := Play(s, steps);
      && key in s'.desk.completed && InFlight(s', key) == 0
      && AlertsFor(s'.desk.alerts, key) == AlertsFor(s.desk.alerts, key)
  {
    if steps != [] {
      var init := steps[..|steps| - 1];
      NotedStaysQuiet(s, init, key);
      StepCounts(Play(s, init), steps[|steps| - 1], key);
      SomeoneStands(Play(s, init), steps[|steps| - 1], key);
    }
  }

  /** A call changes the order store last: only a call that has written its note and marked every execution
      of its evidence does. */
  lemma StoreComesLast(s: Scene, step: Step)
    ensures Next(s, step).desk.orders != s.desk.orders ==>
      && step.Fills? && step.caller in s.calls && s.calls[step.caller].Written? && s.calls[step.caller].left == {}
  {}

  /** The first note of an order stays as it was written, whoever else notes it. */
  lemma {:induction false} FirstNoteStays(s: Scene, steps: seq<Step>, key: OrderKey)
    requires key in s.desk.completed
    ensures key in Play(s, steps).desk.completed && Play(s, steps).desk.completed[key] == s.desk.completed[key]
  {
    if steps != [] {
      FirstNoteStays(s, steps[..|steps| - 1], key);
    }
  }

  lemma TwoSteps(s: Scene, a: Step, b: Step)
    ensures Play(s, [a, b]) == Next(Next(s, a), b)
  {
    PlayMore(s, [], a);
    PlayMore(s, [a], b);
    assert [] + [a] == [a] && [a] + [b] == [a, b];
  }

  lemma SendAndNote(s: Scene, c: int)
    requires c in s.calls && s.calls[c].Cleared?
    ensures var (p, s') := (s.calls[c], Play(s, [Sends(c), Notes(c)]));
      && s'.desk.alerts == s.desk.alerts + [AlertIn(p)] && p.order.key in s'.desk.completed
      && forall other :: other in s.calls && other != c ==> other in s'.calls && s'.calls[other] == s.calls[other]
  {
    TwoSteps(s, Sends(c), Notes(c));
  }

  /** Whenever two calls for an order have passed the check, it is announced twice if they go on, although
      nobody dies and the order is noted. */
  lemma OverlapAnnouncesTwice(s: Scene, a: int, b: int)
    requires a != b && a in s.calls && b in s.calls && s.calls[a].Cleared? && s.calls[b].Cleared?
    requires s.calls[a].order.key == s.calls[b].order.key
    ensures var s' := Play(Play(s, [Sends(a), Notes(a)]), [Sends(b), Notes(b)]);
      && s'.desk.alerts == s.desk.alerts + [AlertIn(s.calls[a]), AlertIn(s.calls[b])]
      && s.calls[a].order.key in s'.desk.completed
  {
    SendAndNote(s, a);
    SendAndNote(Play(s, [Sends(a), Notes(a)]), b);
  }

  // ---------------------------------------------------------------------
  // One call at a time

  function CallOf(e: Event): Call
    requires e.Observe?
  {
    Call(e.fill, e.match_, e.flexOrderId, e.now)
  }

  /** The steps of a call that is not interrupted, up to its alert. */
  function Opening(c: int, call: Call): seq<Step> {
    [Observes(c, call), Gathers(c), Checks(c), Sends(c)]
  }

  /** The rest of its steps, as far as its process lives; a step that is not due does nothing. */
  function Closing(c: int, ids: set<string>, death: Death): seq<Step> {
    match death
    case Survives => [Notes(c), Marks(c, ids), Fills(c), Ends(c)]
    case AfterAlert => [Marks(c, ids), Ends(c)]
    case AfterNote(marked) => [Notes(c), Marks(c, marked), Ends(c)]
  }

  lemma FourSteps(s: Scene, a: Step, b: Step, c: Step, d: Step)
    ensures Play(s, [a, b, c, d]) == Next(Next(Next(Next(s, a), b), c), d)
    ensures Play(s, [a, b, c]) == Next(Next(Next(s, a), b), c)
  {
    assert [a, b, c, d] == [a, b] + [c, d] && [a, b, c] == [a, b] + [c];
    TwoSteps(s, a, b);
    TwoSteps(Play(s, [a, b]), c, d);
    PlayConcat(s, [a, b], [c, d]);
    PlayMore(s, [a, b], c);
  }

  // One step, when it is due.

  lemma ObserveRecords(s: Scene, c: int, e: Event)
    requires e.Observe? && c !in s.calls
    ensures Next(s, Observes(c, CallOf(e))) == Scene(Recorded(s.desk, e), s.calls[c := Begun(CallOf(e))])
  {}

  lemma GatherCovers(s: Scene, c: int, e: Event, aggregate: Aggregate)
    requires c in s.calls && e.Observe? && s.calls[c] == Begun(CallOf(e))
    requires e.match_.Some? && e.match_.value.quantity > 0.0 && aggregate.filled + SLACK >= e.match_.value.quantity
    requires Evidence(s.desk.notices, s.desk.flex, e) == Some(aggregate)
    ensures Next(s, Gathers(c)) == s.(calls := s.calls[c := Gathered(CallOf(e), e.match_.value, aggregate)])
  {}

  lemma GatherReturns(s: Scene, c: int, e: Event)
    requires c in s.calls && e.Observe? && s.calls[c] == Begun(CallOf(e))
    requires var evidence := Evidence(s.desk.notices, s.desk.flex, e);
      e.match_.Some? && e.match_.value.quantity > 0.0 && evidence.Some? ==>
        evidence.value.filled + SLACK < e.match_.value.quantity
    ensures Next(s, Gathers(c)) == s.(calls := s.calls - {c})
  {}

  lemma CheckClears(s: Scene, c: int)
    requires c in s.calls && s.calls[c].Gathered? && s.calls[c].order.key !in s.desk.completed
    ensures var p := s.calls[c];
      Next(s, Checks(c)) == s.(calls := s.calls[c := Cleared(p.call, p.order, p.aggregate)])
  {}

  lemma CheckRepeats(s: Scene, c: int)
    requires c in s.calls && s.calls[c].Gathered? && s.calls[c].order.key in s.desk.completed
    ensures Next(s, Checks(c)) == s.(calls := s.calls[c := Repeated(s.calls[c].aggregate.execIds)])
  {}

  lemma OnlyCall(c: int, p: Phase, q: Phase)
    ensures map[c := p][c := q] == map[c := q] && map[c := p] - {c} == map[]
  {}

  /** The announcement of an event, in the form in which its call holds it. */
  ghost function Announced(d: Desk, e: Event): Option<Aggregate>
    requires e.Observe?
  {
    var evidence := Evidence(Recorded(d, e).notices, d.flex, e);
    if e.match_.Some? && e.match_.value.quantity > 0.0 && evidence.Some?
      && evidence.value.filled + SLACK >= e.match_.value.quantity
    then evidence else None
  }

  lemma OpenedNone(d: Desk, c: int, e: Event)
    requires e.Observe? && Announced(d, e).None?
    ensures Play(Scene(d, map[]), Opening(c, CallOf(e))) == Scene(Recorded(d, e), map[])
  {
    var (s, r, b) := (Scene(d, map[]), Recorded(d, e), Begun(CallOf(e)));
    FourSteps(s, Observes(c, CallOf(e)), Gathers(c), Checks(c), Sends(c));
    ObserveRecords(s, c, e);
    OnlyCall(c, b, b);
    GatherReturns(Scene(r, map[c := b]), c, e);
  }

  lemma GatheredAlone(d: Desk, c: int, e: Event, aggregate: Aggregate)
    requires e.Observe? && Announced(d, e) == Some(aggregate)
    ensures Next(Next(Scene(d, map[]), Observes(c, CallOf(e))), Gathers(c)) ==
      Scene(Recorded(d, e), map[c := Gathered(CallOf(e), e.match_.value, aggregate)])
  {
    var b := Begun(CallOf(e));
    ObserveRecords(Scene(d, map[]), c, e);
    GatherCovers(Scene(Recorded(d, e), map[c := b]), c, e, aggregate);
    OnlyCall(c, b, Gathered(CallOf(e), e.match_.value, aggregate));
  }

  /** The check of a call that is alone, and the alert if it passes. */
  lemma CheckedAlone(r: Desk, c: int, g: Phase)
    requires g.Gathered?
    ensures Next(Next(Scene(r, map[c := g]), Checks(c)), Sends(c)) ==
      if g.order.key in r.completed then Scene(r, map[c := Repeated(g.aggregate.execIds)])
      else Scene(r.(alerts := r.alerts + [AlertIn(g)]), map[c := Alerted(g.call, g.order, g.aggregate)])
  {
    var k := Cleared(g.call, g.order, g.aggregate);
    if g.order.key in r.completed {
      CheckRepeats(Scene(r, map[c := g]), c);
      OnlyCall(c, g, Repeated(g.aggregate.execIds));
    } else {
      CheckClears(Scene(r, map[c := g]), c);
      OnlyCall(c, g, k);
      OnlyCall(c, k, Alerted(g.call, g.order, g.aggregate));
    }
  }

  lemma OpenedSome(d: Desk, c: int, e: Event, aggregate: Aggregate)
    requires e.Observe? && Announced(d, e) == Some(aggregate)
    ensures var r := Recorded(d, e);
      Play(Scene(d, map[]), Opening(c, CallOf(e))) ==
        if e.match_.value.key in d.completed then Scene(r, map[c := Repeated(aggregate.execIds)])
        else
          Scene(r.(alerts := r.alerts + [AlertIn(Alerted(CallOf(e), e.match_.value, aggregate))]),
                map[c := Alerted(CallOf(e), e.match_.value, aggregate)])
  {
    FourSteps(Scene(d, map[]), Observes(c, CallOf(e)), Gathers(c), Checks(c), Sends(c));
    GatheredAlone(d, c, e, aggregate);
    CheckedAlone(Recorded(d, e), c, Gathered(CallOf(e), e.match_.value, aggregate));
  }

  lemma EndsAlone(d: Desk, c: int, p: Phase)
    ensures Next(Scene(d, map[c := p]), Ends(c)) == Scene(d, map[]) == Next(Scene(d, map[]), Ends(c))
  {
    OnlyCall(c, p, p);
    assert Scene(d, map[]).calls - {c} == map[];
  }

  lemma MarksAlone(d: Desk, c: int, p: Phase, ids: set<string>)
    requires p.Written? || p.Repeated?
    ensures Next(Scene(d, map[c := p]), Marks(c, ids)) ==
      Scene(d.(notices := Marked(d.notices, p.left * ids)), map[c := p.(left := p.left - ids)])
  {
    OnlyCall(c, p, p.(left := p.left - ids));
    assert ids * p.left == p.left * ids;
  }

  lemma ClosedRepeated(d: Desk, c: int, ids: set<string>, death: Death)
    ensures Play(Scene(d, map[c := Repeated(ids)]), Closing(c, ids, death)) ==
      Scene(d.(notices := Marked(d.notices, MarksMade(ids, death))), map[])
  {
    var p := Repeated(ids);
    var s := Scene(d, map[c := p]);
    var marks := if death.AfterNote? then death.marked else ids;
    var after := d.(notices := Marked(d.notices, MarksMade(ids, death)));
    MarksAlone(d, c, p, marks);
    assert ids * ids == ids;
    EndsAlone(after, c, Repeated(ids - marks));
    match death
    case Survives => FourSteps(s, Notes(c), Marks(c, ids), Fills(c), Ends(c));
    case AfterAlert => TwoSteps(s, Marks(c, ids), Ends(c));
    case AfterNote(marked) => FourSteps(s, Notes(c), Marks(c, marked), Ends(c), Ends(c));
  }

  /** What the note, the marks and the order store come to, for a call that has sent its alert. */
  ghost function Finished(d: Desk, p: Phase, death: Death): Desk
    requires p.Alerted? && p.order.key !in d.completed
  {
    if death.AfterAlert? then d
    else
      var noted := d.(completed := Noted(d.completed, p.order, p.aggregate, p.call.fill.source),
                      notices := Marked(d.notices, MarksMade(p.aggregate.execIds, death)));
      if death.AfterNote? then noted
      else noted.(orders := WithFilled(d.orders, p.order.key, p.order.quantity, p.aggregate, p.call.now))
  }

  lemma NotesAlone(d: Desk, c: int, p: Phase)
    requires p.Alerted? && p.order.key !in d.completed
    ensures Next(Scene(d, map[c := p]), Notes(c)) ==
      Scene(d.(completed := Noted(d.completed, p.order, p.aggregate, p.call.fill.source)),
            map[c := Written(p.call, p.order, p.aggregate, p.aggregate.execIds)])
  {
    OnlyCall(c, p, Written(p.call, p.order, p.aggregate, p.aggregate.execIds));
  }

  lemma FillsAlone(d: Desk, c: int, p: Phase)
    requires p.Written? && p.left == {}
    ensures Next(Scene(d, map[c := p]), Fills(c)) ==
      Scene(d.(orders := WithFilled(d.orders, p.order.key, p.order.quantity, p.aggregate, p.call.now)), map[])
  {
    OnlyCall(c, p, p);
  }

  lemma ClosedAlerted(d: Desk, c: int, p: Phase, death: Death)
    requires p.Alerted? && p.order.key !in d.completed
    ensures Play(Scene(d, map[c := p]), Closing(c, p.aggregate.execIds, death)) == Scene(Finished(d, p, death), map[])
  {
    var s := Scene(d, map[c := p]);
    if death.AfterAlert? {
      TwoSteps(s, Marks(c, p.aggregate.execIds), Ends(c));
      EndsAlone(d, c, p);
    } else {
      NotesAlone(d, c, p);
      ClosedWritten(d, c, p, death);
    }
  }

  lemma ClosedWritten(d: Desk, c: int, p: Phase, death: Death)
    requires p.Alerted? && p.order.key !in d.completed && !death.AfterAlert?
    ensures Play(Scene(d, map[c := p]), Closing(c, p.aggregate.execIds, death)) == Scene(Finished(d, p, death), map[])
  {
    var (s, ids) := (Scene(d, map[c := p]), p.aggregate.execIds);
    var w := Written(p.call, p.order, p.aggregate, ids);
    var noted := d.(completed := Noted(d.completed, p.order, p.aggregate, p.call.fill.source));
    var marks := if death.AfterNote? then death.marked else ids;
    var marked := noted.(notices := Marked(d.notices, MarksMade(ids, death)));
    assert ids * ids == ids && ids - ids == {};
    NotesAlone(d, c, p);
    MarksAlone(noted, c, w, marks);
    if death.AfterNote? {
      FourSteps(s, Notes(c), Marks(c, marks), Ends(c), Ends(c));
      EndsAlone(marked, c, Written(p.call, p.order, p.aggregate, ids - marks));
    } else {
      FourSteps(s, Notes(c), Marks(c, marks), Fills(c), Ends(c));
      FillsAlone(marked, c, Written(p.call, p.order, p.aggregate, {}));
      EndsAlone(Finished(d, p, death), c, w);
    }
  }

  lemma ClosedNone(d: Desk, c: int, ids: set<string>, death: Death)
    ensures Play(Scene(d, map[]), Closing(c, ids, death)) == Scene(d, map[])
  {
    var s := Scene(d, map[]);
    EndsAlone(d, c, Repeated(ids));
    match death
    case Survives => FourSteps(s, Notes(c), Marks(c, ids), Fills(c), Ends(c));
    case AfterAlert => TwoSteps(s, Marks(c, ids), Ends(c));
    case AfterNote(marked) => FourSteps(s, Notes(c), Marks(c, marked), Ends(c), Ends(c));
  }

  ghost function StepsOf(d: Desk, e: Event): seq<Step> {
    match e
    case Import(rows) => [Imports(rows)]
    case Observe(_, _, _, _, death) => Opening(0, CallOf(e)) + Closing(0, IdsOf(d, e), death)
  }

  /** The executions that the call of an event marks. */
  ghost function IdsOf(d: Desk, e: Event): set<string>
    requires e.Observe?
  {
    if Announced(d, e).Some? then Announced(d, e).value.execIds else {}
  }

  lemma SilentCall(d: Desk, e: Event)
    requires e.Observe? && Announced(d, e).None?
    ensures Processed(d, e) == Recorded(d, e)
  {
    ProcessedParts(d, e);
  }

  lemma JudgedCall(d: Desk, e: Event, aggregate: Aggregate)
    requires e.Observe? && Announced(d, e) == Some(aggregate)
    ensures var (r, order) := (Recorded(d, e), e.match_.value);
      Processed(d, e) ==
        if order.key in d.completed then r.(notices := Marked(r.notices, MarksMade(aggregate.execIds, e.death)))
        else
          Finished(r.(alerts := r.alerts + [Alert(order.key, aggregate.filled, order.quantity, aggregate.average)]),
                   Alerted(CallOf(e), order, aggregate), e.death)
  {
    ProcessedParts(d, e);
  }

  /** The steps of a call that no other interrupts have exactly the effect of process_execution. */
  lemma CallIsSteps(d: Desk, e: Event)
    ensures Play(Scene(d, map[]), StepsOf(d, e)) == Scene(Processed(d, e), map[])
  {
    var s := Scene(d, map[]);
    if e.Import? {
      PlayMore(s, [], Imports(e.rows));
      assert [] + [Imports(e.rows)] == [Imports(e.rows)];
    } else {
      PlayConcat(s, Opening(0, CallOf(e)), Closing(0, IdsOf(d, e), e.death));
      if Announced(d, e).None? {
        OpenedNone(d, 0, e);
        ClosedNone(Recorded(d, e), 0, {}, e.death);
        SilentCall(d, e);
      } else {
        HeardCall(d, e, Announced(d, e).value);
      }
    }
  }

  lemma HeardCall(d: Desk, e: Event, aggregate: Aggregate)
    requires e.Observe? && Announced(d, e) == Some(aggregate)
    ensures Play(Play(Scene(d, map[]), Opening(0, CallOf(e))), Closing(0, aggregate.execIds, e.death)) ==
      Scene(Processed(d, e), map[])
  {
    var (r, order) := (Recorded(d, e), e.match_.value);
    OpenedSome(d, 0, e, aggregate);
    JudgedCall(d, e, aggregate);
    if order.key in d.completed {
      ClosedRepeated(r, 0, aggregate.execIds, e.death);
    } else {
      ClosedAlerted(r.(alerts := r.alerts + [Alert(order.key, aggregate.filled, order.quantity, aggregate.average)]), 0,
                    Alerted(CallOf(e), order, aggregate), e.death);
    }
  }

  ghost function AllSteps(d: Desk, events: seq<Event>): seq<Step> {
    if events == [] then []
    else
      var init := events[..|events| - 1];
      AllSteps(d, init) + StepsOf(Run(d, init), events[|events| - 1])
  }

  predicate ByZero(steps: seq<Step>) {
    forall i :: 0 <= i < |steps| ==> steps[i].Imports? || steps[i].caller == 0
  }

  lemma OneCallIsSerial(s: Scene, key: OrderKey)
    requires s.calls.Keys <= {0}
    ensures InFlight(s, key) <= 1
  {
    var (cleared, alerted) := (ClearedFor(s, key), AlertedFor(s, key));
    assert cleared <= {0} && alerted <= {0} && cleared * alerted == {};
    assert cleared == {} || cleared == {0};
    assert alerted == {} || alerted == {0};
  }

  lemma {:induction false} OneCallerIsSerial(s: Scene, steps: seq<Step>, key: OrderKey)
    requires s.calls.Keys <= {0} && ByZero(steps)
    ensures Play(s, steps).calls.Keys <= {0} && Serial(s, steps, key)
  {
    if steps == [] {
      OneCallIsSerial(s, key);
    } else {
      OneCallerIsSerial(s, steps[..|steps| - 1], key);
      OneCallIsSerial(Play(s, steps), key);
    }
  }

  lemma CallByZero(call: Call, ids: set<string>, death: Death)
    ensures ByZero(Opening(0, call)) && ByZero(Closing(0, ids, death))
  {}

  lemma StepsByZero(d: Desk, e: Event)
    ensures ByZero(StepsOf(d, e))
  {
    if e.Observe? { CallByZero(CallOf(e), IdsOf(d, e), e.death); }
  }

  lemma {:induction false} AllByZero(d: Desk, events: seq<Event>)
    ensures ByZero(AllSteps(d, events))
  {
    if events != [] {
      var init := events[..|events| - 1];
      AllByZero(d, init);
      StepsByZero(Run(d, init), events[|events| - 1]);
    }
  }

  lemma {:induction false} RunIsPlayed(d: Desk, events: seq<Event>)
    ensures Play(Scene(d, map[]), AllSteps(d, events)) == Scene(Run(d, events), map[])
  {
    if events != [] {
      var (init, e) := (events[..|events| - 1], events[|events| - 1]);
      RunIsPlayed(d, init);
      CallIsSteps(Run(d, init), e);
      PlayConcat(Scene(d, map[]), AllSteps(d, init), StepsOf(Run(d, init), e));
    }
  }

  /** The runs of calls one after another are the serial interleavings of one caller. */
  lemma RunIsSerial(d: Desk, events: seq<Event>, key: OrderKey)
    ensures Play(Scene(d, map[]), AllSteps(d, events)) == Scene(Run(d, events), map[])
    ensures Serial(Scene(d, map[]), AllSteps(d, events), key)
  {
    RunIsPlayed(d, events);
    AllByZero(d, events);
    OneCallerIsSerial(Scene(d, map[]), AllSteps(d, events), key);
  }

  /** Two processes that poll a fill which announces its order, their steps in turn up to the check. */
  function InTurn(call: Call): seq<Step> {
    [Observes(1, call), Observes(2, call), Gathers(1), Gathers(2)] + [Checks(1), Checks(2)]
  }

  lemma BothRecord(d: Desk, e: Event)
    requires e.Observe?
    ensures var (s, b) := (Scene(d, map[]), Begun(CallOf(e)));
      Next(Next(s, Observes(1, CallOf(e))), Observes(2, CallOf(e))) == Scene(Recorded(d, e), map[1 := b, 2 := b])
  {
    var (s, b) := (Scene(d, map[]), Begun(CallOf(e)));
    ObserveRecords(s, 1, e);
    ObserveRecords(Scene(Recorded(d, e), map[1 := b]), 2, e);
    ObserveIsIdempotent(d.notices, Cleaned(e.fill), e.now, e.now);
  }

  lemma BothGather(s: Scene, e: Event, aggregate: Aggregate)
    requires 1 in s.calls && 2 in s.calls && e.Observe? && s.calls[1] == s.calls[2] == Begun(CallOf(e))
    requires e.match_.Some? && e.match_.value.quantity > 0.0 && aggregate.filled + SLACK >= e.match_.value.quantity
    requires Evidence(s.desk.notices, s.desk.flex, e) == Some(aggregate) && e.match_.value.key !in s.desk.completed
    ensures var (s', k) := (Next(Next(s, Gathers(1)), Gathers(2)), Cleared(CallOf(e), e.match_.value, aggregate));
      Next(Next(s', Checks(1)), Checks(2)) == s.(calls := s.calls[1 := k][2 := k])
  {
    var (g, k) := (Gathered(CallOf(e), e.match_.value, aggregate), Cleared(CallOf(e), e.match_.value, aggregate));
    GatherCovers(s, 1, e, aggregate);
    GatherCovers(s.(calls := s.calls[1 := g]), 2, e, aggregate);
    CheckClears(s.(calls := s.calls[1 := g][2 := g]), 1);
    CheckClears(s.(calls := s.calls[1 := g][2 := g][1 := k]), 2);
    assert s.calls[1 := g][2 := g][1 := k][2 := k] == s.calls[1 := k][2 := k];
  }

  lemma BothClear(d: Desk, e: Event)
    requires Announces(d, e)
    ensures var s := Play(Scene(d, map[]), InTurn(CallOf(e)));
      && s.desk == Recorded(d, e) && 1 in s.calls && 2 in s.calls && s.calls[1] == s.calls[2] && s.calls[1].Cleared?
      && s.calls[1].order == e.match_.value && AlertIn(s.calls[1]) == AlertOf(d, e)
  {
    var (call, r, s) := (CallOf(e), Recorded(d, e), Scene(d, map[]));
    var b := Begun(call);
    FourSteps(s, Observes(1, call), Observes(2, call), Gathers(1), Gathers(2));
    BothRecord(d, e);
    BothGather(Scene(r, map[1 := b, 2 := b]), e, Evidence(r.notices, d.flex, e).value);
    PlayConcat(s, [Observes(1, call), Observes(2, call), Gathers(1), Gathers(2)], [Checks(1), Checks(2)]);
    TwoSteps(Play(s, [Observes(1, call), Observes(2, call), Gathers(1), Gathers(2)]), Checks(1), Checks(2));
  }

  /** So two processes that poll one fill can both announce its order, in every state in which it is
      announced at all. */
  lemma TwoCallersAnnounceTwice(d: Desk, e: Event)
    requires Announces(d, e)
    ensures var s := Play(Scene(d, map[]), InTurn(CallOf(e)));
      var s' := Play(Play(s, [Sends(1), Notes(1)]), [Sends(2), Notes(2)]);
      && s'.desk.alerts == d.alerts + [AlertOf(d, e), AlertOf(d, e)] && e.match_.value.key in s'.desk.completed
  {
    BothClear(d, e);
    OverlapAnnouncesTwice(Play(Scene(d, map[]), InTurn(CallOf(e))), 1, 2);
  }

  // ---------------------------------------------------------------------
  // What an alert carries

  /** The fills recorded in a run. */
  ghost function SightingsIn(s: Scene, steps: seq<Step>): seq<Sighting> {
    if steps == [] then []
    else
      var (init, last) := (steps[..|steps| - 1], steps[|steps| - 1]);
      SightingsIn(s, init) +
        if last.Observes? && last.caller !in Play(s, init).calls then [Sighting(Cleaned(last.call.fill), last.call.now)]
        else []
  }

  function RowsIn(steps: seq<Step>): seq<FlexRow> {
    if steps == [] then []
    else
      var last := steps[|steps| - 1];
      RowsIn(steps[..|steps| - 1]) + if last.Imports? then last.rows else []
  }

  lemma StepOnFlex(s: Scene, step: Step)
    ensures Next(s, step).desk.flex == if step.Imports? then Imported(s.desk.flex, step.rows) else s.desk.flex
  {}

  lemma StepOnNotices(s: Scene, step: Step)
    ensures if step.Observes? && step.caller !in s.calls
      then Next(s, step).desk.notices == Observed(s.desk.notices, Cleaned(step.call.fill), step.call.now)
      else Alike(Next(s, step).desk.notices, s.desk.notices)
  {
    if step.Marks? && step.caller in s.calls && (s.calls[step.caller].Written? || s.calls[step.caller].Repeated?) {
      MarkedAlike(s.desk.notices, step.ids * s.calls[step.caller].left);
    } else if !step.Observes? {
      OthersKeepNotices(s, step);
    }
  }

  lemma OthersKeepNotices(s: Scene, step: Step)
    requires !step.Observes?
    requires step.Marks? && step.caller in s.calls ==>
      !s.calls[step.caller].Written? && !s.calls[step.caller].Repeated?
    ensures Next(s, step).desk.notices == s.desk.notices
  {}

  lemma {:induction false} PlayTables(s: Scene, steps: seq<Step>)
    ensures Alike(Play(s, steps).desk.notices, ObservedAll(s.desk.notices, SightingsIn(s, steps)))
    ensures Play(s, steps).desk.flex == Imported(s.desk.flex, RowsIn(steps))
  {
    if steps != [] {
      var (init, last) := (steps[..|steps| - 1], steps[|steps| - 1]);
      var t := Play(s, init);
      PlayTables(s, init);
      StepOnFlex(t, last);
      StepOnNotices(t, last);
      if last.Imports? {
        ImportInTurn(s.desk.flex, RowsIn(init), last.rows);
      } else {
        assert RowsIn(init) + [] == RowsIn(init);
      }
      if last.Observes? && last.caller !in t.calls {
        var sighting := Sighting(Cleaned(last.call.fill), last.call.now);
        ObservedAlike(t.desk.notices, ObservedAll(s.desk.notices, SightingsIn(s, init)), sighting.fill, sighting.now);
        OneMoreSighting(s.desk.notices, SightingsIn(s, init), sighting);
      } else {
        assert SightingsIn(s, init) + [] == SightingsIn(s, init);
      }
    }
  }

  predicate HasEvidence(p: Phase) {
    p.Gathered? || p.Cleared? || p.Alerted?
  }

  /** The evidence of a call is what the tables said at some moment, and covers its order. */
  ghost predicate BasedOn(t: Scene, p: Phase)
    requires HasEvidence(p)
  {
    && Evidence(t.desk.notices, t.desk.flex, AsEvent(p.call, Survives)) == Some(p.aggregate)
    && p.call.match_ == Some(p.order) && p.order.quantity > 0.0 && p.aggregate.filled + SLACK >= p.order.quantity
  }

  predicate SameEvidence(p: Phase, q: Phase) {
    HasEvidence(p) && HasEvidence(q) && p.call == q.call && p.order == q.order && p.aggregate == q.aggregate
  }

  lemma EvidenceBefore(s: Scene, step: Step, c: int)
    requires c in Next(s, step).calls && HasEvidence(Next(s, step).calls[c])
    ensures BasedOn(s, Next(s, step).calls[c]) || (c in s.calls && SameEvidence(s.calls[c], Next(s, step).calls[c]))
  {}

  lemma {:induction false} EvidenceIsHeld(s: Scene, steps: seq<Step>, c: int) returns (n: nat)
    requires s.calls == map[] && c in Play(s, steps).calls && HasEvidence(Play(s, steps).calls[c])
    ensures n <= |steps| && BasedOn(Play(s, steps[..n]), Play(s, steps).calls[c])
  {
    var init := steps[..|steps| - 1];
    EvidenceBefore(Play(s, init), steps[|steps| - 1], c);
    if BasedOn(Play(s, init), Play(s, steps).calls[c]) {
      n := |steps| - 1;
    } else {
      n := EvidenceIsHeld(s, init, c);
      assert init[..n] == steps[..n];
    }
  }

  lemma {:induction false} SightingsGrow(s: Scene, steps: seq<Step>, n: nat)
    requires n <= |steps|
    ensures SightingsIn(s, steps[..n]) <= SightingsIn(s, steps) && RowsIn(steps[..n]) <= RowsIn(steps)
    decreases |steps|
  {
    if n == |steps| {
      assert steps[..n] == steps;
    } else {
      SightingsGrow(s, steps[..|steps| - 1], n);
      assert steps[..|steps| - 1][..n] == steps[..n];
    }
  }

  /** Over any interleaving, whatever is repeated or reordered and whether the API, Flex or both report a
      fill: an alert on the evidence of the API carries the total of its broker order's distinct
      executions seen when the call gathered its evidence, and that covers the order. */
  lemma AlertCountsDistinctFills(s: Scene, steps: seq<Step>, c: int, quantity: string -> real, order: string -> string)
    returns (n: nat)
    requires s.calls == map[] && s.desk.notices == map[] && Agree(SightingsIn(s, steps), quantity, order)
    requires c in Play(s, steps).calls && Play(s, steps).calls[c].Cleared?
    requires var call := Play(s, steps).calls[c].call; call.fill.orderId != "" && !ByFlex(AsEvent(call, Survives))
    ensures n <= |steps|
    ensures var (p, alert) := (Play(s, steps).calls[c], AlertIn(Play(s, steps).calls[c]));
      && Play(s, steps + [Sends(c)]).desk.alerts == Play(s, steps).desk.alerts + [alert]
      && p.call.match_ == Some(p.order) && alert.key == p.order.key && alert.expected == p.order.quantity
      && alert.filled == Sum(SharesOf(SeenOf(SightingsIn(s, steps[..n]), p.call.fill.orderId), quantity), Value)
      && alert.filled + SLACK >= alert.expected
  {
    PlayMore(s, steps, Sends(c));
    n := EvidenceIsHeld(s, steps, c);
    var orderId := Play(s, steps).calls[c].call.fill.orderId;
    var t := Play(s, steps[..n]);
    SightingsGrow(s, steps, n);
    PlayTables(s, steps[..n]);
    AlikeQuantity(t.desk.notices, ObservedAll(map[], SightingsIn(s, steps[..n])), orderId);
    EachFillCountsOnce(SightingsIn(s, steps[..n]), quantity, order, orderId);
  }

  lemma AnyPick(flex: map<string, FlexRow>, before: map<string, FlexRow>, reports: seq<FlexRow>, orderId: string)
    requires flex == Imported(before, reports) && PositiveTable(before) && PositiveRows(reports)
    ensures var rows := OfOrder(flex, orderId);
      forall pick :: Picks(pick, rows) ==>
        (Sum(rows, FlexQuantity) == Sum(Chosen(rows, pick), FlexQuantity) <==> OneRowEach(rows))
  {
    forall pick | Picks(pick, OfOrder(flex, orderId))
      ensures Sum(OfOrder(flex, orderId), FlexQuantity) == Sum(Chosen(OfOrder(flex, orderId), pick), FlexQuantity) <==>
        OneRowEach(OfOrder(flex, orderId))
    {
      OrderRowsCountOnce(flex, before, reports, orderId, pick);
    }
  }

  /** An alert on the evidence of Flex carries the shares of the order's rows imported when the call
      gathered its evidence; they cover the order, and are those of the order's distinct executions
      exactly when no two of those rows carry one execution id. */
  lemma AlertCountsDistinctRows(s: Scene, steps: seq<Step>, c: int) returns (n: nat)
    requires s.calls == map[] && c in Play(s, steps).calls && Play(s, steps).calls[c].Cleared?
    requires ByFlex(AsEvent(Play(s, steps).calls[c].call, Survives))
    requires PositiveTable(s.desk.flex) && PositiveRows(RowsIn(steps))
    ensures n <= |steps|
    ensures var (p, alert) := (Play(s, steps).calls[c], AlertIn(Play(s, steps).calls[c]));
      var rows := OfOrder(Imported(s.desk.flex, RowsIn(steps[..n])), p.call.flexOrderId);
      && Play(s, steps + [Sends(c)]).desk.alerts == Play(s, steps).desk.alerts + [alert]
      && p.call.match_ == Some(p.order) && alert.key == p.order.key && alert.expected == p.order.quantity
      && alert.filled == Sum(rows, FlexQuantity) && alert.filled + SLACK >= alert.expected
      && forall pick :: Picks(pick, rows) ==>
        (alert.filled == Sum(Chosen(rows, pick), FlexQuantity) <==> OneRowEach(rows))
  {
    PlayMore(s, steps, Sends(c));
    n := EvidenceIsHeld(s, steps, c);
    var orderId := Play(s, steps).calls[c].call.flexOrderId;
    SightingsGrow(s, steps, n);
    PlayTables(s, steps[..n]);
    var flex := Imported(s.desk.flex, RowsIn(steps[..n]));
    FlexShares(flex, orderId);
    AnyPick(flex, s.desk.flex, RowsIn(steps[..n]), orderId);
  }
}

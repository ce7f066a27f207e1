/**
 The single-console protocol: any number of console processes share a lock file,
 a marker file and SIGTERM, and at most one of them may hold a session.

 Each process runs `start`, then alternates between menu actions and
 `read_choice`, then runs `stop`.  The model interleaves the atomic actions of
 all processes in any order: taking and releasing the file lock, one read or
 one replace of the marker, one assignment of `waiting`.  At every point a
 process may also be killed, an exception may strike it (Ctrl-C, an I/O error),
 or a pending SIGTERM may be delivered to it.
 */
module Console {
  import opened Wrappers

  /** The identity (pid, start_ticks) of a process, never reused. */
  type Pid = nat

  datatype MarkerState = Active | MenuWait
  datatype Marker = Marker(pid: Pid, state: MarkerState)

  const POLL_LIMIT: nat := 30

  /** Where a process is.  The constructors are named after the action that comes next. */
  datatype Pc = Start(start: StartPc) | Menu(menu: MenuPc) | Stop(stop: StopPc) | Dead

  /** start(): first locked section, the bounded poll, second locked section, handler. */
  datatype StartPc =
    | TakeFirstLock
    | ReadPrevious
    | Kill(victim: Pid)
    | ReleaseFirst(signalling: Option<Pid>)
    | ReleaseRefused
    | Poll(polled: Pid, checks: nat)
    | TakeSecondLock
    | ReadCurrent
    | WriteActive
    | ReleaseSecond
    | InstallHandler

  /** Working: connecting, printing the menu, executing an action.
      The rest is read_choice(): locked section, the wait, the finally block. */
  datatype MenuPc =
    | Working
    | TakeMenuLock
    | SetWaiting
    | WriteMenuWait
    | ReleaseMenu
    | Waiting
    | ClearWaiting(resume: bool)
    | TakeOwnLock(resume: bool)
    | CheckOwn(resume: bool)
    | RewriteActive(resume: bool)
    | ReleaseOwn(resume: bool)

  /** stop(), then the shutdown of the interpreter: Leaving after a complete stop(),
      Aborted when an exception left stop() early. */
  datatype StopPc =
    | StopClear
    | StopRestore
    | TakeStopLock
    | StopUnlink
    | ReleaseStop
    | Aborted
    | Leaving

  /** `began`: this process has written the marker in start().
      `signalled`: the console that start() sent SIGTERM to.
      `handler`: _on_term is the process's SIGTERM handler. */
  datatype Proc = Proc(pc: Pc, waiting: bool, handler: bool, pending: bool, began: bool, signalled: Option<Pid>)

  const NEW_PROC := Proc(Start(TakeFirstLock), false, false, false, false, None)

  datatype State = State(procs: map<Pid, Proc>, lock: Option<Pid>, marker: Option<Marker>)

  /** Step: the process's own next action; `pick` resolves its free choices (another
      menu round or leave, input or timeout).  Deliver: its pending SIGTERM arrives;
      `pick` says whether the signal strikes inside or outside a `try` block. */
  datatype Event =
    | Spawn(p: Pid)
    | Step(p: Pid, pick: bool)
    | Throw(p: Pid, pick: bool)
    | Deliver(p: Pid, pick: bool)
    | Crash(p: Pid)

  predicate Live(s: State, p: Pid) {
    p in s.procs && s.procs[p].pc != Dead
  }

  /** `_same_process`: the marker names another process and that process still runs. */
  predicate SameProcess(s: State, self: Pid, pid: Pid) {
    pid != self && Live(s, pid)
  }

  predicate OtherSession(s: State, self: Pid) {
    s.marker.Some? && SameProcess(s, self, s.marker.value.pid)
  }

  /** The actions performed while holding the file lock. */
  predicate Locked(pc: Pc) {
    match pc
    case Start(a) =>
      || a.ReadPrevious? || a.Kill? || a.ReleaseFirst? || a.ReleaseRefused? || a.ReadCurrent? || a.WriteActive?
      || a.ReleaseSecond?
    case Menu(a) =>
      || a.SetWaiting? || a.WriteMenuWait? || a.ReleaseMenu? || a.CheckOwn? || a.RewriteActive? || a.ReleaseOwn?
    case Stop(a) => a.StopUnlink? || a.ReleaseStop?
    case Dead => false
  }

  function With(s: State, p: Pid, proc: Proc): State {
    s.(procs := s.procs[p := proc])
  }

  function Goto(s: State, p: Pid, pc: Pc): State
    requires p in s.procs
  {
    With(s, p, s.procs[p].(pc := pc))
  }

  /** Blocks, that is changes nothing, while another process holds the lock. */
  function Take(s: State, p: Pid, pc: Pc): State
    requires p in s.procs
  {
    if s.lock == None then Goto(s, p, pc).(lock := Some(p)) else s
  }

  function Release(s: State, p: Pid, pc: Pc): State
    requires p in s.procs
  {
    Goto(s, p, pc).(lock := None)
  }

  function Write(s: State, p: Pid, state: MarkerState, pc: Pc): State
    requires p in s.procs
  {
    Goto(s, p, pc).(marker := Some(Marker(p, state)))
  }

  function SendTerm(s: State, victim: Pid): State {
    if Live(s, victim) then With(s, victim, s.procs[victim].(pending := true)) else s
  }

  predicate NamedBy(s: State, p: Pid) {
    s.marker.Some? && s.marker.value.pid == p
  }

  /** One action of `start`. */
  function StartStep(s: State, p: Pid, at: StartPc): State
    requires p in s.procs
  {
    var proc := s.procs[p];
    match at
    case TakeFirstLock => Take(s, p, Start(ReadPrevious))
    case ReadPrevious =>
      if !OtherSession(s, p) then Goto(s, p, Start(ReleaseFirst(None)))
      else if s.marker.value.state != MenuWait then Goto(s, p, Start(ReleaseRefused))
      else Goto(s, p, Start(Kill(s.marker.value.pid)))
    case Kill(victim) => Goto(SendTerm(s, victim), p, Start(ReleaseFirst(Some(victim))))
    case ReleaseFirst(None) => Release(s, p, Start(TakeSecondLock))
    case ReleaseFirst(Some(victim)) =>
      With(s, p, proc.(pc := Start(Poll(victim, 0)), signalled := Some(victim))).(lock := None)
    case ReleaseRefused => Release(s, p, Stop(StopClear))
    case Poll(victim, checks) =>
      if checks >= POLL_LIMIT then Goto(s, p, Stop(StopClear))
      else if !SameProcess(s, p, victim) then Goto(s, p, Start(TakeSecondLock))
      else Goto(s, p, Start(Poll(victim, checks + 1)))
    case TakeSecondLock => Take(s, p, Start(ReadCurrent))
    case ReadCurrent =>
      Goto(s, p, Start(if OtherSession(s, p) then ReleaseRefused else WriteActive))
    case WriteActive =>
      With(s, p, proc.(pc := Start(ReleaseSecond), began := true)).(marker := Some(Marker(p, Active)))
    case ReleaseSecond => Release(s, p, Start(InstallHandler))
    case InstallHandler => With(s, p, proc.(pc := Menu(Working), handler := true))
  }

  /** One action of the menu loop and of `read_choice`. */
  function MenuStep(s: State, p: Pid, at: MenuPc, pick: bool): State
    requires p in s.procs
  {
    var proc := s.procs[p];
    match at
    case Working => Goto(s, p, if pick then Menu(TakeMenuLock) else Stop(StopClear))
    case TakeMenuLock => Take(s, p, Menu(SetWaiting))
    case SetWaiting => With(s, p, proc.(pc := Menu(WriteMenuWait), waiting := true))
    case WriteMenuWait => Write(s, p, MenuWait, Menu(ReleaseMenu))
    case ReleaseMenu => Release(s, p, Menu(Waiting))
    case Waiting => Goto(s, p, Menu(ClearWaiting(pick)))
    case ClearWaiting(resume) => With(s, p, proc.(pc := Menu(TakeOwnLock(resume)), waiting := false))
    case TakeOwnLock(resume) => Take(s, p, Menu(CheckOwn(resume)))
    case CheckOwn(resume) => Goto(s, p, Menu(if NamedBy(s, p) then RewriteActive(resume) else ReleaseOwn(resume)))
    case RewriteActive(resume) => Write(s, p, Active, Menu(ReleaseOwn(resume)))
    case ReleaseOwn(resume) => Release(s, p, if resume then Menu(Working) else Stop(StopClear))
  }

  /** One action of `stop`, and the end of the process. */
  function StopStep(s: State, p: Pid, at: StopPc): State
    requires p in s.procs
  {
    var proc := s.procs[p];
    match at
    case StopClear => With(s, p, proc.(pc := Stop(StopRestore), waiting := false))
    case StopRestore => With(s, p, proc.(pc := Stop(TakeStopLock), handler := false))
    case TakeStopLock => Take(s, p, Stop(StopUnlink))
    case StopUnlink =>
      var s' := Goto(s, p, Stop(ReleaseStop));
      if NamedBy(s, p) then s'.(marker := None) else s'
    case ReleaseStop => Release(s, p, Stop(Leaving))
    case Aborted => Goto(s, p, Dead)
    case Leaving => Goto(s, p, Dead)
  }

  function Own(s: State, p: Pid, pick: bool): State
    requires p in s.procs
  {
    match s.procs[p].pc
    case Start(at) => StartStep(s, p, at)
    case Menu(at) => MenuStep(s, p, at, pick)
    case Stop(at) => StopStep(s, p, at)
    case Dead => s
  }

  /** Where control goes when an exception is raised at `pc`. */
  function Handler(pc: Pc, pick: bool): Pc {
    match pc
    case Start(_) => Stop(StopClear)
    case Menu(Waiting) => if pick then Menu(ClearWaiting(false)) else Stop(StopClear)
    case Menu(_) => Stop(StopClear)
    case Stop(StopClear) => Stop(if pick then StopClear else Aborted)
    case Stop(ReleaseStop) => Stop(Leaving)
    case Stop(Aborted) => Dead
    case Stop(Leaving) => Dead
    case Stop(_) => Stop(Aborted)
    case Dead => Dead
  }

  /** An exception at `pc`: a lock held by the `with` block is released. */
  function Raise(s: State, p: Pid, pick: bool): State
    requires p in s.procs
  {
    var s' := Goto(s, p, Handler(s.procs[p].pc, pick));
    if s.lock == Some(p) then s'.(lock := None) else s'
  }

  function Die(s: State, p: Pid): State
    requires p in s.procs
  {
    var s' := Goto(s, p, Dead);
    if s.lock == Some(p) then s'.(lock := None) else s'
  }

  /** SIGTERM arrives: without a handler the default action ends the process;
      `_on_term` raises SystemExit only while `waiting`. */
  function Term(s: State, p: Pid, pick: bool): State
    requires p in s.procs
  {
    var proc := s.procs[p];
    var s' := With(s, p, proc.(pending := false));
    if !proc.handler then Die(s', p)
    else if proc.waiting then Raise(s', p, pick)
    else s'
  }

  /** The state after an event; an event that is not possible changes nothing. */
  function After(s: State, e: Event): State {
    match e
    case Spawn(p) => if p in s.procs then s else With(s, p, NEW_PROC)
    case Step(p, pick) => if Live(s, p) then Own(s, p, pick) else s
    case Throw(p, pick) => if Live(s, p) then Raise(s, p, pick) else s
    case Deliver(p, pick) => if Live(s, p) && s.procs[p].pending then Term(s, p, pick) else s
    case Crash(p) => if Live(s, p) then Die(s, p) else s
  }

  function Run(s: State, es: seq<Event>): State
    decreases |es|
  {
    if es == [] then s else Run(After(s, es[0]), es[1..])
  }

  /** Nothing runs; the marker may be left over from a console that was killed. */
  predicate Init(s: State) {
    && s.lock == None
    && (forall p :: p in s.procs ==> s.procs[p].pc == Dead)
    && (s.marker.Some? ==> s.marker.value.pid in s.procs)
  }

  /** Between the marker write in start() and the end of stop()'s locked section. */
  predicate InSession(s: State, p: Pid) {
    p in s.procs && Session(s.procs[p])
  }

  predicate Session(proc: Proc) {
    proc.began && proc.pc != Dead && proc.pc != Stop(ReleaseStop) && proc.pc != Stop(Leaving)
  }

  // ---------------------------------------------------------------------
  // The inductive invariant

  /** The handler has been installed, or stop() has already removed it again. */
  predicate PastInstall(proc: Proc) {
    proc.handler || (proc.pc.Stop? && !proc.pc.stop.StopClear? && !proc.pc.stop.StopRestore?)
  }

  /** What the marker says while its owner is at `pc`. */
  predicate MarkerFits(pc: Pc, state: MarkerState) {
    match pc
    case Start(_) => state == Active
    case Menu(a) =>
      if a.ReleaseMenu? || a.Waiting? || a.ClearWaiting? || a.TakeOwnLock? || a.CheckOwn? || a.RewriteActive?
      then state == MenuWait
      else state == Active
    case _ => true
  }

  predicate WaitingAt(pc: Pc) {
    match pc
    case Menu(a) => a.WriteMenuWait? || a.ReleaseMenu? || a.Waiting? || a.ClearWaiting?
    case Stop(a) => a.StopClear? || a.Aborted?
    case _ => false
  }

  /** The process has left the poll of start() by its `break`. */
  predicate GotPast(proc: Proc) {
    proc.began
      || (proc.pc.Start? && (proc.pc.start.TakeSecondLock? || proc.pc.start.ReadCurrent? || proc.pc.start.WriteActive?))
  }

  /** What holds of one live process. */
  predicate ProcOk(s: State, p: Pid)
    requires Live(s, p)
  {
    && ProcessOk(s.procs[p], s.lock == Some(p))
    && MarkerOk(s.procs[p], p, s.marker)
    && VictimOk(s, p, s.procs[p])
  }

  /** Lock, handler and flags. */
  predicate ProcessOk(proc: Proc, holdsLock: bool) {
    && (Locked(proc.pc) <==> holdsLock)
    && (proc.pc.Start? ==>
          !proc.handler && (proc.began <==> proc.pc.start.ReleaseSecond? || proc.pc.start.InstallHandler?))
    && (proc.pc.Menu? ==> proc.handler && proc.began)
    && (proc.waiting ==> WaitingAt(proc.pc))
    && (proc.pending ==> PastInstall(proc))
  }

  /** How the marker is tied to the process. */
  predicate MarkerOk(proc: Proc, p: Pid, marker: Option<Marker>) {
    && (Session(proc) <==> marker.Some? && marker.value.pid == p)
    && (Session(proc) ==> MarkerFits(proc.pc, marker.value.state))
    && (marker == Some(Marker(p, MenuWait)) ==> PastInstall(proc))
  }

  /** How the other consoles that start() saw are tied to the process. */
  predicate VictimOk(s: State, p: Pid, proc: Proc) {
    && (proc.signalled.Some? ==> proc.signalled.value in s.procs)
    && (GotPast(proc) && proc.signalled.Some? ==> !Live(s, proc.signalled.value))
    && (proc.pc.Start? ==>
      match proc.pc.start
      case Kill(victim) => proc.signalled == None && victim != p && s.marker == Some(Marker(victim, MenuWait))
      case ReleaseFirst(v) => proc.signalled == None && (v.Some? ==> v.value in s.procs && v.value != p)
      case Poll(victim, checks) => checks <= POLL_LIMIT && proc.signalled == Some(victim) && victim != p
      case TakeFirstLock => proc.signalled == None
      case ReadPrevious => proc.signalled == None
      case WriteActive => !OtherSession(s, p)
      case _ => true)
  }

  ghost predicate Inv(s: State) {
    && (s.lock.Some? ==> Live(s, s.lock.value))
    && (s.marker.Some? ==> s.marker.value.pid in s.procs)
    && (forall p :: Live(s, p) ==> ProcOk(s, p))
  }

  lemma InitInv(s: State)
    requires Init(s)
    ensures Inv(s)
  {}

  /** All that a step of `p` can do to the rest of the machine. */
  ghost predicate Frame(s: State, s': State, p: Pid) {
    && p in s.procs && s'.procs.Keys == s.procs.Keys
    && (forall q :: q in s.procs && q != p ==>
      || s'.procs[q] == s.procs[q]
      || (s'.procs[q] == s.procs[q].(pending := true) && s.marker == Some(Marker(q, MenuWait))))
    && (s'.lock == s.lock || (s.lock == None && s'.lock == Some(p)) || (s.lock == Some(p) && s'.lock == None))
    && (|| s'.marker == s.marker
        || (s.lock == Some(p) && !OtherSession(s, p) && (s'.marker == None || s'.marker.value.pid == p)))
  }

  lemma OtherOk(s: State, s': State, p: Pid, q: Pid)
    requires Inv(s) && Live(s, p) && Frame(s, s', p) && q != p && Live(s', q)
    ensures ProcOk(s', q)
  {
    assert ProcOk(s, q);
    if s'.marker != s.marker {
      assert !NamedBy(s, q);
    }
  }

  /** It suffices to look at the process that moved. */
  lemma StepInv(s: State, s': State, p: Pid)
    requires Inv(s) && Live(s, p) && Moved(s, s', p)
    ensures Inv(s')
  {
    forall q | Live(s', q) ensures ProcOk(s', q) {
      if q != p { OtherOk(s, s', p, q); }
    }
  }

  lemma SpawnInv(s: State, p: Pid)
    requires Inv(s)
    ensures Inv(After(s, Spawn(p)))
  {
    var s' := After(s, Spawn(p));
    forall q | Live(s', q) ensures ProcOk(s', q) {
      if Live(s, q) {
        assert ProcOk(s, q);
      }
    }
  }

  /** The part of the invariant that a process's own step reads. */
  ghost predicate Here(s: State, p: Pid) {
    && Live(s, p)
    && ProcOk(s, p)
    && (s.marker.Some? ==> s.marker.value.pid in s.procs)
  }

  ghost predicate Moved(s: State, s': State, p: Pid) {
    && Frame(s, s', p)
    && (Live(s', p) ==> ProcOk(s', p))
    && (!Live(s', p) ==> s'.lock != Some(p))
  }

  lemma FirstSectionMoves(s: State, p: Pid)
    requires Here(s, p) && s.procs[p].pc.Start?
    requires var at := s.procs[p].pc.start; at.TakeFirstLock? || at.ReadPrevious? || at.Kill? || at.ReleaseFirst?
    ensures Moved(s, StartStep(s, p, s.procs[p].pc.start), p)
  {}

  lemma PollMoves(s: State, p: Pid)
    requires Here(s, p) && s.procs[p].pc.Start?
    requires var at := s.procs[p].pc.start; at.ReleaseRefused? || at.Poll? || at.TakeSecondLock?
    ensures Moved(s, StartStep(s, p, s.procs[p].pc.start), p)
  {}

  lemma SecondSectionMoves(s: State, p: Pid)
    requires Here(s, p) && s.procs[p].pc.Start?
    requires var at := s.procs[p].pc.start;
      at.ReadCurrent? || at.WriteActive? || at.ReleaseSecond? || at.InstallHandler?
    ensures Moved(s, StartStep(s, p, s.procs[p].pc.start), p)
  {}

  lemma EnterMenuMoves(s: State, p: Pid, pick: bool)
    requires Here(s, p) && s.procs[p].pc.Menu?
    requires var at := s.procs[p].pc.menu;
      at.Working? || at.TakeMenuLock? || at.SetWaiting? || at.WriteMenuWait? || at.ReleaseMenu?
    ensures Moved(s, MenuStep(s, p, s.procs[p].pc.menu, pick), p)
  {}

  lemma LeaveMenuMoves(s: State, p: Pid, pick: bool)
    requires Here(s, p) && s.procs[p].pc.Menu?
    requires var at := s.procs[p].pc.menu;
      at.Waiting? || at.ClearWaiting? || at.TakeOwnLock? || at.CheckOwn? || at.RewriteActive? || at.ReleaseOwn?
    ensures Moved(s, MenuStep(s, p, s.procs[p].pc.menu, pick), p)
  {}

  lemma StopMoves(s: State, p: Pid)
    requires Here(s, p) && s.procs[p].pc.Stop?
    requires var at := s.procs[p].pc.stop; at.StopClear? || at.StopRestore? || at.TakeStopLock?
    ensures Moved(s, StopStep(s, p, s.procs[p].pc.stop), p)
  {}

  lemma UnlinkMoves(s: State, p: Pid)
    requires Here(s, p) && s.procs[p].pc.Stop?
    requires var at := s.procs[p].pc.stop; at.StopUnlink? || at.ReleaseStop? || at.Aborted? || at.Leaving?
    ensures Moved(s, StopStep(s, p, s.procs[p].pc.stop), p)
  {}

  lemma RaiseMoves(s: State, p: Pid, pick: bool)
    requires Here(s, p)
    ensures Moved(s, Raise(s, p, pick), p)
  {}

  lemma DieMoves(s: State, p: Pid)
    requires Here(s, p)
    ensures Moved(s, Die(s, p), p)
  {}

  lemma OwnMoves(s: State, p: Pid, pick: bool)
    requires Here(s, p)
    ensures Moved(s, Own(s, p, pick), p)
  {
    match s.procs[p].pc
    case Start(at) =>
      if at.TakeFirstLock? || at.ReadPrevious? || at.Kill? || at.ReleaseFirst? {
        FirstSectionMoves(s, p);
      } else if at.ReleaseRefused? || at.Poll? || at.TakeSecondLock? {
        PollMoves(s, p);
      } else {
        SecondSectionMoves(s, p);
      }
    case Menu(at) =>
      if at.Working? || at.TakeMenuLock? || at.SetWaiting? || at.WriteMenuWait? || at.ReleaseMenu? {
        EnterMenuMoves(s, p, pick);
      } else {
        LeaveMenuMoves(s, p, pick);
      }
    case Stop(at) =>
      if at.StopClear? || at.StopRestore? || at.TakeStopLock? { StopMoves(s, p); } else { UnlinkMoves(s, p); }
  }

  lemma TermInv(s: State, p: Pid, pick: bool)
    requires Inv(s) && Live(s, p) && s.procs[p].pending
    ensures Inv(Term(s, p, pick))
  {
    assert ProcOk(s, p);
    var s' := With(s, p, s.procs[p].(pending := false));
    StepInv(s, s', p);
    if !s.procs[p].handler {
      DieMoves(s', p);
      StepInv(s', Die(s', p), p);
    } else {
      RaiseMoves(s', p, pick);
      StepInv(s', Raise(s', p, pick), p);
    }
  }

  lemma AfterInv(s: State, e: Event)
    requires Inv(s)
    ensures Inv(After(s, e))
  {
    match e
    case Spawn(p) => SpawnInv(s, p);
    case Step(p, pick) => if Live(s, p) { OwnMoves(s, p, pick); StepInv(s, Own(s, p, pick), p); }
    case Throw(p, pick) => if Live(s, p) { RaiseMoves(s, p, pick); StepInv(s, Raise(s, p, pick), p); }
    case Deliver(p, pick) => if Live(s, p) && s.procs[p].pending { TermInv(s, p, pick); }
    case Crash(p) => if Live(s, p) { DieMoves(s, p); StepInv(s, Die(s, p), p); }
  }

  lemma {:induction false} RunInv(s: State, es: seq<Event>)
    requires Inv(s)
    ensures Inv(Run(s, es))
    decreases |es|
  {
    if es != [] {
      AfterInv(s, es[0]);
      RunInv(After(s, es[0]), es[1..]);
    }
  }

  // ---------------------------------------------------------------------
  // What the protocol guarantees in every interleaving

  /** At most one session at a time, and it is exactly the live process that the marker names. */
  lemma SingleSession(s: State, es: seq<Event>, p: Pid, q: Pid)
    requires Init(s)
    ensures var s' := Run(s, es);
      && (InSession(s', p) && InSession(s', q) ==> p == q)
      && (InSession(s', p) <==> NamedBy(s', p) && Live(s', p))
  {
    InitInv(s);
    RunInv(s, es);
    var s' := Run(s, es);
    assert Live(s', p) ==> ProcOk(s', p);
    assert Live(s', q) ==> ProcOk(s', q);
  }

  /** While a console executes an action, another console that reads the marker is
      refused, and no marker or signal changes. */
  lemma ActionIsProtected(s: State, es: seq<Event>, p: Pid, q: Pid)
    requires Init(s)
    requires var s' := Run(s, es); Live(s', p) && s'.procs[p].pc == Menu(Working) && q != p && Live(s', q)
    ensures var s' := Run(s, es);
      && s'.marker == Some(Marker(p, Active))
      && (forall pick :: s'.procs[q].pc == Start(ReadPrevious) || s'.procs[q].pc == Start(ReadCurrent) ==>
            After(s', Step(q, pick)) == Goto(s', q, Start(ReleaseRefused)))
      && !s'.procs[q].pc.Menu?
      && (s'.procs[q].pc.Start? ==> !s'.procs[q].pc.start.Kill? && !s'.procs[q].pc.start.WriteActive?)
  {
    InitInv(s);
    RunInv(s, es);
    var s' := Run(s, es);
    assert ProcOk(s', p);
    assert ProcOk(s', q);
  }

  /** SIGTERM never reaches a console that is still starting.  In the menu loop it
      diverts the console exactly while `waiting` is set, which is from just before
      the MENU_WAIT write to just after the wait.  Elsewhere it matters only inside
      stop(): before `waiting` is cleared there, or once the handler is removed. */
  lemma TermOnlyWhileWaiting(s: State, es: seq<Event>, p: Pid, pick: bool)
    requires Init(s)
    requires var s' := Run(s, es); Live(s', p) && s'.procs[p].pending
    ensures
      var s' := Run(s, es);
      var t := After(s', Deliver(p, pick));
      var pc := s'.procs[p].pc;
      && !pc.Start?
      && (pc.Menu? ==>
        && (t.procs[p].pc != pc <==> s'.procs[p].waiting)
        && (s'.procs[p].waiting ==> WaitingAt(pc))
        && (!s'.procs[p].waiting ==> t == With(s', p, s'.procs[p].(pending := false))))
      && (t.procs[p].pc == Dead <==> (pc == Stop(Aborted) && s'.procs[p].waiting) || !s'.procs[p].handler)
      && (!s'.procs[p].handler ==> pc.Stop?)
  {
    InitInv(s);
    RunInv(s, es);
    assert ProcOk(Run(s, es), p);
  }

  /** A console that signalled another one goes on to its marker write only after
      the other has gone, and the other never comes back. */
  lemma ReplacesOnlyTheDead(s: State, es: seq<Event>, q: Pid)
    requires Init(s)
    requires var s' := Run(s, es); Live(s', q) && s'.procs[q].signalled.Some? && GotPast(s'.procs[q])
    ensures var s' := Run(s, es);
      var victim := s'.procs[q].signalled.value;
      victim in s'.procs && forall more :: !Live(Run(s', more), victim)
  {
    InitInv(s);
    RunInv(s, es);
    var s' := Run(s, es);
    assert ProcOk(s', q);
    var victim := s'.procs[q].signalled.value;
    forall more ensures !Live(Run(s', more), victim) {
      StaysDead(s', more, victim);
    }
  }

  lemma {:induction false} StaysDead(s: State, es: seq<Event>, p: Pid)
    requires p in s.procs && !Live(s, p)
    ensures p in Run(s, es).procs && !Live(Run(s, es), p)
    decreases |es|
  {
    if es != [] {
      StaysDead(After(s, es[0]), es[1..], p);
    }
  }

  predicate Polling(s: State, q: Pid) {
    q in s.procs && s.procs[q].pc.Start? && s.procs[q].pc.start.Poll?
  }

  /** Outside the poll and the actions that lead to it. */
  predicate AfterPoll(s: State, q: Pid) {
    && q in s.procs
    && (s.procs[q].pc.Start? ==>
      var at := s.procs[q].pc.start;
      at.TakeSecondLock? || at.ReadCurrent? || at.WriteActive? || at.ReleaseSecond? || at.InstallHandler?
        || at.ReleaseRefused?)
  }

  function OwnSteps(es: seq<Event>, q: Pid): nat {
    if es == [] then 0
    else (if es[0].Step? && es[0].p == q then 1 else 0) + OwnSteps(es[1..], q)
  }

  /** Nothing another process does moves `q`. */
  lemma OthersLeavePc(s: State, e: Event, q: Pid)
    requires q in s.procs && e.p != q
    ensures q in After(s, e).procs && After(s, e).procs[q].pc == s.procs[q].pc
  {}

  lemma StartStaysAfterPoll(s: State, q: Pid)
    requires AfterPoll(s, q) && s.procs[q].pc.Start?
    ensures AfterPoll(StartStep(s, q, s.procs[q].pc.start), q)
  {}

  lemma MenuNeverStarts(s: State, q: Pid, pick: bool)
    requires q in s.procs && s.procs[q].pc.Menu?
    ensures var s' := MenuStep(s, q, s.procs[q].pc.menu, pick); q in s'.procs && !s'.procs[q].pc.Start?
  {}

  lemma StopNeverStarts(s: State, q: Pid)
    requires q in s.procs && s.procs[q].pc.Stop?
    ensures var s' := StopStep(s, q, s.procs[q].pc.stop); q in s'.procs && !s'.procs[q].pc.Start?
  {}

  lemma StaysAfterPoll(s: State, e: Event, q: Pid)
    requires AfterPoll(s, q)
    ensures AfterPoll(After(s, e), q)
  {
    if e.p != q {
      OthersLeavePc(s, e, q);
    } else if e.Step? {
      match s.procs[q].pc
      case Start(_) => StartStaysAfterPoll(s, q);
      case Menu(_) => MenuNeverStarts(s, q, e.pick);
      case Stop(_) => StopNeverStarts(s, q);
      case Dead =>
    }
  }

  lemma {:induction false} NeverPollsAgain(s: State, es: seq<Event>, q: Pid)
    requires AfterPoll(s, q)
    ensures AfterPoll(Run(s, es), q)
    decreases |es|
  {
    if es != [] {
      StaysAfterPoll(s, es[0], q);
      NeverPollsAgain(After(s, es[0]), es[1..], q);
    }
  }

  /** One event either keeps the poll going, a check further for each own action, or ends it. */
  lemma PollEvent(s: State, e: Event, q: Pid)
    requires Polling(s, q) && s.procs[q].pc.start.checks <= POLL_LIMIT
    ensures
      var s' := After(s, e);
      || AfterPoll(s', q)
      || (&& Polling(s', q) && s'.procs[q].pc.start.checks <= POLL_LIMIT
          && s'.procs[q].pc.start.checks >= s.procs[q].pc.start.checks + OwnSteps([e], q))
  {
    assert [e][1..] == [];
    if e.p != q {
      OthersLeavePc(s, e, q);
    }
  }

  /** The wait for the other console is bounded: whatever the other processes do,
      31 of its own actions take a console out of the poll for good. */
  lemma {:induction false} PollIsBounded(s: State, es: seq<Event>, q: Pid)
    requires Polling(s, q) && s.procs[q].pc.start.checks <= POLL_LIMIT
    requires OwnSteps(es, q) > POLL_LIMIT - s.procs[q].pc.start.checks
    ensures AfterPoll(Run(s, es), q)
    decreases |es|
  {
    var s' := After(s, es[0]);
    PollEvent(s, es[0], q);
    assert OwnSteps(es, q) == OwnSteps([es[0]], q) + OwnSteps(es[1..], q);
    if Polling(s', q) {
      PollIsBounded(s', es[1..], q);
    } else {
      NeverPollsAgain(s', es[1..], q);
    }
  }

  /** The two exits of the poll. */
  lemma PollOutcome(s: State, es: seq<Event>, q: Pid, pick: bool)
    requires Init(s) && Polling(Run(s, es), q)
    ensures
      var s' := Run(s, es);
      var at := s'.procs[q].pc.start;
      var pc := After(s', Step(q, pick)).procs[q].pc;
      && at.checks <= 30
      && (pc == Stop(StopClear) <==> at.checks == 30)
      && (pc == Start(TakeSecondLock) <==> at.checks < 30 && !Live(s', at.polled))
  {
    InitInv(s);
    RunInv(s, es);
    assert ProcOk(Run(s, es), q);
  }

  lemma {:induction false} RunExtend(s: State, es: seq<Event>, e: Event)
    ensures Run(s, es + [e]) == After(Run(s, es), e)
    decreases |es|
  {
    if es == [] {
      assert [e][1..] == [];
      assert Run(After(s, e), []) == After(s, e);
    } else {
      assert (es + [e])[1..] == es[1..] + [e];
      RunExtend(After(s, es[0]), es[1..], e);
    }
  }

  lemma Do(s: State, es: seq<Event>, e: Event) returns (es': seq<Event>)
    ensures es' == es + [e] && Run(s, es') == After(Run(s, es), e)
  {
    es' := es + [e];
    RunExtend(s, es, e);
  }

  const EMPTY := State(map[], None, None)

  /** Console 1 starts on an empty machine and waits at its menu. */
  lemma WaitsAtMenu() returns (es: seq<Event>)
    ensures Run(EMPTY, es) ==
      State(map[1 := Proc(Menu(Waiting), true, true, false, true, None)], None, Some(Marker(1, MenuWait)))
  {
    es := EntersMenu();
    es := Do(EMPTY, es, Step(1, true));
    es := Do(EMPTY, es, Step(1, true));
    es := Do(EMPTY, es, Step(1, true));
    es := Do(EMPTY, es, Step(1, true));
    es := Do(EMPTY, es, Step(1, true));
  }

  lemma EntersMenu() returns (es: seq<Event>)
    ensures Run(EMPTY, es) ==
      State(map[1 := Proc(Menu(Working), false, true, false, true, None)], None, Some(Marker(1, Active)))
  {
    es := PassesFirstSection();
    es := Do(EMPTY, es, Step(1, true));
    es := Do(EMPTY, es, Step(1, true));
    es := Do(EMPTY, es, Step(1, true));
    es := Do(EMPTY, es, Step(1, true));
    es := Do(EMPTY, es, Step(1, true));
  }

  lemma PassesFirstSection() returns (es: seq<Event>)
    ensures Run(EMPTY, es) == State(map[1 := NEW_PROC.(pc := Start(TakeSecondLock))], None, None)
  {
    es := Do(EMPTY, [], Spawn(1));
    es := Do(EMPTY, es, Step(1, true));
    es := Do(EMPTY, es, Step(1, true));
    es := Do(EMPTY, es, Step(1, true));
  }

  /** Console 2 then signals it. */
  lemma IsSignalled() returns (es: seq<Event>)
    ensures
      var s := Run(EMPTY, es);
      && s.procs.Keys == {1, 2} && s.lock == None && s.marker == Some(Marker(1, MenuWait))
      && s.procs[1] == Proc(Menu(Waiting), true, true, true, true, None)
  {
    es := WaitsAtMenu();
    es := Do(EMPTY, es, Spawn(2));
    es := Do(EMPTY, es, Step(2, true));
    es := Do(EMPTY, es, Step(2, true));
    assert Run(EMPTY, es).procs[2].pc == Start(Kill(1));
    es := Do(EMPTY, es, Step(2, true));
    es := Do(EMPTY, es, Step(2, true));
  }

  /** Its input ends before the signal arrives, and it leaves the menu. */
  lemma ClearsWaiting() returns (es: seq<Event>)
    ensures
      var s := Run(EMPTY, es);
      && s.procs.Keys == {1, 2} && s.lock == Some(1) && s.marker == Some(Marker(1, MenuWait))
      && s.procs[1] == Proc(Menu(CheckOwn(false)), false, true, true, true, None)
  {
    es := IsSignalled();
    es := Do(EMPTY, es, Step(1, false));
    es := Do(EMPTY, es, Step(1, false));
    es := Do(EMPTY, es, Step(1, false));
  }

  lemma LeavesMenu() returns (es: seq<Event>)
    ensures
      var s := Run(EMPTY, es);
      && s.procs.Keys == {1, 2} && s.lock == None
      && s.procs[1] == Proc(Stop(StopClear), false, true, true, true, None)
  {
    es := ClearsWaiting();
    es := Do(EMPTY, es, Step(1, false));
    es := Do(EMPTY, es, Step(1, false));
    es := Do(EMPTY, es, Step(1, false));
  }

  /** The menu is not the only place where SIGTERM can end a console: one that is
      sent while the console waits, but arrives after stop() has put the previous
      handler back, kills it although `waiting` is clear. */
  lemma SigtermCanEndAStoppingConsole()
    ensures exists es: seq<Event>, p: Pid ::
      var s := Run(EMPTY, es);
      && Init(EMPTY) && Live(s, p) && s.procs[p].pending && !s.procs[p].waiting
      && !Live(After(s, Deliver(p, true)), p)
  {
    var es := LeavesMenu();
    es := Do(EMPTY, es, Step(1, false));
    es := Do(EMPTY, es, Step(1, false));
    var s := Run(EMPTY, es);
    assert Live(s, 1) && s.procs[1].pending && !s.procs[1].waiting && !s.procs[1].handler;
    assert !Live(After(s, Deliver(1, true)), 1);
  }
  // ---------------------------------------------------------------------
  // Who is let in

  /** The marker names a console that still runs, and not `q` itself. */
  predicate Occupied(s: State, q: Pid) {
    s.marker.Some? && s.marker.value.pid != q && Live(s, s.marker.value.pid)
  }

  /** The first look at the marker: a console that runs and does not wait is left alone, one that waits is
      sent SIGTERM, and a marker left by a dead console counts for nothing. */
  lemma FirstLook(s: State, es: seq<Event>, q: Pid, pick: bool)
    requires Init(s) && Live(Run(s, es), q) && Run(s, es).procs[q].pc == Start(ReadPrevious)
    ensures var (s', pc) := (Run(s, es), After(Run(s, es), Step(q, pick)).procs[q].pc);
      && (pc == Start(ReleaseRefused) <==> Occupied(s', q) && s'.marker.value.state == Active)
      && (pc == Start(ReleaseFirst(None)) <==> !Occupied(s', q))
      && (forall victim ::
            pc == Start(Kill(victim)) <==> Occupied(s', q) && s'.marker.value == Marker(victim, MenuWait))
  {
    InitInv(s);
    RunInv(s, es);
    assert ProcOk(Run(s, es), q);
  }

  /** The second look: refused exactly while another console runs in session. */
  lemma SecondLook(s: State, es: seq<Event>, q: Pid, pick: bool)
    requires Init(s) && Live(Run(s, es), q) && Run(s, es).procs[q].pc == Start(ReadCurrent)
    ensures var (s', pc) := (Run(s, es), After(Run(s, es), Step(q, pick)).procs[q].pc);
      && (pc == Start(ReleaseRefused) <==> Occupied(s', q))
      && (pc == Start(WriteActive) <==> !Occupied(s', q))
  {
    InitInv(s);
    RunInv(s, es);
    assert ProcOk(Run(s, es), q);
  }

  /** `n` steps of one process. */
  function Solo(p: Pid, pick: bool, n: nat): seq<Event> {
    if n == 0 then [] else [Step(p, pick)] + Solo(p, pick, n - 1)
  }

  lemma SoloStep(s: State, p: Pid, pick: bool, n: nat)
    ensures Run(s, Solo(p, pick, n + 1)) == Run(After(s, Step(p, pick)), Solo(p, pick, n))
  {
    assert Solo(p, pick, n + 1)[1..] == Solo(p, pick, n);
  }

  /** A process that is at `pc`, and where one own step takes it when no other process acts. */
  lemma SoloTwo(s: State, p: Pid, pick: bool, n: nat)
    ensures Run(s, Solo(p, pick, n + 2)) == Run(After(After(s, Step(p, pick)), Step(p, pick)), Solo(p, pick, n))
  {
    SoloStep(s, p, pick, n + 1);
    SoloStep(After(s, Step(p, pick)), p, pick, n);
  }

  /** All but `p` are as they were. */
  ghost predicate OthersKept(s: State, s': State, p: Pid) {
    forall q :: q != p ==> (q in s'.procs <==> q in s.procs) && (q in s.procs ==> s'.procs[q] == s.procs[q])
  }

  lemma {:induction false} SoloConcat(s: State, p: Pid, pick: bool, m: nat, n: nat)
    ensures Run(s, Solo(p, pick, m + n)) == Run(Run(s, Solo(p, pick, m)), Solo(p, pick, n))
    decreases m
  {
    if m > 0 {
      SoloStep(s, p, pick, m + n - 1);
      SoloStep(s, p, pick, m - 1);
      SoloConcat(After(s, Step(p, pick)), p, pick, m - 1, n);
    }
  }

  lemma LooksAlone(s: State, q: Pid, pick: bool)
    requires Live(s, q) && s.procs[q].pc == Start(TakeSecondLock) && s.lock == None && !Occupied(s, q)
    ensures var s' := Run(s, Solo(q, pick, 2));
      Live(s', q) && s'.procs[q].pc == Start(WriteActive) && s'.lock == Some(q)
  {
    SoloTwo(s, q, pick, 0);
  }

  lemma WritesAlone(s: State, q: Pid, pick: bool)
    requires Live(s, q) && s.procs[q].pc == Start(WriteActive) && s.lock == Some(q)
    ensures var s' := Run(s, Solo(q, pick, 3));
      && Live(s', q) && s'.procs[q].pc == Menu(Working) && s'.procs[q].handler
      && s'.marker == Some(Marker(q, Active)) && s'.lock == None
  {
    SoloTwo(s, q, pick, 1);
    SoloStep(After(After(s, Step(q, pick)), Step(q, pick)), q, pick, 0);
  }

  /** From the second section to the menu. */
  lemma SecondSectionAlone(s: State, q: Pid, pick: bool)
    requires Live(s, q) && s.procs[q].pc == Start(TakeSecondLock) && s.lock == None && !Occupied(s, q)
    ensures var s' := Run(s, Solo(q, pick, 5));
      && Live(s', q) && s'.procs[q].pc == Menu(Working) && s'.procs[q].handler
      && s'.marker == Some(Marker(q, Active)) && s'.lock == None
  {
    LooksAlone(s, q, pick);
    SoloConcat(s, q, pick, 2, 3);
    WritesAlone(Run(s, Solo(q, pick, 2)), q, pick);
  }

  lemma FirstSectionAlone(s: State, q: Pid, pick: bool)
    requires Live(s, q) && s.procs[q].pc == Start(TakeFirstLock) && s.lock == None && !Occupied(s, q)
    ensures var s' := Run(s, Solo(q, pick, 3));
      && Live(s', q) && s'.procs[q].pc == Start(TakeSecondLock) && s'.lock == None && s'.marker == s.marker
      && !Occupied(s', q)
  {
    SoloTwo(s, q, pick, 1);
    var s2 := After(After(s, Step(q, pick)), Step(q, pick));
    assert s2.procs[q].pc == Start(ReleaseFirst(None)) && s2.lock == Some(q);
    SoloStep(s2, q, pick, 0);
  }

  /** Whatever marker a dead console has left, a console that starts while nobody is in session and no one
      holds the lock comes to its menu by eight steps of its own. */
  lemma NewcomerGetsIn(s: State, q: Pid, pick: bool)
    requires q !in s.procs && s.lock == None && !Occupied(s, q)
    ensures var s' := Run(After(s, Spawn(q)), Solo(q, pick, 8));
      && Live(s', q) && s'.procs[q].pc == Menu(Working) && s'.marker == Some(Marker(q, Active)) && s'.lock == None
  {
    var begun := After(s, Spawn(q));
    FirstSectionAlone(begun, q, pick);
    SoloConcat(begun, q, pick, 3, 5);
    SecondSectionAlone(Run(begun, Solo(q, pick, 3)), q, pick);
  }

  /** In particular after any run that has left no console alive, whatever became of the consoles in it. */
  lemma NewcomerGetsInAfterAll(s: State, es: seq<Event>, q: Pid, pick: bool)
    requires Init(s) && q !in Run(s, es).procs && forall p :: !Live(Run(s, es), p)
    ensures var end := Run(After(Run(s, es), Spawn(q)), Solo(q, pick, 8));
      Live(end, q) && end.procs[q].pc == Menu(Working)
  {
    InitInv(s);
    RunInv(s, es);
    NewcomerGetsIn(Run(s, es), q, pick);
  }

  // ---------------------------------------------------------------------
  // What is left open

  /** A kill ends the process wherever it is; it gives its lock back and leaves its marker behind. */
  lemma KillMeans(s: State, p: Pid)
    requires Live(s, p)
    ensures var s' := After(s, Crash(p));
      && p in s'.procs && !Live(s', p) && s'.marker == s.marker && OthersKept(s, s', p)
      && s'.lock == (if s.lock == Some(p) then None else s.lock)
  {}

  /** Both outcomes of every choice: to go on or to leave from the menu, input or none in time, and whether an
      exception strikes inside a guarded block or before it. */
  lemma EitherWay(s: State, p: Pid)
    requires Live(s, p)
    ensures var pc := (e: Event) => if p in After(s, e).procs then After(s, e).procs[p].pc else Dead;
      && (s.procs[p].pc == Menu(Working) ==>
            pc(Step(p, true)) == Menu(TakeMenuLock) && pc(Step(p, false)) == Stop(StopClear))
      && (s.procs[p].pc == Menu(Waiting) ==>
            && pc(Step(p, true)) == Menu(ClearWaiting(true)) && pc(Step(p, false)) == Menu(ClearWaiting(false))
            && pc(Throw(p, true)) == Menu(ClearWaiting(false)) && pc(Throw(p, false)) == Stop(StopClear))
      && (s.procs[p].pc == Stop(StopClear) ==>
            pc(Throw(p, true)) == Stop(StopClear) && pc(Throw(p, false)) == Stop(Aborted))
  {}

  /** Back from the wait, a console rewrites the marker only if it still names the console. */
  lemma RewritesOnlyItsOwn(s: State, p: Pid, resume: bool, pick: bool)
    requires Live(s, p) && s.procs[p].pc == Menu(CheckOwn(resume))
    ensures var pc := After(s, Step(p, pick)).procs[p].pc;
      && (pc == Menu(RewriteActive(resume)) <==> s.marker.Some? && s.marker.value.pid == p)
      && (pc == Menu(ReleaseOwn(resume)) <==> s.marker.None? || s.marker.value.pid != p)
  {}

  // ---------------------------------------------------------------------
  // How a session ends

  lemma ClearsAlone(s: State, p: Pid, pick: bool)
    requires Live(s, p) && s.procs[p].pc == Stop(StopClear) && s.lock == None
    ensures var s' := Run(s, Solo(p, pick, 2));
      && Live(s', p) && s'.procs[p].pc == Stop(TakeStopLock) && s'.lock == None && s'.marker == s.marker
      && OthersKept(s, s', p)
  {
    SoloTwo(s, p, pick, 0);
  }

  lemma UnlinksAlone(s: State, p: Pid, pick: bool)
    requires Live(s, p) && s.procs[p].pc == Stop(TakeStopLock) && s.lock == None
    ensures var s' := Run(s, Solo(p, pick, 2));
      && Live(s', p) && s'.procs[p].pc == Stop(ReleaseStop) && s'.lock == Some(p)
      && s'.marker == (if NamedBy(s, p) then None else s.marker) && OthersKept(s, s', p)
  {
    SoloTwo(s, p, pick, 0);
  }

  lemma EndsAlone(s: State, p: Pid, pick: bool)
    requires Live(s, p) && s.procs[p].pc == Stop(ReleaseStop) && s.lock == Some(p)
    ensures var s' := Run(s, Solo(p, pick, 2));
      p in s'.procs && !Live(s', p) && s'.lock == None && s'.marker == s.marker && OthersKept(s, s', p)
  {
    SoloTwo(s, p, pick, 0);
  }

  /** stop(), run by itself, ends the process and leaves no marker of it. */
  lemma StopAlone(s: State, p: Pid, pick: bool)
    requires Live(s, p) && s.procs[p].pc == Stop(StopClear) && s.lock == None
    ensures var s' := Run(s, Solo(p, pick, 6));
      && p in s'.procs && !Live(s', p) && s'.lock == None
      && s'.marker == (if NamedBy(s, p) then None else s.marker) && OthersKept(s, s', p)
  {
    ClearsAlone(s, p, pick);
    SoloConcat(s, p, pick, 2, 4);
    UnlinksAndEnds(Run(s, Solo(p, pick, 2)), p, pick);
  }

  lemma UnlinksAndEnds(s: State, p: Pid, pick: bool)
    requires Live(s, p) && s.procs[p].pc == Stop(TakeStopLock) && s.lock == None
    ensures var s' := Run(s, Solo(p, pick, 4));
      && p in s'.procs && !Live(s', p) && s'.lock == None
      && s'.marker == (if NamedBy(s, p) then None else s.marker) && OthersKept(s, s', p)
  {
    UnlinksAlone(s, p, pick);
    SoloConcat(s, p, pick, 2, 2);
    EndsAlone(Run(s, Solo(p, pick, 2)), p, pick);
  }

  /** An exception anywhere in start() or in the menu leads into stop(), with the lock given back; only one
      that strikes the wait itself may first pass through the `finally` block of read_choice(). */
  lemma ExceptionLeadsToStop(s: State, es: seq<Event>, p: Pid, pick: bool)
    requires Init(s) && Live(Run(s, es), p) && !Run(s, es).procs[p].pc.Stop?
    ensures var (s', t) := (Run(s, es), After(Run(s, es), Throw(p, pick)));
      && Live(t, p) && t.lock != Some(p) && t.marker == s'.marker
      && (t.procs[p].pc == Stop(StopClear)
          || (s'.procs[p].pc == Menu(Waiting) && t.procs[p].pc == Menu(ClearWaiting(false))))
  {
    InitInv(s);
    RunInv(s, es);
    assert ProcOk(Run(s, es), p);
  }

  lemma RetakesAlone(s: State, p: Pid, pick: bool, resume: bool)
    requires Live(s, p) && s.procs[p].pc == Menu(ClearWaiting(resume)) && s.lock == None && NamedBy(s, p)
    ensures var s' := Run(s, Solo(p, pick, 2));
      && Live(s', p) && s'.procs[p].pc == Menu(CheckOwn(resume)) && !s'.procs[p].waiting && s'.lock == Some(p)
      && s'.marker == s.marker && OthersKept(s, s', p)
  {
    SoloTwo(s, p, pick, 0);
  }

  lemma ChecksOwnAlone(s: State, p: Pid, pick: bool, resume: bool)
    requires Live(s, p) && s.procs[p].pc == Menu(CheckOwn(resume)) && s.lock == Some(p) && NamedBy(s, p)
    ensures var s' := Run(s, Solo(p, pick, 2));
      && Live(s', p) && s'.procs[p].pc == Menu(ReleaseOwn(resume)) && s'.procs[p].waiting == s.procs[p].waiting
      && s'.lock == Some(p) && s'.marker == Some(Marker(p, Active)) && OthersKept(s, s', p)
  {
    SoloTwo(s, p, pick, 0);
  }

  lemma RewritesAlone(s: State, p: Pid, pick: bool, resume: bool)
    requires Live(s, p) && s.procs[p].pc == Menu(CheckOwn(resume)) && s.lock == Some(p) && NamedBy(s, p)
    ensures var s' := Run(s, Solo(p, pick, 3));
      && Live(s', p) && s'.procs[p].pc == (if resume then Menu(Working) else Stop(StopClear))
      && s'.procs[p].waiting == s.procs[p].waiting
      && s'.lock == None && s'.marker == Some(Marker(p, Active)) && OthersKept(s, s', p)
  {
    ChecksOwnAlone(s, p, pick, resume);
    SoloConcat(s, p, pick, 2, 1);
    SoloStep(Run(s, Solo(p, pick, 2)), p, pick, 0);
  }

  /** The `finally` block of read_choice(), by itself: the marker is ACTIVE again, and the console is back at
      its menu or on its way out. */
  lemma FinallyAlone(s: State, p: Pid, pick: bool, resume: bool)
    requires Live(s, p) && s.procs[p].pc == Menu(ClearWaiting(resume)) && s.lock == None && NamedBy(s, p)
    ensures var s' := Run(s, Solo(p, pick, 5));
      && Live(s', p) && s'.procs[p].pc == (if resume then Menu(Working) else Stop(StopClear)) && !s'.procs[p].waiting
      && s'.lock == None && s'.marker == Some(Marker(p, Active)) && OthersKept(s, s', p)
  {
    RetakesAlone(s, p, pick, resume);
    SoloConcat(s, p, pick, 2, 3);
    RewritesAlone(Run(s, Solo(p, pick, 2)), p, pick, resume);
  }

  /** Input leads back to the menu, with the marker ACTIVE; a console that waits shows MENU_WAIT. */
  lemma ReadsChoice(s: State, p: Pid)
    requires Live(s, p) && s.procs[p].pc == Menu(Working) && s.lock == None
    ensures var (w, s') := (Run(s, Solo(p, true, 5)), Run(s, Solo(p, true, 11)));
      && Live(w, p) && w.procs[p].pc == Menu(Waiting) && w.procs[p].waiting && w.marker == Some(Marker(p, MenuWait))
      && Live(s', p) && s'.procs[p].pc == Menu(Working) && !s'.procs[p].waiting
      && w.lock == None && s'.lock == None && s'.marker == Some(Marker(p, Active))
  {
    WaitsAlone(s, p);
    SoloConcat(s, p, true, 5, 6);
    ChoosesAlone(Run(s, Solo(p, true, 5)), p);
  }

  lemma WaitsAlone(s: State, p: Pid)
    requires Live(s, p) && s.procs[p].pc == Menu(Working) && s.lock == None
    ensures var w := Run(s, Solo(p, true, 5));
      && Live(w, p) && w.procs[p].pc == Menu(Waiting) && w.procs[p].waiting
      && w.lock == None && w.marker == Some(Marker(p, MenuWait))
  {
    AsksAlone(s, p);
    SoloConcat(s, p, true, 2, 3);
    ShowsWaitAlone(Run(s, Solo(p, true, 2)), p);
  }

  lemma ChoosesAlone(w: State, p: Pid)
    requires Live(w, p) && w.procs[p].pc == Menu(Waiting) && w.procs[p].waiting
    requires w.lock == None && w.marker == Some(Marker(p, MenuWait))
    ensures var s' := Run(w, Solo(p, true, 6));
      && Live(s', p) && s'.procs[p].pc == Menu(Working) && !s'.procs[p].waiting
      && s'.lock == None && s'.marker == Some(Marker(p, Active))
  {
    SoloStep(w, p, true, 5);
    FinallyAlone(After(w, Step(p, true)), p, true, true);
  }

  lemma AsksAlone(s: State, p: Pid)
    requires Live(s, p) && s.procs[p].pc == Menu(Working) && s.lock == None
    ensures var s' := Run(s, Solo(p, true, 2));
      Live(s', p) && s'.procs[p].pc == Menu(SetWaiting) && s'.lock == Some(p)
  {
    SoloTwo(s, p, true, 0);
  }

  lemma ShowsWaitAlone(s: State, p: Pid)
    requires Live(s, p) && s.procs[p].pc == Menu(SetWaiting) && s.lock == Some(p)
    ensures var s' := Run(s, Solo(p, true, 3));
      && Live(s', p) && s'.procs[p].pc == Menu(Waiting) && s'.procs[p].waiting
      && s'.lock == None && s'.marker == Some(Marker(p, MenuWait))
  {
    SoloTwo(s, p, true, 1);
    SoloStep(After(After(s, Step(p, true)), Step(p, true)), p, true, 0);
  }

  /** Ending without input, and all of stop() after it. */
  lemma SignalledConsoleLeaves(s: State, p: Pid, pick: bool)
    requires Live(s, p) && s.procs[p].pc == Menu(ClearWaiting(false)) && s.lock == None && NamedBy(s, p)
    ensures var s' := Run(s, Solo(p, pick, 11));
      && p in s'.procs && !Live(s', p) && s'.lock == None && s'.marker == None && OthersKept(s, s', p)
  {
    FinallyAlone(s, p, pick, false);
    SoloConcat(s, p, pick, 5, 6);
    StopAlone(Run(s, Solo(p, pick, 5)), p, pick);
  }

  // ---------------------------------------------------------------------
  // An idle console is replaced

  lemma FindsWaiting(s: State, p: Pid, q: Pid, pick: bool)
    requires p != q && Live(s, p) && s.marker == Some(Marker(p, MenuWait))
    requires Live(s, q) && s.procs[q].pc == Start(TakeFirstLock) && s.lock == None
    ensures var s' := Run(s, Solo(q, pick, 2));
      && Live(s', q) && s'.procs[q].pc == Start(Kill(p)) && s'.lock == Some(q) && s'.marker == s.marker
      && OthersKept(s, s', q)
  {
    SoloTwo(s, q, pick, 0);
  }

  lemma KillsAlone(s: State, p: Pid, q: Pid, pick: bool)
    requires p != q && Live(s, p) && Live(s, q) && s.procs[q].pc == Start(Kill(p)) && s.lock == Some(q)
    ensures var s' := Run(s, Solo(q, pick, 2));
      && Live(s', q) && s'.procs[q].pc == Start(Poll(p, 0)) && s'.lock == None && s'.marker == s.marker
      && p in s'.procs && s'.procs[p] == s.procs[p].(pending := true)
  {
    SoloTwo(s, q, pick, 0);
  }

  /** The newcomer sends SIGTERM to the console that waits at its menu, and polls. */
  lemma SendsTerm(s: State, p: Pid, q: Pid, pick: bool)
    requires p != q && Live(s, p) && s.marker == Some(Marker(p, MenuWait))
    requires Live(s, q) && s.procs[q].pc == Start(TakeFirstLock) && s.lock == None
    ensures var s' := Run(s, Solo(q, pick, 4));
      && Live(s', q) && s'.procs[q].pc == Start(Poll(p, 0)) && s'.lock == None && s'.marker == s.marker
      && p in s'.procs && s'.procs[p] == s.procs[p].(pending := true)
  {
    FindsWaiting(s, p, q, pick);
    SoloConcat(s, q, pick, 2, 2);
    KillsAlone(Run(s, Solo(q, pick, 2)), p, q, pick);
  }

  /** SIGTERM takes a console out of the wait, and out of the menu. */
  lemma TermEndsWait(s: State, p: Pid)
    requires Live(s, p) && s.procs[p].pc == Menu(Waiting) && s.procs[p].waiting && s.procs[p].handler
    requires s.procs[p].pending && s.lock == None && NamedBy(s, p)
    ensures var t := After(s, Deliver(p, true));
      && Live(t, p) && t.procs[p].pc == Menu(ClearWaiting(false)) && t.lock == None && t.marker == s.marker
      && OthersKept(s, t, p)
  {}

  lemma PollEnds(s: State, p: Pid, q: Pid, pick: bool)
    requires p != q && p in s.procs && !Live(s, p) && Live(s, q) && s.procs[q].pc == Start(Poll(p, 0)) && s.lock == None
    requires !Occupied(s, q)
    ensures var s' := Run(s, Solo(q, pick, 6));
      Live(s', q) && s'.procs[q].pc == Menu(Working) && s'.marker == Some(Marker(q, Active))
  {
    SoloStep(s, q, pick, 5);
    SecondSectionAlone(After(s, Step(q, pick)), q, pick);
  }

  /** A console that waits at its menu when another one starts: the newcomer signals it, it leaves and
      takes its marker along, and the newcomer comes to its own menu. */
  lemma IdleConsoleIsReplaced(s: State, es: seq<Event>, p: Pid, q: Pid, pick: bool)
    requires Init(s)
    requires var s' := Run(s, es);
      && Live(s', p) && s'.procs[p].pc == Menu(Waiting) && s'.procs[p].waiting && s'.lock == None
      && q != p && Live(s', q) && s'.procs[q].pc == Start(TakeFirstLock)
    ensures var signalled := Run(Run(s, es), Solo(q, pick, 4));
      var left := Run(After(signalled, Deliver(p, true)), Solo(p, pick, 11));
      var end := Run(left, Solo(q, pick, 6));
      && !Live(left, p) && Live(end, q) && end.procs[q].pc == Menu(Working) && end.marker == Some(Marker(q, Active))
  {
    InitInv(s);
    RunInv(s, es);
    var s' := Run(s, es);
    assert ProcOk(s', p);
    SendsTerm(s', p, q, pick);
    var signalled := Run(s', Solo(q, pick, 4));
    TermEndsWait(signalled, p);
    SignalledConsoleLeaves(After(signalled, Deliver(p, true)), p, pick);
    var left := Run(After(signalled, Deliver(p, true)), Solo(p, pick, 11));
    PollEnds(left, p, q, pick);
  }
}

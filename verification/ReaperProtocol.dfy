/** The threads of ChildReaper as a step system: any number of add() callers,
    the loop threads they start, detached waiters, the destructor, and a kernel
    that answers pidfd_open, poll and waitpid in every way it may.

    One step is one critical section of mu_, one blocking call, or one piece of
    thread-local work between them. The children are named by tickets: ticket t
    is the child handed to the t-th add() call. */
module ReaperProtocol {

  import opened ChildReaper
  import opened Wrappers

  // ── State ───────────────────────────────────────────────────────────────

  datatype AdderPc =
    | Opening                 // before pidfd_open
    | Deciding                // holds a pidfd, about to take mu_
    | Starting                // set running_; about to take thread_mu_
    | Joining                 // holds thread_mu_, may block in join
    | Spawning                // joined, about to create the thread
    | Assigning(loop: nat)    // thread created, move-assignment pending
    | Waking
    | Finished

  datatype LoopPc =
    | Taking                  // about to call take_pending
    | Polling
    | Draining
    | Reaping
    | Failed                  // poll failed hard, running_ not cleared yet
    | Orphaning               // cleared; about to detach what it holds
    | Tail                    // left the while loop; reaping what it holds
    | Done

  datatype Loop = Loop(pc: LoopPc, watched: seq<nat>, fds: seq<PollFd<nat>>)

  // A detached thread that waits for its jobs in order, closing each pidfd
  // afterwards when it was given them.
  datatype Waiter = Waiter(jobs: seq<nat>, hasFd: bool)

  datatype DtorPc = Alive | DWaking | DLocking | DJoining | DSwapping | DReaping | Destroyed

  datatype Lock = Free | ByAdder(adder: nat) | ByDtor

  datatype State = State(
    g: Guarded<nat>,          // pending_, running_, stopping_
    adders: seq<AdderPc>,
    loops: seq<Loop>,         // every thread ever created, in order
    handle: Option<nat>,      // thread_: Some while joinable
    threadMu: Lock,
    pipe: nat,                // bytes in the wake pipe
    hasPipe: bool,
    waiters: seq<Waiter>,
    dtor: DtorPc,
    leftover: seq<nat>,
    fdOpened: set<nat>,         // tickets whose pidfd_open succeeded
    closed: seq<nat>,         // close() calls so far
    reaped: seq<nat>,         // finished waits so far
    terminated: bool,         // std::terminate: assigned onto a joinable thread
    hardFailed: bool          // some poll() has failed other than by EINTR
  )

  // The capacity of a pipe and the size of one drain read.
  const PIPE_CAPACITY: nat := 65536
  const DRAIN_CHUNK: nat := 64

  function Init(hasPipe: bool): State {
    State(Guarded([], false, false), [], [], None, Free, 0, hasPipe, [], Alive, [], {}, [], [], false, false)
  }

  // ── Steps ───────────────────────────────────────────────────────────────

  datatype AddEvent = OpenOk | OpenFail | Enqueue | LockThread | JoinOld | Spawn | Assign | Wake

  datatype LoopEvent =
    | Take
    | PollReturns(polled: seq<PollFd<nat>>)
    | PollInterrupted
    | PollFails
    | ClearAfterFailure
    | DetachOrphans
    | Drain
    | Reap(outcome: seq<WaitOutcome>)
    | TailReap
    | TailExit

  datatype DtorEvent = DtorStop | DtorWake | DtorLock | DtorJoin | DtorSwap | DtorReap | DtorFinish

  datatype Event =
    | BeginAdd
    | Adding(i: nat, add: AddEvent)
    | Looping(l: nat, loop: LoopEvent)
    | WaiterReaps(w: nat)
    | Destroying(dtor: DtorEvent)

  predicate Joinable(s: State) {
    s.handle.None? || (s.handle.value < |s.loops| && s.loops[s.handle.value].pc.Done?)
  }

  // poll() without a timeout returns only with a slot to report, and reports the
  // wake pipe readable exactly when it holds a byte. The children's slots are up
  // to the kernel.
  predicate PollMayReturn(s: State, l: nat, polled: seq<PollFd<nat>>) {
    && l < |s.loops| && PolledFrom(s.loops[l].fds, polled)
    && (exists k :: 0 <= k < |polled| && polled[k].revents != Quiet)
    && (s.hasPipe && polled != [] ==> (polled[0].revents == Readable <==> s.pipe > 0))
  }

  predicate AddEnabled(s: State, i: nat, e: AddEvent) {
    && i < |s.adders|
    && match e
       case OpenOk => s.adders[i].Opening?
       case OpenFail => s.adders[i].Opening?
       case Enqueue => s.adders[i].Deciding?
       case LockThread => s.adders[i].Starting? && s.threadMu.Free?
       case JoinOld => s.adders[i].Joining? && Joinable(s)
       case Spawn => s.adders[i].Spawning?
       case Assign => s.adders[i].Assigning?
       case Wake => s.adders[i].Waking?
  }

  predicate LoopEnabled(s: State, l: nat, e: LoopEvent) {
    && l < |s.loops|
    && var pc := s.loops[l].pc;
       match e
       case Take => pc.Taking?
       case PollReturns(polled) => pc.Polling? && PollMayReturn(s, l, polled)
       case PollInterrupted => pc.Polling?
       case PollFails => pc.Polling?
       case ClearAfterFailure => pc.Failed?
       case DetachOrphans => pc.Orphaning?
       case Drain => pc.Draining?
       case Reap(outcome) => pc.Reaping? && ReapFits(s, l, outcome)
       case TailReap => pc.Tail? && s.loops[l].watched != []
       case TailExit => pc.Tail? && s.loops[l].watched == []
  }

  predicate DtorEnabled(s: State, e: DtorEvent) {
    match e
    case DtorStop => s.dtor.Alive?
    case DtorWake => s.dtor.DWaking?
    case DtorLock => s.dtor.DLocking? && s.threadMu.Free?
    case DtorJoin => s.dtor.DJoining? && Joinable(s)
    case DtorSwap => s.dtor.DSwapping?
    case DtorReap => s.dtor.DReaping? && s.leftover != []
    case DtorFinish => s.dtor.DReaping? && s.leftover == []
  }

  predicate Enabled(s: State, e: Event) {
    match e
    case BeginAdd => true
    case Adding(i, add) => AddEnabled(s, i, add)
    case Looping(l, loop) => LoopEnabled(s, l, loop)
    case WaiterReaps(w) => w < |s.waiters| && s.waiters[w].jobs != []
    case Destroying(dtor) => DtorEnabled(s, dtor)
  }

  function SetAdder(s: State, i: nat, pc: AdderPc): State
    requires i < |s.adders|
  {
    s.(adders := s.adders[i := pc])
  }

  function SetLoop(s: State, l: nat, loop: Loop): State
    requires l < |s.loops|
  {
    s.(loops := s.loops[l := loop])
  }

  function WriteWakeByte(s: State): State {
    if s.hasPipe && s.pipe < PIPE_CAPACITY then s.(pipe := s.pipe + 1) else s
  }

  // One detached waiter for each orphan of a sweep; the sweep closes the pidfds.
  function OrphanWaiters(orphans: seq<nat>): (ws: seq<Waiter>) {
    if orphans == [] then []
    else OrphanWaiters(orphans[..|orphans| - 1]) + [Waiter([orphans[|orphans| - 1]], false)]
  }

  // ── add() ───────────────────────────────────────────────────────────────

  function OpenOkStep(s: State, i: nat): State
    requires i < |s.adders|
  {
    SetAdder(s, i, Deciding).(fdOpened := s.fdOpened + {i})
  }

  function OpenFailStep(s: State, i: nat): State
    requires i < |s.adders|
  {
    SetAdder(s, i, Finished).(waiters := s.waiters + [Waiter([i], false)])
  }

  function EnqueueStep(s: State, i: nat): State
    requires i < |s.adders|
  {
    match AddDecides(s.g)
    case DetachWaiter => SetAdder(s, i, Finished).(waiters := s.waiters + [Waiter([i], true)])
    case StartLoop => SetAdder(s, i, Starting).(g := AddLeaves(s.g, i))
    case JustWake => SetAdder(s, i, Waking).(g := AddLeaves(s.g, i))
  }

  function SpawnStep(s: State, i: nat): State
    requires i < |s.adders|
  {
    SetAdder(s, i, Assigning(|s.loops|)).(loops := s.loops + [Loop(Taking, [], [])])
  }

  // Move-assigning onto a joinable std::thread terminates the process.
  function AssignStep(s: State, i: nat): State
    requires i < |s.adders| && s.adders[i].Assigning?
  {
    SetAdder(s, i, Waking).(
      handle := Some(s.adders[i].loop), threadMu := Free, terminated := s.terminated || s.handle.Some?)
  }

  // ── loop() ──────────────────────────────────────────────────────────────

  function TakeStep(s: State, l: nat): State
    requires l < |s.loops|
  {
    var watched := s.loops[l].watched;
    var all := watched + s.g.pending;
    var loop := if TakeProceeds(s.g, watched) then Loop(Polling, all, BuildFds(all, s.hasPipe)) else Loop(Tail, all, []);
    SetLoop(s, l, loop).(g := TakeLeaves(s.g, watched))
  }

  function PollReturnsStep(s: State, l: nat, polled: seq<PollFd<nat>>): State
    requires l < |s.loops|
  {
    var drain := s.hasPipe && polled != [] && polled[0].revents == Readable;
    SetLoop(s, l, s.loops[l].(pc := if drain then Draining else Reaping, fds := polled))
  }

  function ClearAfterFailureStep(s: State, l: nat): State
    requires l < |s.loops|
  {
    SetLoop(s, l, s.loops[l].(pc := Orphaning)).(g := s.g.(running := false), hardFailed := true)
  }

  function DetachOrphansStep(s: State, l: nat): State
    requires l < |s.loops|
  {
    SetLoop(s, l, Loop(Done, [], [])).(waiters := s.waiters + [Waiter(s.loops[l].watched, true)])
  }

  function DrainStep(s: State, l: nat): State
    requires l < |s.loops|
  {
    if s.pipe > 0 then s.(pipe := if s.pipe > DRAIN_CHUNK then s.pipe - DRAIN_CHUNK else 0)
    else SetLoop(s, l, s.loops[l].(pc := Reaping))
  }

  predicate ReapFits(s: State, l: nat, outcome: seq<WaitOutcome>) {
    && l < |s.loops| && |outcome| == |s.loops[l].watched|
    && |s.loops[l].fds| == |s.loops[l].watched| + Offset(s.hasPipe)
  }

  function ReapStep(s: State, l: nat, outcome: seq<WaitOutcome>): State
    requires ReapFits(s, l, outcome)
  {
    var sweep := SweepAll(s.loops[l].watched, s.loops[l].fds, Offset(s.hasPipe), outcome);
    SetLoop(s, l, Loop(Taking, sweep.kept, [])).(
      waiters := s.waiters + OrphanWaiters(sweep.orphans),
      reaped := s.reaped + sweep.reaped, closed := s.closed + sweep.closed)
  }

  function TailReapStep(s: State, l: nat): State
    requires l < |s.loops| && s.loops[l].watched != []
  {
    var t := s.loops[l].watched[0];
    SetLoop(s, l, s.loops[l].(watched := s.loops[l].watched[1..])).(
      reaped := s.reaped + [t], closed := s.closed + [t])
  }

  // ── Detached waiters and the destructor ─────────────────────────────────

  function WaiterStep(s: State, w: nat): State
    requires w < |s.waiters| && s.waiters[w].jobs != []
  {
    var t := s.waiters[w].jobs[0];
    s.(waiters := s.waiters[w := s.waiters[w].(jobs := s.waiters[w].jobs[1..])],
       reaped := s.reaped + [t],
       closed := if s.waiters[w].hasFd then s.closed + [t] else s.closed)
  }

  function DtorSwapStep(s: State): State {
    s.(dtor := DReaping, leftover := s.g.pending, g := SwapLeaves(s.g))
  }

  function DtorReapStep(s: State): State
    requires s.leftover != []
  {
    var t := s.leftover[0];
    s.(leftover := s.leftover[1..], reaped := s.reaped + [t], closed := s.closed + [t])
  }

  // ── Every step ──────────────────────────────────────────────────────────

  function AddApply(s: State, i: nat, e: AddEvent): State
    requires AddEnabled(s, i, e)
  {
    match e
    case OpenOk => OpenOkStep(s, i)
    case OpenFail => OpenFailStep(s, i)
    case Enqueue => EnqueueStep(s, i)
    case LockThread => SetAdder(s, i, Joining).(threadMu := ByAdder(i))
    case JoinOld => SetAdder(s, i, Spawning).(handle := None)
    case Spawn => SpawnStep(s, i)
    case Assign => AssignStep(s, i)
    case Wake => WriteWakeByte(SetAdder(s, i, Finished))
  }

  function LoopApply(s: State, l: nat, e: LoopEvent): State
    requires LoopEnabled(s, l, e)
  {
    match e
    case Take => TakeStep(s, l)
    case PollReturns(polled) => PollReturnsStep(s, l, polled)
    case PollInterrupted => SetLoop(s, l, s.loops[l].(pc := Taking, fds := []))
    case PollFails => SetLoop(s, l, s.loops[l].(pc := Failed, fds := []))
    case ClearAfterFailure => ClearAfterFailureStep(s, l)
    case DetachOrphans => DetachOrphansStep(s, l)
    case Drain => DrainStep(s, l)
    case Reap(outcome) => ReapStep(s, l, outcome)
    case TailReap => TailReapStep(s, l)
    case TailExit => SetLoop(s, l, s.loops[l].(pc := Done))
  }

  function DtorApply(s: State, e: DtorEvent): State
    requires DtorEnabled(s, e)
  {
    match e
    case DtorStop => s.(g := StopLeaves(s.g), dtor := DWaking)
    case DtorWake => WriteWakeByte(s.(dtor := DLocking))
    case DtorLock => s.(dtor := DJoining, threadMu := ByDtor)
    case DtorJoin => s.(dtor := DSwapping, handle := None, threadMu := Free)
    case DtorSwap => DtorSwapStep(s)
    case DtorReap => DtorReapStep(s)
    case DtorFinish => s.(dtor := Destroyed)
  }

  function Apply(s: State, e: Event): State
    requires Enabled(s, e)
  {
    match e
    case BeginAdd => s.(adders := s.adders + [Opening])
    case Adding(i, add) => AddApply(s, i, add)
    case Looping(l, loop) => LoopApply(s, l, loop)
    case WaiterReaps(w) => WaiterStep(s, w)
    case Destroying(dtor) => DtorApply(s, dtor)
  }

  // ── Runs ────────────────────────────────────────────────────────────────

  // The state a schedule leads to, or None when some step of it was not enabled.
  function Exec(s: State, events: seq<Event>): Option<State> {
    if events == [] then Some(s)
    else
      var before := Exec(s, events[..|events| - 1]);
      var e := events[|events| - 1];
      if before.Some? && Enabled(before.value, e) then Some(Apply(before.value, e)) else None
  }

  predicate IsRun(hasPipe: bool, events: seq<Event>) {
    Exec(Init(hasPipe), events).Some?
  }

  function After(hasPipe: bool, events: seq<Event>): State
    requires IsRun(hasPipe, events)
  {
    Exec(Init(hasPipe), events).value
  }

  // A run splits at its last step.
  lemma LastStep(hasPipe: bool, events: seq<Event>)
    requires IsRun(hasPipe, events) && events != []
    ensures var init, e := events[..|events| - 1], events[|events| - 1];
      IsRun(hasPipe, init) && Enabled(After(hasPipe, init), e) && After(hasPipe, events) == Apply(After(hasPipe, init), e)
  {
  }
}

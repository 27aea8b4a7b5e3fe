/** SerialQueue and the older launch queue: one worker thread draining a FIFO.

    The class holds the code that runs under mu_; the step system below it runs
    that code from any number of pushers and stoppers, with spurious wake-ups. */
module SerialQueue {

  import opened Counting
  import opened Wrappers

  // launch() queues without testing the stop flag; SerialQueue.push refuses.
  datatype Kind = Serial | Launch

  // ── Under mu_ ───────────────────────────────────────────────────────────

  // What the worker finds when it holds the lock.
  datatype Work<T> = Sleep | Run(item: T) | Cancel(backlog: seq<T>)

  function NextWork<T>(queue: seq<T>, stop: bool): Work<T> {
    if stop then Cancel(queue) else if queue == [] then Sleep else Run(queue[0])
  }

  function QueueAfter<T>(queue: seq<T>, work: Work<T>): seq<T>
    requires work.Run? ==> queue != []
  {
    match work
    case Sleep => queue
    case Run(_) => queue[1..]
    case Cancel(_) => []
  }

  predicate Accepts(kind: Kind, stop: bool) {
    kind.Launch? || !stop
  }

  class WorkQueue<T> {
    const kind: Kind
    var queue: seq<T>
    var stop: bool

    constructor (kind: Kind)
      ensures this.kind == kind && queue == [] && !stop
    {
      this.kind := kind;
      queue, stop := [], false;
    }

    method Push(item: T) returns (taken: bool)
      modifies this
      ensures taken == Accepts(kind, old(stop)) && stop == old(stop)
      ensures taken <==> kind.Launch? || !old(stop)
      ensures queue == if taken then old(queue) + [item] else old(queue)
    {
      if kind == Serial && stop {
        return false;
      }
      queue := queue + [item];
      return true;
    }

    method RequestStop()
      modifies this
      ensures stop && queue == old(queue)
    {
      stop := true;
    }

    // The body of the worker's locked block, once the predicate has been tested.
    method TakeWork() returns (work: Work<T>)
      modifies this
      ensures work == NextWork(old(queue), old(stop)) && stop == old(stop)
      ensures queue == QueueAfter(old(queue), work)
      ensures old(stop) ==> work == Cancel(old(queue)) && queue == []
      ensures !old(stop) && old(queue) == [] ==> work == Sleep && queue == []
      ensures !old(stop) && old(queue) != [] ==> work == Run(old(queue)[0]) && queue == old(queue)[1..]
    {
      if !stop && |queue| == 0 {
        return Sleep;
      }
      if stop {
        work := Cancel(queue);
        queue := [];
        return;
      }
      work := Run(queue[0]);
      queue := queue[1..];
    }

    // The drain loop: answers are the calls of cancel_, in order.
    static method CancelBacklog(backlog: seq<T>) returns (answers: seq<T>)
      ensures answers == backlog
    {
      var pending := backlog;
      answers := [];
      while |pending| > 0
        invariant answers + pending == backlog
        decreases |pending|
      {
        answers := answers + [pending[0]];
        pending := pending[1..];
      }
    }
  }

  // ── Threads ─────────────────────────────────────────────────────────────

  datatype WorkerPc =
    | Locking                         // about to take mu_ and test the predicate
    | Sleeping                        // in cv_.wait
    | Popped(item: nat)               // unlocked, run_ not begun
    | Running(item: nat)
    | Cancelling(backlog: seq<nat>)
    | Exited

  datatype PusherPc = PushEntering | PushNotifying | PushAccepted | PushRefused

  datatype StopperPc = StopEntering | StopNotifying | AwaitingJoin | HoldingJoin | StopReturned

  // Items are numbered by the push() call that offered them.
  datatype State = State(
    kind: Kind,
    queue: seq<nat>,
    stop: bool,
    worker: WorkerPc,
    pushers: seq<PusherPc>,
    stoppers: seq<StopperPc>,
    joinMuHeld: bool,
    joinable: bool,
    accepted: seq<nat>,               // history: items taken, in queue order
    ran: seq<nat>,                    // history: run_ calls that returned
    cancelled: seq<nat>,              // history: cancel_ calls
    begun: nat                        // history: run_ calls begun
  )

  datatype WorkerEvent = Test | BeginRun | EndRun | CancelOne | Exit | SpuriousWake

  datatype Event =
    | BeginPush
    | PushLocked(p: nat)
    | PushNotify(p: nat)
    | BeginStop
    | StopLocked(p: nat)
    | StopNotify(p: nat)
    | LockJoin(p: nat)
    | Join(p: nat)
    | Worker(w: WorkerEvent)

  function Init(kind: Kind): State {
    State(kind, [], false, Locking, [], [], false, true, [], [], [], 0)
  }

  predicate WorkerEnabled(s: State, w: WorkerEvent) {
    match w
    case Test => s.worker.Locking?
    case BeginRun => s.worker.Popped?
    case EndRun => s.worker.Running?
    case CancelOne => s.worker.Cancelling? && s.worker.backlog != []
    case Exit => s.worker.Cancelling? && s.worker.backlog == []
    case SpuriousWake => s.worker.Sleeping?
  }

  predicate Enabled(s: State, e: Event) {
    match e
    case BeginPush => true
    case PushLocked(p) => p < |s.pushers| && s.pushers[p].PushEntering?
    case PushNotify(p) => p < |s.pushers| && s.pushers[p].PushNotifying?
    case BeginStop => true
    case StopLocked(p) => p < |s.stoppers| && s.stoppers[p].StopEntering?
    case StopNotify(p) => p < |s.stoppers| && s.stoppers[p].StopNotifying?
    case LockJoin(p) => p < |s.stoppers| && s.stoppers[p].AwaitingJoin? && !s.joinMuHeld
    case Join(p) => p < |s.stoppers| && s.stoppers[p].HoldingJoin? && (s.joinable ==> s.worker.Exited?)
    case Worker(w) => WorkerEnabled(s, w)
  }

  // notify_one: there is only one thread to wake.
  function Notify(worker: WorkerPc): WorkerPc {
    if worker.Sleeping? then Locking else worker
  }

  function TestStep(s: State): State {
    var work := NextWork(s.queue, s.stop);
    var worker := match work
      case Sleep => Sleeping
      case Run(item) => Popped(item)
      case Cancel(backlog) => Cancelling(backlog);
    s.(worker := worker, queue := QueueAfter(s.queue, work))
  }

  function WorkerApply(s: State, w: WorkerEvent): State
    requires WorkerEnabled(s, w)
  {
    match w
    case Test => TestStep(s)
    case BeginRun => s.(worker := Running(s.worker.item), begun := s.begun + 1)
    case EndRun => s.(worker := Locking, ran := s.ran + [s.worker.item])
    case CancelOne => s.(worker := Cancelling(s.worker.backlog[1..]), cancelled := s.cancelled + [s.worker.backlog[0]])
    case Exit => s.(worker := Exited)
    case SpuriousWake => s.(worker := Locking)
  }

  function PushLockedStep(s: State, p: nat): State
    requires p < |s.pushers|
  {
    if Accepts(s.kind, s.stop) then
      s.(queue := s.queue + [p], accepted := s.accepted + [p], pushers := s.pushers[p := PushNotifying])
    else s.(pushers := s.pushers[p := PushRefused])
  }

  function Apply(s: State, e: Event): State
    requires Enabled(s, e)
  {
    match e
    case BeginPush => s.(pushers := s.pushers + [PushEntering])
    case PushLocked(p) => PushLockedStep(s, p)
    case PushNotify(p) => s.(pushers := s.pushers[p := PushAccepted], worker := Notify(s.worker))
    case BeginStop => s.(stoppers := s.stoppers + [StopEntering])
    case StopLocked(p) => s.(stop := true, stoppers := s.stoppers[p := StopNotifying])
    case StopNotify(p) => s.(stoppers := s.stoppers[p := AwaitingJoin], worker := Notify(s.worker))
    case LockJoin(p) => s.(joinMuHeld := true, stoppers := s.stoppers[p := HoldingJoin])
    case Join(p) => s.(joinMuHeld := false, joinable := false, stoppers := s.stoppers[p := StopReturned])
    case Worker(w) => WorkerApply(s, w)
  }

  // ── Runs ────────────────────────────────────────────────────────────────

  // The state a schedule leads to, or None when some step of it was not enabled.
  function Exec(s: State, events: seq<Event>): Option<State> {
    if events == [] then Some(s)
    else
      var before := Exec(s, events[..|events| - 1]);
      var e := events[|events| - 1];
      if before.Some? && Enabled(before.value, e) then Some(Apply(before.value, e)) else None
  }

  ghost predicate Reachable(s: State) {
    exists events :: Exec(Init(s.kind), events) == Some(s)
  }

  // ── Invariant ───────────────────────────────────────────────────────────

  function InFlight(worker: WorkerPc): seq<nat> {
    if worker.Popped? || worker.Running? then [worker.item] else []
  }

  function Backlog(worker: WorkerPc): seq<nat> {
    if worker.Cancelling? then worker.backlog else []
  }

  predicate Closing(worker: WorkerPc) {
    worker.Cancelling? || worker.Exited?
  }

  // Everything taken, in the order it was taken.
  ghost predicate HistoryOk(s: State) {
    && s.accepted == s.ran + InFlight(s.worker) + s.cancelled + Backlog(s.worker) + s.queue
    && s.begun == |s.ran| + (if s.worker.Running? then 1 else 0)
    && (!Closing(s.worker) ==> s.cancelled == [])
    && (Closing(s.worker) ==> s.stop && (s.kind.Serial? ==> s.queue == []))
  }

  ghost predicate NotifyOwed(s: State) {
    || (exists p :: 0 <= p < |s.pushers| && s.pushers[p].PushNotifying?)
    || (exists p :: 0 <= p < |s.stoppers| && s.stoppers[p].StopNotifying?)
  }

  ghost predicate NotifyOk(s: State) {
    s.worker.Sleeping? && (s.stop || s.queue != []) ==> NotifyOwed(s)
  }

  ghost predicate JoinOk(s: State) {
    && (!s.joinable ==> s.worker.Exited?)
    && (forall p :: 0 <= p < |s.stoppers| ==>
          && (s.stoppers[p].StopReturned? ==> !s.joinable)
          && (!s.stoppers[p].StopEntering? ==> s.stop))
  }

  // An item is in the history once if its push() took it, and never otherwise.
  predicate Took(s: State, p: nat) {
    p < |s.pushers| && (s.pushers[p].PushNotifying? || s.pushers[p].PushAccepted?)
  }

  ghost predicate TakenOnce(s: State, p: nat) {
    Count(s.accepted, p) == if Took(s, p) then 1 else 0
  }

  ghost predicate Inv(s: State) {
    HistoryOk(s) && NotifyOk(s) && JoinOk(s)
  }

  lemma OwedAfterPush(s: State, p: nat, pc: PusherPc)
    requires p < |s.pushers| && !s.pushers[p].PushNotifying? && NotifyOwed(s)
    ensures NotifyOwed(s.(pushers := s.pushers[p := pc]))
  {
    if q :| 0 <= q < |s.pushers| && s.pushers[q].PushNotifying? {
      assert s.pushers[p := pc][q].PushNotifying?;
    }
  }

  lemma OwedAfterStop(s: State, p: nat, pc: StopperPc)
    requires p < |s.stoppers| && !s.stoppers[p].StopNotifying? && NotifyOwed(s)
    ensures NotifyOwed(s.(stoppers := s.stoppers[p := pc]))
  {
    if q :| 0 <= q < |s.stoppers| && s.stoppers[q].StopNotifying? {
      assert s.stoppers[p := pc][q].StopNotifying?;
    }
  }

  lemma OwedAfterBegin(s: State)
    requires NotifyOwed(s)
    ensures NotifyOwed(s.(pushers := s.pushers + [PushEntering]))
    ensures NotifyOwed(s.(stoppers := s.stoppers + [StopEntering]))
  {
    if q :| 0 <= q < |s.pushers| && s.pushers[q].PushNotifying? {
      assert (s.pushers + [PushEntering])[q].PushNotifying?;
    } else {
      var q :| 0 <= q < |s.stoppers| && s.stoppers[q].StopNotifying?;
      assert (s.stoppers + [StopEntering])[q].StopNotifying?;
    }
  }

  lemma WorkerKeeps(s: State, w: WorkerEvent)
    requires Inv(s) && WorkerEnabled(s, w)
    ensures Inv(WorkerApply(s, w))
  {
    var s' := WorkerApply(s, w);
    match w
    case Test =>
      assert s.queue != [] ==> s.queue == [s.queue[0]] + s.queue[1..];
    case CancelOne =>
      assert s.worker.backlog == [s.worker.backlog[0]] + s.worker.backlog[1..];
    case _ =>
    assert HistoryOk(s');
  }

  lemma StepKeeps(s: State, e: Event)
    requires Inv(s) && Enabled(s, e)
    ensures Inv(Apply(s, e))
  {
    var s' := Apply(s, e);
    match e
    case BeginPush =>
      if NotifyOwed(s) { OwedAfterBegin(s); }
    case PushLocked(p) =>
      if Accepts(s.kind, s.stop) {
        assert s'.pushers[p].PushNotifying?;
      } else if NotifyOwed(s) {
        OwedAfterPush(s, p, PushRefused);
      }
    case PushNotify(p) =>
    case BeginStop =>
      if NotifyOwed(s) { OwedAfterBegin(s); }
    case StopLocked(p) =>
      assert s'.stoppers[p].StopNotifying?;
    case StopNotify(p) =>
    case LockJoin(p) =>
      if NotifyOwed(s) { OwedAfterStop(s, p, HoldingJoin); }
    case Join(p) =>
      if NotifyOwed(s) { OwedAfterStop(s, p, StopReturned); }
    case Worker(w) => WorkerKeeps(s, w);
  }

  lemma PushTakesOnce(s: State, q: nat, p: nat)
    requires TakenOnce(s, p) && Enabled(s, PushLocked(q))
    ensures TakenOnce(PushLockedStep(s, q), p)
  {
    var s' := PushLockedStep(s, q);
    if Accepts(s.kind, s.stop) {
      assert s'.accepted == s.accepted + [q];
      CountSnoc(s.accepted, q, p);
      assert Took(s', p) <==> Took(s, p) || p == q;
    } else {
      assert Took(s', p) <==> Took(s, p);
    }
  }

  lemma OtherStepsTakeNothing(s: State, e: Event, p: nat)
    requires Enabled(s, e) && !e.PushLocked?
    ensures Apply(s, e).accepted == s.accepted && (Took(Apply(s, e), p) <==> Took(s, p))
  {
  }

  lemma StepTakesOnce(s: State, e: Event, p: nat)
    requires TakenOnce(s, p) && Enabled(s, e)
    ensures TakenOnce(Apply(s, e), p)
  {
    if e.PushLocked? {
      PushTakesOnce(s, e.p, p);
    } else {
      OtherStepsTakeNothing(s, e, p);
    }
  }

  lemma {:induction false} RunKeeps(kind: Kind, events: seq<Event>, s: State, p: nat)
    requires Exec(Init(kind), events) == Some(s)
    ensures Inv(s) && TakenOnce(s, p) && s.kind == kind
  {
    if events != [] {
      var init, e := events[..|events| - 1], events[|events| - 1];
      var mid := Exec(Init(kind), init).value;
      RunKeeps(kind, init, mid, p);
      StepKeeps(mid, e);
      StepTakesOnce(mid, e, p);
    }
  }

  lemma ReachableInv(s: State, p: nat)
    requires Reachable(s)
    ensures Inv(s) && TakenOnce(s, p)
  {
    var events :| Exec(Init(s.kind), events) == Some(s);
    RunKeeps(s.kind, events, s, p);
  }

  // ── What callers get ────────────────────────────────────────────────────

  // In every reachable state the items taken are, in order, those that ran, the
  // one in flight, those cancelled, those about to be, and those still queued.
  lemma History(s: State)
    requires Reachable(s)
    ensures s.accepted == s.ran + InFlight(s.worker) + s.cancelled + Backlog(s.worker) + s.queue
    ensures s.begun == |s.ran| + if s.worker.Running? then 1 else 0
    ensures s.cancelled != [] ==> s.stop && InFlight(s.worker) == []
  {
    ReachableInv(s, 0);
  }

  // An open queue takes what it is given, at its tail, and only a stopped SerialQueue
  // refuses.
  lemma PushIsTaken(s: State, p: nat)
    requires Enabled(s, PushLocked(p))
    ensures var s' := Apply(s, PushLocked(p));
      if s.kind.Launch? || !s.stop then s'.queue == s.queue + [p] && s'.accepted == s.accepted + [p] && Took(s', p)
      else s'.queue == s.queue && s'.accepted == s.accepted && !Took(s', p)
  {
  }

  lemma {:induction false} RunKeepsTaken(s: State, events: seq<Event>, t: State, p: nat)
    requires p < |s.pushers| && !s.pushers[p].PushEntering? && Exec(s, events) == Some(t)
    ensures p < |t.pushers| && !t.pushers[p].PushEntering? && (Took(t, p) <==> Took(s, p)) && t.kind == s.kind
  {
    if events != [] {
      var init, e := events[..|events| - 1], events[|events| - 1];
      var mid := Exec(s, init).value;
      RunKeepsTaken(s, init, mid, p);
      KindStays(mid, e);
      assert e.PushLocked? ==> e.p != p;
    }
  }

  // Once any stop() call has returned, each push() that was accepted has been
  // answered exactly once, by run_ or by cancel_, and a refused one never.
  lemma AnsweredExactlyOnce(s: State, k: nat, p: nat)
    requires Reachable(s) && s.kind.Serial?
    requires k < |s.stoppers| && s.stoppers[k].StopReturned?
    ensures s.accepted == s.ran + s.cancelled
    ensures Count(s.ran, p) + Count(s.cancelled, p) == if Took(s, p) then 1 else 0
  {
    JoinedMeansExited(s, k);
    ExitedHistory(s);
    assert (s.ran + s.cancelled) + [] == s.ran + s.cancelled;
    EachTakenOnce(s, p);
    CountConcat(s.ran, s.cancelled, p);
  }

  // stop() returns after the join, and the worker leaves nothing behind.
  lemma JoinedMeansExited(s: State, k: nat)
    requires Reachable(s) && s.kind.Serial?
    requires k < |s.stoppers| && s.stoppers[k].StopReturned?
    ensures s.worker.Exited? && s.queue == []
  {
    ReachableInv(s, 0);
  }

  lemma EachTakenOnce(s: State, p: nat)
    requires Reachable(s)
    ensures TakenOnce(s, p)
  {
    ReachableInv(s, p);
  }

  // Whatever was taken and is not queued once the worker has exited was answered.
  lemma AnsweredOrQueued(s: State, p: nat)
    requires Reachable(s) && s.worker.Exited?
    ensures Count(s.ran, p) + Count(s.cancelled, p) == if Took(s, p) && p !in s.queue then 1 else 0
  {
    ExitedHistory(s);
    EachTakenOnce(s, p);
    CountThree(s.ran, s.cancelled, s.queue, p);
    QueuedCount(s.queue, p);
  }

  lemma ExitedHistory(s: State)
    requires Reachable(s) && s.worker.Exited?
    ensures s.accepted == (s.ran + s.cancelled) + s.queue
  {
    History(s);
    assert InFlight(s.worker) == [] && Backlog(s.worker) == [];
    NothingBetween(s.ran, s.cancelled, s.queue);
  }

  lemma NothingBetween(a: seq<nat>, b: seq<nat>, c: seq<nat>)
    ensures a + [] + b + [] + c == (a + b) + c
  {
    assert a + [] == a;
    assert (a + b) + [] == a + b;
  }

  lemma QueuedCount(queue: seq<nat>, p: nat)
    ensures Count(queue, p) > 0 <==> p in queue
  {
    CountMember(queue, p);
  }

  lemma CountThree(a: seq<nat>, b: seq<nat>, c: seq<nat>, p: nat)
    ensures Count((a + b) + c, p) == Count(a, p) + Count(b, p) + Count(c, p)
  {
    CountConcat(a + b, c, p);
    CountConcat(a, b, p);
  }

  // A push() that gets the lock before the stop flag is set is answered exactly once by
  // the time a stop() returns, whatever happens in between; a later one never is.
  lemma PushAnswered(s: State, p: nat, events: seq<Event>, t: State, k: nat)
    requires Reachable(s) && s.kind.Serial? && Enabled(s, PushLocked(p))
    requires Exec(Apply(s, PushLocked(p)), events) == Some(t)
    requires k < |t.stoppers| && t.stoppers[k].StopReturned?
    ensures Count(t.ran, p) + Count(t.cancelled, p) == if s.stop then 0 else 1
  {
    PushIsTaken(s, p);
    RunKeepsTaken(Apply(s, PushLocked(p)), events, t, p);
    Continued(s, PushLocked(p), events, t);
    AnsweredExactlyOnce(t, k, p);
  }

  // ── Launches ────────────────────────────────────────────────────────────

  // A launch queued once the worker has taken the backlog to cancel it stays where
  // it is; one that was queued before is in the backlog, or already gone.
  ghost predicate Stranded(s: State, p: nat) {
    Closing(s.worker) && p in s.queue
  }

  lemma StepDecides(s: State, e: Event, p: nat)
    requires s.kind.Launch? && Took(s, p) && Enabled(s, e)
    ensures var s' := Apply(s, e);
      && s'.kind.Launch? && Took(s', p) && (Closing(s.worker) ==> Closing(s'.worker))
      && (Stranded(s, p) ==> Stranded(s', p))
      && (!Stranded(s, p) ==> !Stranded(s', p))
  {
    if e.PushLocked? {
      assert e.p != p;
    }
  }

  lemma {:induction false} RunDecides(s: State, events: seq<Event>, t: State, p: nat)
    requires s.kind.Launch? && Took(s, p) && Exec(s, events) == Some(t)
    ensures t.kind.Launch? && Took(t, p) && (Stranded(s, p) <==> Stranded(t, p))
  {
    if events != [] {
      var init := events[..|events| - 1];
      var mid := Exec(s, init).value;
      RunDecides(s, init, mid, p);
      StepDecides(mid, events[|events| - 1], p);
    }
  }

  lemma {:induction false} Continued(s: State, e: Event, events: seq<Event>, t: State)
    requires Reachable(s) && Enabled(s, e) && Exec(Apply(s, e), events) == Some(t)
    ensures Reachable(t)
  {
    if events == [] {
      var before :| Exec(Init(s.kind), before) == Some(s);
      assert (before + [e])[..|before|] == before;
      assert Exec(Init(s.kind), before + [e]) == Some(t);
      KindStays(s, e);
    } else {
      var init, last := events[..|events| - 1], events[|events| - 1];
      var mid := Exec(Apply(s, e), init).value;
      Continued(s, e, init, mid);
      var before :| Exec(Init(mid.kind), before) == Some(mid);
      assert (before + [last])[..|before|] == before;
      assert Exec(Init(mid.kind), before + [last]) == Some(t);
      KindStays(mid, last);
    }
  }

  lemma KindStays(s: State, e: Event)
    requires Enabled(s, e)
    ensures Apply(s, e).kind == s.kind
  {
  }

  // launch() does not look at the stop flag, so not every launch is answered. One
  // that gets the lock before the worker has taken the backlog to cancel it is
  // answered exactly once, stop or no stop; one that gets it later is never
  // answered, whatever happens.
  lemma LaunchAnswers(s: State, p: nat, events: seq<Event>, t: State)
    requires Reachable(s) && s.kind.Launch? && Enabled(s, PushLocked(p))
    requires Exec(Apply(s, PushLocked(p)), events) == Some(t) && t.worker.Exited?
    ensures Count(t.ran, p) + Count(t.cancelled, p) == if Closing(s.worker) then 0 else 1
  {
    var s' := Apply(s, PushLocked(p));
    assert s'.queue == s.queue + [p] && p in s'.queue;
    RunDecides(s', events, t, p);
    Continued(s, PushLocked(p), events, t);
    AnsweredOrQueued(t, p);
  }

  lemma Extend(kind: Kind, events: seq<Event>, s: State, e: Event) returns (events': seq<Event>, s': State)
    requires Exec(Init(kind), events) == Some(s) && Enabled(s, e)
    ensures events' == events + [e] && s' == Apply(s, e) && Exec(Init(kind), events') == Some(s')
  {
    events', s' := events + [e], Apply(s, e);
    assert events'[..|events|] == events;
  }

  // Such a launch exists: it got past its entry before the stop, and to the lock
  // after the worker had taken an empty backlog.
  lemma LaunchLeftUnanswered() returns (s: State)
    ensures Reachable(s) && s.kind.Launch? && s.worker.Exited?
    ensures Took(s, 0) && s.queue == [0] && s.ran == [] && s.cancelled == []
  {
    s := Init(Launch);
    var events;
    events, s := Extend(Launch, [], s, BeginPush);
    events, s := Extend(Launch, events, s, BeginStop);
    events, s := Extend(Launch, events, s, StopLocked(0));
    events, s := Extend(Launch, events, s, Worker(Test));
    assert s.worker == Cancelling([]) && s.pushers == [PushEntering];
    events, s := Extend(Launch, events, s, PushLocked(0));
    assert s.queue == [0] && s.pushers == [PushNotifying];
    events, s := Extend(Launch, events, s, Worker(Exit));
  }

  // ── Notifications ───────────────────────────────────────────────────────

  // A worker asleep while there is something to do is about to be notified.
  lemma NoLostNotification(s: State)
    requires Reachable(s) && s.worker.Sleeping? && (s.stop || s.queue != [])
    ensures exists e :: Enabled(s, e) && Apply(s, e).worker.Locking? && (e.PushNotify? || e.StopNotify?)
  {
    ReachableInv(s, 0);
    if p :| 0 <= p < |s.pushers| && s.pushers[p].PushNotifying? {
      assert Enabled(s, PushNotify(p)) && Apply(s, PushNotify(p)).worker.Locking?;
    } else {
      var p :| 0 <= p < |s.stoppers| && s.stoppers[p].StopNotifying?;
      assert Enabled(s, StopNotify(p)) && Apply(s, StopNotify(p)).worker.Locking?;
    }
  }

  // ── Shutdown ────────────────────────────────────────────────────────────

  function RunsLeft(worker: WorkerPc): nat {
    if worker.Popped? then 1 else 0
  }

  // The worker's own steps left once stop_ is set.
  function StepsLeft(s: State): nat {
    match s.worker
    case Popped(_) => |s.queue| + 5
    case Running(_) => |s.queue| + 4
    case Sleeping => |s.queue| + 3
    case Locking => |s.queue| + 2
    case Cancelling(backlog) => |backlog| + 1
    case Exited => 0
  }

  function WorkerSteps(events: seq<Event>): nat {
    if events == [] then 0
    else WorkerSteps(events[..|events| - 1]) + if events[|events| - 1].Worker? then 1 else 0
  }

  lemma StopStep(s: State, e: Event)
    requires s.stop && s.kind.Serial? && Enabled(s, e)
    ensures var s' := Apply(s, e);
      && s'.stop && s'.kind.Serial?
      && s'.begun + RunsLeft(s'.worker) <= s.begun + RunsLeft(s.worker)
      && StepsLeft(s') + (if e.Worker? then 1 else 0) <= StepsLeft(s)
  {
  }

  // From the moment stop_ is set, whatever pushers and other stoppers do, at
  // most one more run_ begins (the item already popped) and the worker takes at
  // most StepsLeft more steps.
  lemma {:induction false} ShutdownIsBounded(s: State, events: seq<Event>, s': State)
    requires s.stop && s.kind.Serial? && Exec(s, events) == Some(s')
    ensures s'.stop && s'.kind.Serial?
    ensures s'.begun + RunsLeft(s'.worker) <= s.begun + RunsLeft(s.worker)
    ensures WorkerSteps(events) + StepsLeft(s') <= StepsLeft(s)
  {
    if events != [] {
      var init, e := events[..|events| - 1], events[|events| - 1];
      var mid := Exec(s, init).value;
      ShutdownIsBounded(s, init, mid);
      StopStep(mid, e);
    }
  }

  // ... and it is never stuck on the way: until it has exited, the worker or a
  // thread that owes it a notification can step.
  lemma ShutdownProgresses(s: State)
    requires Reachable(s) && s.stop && !s.worker.Exited?
    ensures exists e :: Enabled(s, e) && StepsLeft(Apply(s, e)) < StepsLeft(s) && (e.Worker? ==> !e.w.SpuriousWake?)
  {
    match s.worker
    case Sleeping =>
      NoLostNotification(s);
      var e :| Enabled(s, e) && Apply(s, e).worker.Locking? && (e.PushNotify? || e.StopNotify?);
      assert StepsLeft(Apply(s, e)) < StepsLeft(s);
    case Locking => assert Enabled(s, Worker(Test)) && StepsLeft(Apply(s, Worker(Test))) < StepsLeft(s);
    case Popped(_) => assert Enabled(s, Worker(BeginRun)) && StepsLeft(Apply(s, Worker(BeginRun))) < StepsLeft(s);
    case Running(_) => assert Enabled(s, Worker(EndRun)) && StepsLeft(Apply(s, Worker(EndRun))) < StepsLeft(s);
    case Cancelling(backlog) =>
      var e := Worker(if backlog == [] then Exit else CancelOne);
      assert Enabled(s, e) && StepsLeft(Apply(s, e)) < StepsLeft(s);
  }
}

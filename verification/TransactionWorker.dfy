/** TransactionWorker and the transaction handles that feed it: FIFO execution on
    one thread, cancel_current() from any thread, and who owns the references to
    a transaction and its cancellable.

    Transactions are numbered by the handle that built them. */
module TransactionWorker {

  import opened Counting
  import opened Wrappers

  // ── Under mu_ ───────────────────────────────────────────────────────────

  datatype Shared<T> = Shared(queue: seq<T>, current: Option<T>, stop: bool)

  datatype Work<T> = Sleep | Return | Execute(item: T)

  // loop(): a stop is seen before any queued work, and the backlog stays put.
  function NextWork<T>(g: Shared<T>): Work<T> {
    if g.stop then Return else if g.queue == [] then Sleep else Execute(g.queue[0])
  }

  function TakeLeaves<T>(g: Shared<T>): Shared<T> {
    if NextWork(g).Execute? then g.(queue := g.queue[1..], current := Some(g.queue[0])) else g
  }

  // What cancel_current() calls g_cancellable_cancel on, if anything.
  function CancelHits<T>(g: Shared<T>): Option<T> {
    g.current
  }

  function ClearLeaves<T>(g: Shared<T>): Shared<T> {
    g.(current := None)
  }

  function StopLeaves<T>(g: Shared<T>): Shared<T> {
    g.(stop := true)
  }

  class Worker<T> {
    var queue: seq<T>
    var currentCancel: Option<T>
    var stop: bool

    constructor ()
      ensures State() == Shared([], None, false)
    {
      queue, currentCancel, stop := [], None, false;
    }

    function State(): Shared<T>
      reads this
    {
      Shared(queue, currentCancel, stop)
    }

    method Enqueue(item: T)
      modifies this
      ensures State() == old(State()).(queue := old(queue) + [item])
    {
      queue := queue + [item];
    }

    method CancelCurrent() returns (hit: Option<T>)
      ensures hit == CancelHits(State()) && hit == currentCancel
    {
      hit := None;
      if currentCancel.Some? {
        hit := currentCancel;
      }
    }

    method TakeWork() returns (work: Work<T>)
      modifies this
      ensures work == NextWork(old(State())) && State() == TakeLeaves(old(State()))
      ensures old(stop) ==> work == Return && State() == old(State())
      ensures !old(stop) && old(queue) == [] ==> work == Sleep && State() == old(State())
      ensures !old(stop) && old(queue) != [] ==>
        work == Execute(old(queue)[0]) && State() == Shared(old(queue)[1..], Some(old(queue)[0]), false)
    {
      if stop {
        return Return;
      }
      if |queue| == 0 {
        return Sleep;
      }
      work := Execute(queue[0]);
      currentCancel := Some(queue[0]);
      queue := queue[1..];
    }

    method ClearCurrent()
      modifies this
      ensures State() == ClearLeaves(old(State())) && State() == old(State()).(current := None)
    {
      currentCancel := None;
    }

    method RequestStop()
      modifies this
      ensures State() == StopLeaves(old(State())) && State() == old(State()).(stop := true)
    {
      stop := true;
    }
  }

  // ── Threads ─────────────────────────────────────────────────────────────

  // The life of a handle: flatpak_tx_submit empties it before it queues, so the
  // references travel with the local PendingTx in between.
  datatype HandlePc = Building | Submitting | Notifying | Submitted | Dropped

  datatype WorkerPc =
    | Locking
    | Sleeping
    | Executing(item: nat)
    | Clearing(item: nat)         // executed; about to reset current_cancel_
    | UnrefCancel(item: nat)
    | UnrefTx(item: nat)
    | Exited

  datatype DtorPc = Alive | StopNotifying | JoiningWorker | Joined

  datatype State = State(
    g: Shared<nat>,
    handles: seq<HandlePc>,
    worker: WorkerPc,
    dtor: DtorPc,
    submitted: seq<nat>,          // history: enqueue order
    started: seq<nat>,            // history: items popped
    answered: seq<nat>,           // history: final frames posted by execute
    cancelDrops: seq<nat>,        // history: references to cancellables dropped
    txDrops: seq<nat>             // history: references to transactions dropped
  )

  datatype HandleEvent = SubmitEmpty | SubmitEnqueue | SubmitNotify | DestroyUnsubmitted

  datatype WorkerEvent = Take | EndExecute | Clear | DropCancel | DropTx | SpuriousWake

  datatype DtorEvent = DtorStop | DtorNotify | DtorJoin

  // cancel_current() changes none of this: what it reads is the subject of
  // CancelReachesTheRunningTransaction.
  datatype Event = Create | Handle(h: nat, handle: HandleEvent) | Working(w: WorkerEvent) | Destroying(d: DtorEvent)

  function Init(): State {
    State(Shared([], None, false), [], Locking, Alive, [], [], [], [], [])
  }

  predicate HandleEnabled(s: State, h: nat, e: HandleEvent) {
    && h < |s.handles|
    && match e
       case SubmitEmpty => s.handles[h].Building?
       case SubmitEnqueue => s.handles[h].Submitting?
       case SubmitNotify => s.handles[h].Notifying?
       case DestroyUnsubmitted => s.handles[h].Building?
  }

  predicate WorkerEnabled(s: State, e: WorkerEvent) {
    match e
    case Take => s.worker.Locking?
    case EndExecute => s.worker.Executing?
    case Clear => s.worker.Clearing?
    case DropCancel => s.worker.UnrefCancel?
    case DropTx => s.worker.UnrefTx?
    case SpuriousWake => s.worker.Sleeping?
  }

  predicate DtorEnabled(s: State, e: DtorEvent) {
    match e
    case DtorStop => s.dtor.Alive?
    case DtorNotify => s.dtor.StopNotifying?
    case DtorJoin => s.dtor.JoiningWorker? && s.worker.Exited?
  }

  predicate Enabled(s: State, e: Event) {
    match e
    case Create => true
    case Handle(h, handle) => HandleEnabled(s, h, handle)
    case Working(w) => WorkerEnabled(s, w)
    case Destroying(d) => DtorEnabled(s, d)
  }

  function Notify(worker: WorkerPc): WorkerPc {
    if worker.Sleeping? then Locking else worker
  }

  // flatpak_tx_destroy drops the references a handle still has; after a submit
  // it has none.
  function HandleApply(s: State, h: nat, e: HandleEvent): State
    requires HandleEnabled(s, h, e)
  {
    match e
    case SubmitEmpty => s.(handles := s.handles[h := Submitting])
    case SubmitEnqueue =>
      s.(handles := s.handles[h := Notifying], g := s.g.(queue := s.g.queue + [h]), submitted := s.submitted + [h])
    case SubmitNotify => s.(handles := s.handles[h := Submitted], worker := Notify(s.worker))
    case DestroyUnsubmitted =>
      s.(handles := s.handles[h := Dropped], cancelDrops := s.cancelDrops + [h], txDrops := s.txDrops + [h])
  }

  function TakeStep(s: State): State {
    match NextWork(s.g)
    case Sleep => s.(worker := Sleeping)
    case Return => s.(worker := Exited)
    case Execute(item) => s.(worker := Executing(item), g := TakeLeaves(s.g), started := s.started + [item])
  }

  function WorkerApply(s: State, e: WorkerEvent): State
    requires WorkerEnabled(s, e)
  {
    match e
    case Take => TakeStep(s)
    case EndExecute => s.(worker := Clearing(s.worker.item), answered := s.answered + [s.worker.item])
    case Clear => s.(worker := UnrefCancel(s.worker.item), g := ClearLeaves(s.g))
    case DropCancel => s.(worker := UnrefTx(s.worker.item), cancelDrops := s.cancelDrops + [s.worker.item])
    case DropTx => s.(worker := Locking, txDrops := s.txDrops + [s.worker.item])
    case SpuriousWake => s.(worker := Locking)
  }

  function DtorApply(s: State, e: DtorEvent): State
    requires DtorEnabled(s, e)
  {
    match e
    case DtorStop => s.(g := StopLeaves(s.g), dtor := StopNotifying)
    case DtorNotify => s.(dtor := JoiningWorker, worker := Notify(s.worker))
    case DtorJoin => s.(dtor := Joined)
  }

  function Apply(s: State, e: Event): State
    requires Enabled(s, e)
  {
    match e
    case Create => s.(handles := s.handles + [Building])
    case Handle(h, handle) => HandleApply(s, h, handle)
    case Working(w) => WorkerApply(s, w)
    case Destroying(d) => DtorApply(s, d)
  }

  function Exec(s: State, events: seq<Event>): Option<State> {
    if events == [] then Some(s)
    else
      var before := Exec(s, events[..|events| - 1]);
      var e := events[|events| - 1];
      if before.Some? && Enabled(before.value, e) then Some(Apply(before.value, e)) else None
  }

  ghost predicate Reachable(s: State) {
    exists events :: Exec(Init(), events) == Some(s)
  }

  // ── References ──────────────────────────────────────────────────────────

  // How many owners the reference to t's cancellable has: the handle, the
  // PendingTx in flight, the queue, the worker, or nobody any more.
  function HandleHolds(s: State, t: nat): nat {
    if t < |s.handles| && (s.handles[t].Building? || s.handles[t].Submitting?) then 1 else 0
  }

  function WorkerHoldsCancel(worker: WorkerPc, t: nat): nat {
    if (worker.Executing? || worker.Clearing? || worker.UnrefCancel?) && worker.item == t then 1 else 0
  }

  function WorkerHoldsTx(worker: WorkerPc, t: nat): nat {
    if WorkerHoldsCancel(worker, t) == 1 || (worker.UnrefTx? && worker.item == t) then 1 else 0
  }

  function CancelOwners(s: State, t: nat): nat {
    HandleHolds(s, t) + Count(s.g.queue, t) + WorkerHoldsCancel(s.worker, t) + Count(s.cancelDrops, t)
  }

  function TxOwners(s: State, t: nat): nat {
    HandleHolds(s, t) + Count(s.g.queue, t) + WorkerHoldsTx(s.worker, t) + Count(s.txDrops, t)
  }

  ghost predicate Counted(s: State, t: nat) {
    && CancelOwners(s, t) == (if t < |s.handles| then 1 else 0)
    && TxOwners(s, t) == (if t < |s.handles| then 1 else 0)
    && Count(s.submitted, t) == (if t < |s.handles| && (s.handles[t].Notifying? || s.handles[t].Submitted?) then 1 else 0)
  }

  lemma EnqueueCounted(s: State, h: nat, t: nat)
    requires Counted(s, t) && HandleEnabled(s, h, SubmitEnqueue)
    ensures Counted(HandleApply(s, h, SubmitEnqueue), t)
  {
    var s' := s.(handles := s.handles[h := Notifying], g := s.g.(queue := s.g.queue + [h]), submitted := s.submitted + [h]);
    CountSnoc(s.g.queue, h, t);
    CountSnoc(s.submitted, h, t);
    assert HandleHolds(s', t) == if t == h then 0 else HandleHolds(s, t);
    assert Counted(s', t);
  }

  lemma DestroyCounted(s: State, h: nat, t: nat)
    requires Counted(s, t) && HandleEnabled(s, h, DestroyUnsubmitted)
    ensures Counted(HandleApply(s, h, DestroyUnsubmitted), t)
  {
    CountSnoc(s.cancelDrops, h, t);
    CountSnoc(s.txDrops, h, t);
  }

  lemma HandleCounted(s: State, h: nat, e: HandleEvent, t: nat)
    requires Counted(s, t) && HandleEnabled(s, h, e)
    ensures Counted(HandleApply(s, h, e), t)
  {
    match e
    case SubmitEnqueue => EnqueueCounted(s, h, t);
    case DestroyUnsubmitted => DestroyCounted(s, h, t);
    case _ =>
  }

  lemma WorkerCounted(s: State, e: WorkerEvent, t: nat)
    requires Counted(s, t) && WorkerEnabled(s, e)
    ensures Counted(WorkerApply(s, e), t)
  {
    match e
    case Take => TakeCounted(s, t);
    case DropCancel => DropCancelCounted(s, t);
    case DropTx => DropTxCounted(s, t);
    case _ =>
  }

  lemma TakeCounted(s: State, t: nat)
    requires Counted(s, t) && s.worker.Locking?
    ensures Counted(TakeStep(s), t)
  {
    if NextWork(s.g).Execute? {
      CountTail(s.g.queue, t);
    }
  }

  lemma DropCancelCounted(s: State, t: nat)
    requires Counted(s, t) && s.worker.UnrefCancel?
    ensures Counted(WorkerApply(s, DropCancel), t)
  {
    CountSnoc(s.cancelDrops, s.worker.item, t);
  }

  lemma DropTxCounted(s: State, t: nat)
    requires Counted(s, t) && s.worker.UnrefTx?
    ensures Counted(WorkerApply(s, DropTx), t)
  {
    CountSnoc(s.txDrops, s.worker.item, t);
  }

  // ── Order and the current cancellable ───────────────────────────────────

  predicate Busy(worker: WorkerPc) {
    worker.Executing? || worker.Clearing? || worker.UnrefCancel? || worker.UnrefTx?
  }

  // Items popped whose execution has ended.
  function Answerless(worker: WorkerPc): seq<nat> {
    if worker.Executing? then [worker.item] else []
  }

  ghost predicate OrderOk(s: State) {
    && s.submitted == s.started + s.g.queue
    && s.started == s.answered + Answerless(s.worker)
    && s.g.current == (if s.worker.Executing? || s.worker.Clearing? then Some(s.worker.item) else None)
    && (s.worker.Exited? ==> s.g.stop)
    && (s.dtor.Joined? ==> s.worker.Exited?)
    && (!s.dtor.Alive? <==> s.g.stop)
    && (Busy(s.worker) ==> s.started != [] && s.started[|s.started| - 1] == s.worker.item)
  }

  ghost predicate NotifyOwed(s: State) {
    s.dtor.StopNotifying? || exists h :: 0 <= h < |s.handles| && s.handles[h].Notifying?
  }

  ghost predicate NotifyOk(s: State) {
    s.worker.Sleeping? && (s.g.stop || s.g.queue != []) ==> NotifyOwed(s)
  }

  lemma WorkerKeepsOrder(s: State, e: WorkerEvent)
    requires OrderOk(s) && WorkerEnabled(s, e)
    ensures OrderOk(WorkerApply(s, e))
  {
    if e.Take? && NextWork(s.g).Execute? {
      assert s.g.queue == [s.g.queue[0]] + s.g.queue[1..];
    }
  }

  lemma HandleKeepsOrder(s: State, h: nat, e: HandleEvent)
    requires OrderOk(s) && HandleEnabled(s, h, e)
    ensures OrderOk(HandleApply(s, h, e))
  {
  }

  lemma HandleKeepsNotify(s: State, h: nat, e: HandleEvent)
    requires NotifyOk(s) && HandleEnabled(s, h, e)
    ensures NotifyOk(HandleApply(s, h, e))
  {
    var s' := HandleApply(s, h, e);
    if e.SubmitEnqueue? {
      assert s'.handles[h].Notifying?;
    } else if !e.SubmitNotify? && NotifyOwed(s) && !s.dtor.StopNotifying? {
      var k :| 0 <= k < |s.handles| && s.handles[k].Notifying?;
      assert s'.handles[k].Notifying?;
    }
  }

  ghost predicate Inv(s: State, t: nat) {
    OrderOk(s) && NotifyOk(s) && Counted(s, t)
  }

  lemma CreateKeeps(s: State, t: nat)
    requires Inv(s, t)
    ensures Inv(Apply(s, Create), t)
  {
    var s' := Apply(s, Create);
    assert s' == s.(handles := s.handles + [Building]);
    if NotifyOwed(s) && !s.dtor.StopNotifying? {
      var k :| 0 <= k < |s.handles| && s.handles[k].Notifying?;
      assert s'.handles[k].Notifying?;
    }
    assert HandleHolds(s', t) == HandleHolds(s, t) + if t == |s.handles| then 1 else 0;
  }

  lemma HandleKeeps(s: State, h: nat, e: HandleEvent, t: nat)
    requires Inv(s, t) && HandleEnabled(s, h, e)
    ensures Inv(HandleApply(s, h, e), t)
  {
    HandleCounted(s, h, e, t);
    HandleKeepsNotify(s, h, e);
    HandleKeepsOrder(s, h, e);
  }

  lemma DtorKeeps(s: State, e: DtorEvent, t: nat)
    requires Inv(s, t) && DtorEnabled(s, e)
    ensures Inv(DtorApply(s, e), t)
  {
  }

  lemma WorkerKeeps(s: State, e: WorkerEvent, t: nat)
    requires Inv(s, t) && WorkerEnabled(s, e)
    ensures Inv(WorkerApply(s, e), t)
  {
    WorkerCounted(s, e, t);
    WorkerKeepsOrder(s, e);
    assert NotifyOk(WorkerApply(s, e));
  }

  lemma StepKeeps(s: State, e: Event, t: nat)
    requires Inv(s, t) && Enabled(s, e)
    ensures Inv(Apply(s, e), t)
  {
    match e
    case Create => CreateKeeps(s, t);
    case Handle(h, handle) => HandleKeeps(s, h, handle, t);
    case Working(w) => WorkerKeeps(s, w, t);
    case Destroying(d) => DtorKeeps(s, d, t);
  }

  lemma {:induction false} RunKeeps(events: seq<Event>, s: State, t: nat)
    requires Exec(Init(), events) == Some(s)
    ensures Inv(s, t)
  {
    if events != [] {
      var init := events[..|events| - 1];
      RunKeeps(init, Exec(Init(), init).value, t);
      StepKeeps(Exec(Init(), init).value, events[|events| - 1], t);
    }
  }

  lemma ReachableInv(s: State, t: nat)
    requires Reachable(s)
    ensures Inv(s, t)
  {
    var events :| Exec(Init(), events) == Some(s);
    RunKeeps(events, s, t);
  }

  // ── What callers get ────────────────────────────────────────────────────

  // Transactions start in the order they were queued, each at most once, and
  // every one before the newest has been answered.
  lemma RunsInOrder(s: State, t: nat)
    requires Reachable(s)
    ensures s.submitted == s.started + s.g.queue && s.started == s.answered + Answerless(s.worker)
    ensures Count(s.submitted, t) <= 1
  {
    ReachableInv(s, t);
  }

  // Whatever cancel_current() finds is the transaction being executed: the last
  // one started, whose cancellable no one has released.
  lemma CancelReachesTheRunningTransaction(s: State)
    requires Reachable(s) && CancelHits(s.g).Some?
    ensures var t := CancelHits(s.g).value;
      && (s.worker == Executing(t) || s.worker == Clearing(t))
      && s.started != [] && t == s.started[|s.started| - 1]
      && Count(s.cancelDrops, t) == 0 && Count(s.g.queue, t) == 0
  {
    ReachableInv(s, s.g.current.value);
  }

  // The worker is executing t, or has just posted its final frame.
  predicate AtWorkOn(worker: WorkerPc, t: nat) {
    worker == Executing(t) || worker == Clearing(t)
  }

  // A transaction's own cancel() is cancel_current() of its worker. It reaches
  // transaction t exactly while the worker is at work on t, never while t is queued;
  // and it affects nobody but t exactly while the worker is at work on no other.
  lemma CancelReachesOwn(s: State, t: nat)
    requires Reachable(s)
    ensures CancelHits(s.g) == Some(t) <==> AtWorkOn(s.worker, t)
    ensures t in s.g.queue ==> CancelHits(s.g) != Some(t)
    ensures CancelHits(s.g) in {None, Some(t)} <==> forall u :: u != t ==> !AtWorkOn(s.worker, u)
  {
    ReachableInv(s, t);
    CountMember(s.g.queue, t);
    if s.g.current.Some? {
      assert AtWorkOn(s.worker, s.g.current.value);
    }
  }

  lemma Extend(events: seq<Event>, s: State, e: Event) returns (events': seq<Event>, s': State)
    requires Exec(Init(), events) == Some(s) && Enabled(s, e)
    ensures events' == events + [e] && s' == Apply(s, e) && Exec(Init(), events') == Some(s')
  {
    events', s' := events + [e], Apply(s, e);
    assert events'[..|events|] == events;
  }

  lemma TwoQueued() returns (events: seq<Event>, s: State)
    ensures Exec(Init(), events) == Some(s)
    ensures s == Init().(handles := [Notifying, Notifying], submitted := [0, 1], g := Shared([0, 1], None, false))
  {
    events, s := Extend([], Init(), Create);
    events, s := Extend(events, s, Create);
    assert s.handles == [Building, Building];
    events, s := Extend(events, s, Handle(0, SubmitEmpty));
    events, s := Extend(events, s, Handle(0, SubmitEnqueue));
    assert s.handles == [Notifying, Building] && s.g.queue == [0] == s.submitted;
    events, s := Extend(events, s, Handle(1, SubmitEmpty));
    events, s := Extend(events, s, Handle(1, SubmitEnqueue));
    assert s.handles == [Notifying, Notifying] && s.g.queue == [0, 1] == s.submitted;
  }

  // It does happen: transaction 1 is queued, and its cancel() hits transaction 0.
  lemma CancelHitsAnother() returns (s: State)
    ensures Reachable(s) && s.g.queue == [1] && CancelHits(s.g) == Some(0)
  {
    var events;
    events, s := TwoQueued();
    events, s := Extend(events, s, Working(Take));
  }

  // Once the worker is done with a transaction both its references have been
  // dropped, once each; and a transaction still in the backlog when the worker
  // is destroyed keeps both of them and is never answered.
  lemma ReferencesDroppedOnce(s: State, t: nat)
    requires Reachable(s)
    ensures Count(s.cancelDrops, t) <= 1 && Count(s.txDrops, t) <= 1
    ensures t in s.started && !(Busy(s.worker) && s.worker.item == t)
      ==> Count(s.cancelDrops, t) == 1 && Count(s.txDrops, t) == 1
    ensures t in s.g.queue ==> Count(s.cancelDrops, t) == 0 && Count(s.txDrops, t) == 0 && t !in s.answered
  {
    ReachableInv(s, t);
    CountMember(s.g.queue, t);
    CountMember(s.started, t);
    CountMember(s.answered, t);
    CountConcat(s.started, s.g.queue, t);
    CountConcat(s.answered, Answerless(s.worker), t);
  }

  // ── Destruction ─────────────────────────────────────────────────────────

  lemma StopFreezes(s: State, e: Event)
    requires s.g.stop && Enabled(s, e)
    ensures Apply(s, e).g.stop && Apply(s, e).started == s.started
  {
  }

  lemma {:induction false} StoppedRunFreezes(s: State, events: seq<Event>, t: State)
    requires s.g.stop && Exec(s, events) == Some(t)
    ensures t.started == s.started
    ensures t.g.stop
  {
    if events != [] {
      var init := events[..|events| - 1];
      StoppedRunFreezes(s, init, Exec(s, init).value);
      StopFreezes(Exec(s, init).value, events[|events| - 1]);
    }
  }

  lemma {:induction false} Continued(s: State, e: Event, events: seq<Event>, t: State)
    requires Reachable(s) && Enabled(s, e) && Exec(Apply(s, e), events) == Some(t)
    ensures Reachable(t)
  {
    if events == [] {
      var before :| Exec(Init(), before) == Some(s);
      var all, t' := Extend(before, s, e);
    } else {
      var init := events[..|events| - 1];
      var mid := Exec(Apply(s, e), init).value;
      Continued(s, e, init, mid);
      var before :| Exec(Init(), before) == Some(mid);
      var all, t' := Extend(before, mid, events[|events| - 1]);
    }
  }

  // What the destructor finds when it takes the lock decides: once it has joined
  // the worker, the transactions that had been started by then have been answered,
  // each once, and no other ever is.
  lemma AnsweredIfStartedByTheStop(s: State, events: seq<Event>, t: State, x: nat)
    requires Reachable(s) && Enabled(s, Destroying(DtorStop))
    requires Exec(Apply(s, Destroying(DtorStop)), events) == Some(t) && t.dtor.Joined?
    ensures Count(t.answered, x) == if x in s.started then 1 else 0
  {
    StoppedRunFreezes(Apply(s, Destroying(DtorStop)), events, t);
    Continued(s, Destroying(DtorStop), events, t);
    ReachableInv(t, x);
    assert t.answered + [] == t.answered;
    StartedOnce(t, x);
  }

  lemma StartedOnce(s: State, x: nat)
    requires Reachable(s)
    ensures Count(s.started, x) == if x in s.started then 1 else 0
  {
    ReachableInv(s, x);
    CountConcat(s.started, s.g.queue, x);
    CountMember(s.started, x);
  }

  // It does happen that one is left: submitted, and dropped with the worker.
  lemma TransactionLeftUnanswered() returns (s: State)
    ensures Reachable(s) && s.dtor.Joined? && s.submitted == [0, 1] && s.answered == [] && s.g.queue == [0, 1]
  {
    var events;
    events, s := TwoQueued();
    events, s := Extend(events, s, Destroying(DtorStop));
    events, s := Extend(events, s, Destroying(DtorNotify));
    events, s := Extend(events, s, Working(Take));
    assert s.worker.Exited?;
    events, s := Extend(events, s, Destroying(DtorJoin));
  }

  lemma NoLostNotification(s: State)
    requires Reachable(s) && s.worker.Sleeping? && (s.g.stop || s.g.queue != [])
    ensures Enabled(s, Destroying(DtorNotify)) || exists h :: Enabled(s, Handle(h, SubmitNotify))
  {
    ReachableInv(s, 0);
    if !s.dtor.StopNotifying? {
      var h :| 0 <= h < |s.handles| && s.handles[h].Notifying?;
      assert Enabled(s, Handle(h, SubmitNotify));
    }
  }
}

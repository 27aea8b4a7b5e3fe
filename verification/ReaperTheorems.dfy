/** What ChildReaper promises its callers, over every run. */
module ReaperTheorems {

  import opened ChildReaper
  import opened Counting
  import opened Wrappers
  import opened ReaperProtocol
  import opened ReaperOwnership
  import opened ReaperSafety

  // ── One loop, one handle ────────────────────────────────────────────────

  // thread_ is never overwritten while joinable, at most one loop thread is
  // alive, and running_ says exactly whether someone is in charge of pending_: one
  // add() call or one loop.
  lemma OneLoop(hasPipe: bool, events: seq<Event>, k: nat, l: nat)
    requires IsRun(hasPipe, events)
    ensures var s := After(hasPipe, events);
      && !s.terminated
      && (k < l < |s.loops| ==> s.loops[k].pc.Done? && s.loops[k].watched == [])
      && (s.g.running <==> AdderHolds(s.adders) || LoopHolds(s))
      && !(AdderHolds(s.adders) && LoopHolds(s)) && OneAdderToken(s.adders)
  {
    Safety(hasPipe, events);
  }

  // The last step of a loop that has cleared running_.
  function ExitStep(loop: Loop): LoopEvent {
    if loop.pc.Orphaning? then DetachOrphans else TailExit
  }

  // The join in add() waits for at most one step of the old loop, which is
  // enabled whatever locks are held and waits for no child.
  lemma JoinCannotBlock(hasPipe: bool, events: seq<Event>, i: nat)
    requires IsRun(hasPipe, events)
    requires i < |After(hasPipe, events).adders| && After(hasPipe, events).adders[i].Joining?
    ensures var s := After(hasPipe, events);
      || AddEnabled(s, i, JoinOld)
      || (&& s.handle.Some?
          && s.handle.value < |s.loops|
          && LoopEnabled(s, s.handle.value, ExitStep(s.loops[s.handle.value]))
          && AddEnabled(LoopApply(s, s.handle.value, ExitStep(s.loops[s.handle.value])), i, JoinOld))
  {
    Safety(hasPipe, events);
    var s := After(hasPipe, events);
    assert AdderToken(s.adders[i]);
    assert AdderHolds(s.adders) && !LoopHolds(s);
  }

  // ── The poll set ────────────────────────────────────────────────────────

  ghost predicate FdsOk(s: State) {
    forall l :: 0 <= l < |s.loops| ==> LoopFdsOk(s.loops[l], s.hasPipe)
  }

  ghost predicate LoopFdsOk(loop: Loop, hasPipe: bool) {
    && (loop.pc.Polling? ==> loop.fds == BuildFds(loop.watched, hasPipe))
    && (loop.pc.Draining? || loop.pc.Reaping? ==> PolledFrom(BuildFds(loop.watched, hasPipe), loop.fds))
  }

  lemma LoopStepFds(s: State, l: nat, e: LoopEvent)
    requires FdsOk(s) && LoopEnabled(s, l, e)
    ensures FdsOk(LoopApply(s, l, e)) && LoopApply(s, l, e).hasPipe == s.hasPipe
  {
    var s' := LoopApply(s, l, e);
    assert s'.hasPipe == s.hasPipe && |s'.loops| == |s.loops|;
    assert LoopFdsOk(s.loops[l], s.hasPipe);
    assert LoopFdsOk(s'.loops[l], s.hasPipe);
    assert forall k :: 0 <= k < |s.loops| && k != l ==> s'.loops[k] == s.loops[k];
  }

  lemma AddStepFds(s: State, i: nat, e: AddEvent)
    requires FdsOk(s) && AddEnabled(s, i, e)
    ensures FdsOk(AddApply(s, i, e)) && AddApply(s, i, e).hasPipe == s.hasPipe
  {
    var s' := AddApply(s, i, e);
    assert |s.loops| <= |s'.loops| && forall k :: 0 <= k < |s.loops| ==> s'.loops[k] == s.loops[k];
    assert forall k :: |s.loops| <= k < |s'.loops| ==> s'.loops[k].pc.Taking?;
  }

  lemma DtorFrame(s: State, e: DtorEvent)
    requires DtorEnabled(s, e)
    ensures DtorApply(s, e).loops == s.loops && DtorApply(s, e).hasPipe == s.hasPipe
  {
  }

  lemma StepFds(s: State, e: Event)
    requires FdsOk(s) && Enabled(s, e)
    ensures FdsOk(Apply(s, e)) && Apply(s, e).hasPipe == s.hasPipe
  {
    match e
    case BeginAdd =>
    case Adding(i, add) => AddStepFds(s, i, add);
    case Looping(l, loop) => LoopStepFds(s, l, loop);
    case WaiterReaps(w) =>
    case Destroying(dtor) => DtorFrame(s, dtor);
  }

  lemma {:induction false} PollSets(hasPipe: bool, events: seq<Event>)
    requires IsRun(hasPipe, events)
    ensures FdsOk(After(hasPipe, events)) && After(hasPipe, events).hasPipe == hasPipe
  {
    if events != [] {
      LastStep(hasPipe, events);
      PollSets(hasPipe, events[..|events| - 1]);
      StepFds(After(hasPipe, events[..|events| - 1]), events[|events| - 1]);
    }
  }

  lemma {:induction false} OrphanWaitersAt(orphans: seq<nat>, k: nat)
    requires k < |orphans|
    ensures |OrphanWaiters(orphans)| == |orphans| && OrphanWaiters(orphans)[k] == Waiter([orphans[k]], false)
  {
    var init := orphans[..|orphans| - 1];
    if init == [] {
      assert OrphanWaiters(init) == [];
    } else {
      OrphanWaitersAt(init, if k < |init| then k else 0);
    }
  }

  // A waiter that does not close is detached for each child at orphans, in order.
  ghost predicate Detached(before: seq<Waiter>, after: seq<Waiter>, watched: seq<nat>, orphans: seq<nat>)
    requires forall k :: 0 <= k < |orphans| ==> orphans[k] < |watched|
  {
    && |after| == |before| + |orphans| && before <= after
    && forall k :: 0 <= k < |orphans| ==> after[|before| + k] == Waiter([watched[orphans[k]]], false)
  }

  lemma OrphansAreDetached(before: seq<Waiter>, watched: seq<nat>, xs: seq<nat>, orphans: seq<nat>)
    requires Selects(xs, orphans, watched, |watched|)
    ensures Detached(before, before + OrphanWaiters(xs), watched, orphans)
  {
    if xs == [] {
      assert before + OrphanWaiters(xs) == before;
    }
    forall k | 0 <= k < |orphans|
      ensures |OrphanWaiters(xs)| == |xs|
      ensures (before + OrphanWaiters(xs))[|before| + k] == Waiter([watched[orphans[k]]], false)
    {
      OrphanWaitersAt(xs, k);
    }
  }

  lemma ReapLeaves(s: State, l: nat, outcome: seq<WaitOutcome>)
    requires LoopEnabled(s, l, Reap(outcome))
    ensures var s', sweep := LoopApply(s, l, Reap(outcome)), SweepAll(s.loops[l].watched, s.loops[l].fds, Offset(s.hasPipe), outcome);
      && s'.loops == s.loops[l := Loop(Taking, sweep.kept, [])] && s'.waiters == s.waiters + OrphanWaiters(sweep.orphans)
      && s.reaped <= s'.reaped && s'.reaped[|s.reaped|..] == sweep.reaped
      && s.closed <= s'.closed && s'.closed[|s.closed|..] == sweep.closed
  {
  }

  lemma PolledSlots(hasPipe: bool, events: seq<Event>, l: nat, outcome: seq<WaitOutcome>)
    requires IsRun(hasPipe, events)
    requires LoopEnabled(After(hasPipe, events), l, Reap(outcome))
    ensures var s := After(hasPipe, events);
      s.hasPipe == hasPipe && OwnSlots(s.loops[l].watched, s.loops[l].fds, Offset(hasPipe))
  {
    PollSets(hasPipe, events);
    var s := After(hasPipe, events);
    assert LoopFdsOk(s.loops[l], hasPipe);
    PolledSlotsAreOwn(s.loops[l].watched, hasPipe, s.loops[l].fds);
  }

  // What a sweep of s leaves, sorted by slot and wait.
  lemma SweepSorts(s: State, watched: seq<nat>, fds: seq<PollFd<nat>>, offset: nat, outcome: seq<WaitOutcome>, s': State)
    returns (kept: seq<nat>, reaped: seq<nat>, orphans: seq<nat>, closed: seq<nat>)
    requires |fds| == |watched| + offset && |outcome| == |watched|
    requires var sweep := SweepAll(watched, fds, offset, outcome);
      && s'.waiters == s.waiters + OrphanWaiters(sweep.orphans)
      && s.reaped <= s'.reaped && s'.reaped[|s.reaped|..] == sweep.reaped
      && s.closed <= s'.closed && s'.closed[|s.closed|..] == sweep.closed
    ensures forall i: nat :: i < |watched| ==>
      && (i in kept <==> fds[i + offset].revents == Quiet)
      && (i in reaped <==> fds[i + offset].revents != Quiet && outcome[i] != StillRunning)
      && (i in orphans <==> fds[i + offset].revents != Quiet && outcome[i] == StillRunning)
      && (i in closed <==> fds[i + offset].revents != Quiet)
    ensures Selects(SweepAll(watched, fds, offset, outcome).kept, kept, watched, |watched|)
    ensures Selects(s'.reaped[|s.reaped|..], reaped, watched, |watched|)
    ensures Selects(s'.closed[|s.closed|..], closed, watched, |watched|)
    ensures (forall k :: 0 <= k < |orphans| ==> orphans[k] < |watched|) && Detached(s.waiters, s'.waiters, watched, orphans)
  {
    kept, reaped, orphans, closed := SweepIsStableFilter(watched, fds, offset, outcome, |watched|);
    OrphansAreDetached(s.waiters, watched, SweepAll(watched, fds, offset, outcome).orphans, orphans);
  }

  // In every run a sweep looks at the children's own poll slots. It keeps, in order,
  // exactly the watched children whose pidfd stayed quiet, closes every other pidfd,
  // counts as reaped exactly those of the others that a wait collected, and detaches
  // a waiter for exactly those that are still running.
  lemma SweepFollowsPidfds(hasPipe: bool, events: seq<Event>, s: State, l: nat, outcome: seq<WaitOutcome>, s': State)
    returns (kept: seq<nat>, reaped: seq<nat>, orphans: seq<nat>, closed: seq<nat>)
    requires IsRun(hasPipe, events) && After(hasPipe, events) == s
    requires LoopEnabled(s, l, Reap(outcome)) && LoopApply(s, l, Reap(outcome)) == s'
    ensures OwnSlots(s.loops[l].watched, s.loops[l].fds, Offset(hasPipe)) && l < |s'.loops|
    ensures var fds, offset := s.loops[l].fds, Offset(hasPipe);
      forall i: nat :: i < |s.loops[l].watched| ==>
        && (i in kept <==> fds[i + offset].revents == Quiet)
        && (i in reaped <==> fds[i + offset].revents != Quiet && outcome[i] != StillRunning)
        && (i in orphans <==> fds[i + offset].revents != Quiet && outcome[i] == StillRunning)
        && (i in closed <==> fds[i + offset].revents != Quiet)
    ensures var watched, n := s.loops[l].watched, |s.loops[l].watched|;
      && Selects(s'.loops[l].watched, kept, watched, n)
      && s.reaped <= s'.reaped && Selects(s'.reaped[|s.reaped|..], reaped, watched, n)
      && s.closed <= s'.closed && Selects(s'.closed[|s.closed|..], closed, watched, n)
      && (forall k :: 0 <= k < |orphans| ==> orphans[k] < n) && Detached(s.waiters, s'.waiters, watched, orphans)
  {
    PolledSlots(hasPipe, events, l, outcome);
    ReapLeaves(s, l, outcome);
    kept, reaped, orphans, closed := SweepSorts(s, s.loops[l].watched, s.loops[l].fds, Offset(hasPipe), outcome, s');
  }

  // ── Wake-ups ────────────────────────────────────────────────────────────

  // What poll() reports when only the wake pipe is readable.
  function WakeOnly(fds: seq<PollFd<nat>>): seq<PollFd<nat>> {
    if fds == [] then fds else fds[0 := fds[0].(revents := Readable)]
  }

  // A loop at poll() with a child queued or a stop requested can return at
  // once, or the thread that owes it a wake-up is about to deliver: no thread
  // that owes one is waiting for anything.
  lemma NoLostWakeUp(events: seq<Event>)
    requires IsRun(true, events)
    requires After(true, events).loops != [] && Newest(After(true, events)).pc.Polling?
    requires After(true, events).g.pending != [] || After(true, events).g.stopping
    ensures var s := After(true, events);
      || LoopEnabled(s, |s.loops| - 1, PollReturns(WakeOnly(Newest(s).fds)))
      || DtorEnabled(s, DtorWake)
      || exists i :: 0 <= i < |s.adders| && (AddEnabled(s, i, Assign) || AddEnabled(s, i, Wake))
  {
    Safety(true, events);
    PollSets(true, events);
    var s := After(true, events);
    var l := |s.loops| - 1;
    assert LoopFdsOk(s.loops[l], true);
    if s.pipe > 0 {
      var polled := WakeOnly(s.loops[l].fds);
      assert polled[0].revents != Quiet;
      assert LoopEnabled(s, l, PollReturns(polled));
    } else if !s.dtor.DWaking? {
      var i :| 0 <= i < |s.adders| && (s.adders[i].Assigning? || s.adders[i].Waking?);
      assert AddEnabled(s, i, Assign) || AddEnabled(s, i, Wake);
    }
  }

  // In every run: a poll that returns while the pipe holds a byte leads to draining
  // it, and the sweep starts only once it is empty; without one the sweep starts at
  // once; an interrupted poll takes what is queued and polls again; and only any other
  // failure ends the loop. None of these lets go of a child.
  lemma PollLeadsTo(hasPipe: bool, events: seq<Event>, s: State, l: nat, e: LoopEvent, s': State)
    requires IsRun(hasPipe, events) && After(hasPipe, events) == s
    requires LoopEnabled(s, l, e) && LoopApply(s, l, e) == s' && (s.loops[l].pc.Polling? || s.loops[l].pc.Draining?)
    ensures |s'.loops| == |s.loops| && s'.loops[l].watched == s.loops[l].watched
    ensures e.PollReturns? ==> s'.loops[l].fds == e.polled && s'.loops[l].pc == if hasPipe && s.pipe > 0 then Draining else Reaping
    ensures e.PollInterrupted? ==> s'.loops[l].pc.Taking? && s'.g == s.g
    ensures e.PollFails? ==> s'.loops[l].pc.Failed? && s'.g == s.g
    ensures e.Drain? ==> s'.loops[l].pc == if s.pipe == 0 then Reaping else Draining
    ensures e.Drain? ==> s'.pipe == (if s.pipe <= 64 then 0 else s.pipe - 64) && s'.loops[l].fds == s.loops[l].fds
  {
    PollSets(hasPipe, events);
    assert LoopFdsOk(s.loops[l], hasPipe);
    if e.PollReturns? && hasPipe {
      assert |e.polled| == |s.loops[l].watched| + 1;
    }
  }

  // As long as no poll() has failed hard, a queued child always has a loop or
  // an add() call about to create one.
  lemma QueuedChildrenAreServed(hasPipe: bool, events: seq<Event>)
    requires IsRun(hasPipe, events) && !After(hasPipe, events).hardFailed
    ensures var s := After(hasPipe, events);
      s.g.pending != [] ==> AdderHolds(s.adders) || LoopHolds(s)
  {
    Safety(hasPipe, events);
  }

  lemma Extend(hasPipe: bool, events: seq<Event>, s: State, e: Event) returns (events': seq<Event>, s': State)
    requires IsRun(hasPipe, events) && After(hasPipe, events) == s && Enabled(s, e)
    ensures events' == events + [e] && s' == Apply(s, e)
    ensures IsRun(hasPipe, events') && After(hasPipe, events') == s'
  {
    events', s' := events + [e], Apply(s, e);
    assert events'[..|events|] == events;
  }

  // Child 0 is watched by loop 0, which is at poll().
  function WatchingOne(hasPipe: bool): State {
    State(Guarded([], true, false), [Finished], [Loop(Polling, [0], BuildFds([0], hasPipe))], Some(0), Free,
          if hasPipe then 1 else 0, hasPipe, [], Alive, [], {0}, [], [], false, false)
  }

  lemma OneChildQueued(hasPipe: bool) returns (events: seq<Event>, s: State)
    ensures IsRun(hasPipe, events) && After(hasPipe, events) == s
    ensures s == Init(hasPipe).(g := Guarded([0], true, false), adders := [Starting], fdOpened := {0})
  {
    events, s := Extend(hasPipe, [], Init(hasPipe), BeginAdd);
    assert s.adders == [Opening];
    events, s := Extend(hasPipe, events, s, Adding(0, OpenOk));
    assert s.adders == [Deciding] && s.fdOpened == {0};
    events, s := Extend(hasPipe, events, s, Adding(0, Enqueue));
    assert s.adders == [Starting] && s.g.pending == [0];
  }

  lemma OneLoopStarted(hasPipe: bool) returns (events: seq<Event>, s: State)
    ensures IsRun(hasPipe, events) && After(hasPipe, events) == s
    ensures s == Init(hasPipe).(g := Guarded([0], true, false), adders := [Assigning(0)], fdOpened := {0},
                                loops := [Loop(Taking, [], [])], threadMu := ByAdder(0))
  {
    events, s := OneChildQueued(hasPipe);
    events, s := Extend(hasPipe, events, s, Adding(0, LockThread));
    assert s.adders == [Joining];
    events, s := Extend(hasPipe, events, s, Adding(0, JoinOld));
    assert s.adders == [Spawning];
    events, s := Extend(hasPipe, events, s, Adding(0, Spawn));
    assert s.loops == [Loop(Taking, [], [])] && s.adders == [Assigning(0)];
  }

  lemma FirstTake(hasPipe: bool, s: State)
    requires s == WatchingOne(hasPipe).(g := Guarded([0], true, false), loops := [Loop(Taking, [], [])])
    ensures TakeStep(s, 0) == WatchingOne(hasPipe)
  {
    assert s.loops[0].watched + s.g.pending == [0];
    assert TakeStep(s, 0).loops == [Loop(Polling, [0], BuildFds([0], hasPipe))];
  }

  lemma WatchingOneIsReachable(hasPipe: bool) returns (events: seq<Event>)
    ensures IsRun(hasPipe, events) && After(hasPipe, events) == WatchingOne(hasPipe)
  {
    var s;
    events, s := OneLoopStarted(hasPipe);
    events, s := Extend(hasPipe, events, s, Adding(0, Assign));
    assert s.adders == [Waking];
    events, s := Extend(hasPipe, events, s, Adding(0, Wake));
    assert s.adders == [Finished];
    assert s == WatchingOne(hasPipe).(g := Guarded([0], true, false), loops := [Loop(Taking, [], [])]);
    FirstTake(hasPipe, s);
    events, s := Extend(hasPipe, events, s, Looping(0, Take));
  }

  // The second add() finds running_ set, so it only queues and wakes.
  lemma SecondChildQueued(hasPipe: bool) returns (events: seq<Event>, s: State)
    ensures IsRun(hasPipe, events) && After(hasPipe, events) == s
    ensures s == WatchingOne(hasPipe).(g := Guarded([1], true, false), adders := [Finished, Waking], fdOpened := {0, 1})
  {
    events := WatchingOneIsReachable(hasPipe);
    s := WatchingOne(hasPipe);
    events, s := Extend(hasPipe, events, s, BeginAdd);
    assert s.adders == [Finished, Opening];
    events, s := Extend(hasPipe, events, s, Adding(1, OpenOk));
    assert s.adders == [Finished, Deciding] && s.fdOpened == {0, 1};
    events, s := Extend(hasPipe, events, s, Adding(1, Enqueue));
    assert s.adders == [Finished, Waking] && s.g.pending == [1];
  }

  // A hard failure can strand a child: it clears running_ without looking at
  // pending_, so the second child waits for another add() or the destructor.
  lemma HardFailureStrands(hasPipe: bool) returns (events: seq<Event>)
    ensures IsRun(hasPipe, events)
    ensures var s := After(hasPipe, events);
      s.hardFailed && s.g == Guarded([1], false, false) && AllFinished(s) && !LoopHolds(s) && !AdderHolds(s.adders)
  {
    var s;
    events, s := SecondChildQueued(hasPipe);
    events, s := Extend(hasPipe, events, s, Adding(1, Wake));
    assert s.adders == [Finished, Finished];
    events, s := Extend(hasPipe, events, s, Looping(0, PollFails));
    events, s := Extend(hasPipe, events, s, Looping(0, ClearAfterFailure));
    assert s.loops == [Loop(Orphaning, [0], [])];
    events, s := Extend(hasPipe, events, s, Looping(0, DetachOrphans));
    assert s.loops == [Loop(Done, [], [])];
  }

  // In every run, a hard failure leaves a queued child with nobody in charge of it
  // exactly when one is queued as running_ is cleared.
  lemma FailureStrandsWhatIsQueued(hasPipe: bool, events: seq<Event>, l: nat)
    requires IsRun(hasPipe, events) && LoopEnabled(After(hasPipe, events), l, ClearAfterFailure)
    ensures var s := LoopApply(After(hasPipe, events), l, ClearAfterFailure);
      (s.g.pending != [] && !AdderHolds(s.adders) && !LoopHolds(s)) <==> After(hasPipe, events).g.pending != []
  {
    var events', s' := Extend(hasPipe, events, After(hasPipe, events), Looping(l, ClearAfterFailure));
    OneLoop(hasPipe, events', 0, 0);
  }

  // ... and the next add() puts someone in charge again, unless the reaper is being
  // destroyed, failed polls or not.
  lemma NextAddRecovers(hasPipe: bool, events: seq<Event>, i: nat)
    requires IsRun(hasPipe, events) && AddEnabled(After(hasPipe, events), i, Enqueue)
    requires !After(hasPipe, events).g.stopping
    ensures var s := AddApply(After(hasPipe, events), i, Enqueue);
      i in s.g.pending && (AdderHolds(s.adders) || LoopHolds(s))
  {
    var events', s' := Extend(hasPipe, events, After(hasPipe, events), Adding(i, Enqueue));
    OneLoop(hasPipe, events', 0, 0);
  }

  // ── The destructor ──────────────────────────────────────────────────────

  ghost predicate AllFinished(s: State) {
    forall i :: 0 <= i < |s.adders| ==> s.adders[i].Finished?
  }

  // The contract of the destructor: no add() in flight when it starts, and none
  // afterwards.
  ghost predicate Respects(s: State, e: Event) {
    && (e == Destroying(DtorStop) ==> AllFinished(s))
    && (e.BeginAdd? ==> s.dtor.Alive?)
  }

  ghost predicate IsScopedRun(hasPipe: bool, events: seq<Event>) {
    && IsRun(hasPipe, events)
    && (events != [] ==>
          && IsScopedRun(hasPipe, events[..|events| - 1])
          && Respects(After(hasPipe, events[..|events| - 1]), events[|events| - 1]))
  }

  ghost predicate DtorOk(s: State) {
    && (!s.dtor.Alive? ==> AllFinished(s) && s.g.stopping)
    && (s.dtor.DSwapping? || s.dtor.DReaping? || s.dtor.Destroyed? ==> s.handle.None? && !Live(s))
    && (s.dtor.DReaping? || s.dtor.Destroyed? ==> s.g.pending == [])
    && (s.dtor.Destroyed? ==> s.leftover == [])
  }

  // A loop leaves thread_ and the stop request alone, and never queues.
  lemma LoopStepFrame(s: State, l: nat, e: LoopEvent)
    requires LoopEnabled(s, l, e)
    ensures var s' := LoopApply(s, l, e);
      s'.handle == s.handle && s'.g.stopping == s.g.stopping && (s.g.pending == [] ==> s'.g.pending == [])
  {
  }

  lemma LoopStepDtorOk(s: State, l: nat, e: LoopEvent)
    requires HandleOk(s) && DtorOk(s) && LoopEnabled(s, l, e)
    ensures DtorOk(LoopApply(s, l, e))
  {
    OnlyNewest(s, l);
    LoopFrame(s, l, e);
    LoopStepFrame(s, l, e);
  }

  lemma DtorStepDtorOk(s: State, e: DtorEvent)
    requires HandleOk(s) && LockOk(s) && DtorOk(s) && DtorEnabled(s, e)
    requires e.DtorStop? ==> AllFinished(s)
    ensures DtorOk(DtorApply(s, e))
  {
    if e.DtorJoin? {
      JoinedIsDone(s);
    }
  }

  // Once the join is ready no loop is alive: no caller is about to install one.
  lemma JoinedIsDone(s: State)
    requires HandleOk(s) && LockOk(s) && s.dtor.DJoining? && Joinable(s)
    ensures !Live(s)
  {
    assert s.threadMu.ByDtor?;
  }

  lemma DtorStepOk(s: State, e: Event)
    requires Inv(s) && DtorOk(s) && Enabled(s, e) && Respects(s, e)
    ensures DtorOk(Apply(s, e))
  {
    match e
    case BeginAdd =>
    case Adding(i, add) => assert s.dtor.Alive?;
    case Looping(l, loop) => LoopStepDtorOk(s, l, loop);
    case WaiterReaps(w) =>
    case Destroying(dtor) => DtorStepDtorOk(s, dtor);
  }

  lemma {:induction false} DestructorPhases(hasPipe: bool, events: seq<Event>)
    requires IsScopedRun(hasPipe, events)
    ensures DtorOk(After(hasPipe, events))
  {
    if events != [] {
      var init := events[..|events| - 1];
      LastStep(hasPipe, events);
      Safety(hasPipe, init);
      DestructorPhases(hasPipe, init);
      DtorStepOk(After(hasPipe, init), events[|events| - 1]);
    }
  }

  // The destructor never joins a loop that sleeps through the stop request.
  lemma DestructorWakesTheLoop(events: seq<Event>)
    requires IsScopedRun(true, events)
    requires After(true, events).dtor.DJoining? && Live(After(true, events)) && Newest(After(true, events)).pc.Polling?
    ensures var s := After(true, events);
      LoopEnabled(s, |s.loops| - 1, PollReturns(WakeOnly(Newest(s).fds)))
  {
    DestructorPhases(true, events);
    NobodyOwesAWake(After(true, events));
    NoLostWakeUp(events);
  }

  lemma NobodyOwesAWake(s: State)
    requires AllFinished(s)
    ensures forall i :: !(0 <= i < |s.adders| && (AddEnabled(s, i, Assign) || AddEnabled(s, i, Wake)))
  {
  }

  // ── How long the join takes ─────────────────────────────────────────────

  // The steps a loop has left once a stop is requested, the waits for its children
  // among them.
  function LoopStepsLeft(s: State, loop: Loop): nat {
    var held := |loop.watched| + |s.g.pending|;
    match loop.pc
    case Polling => s.pipe + held + 5
    case Draining => s.pipe + held + 4
    case Reaping => held + 3
    case Taking => held + 2
    case Failed => 2
    case Orphaning => 1
    case Tail => |loop.watched| + 1
    case Done => 0
  }

  function StepsLeft(s: State): nat {
    if s.loops == [] then 0 else LoopStepsLeft(s, Newest(s))
  }

  lemma {:induction false} SweepKeepsFewer(watched: seq<nat>, fds: seq<PollFd<nat>>, offset: nat, outcome: seq<WaitOutcome>, n: nat)
    requires |fds| == |watched| + offset && |outcome| == |watched| && n <= |watched|
    ensures |SweepTo(watched, fds, offset, outcome, n).kept| <= n
  {
    if n > 0 {
      SweepKeepsFewer(watched, fds, offset, outcome, n - 1);
    }
  }

  // Every step of a loop uses one up, failed and interrupted polls included.
  lemma LoopStepCounts(s: State, l: nat, e: LoopEvent)
    requires HandleOk(s) && s.g.stopping && LoopEnabled(s, l, e)
    ensures StepsLeft(LoopApply(s, l, e)) < StepsLeft(s)
  {
    OnlyNewest(s, l);
    if e.Reap? {
      SweepKeepsFewer(s.loops[l].watched, s.loops[l].fds, Offset(s.hasPipe), e.outcome, |s.loops[l].watched|);
    }
  }

  // The destructor's own wake-up is one byte more to drain.
  function Budget(s: State): nat {
    StepsLeft(s) + if s.dtor.DWaking? then 1 else 0
  }

  lemma DtorStepCounts(s: State, e: DtorEvent)
    requires s.g.stopping && !s.dtor.Alive? && DtorEnabled(s, e)
    ensures Budget(DtorApply(s, e)) <= Budget(s)
  {
  }

  lemma StepCounts(s: State, e: Event)
    requires HandleOk(s) && DtorOk(s) && !s.dtor.Alive? && Enabled(s, e) && Respects(s, e)
    ensures !Apply(s, e).dtor.Alive?
    ensures Budget(Apply(s, e)) + (if e.Looping? then 1 else 0) <= Budget(s)
  {
    match e
    case BeginAdd =>
    case Adding(_, _) =>
    case Looping(l, loop) =>
      LoopStepCounts(s, l, loop);
      LoopFrame(s, l, loop);
    case WaiterReaps(w) =>
    case Destroying(dtor) => DtorStepCounts(s, dtor);
  }

  // The loop steps after the first n events.
  function LoopSteps(events: seq<Event>, n: nat): nat {
    if |events| <= n then 0
    else LoopSteps(events[..|events| - 1], n) + if events[|events| - 1].Looping? then 1 else 0
  }

  lemma LastStepCounts(hasPipe: bool, events: seq<Event>)
    requires IsScopedRun(hasPipe, events) && events != []
    requires !After(hasPipe, events[..|events| - 1]).dtor.Alive?
    ensures var s, s' := After(hasPipe, events[..|events| - 1]), After(hasPipe, events);
      !s'.dtor.Alive? && Budget(s') + (if events[|events| - 1].Looping? then 1 else 0) <= Budget(s)
  {
    var init := events[..|events| - 1];
    LastStep(hasPipe, events);
    Safety(hasPipe, init);
    DestructorPhases(hasPipe, init);
    StepCounts(After(hasPipe, init), events[|events| - 1]);
  }

  // In every run, from the stop request on, which is among its first n events, and
  // whatever else happens: the loop the destructor joins takes at most Budget more
  // steps. It drains what is in the pipe, lets go of what it has not taken, and waits
  // once for each child it holds.
  lemma {:induction false} JoinIsBounded(hasPipe: bool, events: seq<Event>, n: nat)
    requires IsScopedRun(hasPipe, events) && n <= |events|
    requires IsRun(hasPipe, events[..n]) && !After(hasPipe, events[..n]).dtor.Alive?
    ensures !After(hasPipe, events).dtor.Alive?
    ensures LoopSteps(events, n) + Budget(After(hasPipe, events)) <= Budget(After(hasPipe, events[..n]))
    decreases |events|
  {
    if n == |events| {
      assert events[..n] == events;
    } else {
      var init := events[..|events| - 1];
      assert init[..n] == events[..n];
      JoinIsBounded(hasPipe, init, n);
      LastStepCounts(hasPipe, events);
    }
  }

  // ... and with a wake pipe it is never stuck on the way: while the destructor
  // waits in the join, the loop has a step to take.
  lemma JoinProgresses(events: seq<Event>) returns (e: LoopEvent)
    requires IsScopedRun(true, events)
    requires After(true, events).dtor.DJoining? && Live(After(true, events))
    ensures LoopEnabled(After(true, events), |After(true, events).loops| - 1, e)
  {
    var s := After(true, events);
    var loop := Newest(s);
    PollSets(true, events);
    assert LoopFdsOk(loop, true);
    match loop.pc
    case Polling =>
      DestructorWakesTheLoop(events);
      e := PollReturns(WakeOnly(loop.fds));
    case Draining => e := Drain;
    case Reaping => e := Reap(seq(|loop.watched|, _ => Collected));
    case Taking => e := Take;
    case Failed => e := ClearAfterFailure;
    case Orphaning => e := DetachOrphans;
    case Tail => e := if loop.watched == [] then TailExit else TailReap;
    case Done =>
  }

  // When the destructor returns no thread uses the reaper, and every child ever
  // added has been reaped or is held by one detached waiter; each pidfd ever opened
  // was closed exactly once, or is held by one waiter that will close it.
  lemma DestructorLeavesNothing(hasPipe: bool, events: seq<Event>, t: nat)
    requires IsScopedRun(hasPipe, events) && After(hasPipe, events).dtor.Destroyed?
    requires t < |After(hasPipe, events).adders|
    ensures var s := After(hasPipe, events);
      && s.handle.None? && !Live(s) && AllFinished(s)
      && Count(s.reaped, t) + Waiting(s.waiters, t) == 1
      && WaitingWithFd(s.waiters, t) + Count(s.closed, t) == if t in s.fdOpened then 1 else 0
  {
    NothingIsLeft(hasPipe, events);
    NothingIsWatched(hasPipe, events);
    Conservation(hasPipe, events, t);
    NothingElseHolds(After(hasPipe, events), t);
  }

  lemma NothingIsLeft(hasPipe: bool, events: seq<Event>)
    requires IsScopedRun(hasPipe, events) && After(hasPipe, events).dtor.Destroyed?
    ensures var s := After(hasPipe, events);
      s.handle.None? && !Live(s) && AllFinished(s) && s.g.pending == [] && s.leftover == []
  {
    DestructorPhases(hasPipe, events);
  }

  lemma NothingIsWatched(hasPipe: bool, events: seq<Event>)
    requires IsRun(hasPipe, events) && !Live(After(hasPipe, events))
    ensures var s := After(hasPipe, events); forall l :: 0 <= l < |s.loops| ==> s.loops[l].watched == []
  {
    Safety(hasPipe, events);
    IdleLoops(After(hasPipe, events));
  }

  lemma IdleLoops(s: State)
    requires HandleOk(s) && TailOk(s) && !Live(s)
    ensures forall l :: 0 <= l < |s.loops| ==> s.loops[l].watched == []
  {
    forall l | 0 <= l < |s.loops| ensures s.loops[l].pc.Done? {
      if l == |s.loops| - 1 {
        assert Newest(s) == s.loops[l];
      }
    }
  }

  lemma NothingElseHolds(s: State, t: nat)
    requires s.g.pending == [] && s.leftover == [] && AllFinished(s)
    requires forall l :: 0 <= l < |s.loops| ==> s.loops[l].watched == []
    ensures Owners(s, t) == Waiting(s.waiters, t) + Count(s.reaped, t)
    ensures FdHolders(s, t) == WaitingWithFd(s.waiters, t)
  {
    NobodyWatches(s.loops, t);
  }

  lemma {:induction false} NobodyWatches(loops: seq<Loop>, t: nat)
    requires forall l :: 0 <= l < |loops| ==> loops[l].watched == []
    ensures Watching(loops, t) == 0
  {
    if loops != [] {
      NobodyWatches(loops[..|loops| - 1], t);
    }
  }
}

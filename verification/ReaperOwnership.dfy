/** Conservation of children: in every reachable state each child handed to
    add() has exactly one owner, and each pidfd is closed at most once and never
    while it is still owned. */
module ReaperOwnership {

  import opened ChildReaper
  import opened Counting
  import opened ReaperProtocol

  // ── Where a ticket can be ───────────────────────────────────────────────

  function Watching(loops: seq<Loop>, t: nat): nat {
    if loops == [] then 0
    else Watching(loops[..|loops| - 1], t) + Count(loops[|loops| - 1].watched, t)
  }

  function Waiting(waiters: seq<Waiter>, t: nat): nat {
    if waiters == [] then 0
    else Waiting(waiters[..|waiters| - 1], t) + Count(waiters[|waiters| - 1].jobs, t)
  }

  // Only the waiters that were also given the pidfd.
  function WaitingWithFd(waiters: seq<Waiter>, t: nat): nat {
    if waiters == [] then 0
    else
      WaitingWithFd(waiters[..|waiters| - 1], t)
      + if waiters[|waiters| - 1].hasFd then Count(waiters[|waiters| - 1].jobs, t) else 0
  }

  function Registering(s: State, t: nat): nat {
    if t < |s.adders| && (s.adders[t].Opening? || s.adders[t].Deciding?) then 1 else 0
  }

  function RegisteringWithFd(s: State, t: nat): nat {
    if t < |s.adders| && s.adders[t].Deciding? then 1 else 0
  }

  // How many owners ticket t has: the add() call still registering it,
  // pending_, a loop, a detached waiter, the destructor, or the kernel's record
  // of a finished wait.
  function Owners(s: State, t: nat): nat {
    Registering(s, t) + Count(s.g.pending, t) + Watching(s.loops, t) + Waiting(s.waiters, t)
    + Count(s.leftover, t) + Count(s.reaped, t)
  }

  // How many of them still hold ticket t's open pidfd.
  function FdHolders(s: State, t: nat): nat {
    RegisteringWithFd(s, t) + Count(s.g.pending, t) + Watching(s.loops, t) + WaitingWithFd(s.waiters, t)
    + Count(s.leftover, t)
  }

  // ── Sums over threads ───────────────────────────────────────────────────

  lemma WatchingSnoc(loops: seq<Loop>, loop: Loop, t: nat)
    ensures Watching(loops + [loop], t) == Watching(loops, t) + Count(loop.watched, t)
  {
    assert (loops + [loop])[..|loops|] == loops;
  }

  lemma {:induction false} WatchingUpdate(loops: seq<Loop>, l: nat, loop: Loop, t: nat)
    requires l < |loops|
    ensures Watching(loops[l := loop], t) + Count(loops[l].watched, t) == Watching(loops, t) + Count(loop.watched, t)
  {
    var n := |loops| - 1;
    if l == n {
      assert loops[l := loop][..n] == loops[..n];
    } else {
      assert loops[l := loop][..n] == loops[..n][l := loop];
      WatchingUpdate(loops[..n], l, loop, t);
    }
  }

  lemma WaitingSnoc(waiters: seq<Waiter>, w: Waiter, t: nat)
    ensures Waiting(waiters + [w], t) == Waiting(waiters, t) + Count(w.jobs, t)
    ensures WaitingWithFd(waiters + [w], t) == WaitingWithFd(waiters, t) + if w.hasFd then Count(w.jobs, t) else 0
  {
    assert (waiters + [w])[..|waiters|] == waiters;
  }

  lemma {:induction false} WaitingUpdate(waiters: seq<Waiter>, w: nat, jobs: seq<nat>, t: nat)
    requires w < |waiters|
    ensures var updated := waiters[w := waiters[w].(jobs := jobs)];
      && Waiting(updated, t) + Count(waiters[w].jobs, t) == Waiting(waiters, t) + Count(jobs, t)
      && WaitingWithFd(updated, t) + (if waiters[w].hasFd then Count(waiters[w].jobs, t) else 0)
         == WaitingWithFd(waiters, t) + if waiters[w].hasFd then Count(jobs, t) else 0
  {
    var n := |waiters| - 1;
    var updated := waiters[w := waiters[w].(jobs := jobs)];
    if w == n {
      assert updated[..n] == waiters[..n];
    } else {
      assert updated[..n] == waiters[..n][w := waiters[..n][w].(jobs := jobs)];
      WaitingUpdate(waiters[..n], w, jobs, t);
    }
  }

  lemma CountOne(x: nat, t: nat)
    ensures Count([x], t) == if x == t then 1 else 0
  {
    assert [x] == [] + [x];
    CountSnoc([], x, t);
  }

  lemma {:induction false} WaitingOrphans(waiters: seq<Waiter>, orphans: seq<nat>, t: nat)
    ensures Waiting(waiters + OrphanWaiters(orphans), t) == Waiting(waiters, t) + Count(orphans, t)
    ensures WaitingWithFd(waiters + OrphanWaiters(orphans), t) == WaitingWithFd(waiters, t)
  {
    if orphans == [] {
      assert waiters + OrphanWaiters(orphans) == waiters;
    } else {
      var init, last := orphans[..|orphans| - 1], orphans[|orphans| - 1];
      var some, w := waiters + OrphanWaiters(init), Waiter([last], false);
      assert waiters + OrphanWaiters(orphans) == some + [w];
      assert orphans == init + [last];
      WaitingOrphans(waiters, init, t);
      WaitingSnoc(some, w, t);
      CountOne(last, t);
      CountSnoc(init, last, t);
    }
  }

  // ── One step ────────────────────────────────────────────────────────────

  // s' differs from s in ticket t's accounts by the given number of owners and
  // of opened pidfds.
  ghost predicate Balanced(s: State, s': State, t: nat, owners: nat, opens: nat) {
    && Owners(s', t) == Owners(s, t) + owners
    && FdHolders(s', t) + Count(s'.closed, t) == FdHolders(s, t) + Count(s.closed, t) + opens
  }

  lemma AdderLeaves(s: State, s': State, i: nat, pc: AdderPc, t: nat)
    requires i < |s.adders| && s'.adders == s.adders[i := pc] && !pc.Opening? && !pc.Deciding?
    ensures Registering(s', t) == if t == i then 0 else Registering(s, t)
    ensures RegisteringWithFd(s', t) == if t == i then 0 else RegisteringWithFd(s, t)
  {
  }

  lemma OpenFailBalanced(s: State, i: nat, t: nat)
    requires i < |s.adders| && s.adders[i].Opening?
    ensures Balanced(s, OpenFailStep(s, i), t, 0, 0)
  {
    var s' := OpenFailStep(s, i);
    assert s' == s.(adders := s.adders[i := Finished], waiters := s.waiters + [Waiter([i], false)]);
    AdderLeaves(s, s', i, Finished, t);
    CountOne(i, t);
    WaitingSnoc(s.waiters, Waiter([i], false), t);
  }

  // The child leaves its add() call for a waiter that closes its pidfd.
  lemma EnqueueDetachedBalanced(s: State, i: nat, t: nat)
    requires i < |s.adders| && s.adders[i].Deciding? && s.g.stopping
    ensures Balanced(s, EnqueueStep(s, i), t, 0, 0)
  {
    var s' := EnqueueStep(s, i);
    assert s' == s.(adders := s.adders[i := Finished], waiters := s.waiters + [Waiter([i], true)]);
    AdderLeaves(s, s', i, Finished, t);
    CountOne(i, t);
    WaitingSnoc(s.waiters, Waiter([i], true), t);
  }

  lemma EnqueueQueuedBalanced(s: State, i: nat, t: nat)
    requires i < |s.adders| && s.adders[i].Deciding? && !s.g.stopping
    ensures Balanced(s, EnqueueStep(s, i), t, 0, 0)
  {
    var s' := EnqueueStep(s, i);
    var pc := if s.g.running then Waking else Starting;
    assert s' == s.(adders := s.adders[i := pc], g := AddLeaves(s.g, i));
    AdderLeaves(s, s', i, pc, t);
    CountSnoc(s.g.pending, i, t);
  }

  lemma SpawnBalanced(s: State, i: nat, t: nat)
    requires i < |s.adders| && s.adders[i].Spawning?
    ensures Balanced(s, SpawnStep(s, i), t, 0, 0)
  {
    WatchingSnoc(s.loops, Loop(Taking, [], []), t);
  }

  lemma SameWatchedBalanced(s: State, l: nat, loop: Loop, t: nat)
    requires l < |s.loops| && loop.watched == s.loops[l].watched
    ensures Balanced(s, SetLoop(s, l, loop), t, 0, 0)
  {
    WatchingUpdate(s.loops, l, loop, t);
  }

  lemma DetachOrphansBalanced(s: State, l: nat, t: nat)
    requires l < |s.loops|
    ensures Balanced(s, DetachOrphansStep(s, l), t, 0, 0)
  {
    WatchingUpdate(s.loops, l, Loop(Done, [], []), t);
    WaitingSnoc(s.waiters, Waiter(s.loops[l].watched, true), t);
  }

  lemma TakeBalanced(s: State, l: nat, t: nat)
    requires l < |s.loops|
    ensures Balanced(s, TakeStep(s, l), t, 0, 0)
  {
    CountConcat(s.loops[l].watched, s.g.pending, t);
    WatchingUpdate(s.loops, l, TakeStep(s, l).loops[l], t);
  }

  lemma SweepCounts(watched: seq<nat>, fds: seq<PollFd<nat>>, offset: nat, outcome: seq<WaitOutcome>, t: nat)
    requires |fds| == |watched| + offset && |outcome| == |watched|
    ensures var sweep := SweepAll(watched, fds, offset, outcome);
      && Count(sweep.kept, t) + Count(sweep.reaped, t) + Count(sweep.orphans, t) == Count(watched, t)
      && Count(sweep.kept, t) + Count(sweep.closed, t) == Count(watched, t)
  {
    SweepConserves(watched, fds, offset, outcome, |watched|, t);
    assert watched[..|watched|] == watched;
  }

  lemma ReapBalanced(s: State, l: nat, outcome: seq<WaitOutcome>, t: nat)
    requires ReapFits(s, l, outcome)
    ensures Balanced(s, ReapStep(s, l, outcome), t, 0, 0)
  {
    var watched := s.loops[l].watched;
    var sweep := SweepAll(watched, s.loops[l].fds, Offset(s.hasPipe), outcome);
    SweepCounts(watched, s.loops[l].fds, Offset(s.hasPipe), outcome, t);
    WatchingUpdate(s.loops, l, Loop(Taking, sweep.kept, []), t);
    WaitingOrphans(s.waiters, sweep.orphans, t);
    CountConcat(s.reaped, sweep.reaped, t);
    CountConcat(s.closed, sweep.closed, t);
  }

  lemma TailReapBalanced(s: State, l: nat, t: nat)
    requires l < |s.loops| && s.loops[l].watched != []
    ensures Balanced(s, TailReapStep(s, l), t, 0, 0)
  {
    var queue := s.loops[l].watched;
    CountTail(queue, t);
    CountSnoc(s.reaped, queue[0], t);
    CountSnoc(s.closed, queue[0], t);
    WatchingUpdate(s.loops, l, s.loops[l].(watched := queue[1..]), t);
  }

  lemma WaiterBalanced(s: State, w: nat, t: nat)
    requires w < |s.waiters| && s.waiters[w].jobs != []
    ensures Balanced(s, WaiterStep(s, w), t, 0, 0)
  {
    var queue := s.waiters[w].jobs;
    CountTail(queue, t);
    CountSnoc(s.reaped, queue[0], t);
    CountSnoc(s.closed, queue[0], t);
    WaitingUpdate(s.waiters, w, queue[1..], t);
  }

  lemma DtorSwapBalanced(s: State, t: nat)
    requires s.leftover == []
    ensures Balanced(s, DtorSwapStep(s), t, 0, 0)
  {
  }

  lemma DtorReapBalanced(s: State, t: nat)
    requires s.leftover != []
    ensures Balanced(s, DtorReapStep(s), t, 0, 0)
  {
    CountTail(s.leftover, t);
    CountSnoc(s.reaped, s.leftover[0], t);
    CountSnoc(s.closed, s.leftover[0], t);
  }

  lemma OpenOkBalanced(s: State, i: nat, t: nat)
    requires i < |s.adders| && s.adders[i].Opening?
    ensures Balanced(s, OpenOkStep(s, i), t, 0, if t == i then 1 else 0)
  {
    var s' := OpenOkStep(s, i);
    assert s' == s.(adders := s.adders[i := Deciding], fdOpened := s.fdOpened + {i});
  }

  // Locking, joining, assigning and waking change nobody's children.
  lemma QuietAddBalanced(s: State, i: nat, e: AddEvent, t: nat)
    requires AddEnabled(s, i, e) && (e.LockThread? || e.JoinOld? || e.Assign? || e.Wake?)
    ensures Balanced(s, AddApply(s, i, e), t, 0, 0)
  {
    var s' := AddApply(s, i, e);
    assert s' == s.(adders := s'.adders, handle := s'.handle, threadMu := s'.threadMu, terminated := s'.terminated,
                    pipe := s'.pipe);
    AdderLeaves(s, s', i, s'.adders[i], t);
  }

  lemma AddBalanced(s: State, i: nat, e: AddEvent, t: nat)
    requires AddEnabled(s, i, e)
    ensures Balanced(s, AddApply(s, i, e), t, 0, if e.OpenOk? && t == i then 1 else 0)
  {
    match e
    case OpenFail => OpenFailBalanced(s, i, t);
    case Enqueue =>
      if s.g.stopping {
        EnqueueDetachedBalanced(s, i, t);
      } else {
        EnqueueQueuedBalanced(s, i, t);
      }
    case Spawn => SpawnBalanced(s, i, t);
    case OpenOk => OpenOkBalanced(s, i, t);
    case _ => QuietAddBalanced(s, i, e, t);
  }

  // A poll and its failure change nobody's children.
  lemma QuietLoopBalanced(s: State, l: nat, e: LoopEvent, t: nat)
    requires LoopEnabled(s, l, e) && e.Take? == e.DetachOrphans? == e.Drain? == e.Reap? == e.TailReap? == false
    ensures Balanced(s, LoopApply(s, l, e), t, 0, 0)
  {
    var s' := LoopApply(s, l, e);
    assert s' == SetLoop(s, l, s'.loops[l]).(g := s'.g, hardFailed := s'.hardFailed);
    assert s'.g.pending == s.g.pending;
    SameWatchedBalanced(s, l, s'.loops[l], t);
  }

  lemma LoopBalanced(s: State, l: nat, e: LoopEvent, t: nat)
    requires LoopEnabled(s, l, e)
    ensures Balanced(s, LoopApply(s, l, e), t, 0, 0)
  {
    match e
    case Take => TakeBalanced(s, l, t);
    case DetachOrphans => DetachOrphansBalanced(s, l, t);
    case Drain => SameWatchedBalanced(s, l, s.loops[l].(pc := Reaping), t);
    case Reap(outcome) => ReapBalanced(s, l, outcome, t);
    case TailReap => TailReapBalanced(s, l, t);
    case _ => QuietLoopBalanced(s, l, e, t);
  }

  lemma DtorBalanced(s: State, e: DtorEvent, t: nat)
    requires DtorEnabled(s, e) && (s.leftover == [] || s.dtor.DReaping?)
    ensures Balanced(s, DtorApply(s, e), t, 0, 0)
  {
    match e
    case DtorSwap => DtorSwapBalanced(s, t);
    case DtorReap => DtorReapBalanced(s, t);
    case _ =>
  }

  function OwnersAdded(s: State, e: Event, t: nat): nat {
    if e.BeginAdd? && t == |s.adders| then 1 else 0
  }

  function PidfdsAdded(e: Event, t: nat): nat {
    if e == Adding(t, OpenOk) then 1 else 0
  }

  // BeginAdd opens the account of the new ticket, OpenOk lends it a pidfd, and
  // every other step only moves things.
  lemma StepBalanced(s: State, e: Event, t: nat)
    requires Enabled(s, e) && (s.leftover == [] || s.dtor.DReaping?)
    ensures Balanced(s, Apply(s, e), t, OwnersAdded(s, e, t), PidfdsAdded(e, t))
  {
    match e
    case BeginAdd =>
    case Adding(i, add) => AddBalanced(s, i, add, t);
    case Looping(l, loop) => LoopBalanced(s, l, loop, t);
    case WaiterReaps(w) => WaiterBalanced(s, w, t);
    case Destroying(dtor) => DtorBalanced(s, dtor, t);
  }

  // ── Whole runs ──────────────────────────────────────────────────────────

  // The leftovers are the destructor's own; a ticket is not lent a pidfd
  // before its add() call opens one.
  ghost predicate Tidy(s: State, t: nat) {
    && (s.leftover == [] || s.dtor.DReaping?)
    && (t in s.fdOpened ==> t < |s.adders| && !s.adders[t].Opening?)
  }

  lemma AddTidy(s: State, i: nat, e: AddEvent, t: nat)
    requires Tidy(s, t) && AddEnabled(s, i, e)
    ensures Tidy(AddApply(s, i, e), t)
    ensures t in AddApply(s, i, e).fdOpened <==> t in s.fdOpened || (e.OpenOk? && t == i)
    ensures |AddApply(s, i, e).adders| == |s.adders|
  {
  }

  lemma LoopFrame(s: State, l: nat, e: LoopEvent)
    requires LoopEnabled(s, l, e)
    ensures var s' := LoopApply(s, l, e);
      s'.adders == s.adders && s'.fdOpened == s.fdOpened && s'.dtor == s.dtor && s'.leftover == s.leftover
  {
  }

  lemma DtorTidy(s: State, e: DtorEvent)
    requires DtorEnabled(s, e) && (s.leftover == [] || s.dtor.DReaping?)
    ensures var s' := DtorApply(s, e);
      s'.adders == s.adders && s'.fdOpened == s.fdOpened && (s'.leftover == [] || s'.dtor.DReaping?)
  {
  }

  lemma StepTidy(s: State, e: Event, t: nat)
    requires Tidy(s, t) && Enabled(s, e)
    ensures var s' := Apply(s, e);
      && Tidy(s', t) && |s'.adders| == |s.adders| + (if e.BeginAdd? then 1 else 0)
      && (t in s'.fdOpened <==> t in s.fdOpened || e == Adding(t, OpenOk))
  {
    match e
    case BeginAdd =>
    case Adding(i, add) => AddTidy(s, i, add, t);
    case Looping(l, loop) => LoopFrame(s, l, loop);
    case WaiterReaps(w) =>
    case Destroying(dtor) => DtorTidy(s, dtor);
  }

  // Conservation: exactly one owner for each add() made, none for any other
  // number; and an opened pidfd is held by exactly one owner until it is closed,
  // which happens once.
  lemma {:induction false} Conservation(hasPipe: bool, events: seq<Event>, t: nat)
    requires IsRun(hasPipe, events)
    ensures var s := After(hasPipe, events);
      && Tidy(s, t)
      && Owners(s, t) == (if t < |s.adders| then 1 else 0)
      && FdHolders(s, t) + Count(s.closed, t) == (if t in s.fdOpened then 1 else 0)
  {
    if events != [] {
      LastStep(hasPipe, events);
      var init, e := events[..|events| - 1], events[|events| - 1];
      Conservation(hasPipe, init, t);
      StepTidy(After(hasPipe, init), e, t);
      StepBalanced(After(hasPipe, init), e, t);
    }
  }
}

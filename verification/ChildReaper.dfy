/** The code of ChildReaper that runs under mu_, and the in-place sweep of
    reap_signalled. The thread protocol around it is in ReaperProtocol.dfy.

    A child is a value of type C; the class is used with pid/pidfd pairs, the
    protocol with tickets that number the add() calls. */
module ChildReaper {

  import opened Counting

  // What one poll() slot reported. POLLIN is Readable; any other non-zero
  // revents (POLLERR, POLLHUP, POLLNVAL) is Faulted.
  datatype Revents = Quiet | Readable | Faulted

  datatype PollFd<C> = WakeFd(revents: Revents) | ChildFd(child: C, revents: Revents)

  // waitpid(WNOHANG) after its EINTR retries: 0, or anything else (the child
  // was collected, or the kernel says it is not ours to collect).
  datatype WaitOutcome = Collected | StillRunning

  datatype Child = Child(pid: int, pidfd: int)

  // ── The fields guarded by mu_ ───────────────────────────────────────────

  datatype Guarded<C> = Guarded(pending: seq<C>, running: bool, stopping: bool)

  datatype AddDecision = DetachWaiter | StartLoop | JustWake

  // The locked section of add(): what it decides, and what it leaves behind.
  function AddDecides<C>(g: Guarded<C>): AddDecision {
    if g.stopping then DetachWaiter else if g.running then JustWake else StartLoop
  }

  function AddLeaves<C>(g: Guarded<C>, child: C): Guarded<C> {
    if g.stopping then g else g.(pending := g.pending + [child], running := true)
  }

  // take_pending: everything queued joins the watched children, and the loop
  // goes on unless it is stopping or has nothing to watch.
  function TakeProceeds<C>(g: Guarded<C>, watched: seq<C>): bool {
    !g.stopping && watched + g.pending != []
  }

  function TakeLeaves<C>(g: Guarded<C>, watched: seq<C>): Guarded<C> {
    g.(pending := [], running := g.running && TakeProceeds(g, watched))
  }

  // The destructor's two sections: the stop request, and the swap of what is queued
  // with an empty vector.
  function StopLeaves<C>(g: Guarded<C>): Guarded<C> {
    g.(stopping := true)
  }

  function SwapLeaves<C>(g: Guarded<C>): Guarded<C> {
    g.(pending := [])
  }

  // ── reap_signalled ──────────────────────────────────────────────────────

  datatype Sweep<C> = Sweep(kept: seq<C>, reaped: seq<C>, orphans: seq<C>, closed: seq<C>)

  // The poll set loop() builds: the wake pipe first, when there is one.
  function BuildFds<C>(watched: seq<C>, hasPipe: bool): (fds: seq<PollFd<C>>)
    ensures |fds| == |watched| + Offset(hasPipe)
    ensures forall i :: 0 <= i < |watched| ==> fds[i + Offset(hasPipe)] == ChildFd(watched[i], Quiet)
  {
    (if hasPipe then [WakeFd(Quiet)] else []) + seq(|watched|, i requires 0 <= i < |watched| => ChildFd(watched[i], Quiet))
  }

  function Offset(hasPipe: bool): nat { if hasPipe then 1 else 0 }

  // What poll() hands back: the same slots with their revents filled in.
  predicate PolledFrom<C(==)>(before: seq<PollFd<C>>, after: seq<PollFd<C>>) {
    && |before| == |after|
    && forall i :: 0 <= i < |before| ==> after[i] == before[i].(revents := after[i].revents)
  }

  function SweepOne<C>(s: Sweep<C>, c: C, revents: Revents, outcome: WaitOutcome): Sweep<C> {
    if revents == Quiet then s.(kept := s.kept + [c])
    else if outcome == StillRunning then s.(orphans := s.orphans + [c], closed := s.closed + [c])
    else s.(reaped := s.reaped + [c], closed := s.closed + [c])
  }

  // The state of the sweep after the first n children.
  function SweepTo<C>(watched: seq<C>, fds: seq<PollFd<C>>, offset: nat, outcome: seq<WaitOutcome>, n: nat): Sweep<C>
    requires |fds| == |watched| + offset && |outcome| == |watched| && n <= |watched|
  {
    if n == 0 then Sweep([], [], [], [])
    else
      SweepOne(SweepTo(watched, fds, offset, outcome, n - 1), watched[n - 1], fds[n - 1 + offset].revents, outcome[n - 1])
  }

  function SweepAll<C>(watched: seq<C>, fds: seq<PollFd<C>>, offset: nat, outcome: seq<WaitOutcome>): Sweep<C>
    requires |fds| == |watched| + offset && |outcome| == |watched|
  {
    SweepTo(watched, fds, offset, outcome, |watched|)
  }

  // A child is let go of when it is reaped or handed to a waiter.
  ghost predicate Accounts<C>(s: Sweep<C>, handled: seq<C>, c: C) {
    && Count(s.kept, c) + Count(s.reaped, c) + Count(s.orphans, c) == Count(handled, c)
    && Count(s.closed, c) == Count(s.reaped, c) + Count(s.orphans, c)
  }

  lemma SweepOneAccounts<C>(s: Sweep<C>, handled: seq<C>, next: C, revents: Revents, outcome: WaitOutcome, c: C)
    requires Accounts(s, handled, c)
    ensures Accounts(SweepOne(s, next, revents, outcome), handled + [next], c)
  {
    CountSnoc(handled, next, c);
    CountSnoc(s.kept, next, c);
    CountSnoc(s.reaped, next, c);
    CountSnoc(s.orphans, next, c);
    CountSnoc(s.closed, next, c);
  }

  // Nothing is lost or duplicated: every child is kept, reaped or handed to a
  // waiter, and the closed pidfds are exactly those of the children let go.
  lemma {:induction false} SweepConserves<C>(watched: seq<C>, fds: seq<PollFd<C>>, offset: nat, outcome: seq<WaitOutcome>, n: nat, c: C)
    requires |fds| == |watched| + offset && |outcome| == |watched| && n <= |watched|
    ensures Accounts(SweepTo(watched, fds, offset, outcome, n), watched[..n], c)
  {
    if n > 0 {
      var s, handled := SweepTo(watched, fds, offset, outcome, n - 1), watched[..n - 1];
      assert SweepTo(watched, fds, offset, outcome, n) == SweepOne(s, watched[n - 1], fds[n - 1 + offset].revents, outcome[n - 1]);
      assert watched[..n] == handled + [watched[n - 1]];
      SweepConserves(watched, fds, offset, outcome, n - 1, c);
      SweepOneAccounts(s, handled, watched[n - 1], fds[n - 1 + offset].revents, outcome[n - 1], c);
    }
  }

  // pos lists indices below n in increasing order, and xs holds the children there.
  ghost predicate Selects<C>(xs: seq<C>, pos: seq<nat>, watched: seq<C>, n: nat)
    requires n <= |watched|
  {
    && |pos| == |xs|
    && (forall k :: 0 <= k < |pos| ==> pos[k] < n && xs[k] == watched[pos[k]])
    && (forall j, k :: 0 <= j < k < |pos| ==> pos[j] < pos[k])
  }

  lemma SelectsOneMore<C>(xs: seq<C>, pos: seq<nat>, watched: seq<C>, n: nat) returns (extended: seq<nat>)
    requires 0 < n <= |watched| && Selects(xs, pos, watched, n - 1)
    ensures Selects(xs + [watched[n - 1]], extended, watched, n)
    ensures forall i: nat :: i in extended <==> i in pos || i == n - 1
  {
    extended := pos + [n - 1];
    assert extended[|pos|] == n - 1;
  }

  // A sweep sorts the children it looks at, each list in the original order: kept are
  // those whose poll slot stayed quiet, orphaned the others that a wait found still
  // running, reaped the rest; and it closes the pidfds of all it does not keep.
  lemma {:induction false} SweepIsStableFilter<C>(watched: seq<C>, fds: seq<PollFd<C>>, offset: nat, outcome: seq<WaitOutcome>, n: nat)
    returns (kept: seq<nat>, reaped: seq<nat>, orphans: seq<nat>, closed: seq<nat>)
    requires |fds| == |watched| + offset && |outcome| == |watched| && n <= |watched|
    ensures var s := SweepTo(watched, fds, offset, outcome, n);
      && Selects(s.kept, kept, watched, n) && Selects(s.reaped, reaped, watched, n)
      && Selects(s.orphans, orphans, watched, n) && Selects(s.closed, closed, watched, n)
    ensures forall i: nat :: i < n ==>
      && (i in kept <==> fds[i + offset].revents == Quiet)
      && (i in reaped <==> fds[i + offset].revents != Quiet && outcome[i] != StillRunning)
      && (i in orphans <==> fds[i + offset].revents != Quiet && outcome[i] == StillRunning)
      && (i in closed <==> fds[i + offset].revents != Quiet)
  {
    if n == 0 {
      kept, reaped, orphans, closed := [], [], [], [];
    } else {
      kept, reaped, orphans, closed := SweepIsStableFilter(watched, fds, offset, outcome, n - 1);
      var s := SweepTo(watched, fds, offset, outcome, n - 1);
      assert SweepTo(watched, fds, offset, outcome, n)
          == SweepOne(s, watched[n - 1], fds[n - 1 + offset].revents, outcome[n - 1]);
      if fds[n - 1 + offset].revents == Quiet {
        kept := SelectsOneMore(s.kept, kept, watched, n);
      } else {
        closed := SelectsOneMore(s.closed, closed, watched, n);
        if outcome[n - 1] == StillRunning {
          orphans := SelectsOneMore(s.orphans, orphans, watched, n);
        } else {
          reaped := SelectsOneMore(s.reaped, reaped, watched, n);
        }
      }
    }
  }

  // The slot the sweep consults for child i is child i's own pidfd.
  ghost predicate OwnSlots<C>(watched: seq<C>, fds: seq<PollFd<C>>, offset: nat) {
    && |fds| == |watched| + offset
    && forall i :: 0 <= i < |watched| ==> fds[i + offset] == ChildFd(watched[i], fds[i + offset].revents)
  }

  lemma PolledSlotsAreOwn<C>(watched: seq<C>, hasPipe: bool, fds: seq<PollFd<C>>)
    requires PolledFrom(BuildFds(watched, hasPipe), fds)
    ensures OwnSlots(watched, fds, Offset(hasPipe))
  {
    var built := BuildFds(watched, hasPipe);
    forall i | 0 <= i < |watched|
      ensures fds[i + Offset(hasPipe)] == ChildFd(watched[i], fds[i + Offset(hasPipe)].revents)
    {
      assert built[i + Offset(hasPipe)] == ChildFd(watched[i], Quiet);
      assert fds[i + Offset(hasPipe)] == built[i + Offset(hasPipe)].(revents := fds[i + Offset(hasPipe)].revents);
    }
  }

  class Reaper {
    var pending: seq<Child>
    var running: bool
    var stopping: bool

    constructor ()
      ensures State() == Guarded([], false, false)
    {
      pending, running, stopping := [], false, false;
    }

    function State(): Guarded<Child>
      reads this
    {
      Guarded(pending, running, stopping)
    }

    method Add(child: Child) returns (decision: AddDecision)
      modifies this
      ensures decision == AddDecides(old(State())) && State() == AddLeaves(old(State()), child)
      ensures decision.DetachWaiter? <==> old(stopping)
      ensures decision.StartLoop? <==> !old(stopping) && !old(running)
      ensures pending == if old(stopping) then old(pending) else old(pending) + [child]
      ensures running == (old(running) || !old(stopping)) && stopping == old(stopping)
    {
      if stopping {
        return DetachWaiter;
      }
      pending := pending + [child];
      decision := JustWake;
      if !running {
        running := true;
        decision := StartLoop;
      }
    }

    method TakePending(watched: seq<Child>) returns (all: seq<Child>, proceed: bool)
      modifies this
      ensures all == watched + old(pending) && proceed == TakeProceeds(old(State()), watched)
      ensures State() == TakeLeaves(old(State()), watched)
      ensures proceed <==> !old(stopping) && all != []
      ensures pending == [] && running == (old(running) && proceed) && stopping == old(stopping)
    {
      all := watched + pending;
      pending := [];
      if stopping || |all| == 0 {
        running := false;
        return all, false;
      }
      return all, true;
    }

    // The locked section at the head of the destructor.
    method RequestStop()
      modifies this
      ensures State() == StopLeaves(old(State())) && State() == old(State()).(stopping := true)
    {
      stopping := true;
    }

    // leftover.swap(pending_) in the destructor.
    method SwapLeftover() returns (leftover: seq<Child>)
      modifies this
      ensures leftover == old(pending) && State() == SwapLeaves(old(State())) && State() == old(State()).(pending := [])
    {
      leftover, pending := pending, [];
    }

    // Compacts the children still running to the front of watched, in place;
    // kept is the new size of the vector.
    static method ReapSignalled(watched: array<Child>, fds: seq<PollFd<Child>>, offset: nat, outcome: seq<WaitOutcome>)
      returns (kept: nat, reaped: seq<Child>, orphans: seq<Child>, closed: seq<Child>)
      requires |fds| == watched.Length + offset && |outcome| == watched.Length
      modifies watched
      ensures kept <= watched.Length
      ensures Sweep(watched[..kept], reaped, orphans, closed) == SweepAll(old(watched[..]), fds, offset, outcome)
    {
      kept, reaped, orphans, closed := 0, [], [], [];
      var i := 0;
      while i < watched.Length
        invariant kept <= i <= watched.Length
        invariant forall j :: i <= j < watched.Length ==> watched[j] == old(watched[j])
        invariant Sweep(watched[..kept], reaped, orphans, closed) == SweepTo(old(watched[..]), fds, offset, outcome, i)
      {
        if fds[i + offset].revents == Quiet {
          ghost var front := watched[..kept];
          watched[kept] := watched[i];
          kept := kept + 1;
          assert watched[..kept] == front + [old(watched[i])];
        } else {
          if outcome[i] == StillRunning {
            orphans := orphans + [watched[i]];
          } else {
            reaped := reaped + [watched[i]];
          }
          closed := closed + [watched[i]];
        }
        i := i + 1;
      }
    }
  }
}

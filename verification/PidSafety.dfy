/** signal_instance_process over a pidfd, in every interleaving with processes that
    exit and pids that are handed out again. */
module PidSafety {

  import opened Wrappers

  // ── Processes ───────────────────────────────────────────────────────────

  datatype Proc = Proc(uid: nat, start: nat)

  datatype Holder = Holder(pid: nat, proc: Proc)

  // table holds the processes that are alive or not yet reaped, held every process
  // that ever had a pid, exited those that are over.
  datatype World = World(table: map<nat, Proc>, held: set<Holder>, exited: set<Proc>, next: nat)

  datatype Sig = SIGTERM | SIGKILL

  datatype Sent = Sent(sig: Sig, proc: Proc)

  // ── The call ────────────────────────────────────────────────────────────

  datatype Pc =
    | ReadBefore     // read_start_time, the first time
    | Open           // pidfd_open
    | ReadAfter      // read_start_time again, when the first one worked
    | Term           // pidfd_send_signal(SIGTERM)
    | Poll           // stop_escalate_thread: poll until the grace period is over
    | Kill           // pidfd_send_signal(SIGKILL)
    | Close          // close(pidfd)
    | Done
    | NoPidfd        // pidfd_open failed; about to fall back or give up
    | FellBack

  // owner: who had the pid when the start time was first asked for. pinned: whom
  // the pidfd stands for. timedOut: poll has returned 0. opens and closes count the
  // pidfd's. result: what signal_instance_process returns, once that is settled.
  datatype State = State(
    w: World, pid: nat, pc: Pc, owner: Option<Proc>, startBefore: Option<nat>, pinned: Option<Proc>,
    log: seq<Sent>, timedOut: bool, opens: nat, closes: nat, result: Option<bool>)

  datatype Event =
    | Spawn(newPid: nat, start: nat)
    | Exit(oldPid: nat)
    | Reap(gone: nat)
    | Call(ok: bool)          // the call's next step, and whether it works
    | PollReturns(timeout: bool)
    | Interrupted             // poll fails with EINTR and is called again

  function At(w: World, pid: nat): Option<Proc> {
    if pid in w.table then Some(w.table[pid]) else None
  }

  // A recycled pid always comes with a start time that none of its earlier holders
  // had. What a call reads or opens must be there; a signal through a pidfd needs
  // its process not to have been reaped; poll returns 0 only while it runs.
  ghost predicate Enabled(s: State, e: Event) {
    match e
    case Spawn(pid, start) => pid !in s.w.table && forall h :: h in s.w.held && h.pid == pid ==> h.proc.start != start
    case Exit(pid) => pid in s.w.table
    case Reap(pid) => pid in s.w.table && s.w.table[pid] in s.w.exited
    case Call(ok) =>
      (match s.pc
       case ReadBefore => ok ==> s.pid in s.w.table
       case Open => ok ==> s.pid in s.w.table
       case ReadAfter => ok ==> s.pid in s.w.table
       case Term => ok ==> At(s.w, s.pid) == s.pinned
       case Kill => ok ==> At(s.w, s.pid) == s.pinned
       case Close => true
       case NoPidfd => true
       case _ => false)
    case PollReturns(timeout) =>
      s.pc == Poll && s.pinned.Some? && (timeout ==> s.pinned.value !in s.w.exited)
    case Interrupted => s.pc == Poll
  }

  ghost function Kernel(w: World, e: Event): World {
    match e
    case Spawn(pid, start) =>
      var p := Proc(w.next, start);
      w.(table := w.table[pid := p], held := w.held + {Holder(pid, p)}, next := w.next + 1)
    case Exit(pid) => if pid in w.table then w.(exited := w.exited + {w.table[pid]}) else w
    case Reap(pid) => w.(table := w.table - {pid})
    case _ => w
  }

  ghost function Step(s: State, ok: bool): State {
    var here := At(s.w, s.pid);
    match s.pc
    case ReadBefore =>
      s.(pc := Open, owner := here, startBefore := if ok && here.Some? then Some(here.value.start) else None)
    case Open =>
      if !ok || here.None? then s.(pc := NoPidfd)
      else s.(pc := if s.startBefore.Some? then ReadAfter else Term, pinned := here, opens := s.opens + 1)
    case ReadAfter =>
      if ok && here.Some? && Some(here.value.start) == s.startBefore then s.(pc := Term)
      else s.(pc := Close, result := Some(false))
    case Term =>
      if ok && s.pinned.Some? then
        s.(pc := Poll, log := s.log + [Sent(SIGTERM, s.pinned.value)], result := Some(true))
      else s.(pc := Close, result := Some(false))
    case Kill =>
      s.(pc := Close, log := if ok && s.pinned.Some? then s.log + [Sent(SIGKILL, s.pinned.value)] else s.log)
    case Close => s.(pc := Done, closes := s.closes + 1)
    case NoPidfd => s.(pc := FellBack, result := Some(ok))
    case _ => s
  }

  ghost function Apply(s: State, e: Event): State {
    match e
    case Call(ok) => Step(s, ok)
    case PollReturns(timeout) => if timeout then s.(pc := Kill, timedOut := true) else s.(pc := Close)
    case Interrupted => s
    case _ => s.(w := Kernel(s.w, e))
  }

  ghost predicate Initial(s: State) {
    && WorldOk(s.w)
    && s.pc == ReadBefore && s.owner == None && s.startBefore == None && s.pinned == None && s.log == []
    && !s.timedOut && s.opens == 0 && s.closes == 0 && s.result == None
  }

  ghost function Exec(s: State, events: seq<Event>): Option<State>
    decreases |events|
  {
    if events == [] then Some(s)
    else if Enabled(s, events[0]) then Exec(Apply(s, events[0]), events[1..])
    else None
  }

  // ── Invariant ───────────────────────────────────────────────────────────

  // One pid never sees one start time twice.
  ghost predicate WorldOk(w: World) {
    && (forall p :: p in w.table ==> Holder(p, w.table[p]) in w.held)
    && (forall h :: h in w.held ==> h.proc.uid < w.next)
    && (forall g, h :: g in w.held && h in w.held && g.pid == h.pid && g.proc.start == h.proc.start ==> g == h)
  }

  // Once the start time was read, the pinned process is its owner, or the owner
  // has lost the pid for good.
  ghost predicate PinOk(s: State) {
    && (s.owner.Some? ==> Holder(s.pid, s.owner.value) in s.w.held)
    && (s.startBefore.Some? ==> s.owner.Some? && s.startBefore == Some(s.owner.value.start))
    && (s.pc == ReadBefore ==> s.owner.None? && s.startBefore.None?)
    && (s.pinned.None? <==> s.pc in {ReadBefore, Open, NoPidfd, FellBack})
    && (s.startBefore.Some? && s.pinned.Some? && s.pinned != s.owner ==> At(s.w, s.pid) != s.owner)
    && (s.startBefore.Some? && s.pc in {Term, Poll, Kill} ==> s.pinned == s.owner)
  }

  // What has been sent: nothing, a SIGTERM, or a SIGTERM and then, after the grace
  // period, a SIGKILL, all to the pinned process, and with a start time in hand to
  // the owner.
  ghost predicate LogOk(s: State) {
    && (s.pc in {ReadBefore, Open, ReadAfter, Term, NoPidfd, FellBack} ==> s.log == [])
    && (s.result.None? <==> s.pc in {ReadBefore, Open, ReadAfter, Term, NoPidfd})
    && (s.pinned.Some? ==> (s.result == Some(true) <==> s.log != []))
    && (s.pc in {Poll, Kill} ==> s.pinned.Some? && s.log == [Sent(SIGTERM, s.pinned.value)])
    && (s.pc == Kill ==> s.timedOut)
    && (s.pc in {Close, Done} ==> s.log == [] || Stopped(s))
    && (s.startBefore.Some? && s.log != [] ==> s.pinned == s.owner)
  }

  ghost predicate Stopped(s: State) {
    && s.pinned.Some?
    && (|| s.log == [Sent(SIGTERM, s.pinned.value)]
        || (s.timedOut && s.log == [Sent(SIGTERM, s.pinned.value), Sent(SIGKILL, s.pinned.value)]))
  }

  // The pidfd is open between open and close, and closed once.
  ghost predicate FdOk(s: State) {
    && s.opens == (if s.pinned.Some? then 1 else 0)
    && s.closes == (if s.pc == Done then 1 else 0)
  }

  ghost predicate Inv(s: State) {
    WorldOk(s.w) && PinOk(s) && LogOk(s) && FdOk(s)
  }

  lemma KernelKeepsWorld(s: State, e: Event)
    requires Inv(s) && Enabled(s, e) && !e.Call?
    ensures WorldOk(Kernel(s.w, e)) && s.w.held <= Kernel(s.w, e).held
    ensures s.owner.Some? && At(s.w, s.pid) != s.owner ==> At(Kernel(s.w, e), s.pid) != s.owner
  {
  }

  lemma StepKeepsInv(s: State, ok: bool)
    requires Inv(s) && Enabled(s, Call(ok))
    ensures Inv(Step(s, ok))
  {
    if s.pc == ReadAfter && Step(s, ok).pc == Term {
      assert Holder(s.pid, s.w.table[s.pid]) in s.w.held && Holder(s.pid, s.owner.value) in s.w.held;
      assert At(s.w, s.pid) == s.owner;
    }
  }

  lemma EventKeepsInv(s: State, e: Event)
    requires Inv(s) && Enabled(s, e)
    ensures Inv(Apply(s, e))
  {
    if e.Call? {
      StepKeepsInv(s, e.ok);
    } else {
      KernelKeepsWorld(s, e);
    }
  }

  lemma {:induction false} RunKeepsInv(s: State, events: seq<Event>)
    requires Inv(s) && Exec(s, events).Some?
    ensures Inv(Exec(s, events).value)
    decreases |events|
  {
    if events != [] {
      EventKeepsInv(s, events[0]);
      RunKeepsInv(Apply(s, events[0]), events[1..]);
    }
  }

  // ── Theorems ────────────────────────────────────────────────────────────

  // In every run: with the start time read, no signal reaches any process but the
  // one that had the pid at that read; without it, all go to the one process that
  // had the pid at pidfd_open. At most one SIGTERM is sent, a SIGKILL only after it
  // and after the grace period ran out, and the pidfd is closed once, at the end. By
  // way of the pidfd the call returns true exactly when its SIGTERM was sent.
  lemma PidReuseSafety(s: State, events: seq<Event>)
    requires Initial(s) && Exec(s, events).Some?
    ensures var t := Exec(s, events).value;
      && (t.startBefore.Some? ==> forall i :: 0 <= i < |t.log| ==> Some(t.log[i].proc) == t.owner)
      && (forall i :: 0 <= i < |t.log| ==> Some(t.log[i].proc) == t.pinned)
      && |t.log| <= 2 && (|t.log| > 0 ==> t.log[0].sig == SIGTERM)
      && (|t.log| == 2 ==> t.log[1].sig == SIGKILL && t.timedOut)
      && t.closes <= t.opens <= 1 && (t.pc == Done ==> t.closes == t.opens)
      && (t.pinned.Some? ==> (t.result == Some(true) <==> |t.log| > 0))
  {
    RunKeepsInv(s, events);
  }

  // Every call works, and the process named by the pid when its start time was read
  // is not reaped before it was signalled.
  ghost predicate Undisturbed(s: State, events: seq<Event>)
    decreases |events|
  {
    events != [] ==>
      && Enabled(s, events[0]) && events[0] != Call(false)
      && (events[0] == Reap(s.pid) ==> s.pc !in {Open, ReadAfter, Term})
      && Undisturbed(Apply(s, events[0]), events[1..])
  }

  // What has been sent when nothing went wrong.
  ghost predicate OnTrack(s: State) {
    && (s.pc in {Open, ReadAfter, Term} ==>
          s.owner.Some? && At(s.w, s.pid) == s.owner && s.startBefore == Some(s.owner.value.start))
    && (s.pc in {ReadAfter, Term} ==> s.pinned == s.owner)
    && s.pc !in {NoPidfd, FellBack}
    && (s.pc in {Poll, Kill, Close, Done} ==>
          && s.owner.Some? && s.pinned == s.owner && s.result == Some(true)
          && s.log == if s.timedOut && s.pc != Kill then [Sent(SIGTERM, s.owner.value), Sent(SIGKILL, s.owner.value)]
                      else [Sent(SIGTERM, s.owner.value)])
    && (s.pc in {ReadBefore, Open, ReadAfter, Term} ==> s.log == [])
    && (s.pc in {ReadBefore, Open, ReadAfter, Term, Poll} ==> !s.timedOut) && (s.pc == Kill ==> s.timedOut)
  }

  lemma EventStaysOnTrack(s: State, e: Event)
    requires OnTrack(s) && Enabled(s, e) && e != Call(false)
    requires e == Reap(s.pid) ==> s.pc !in {Open, ReadAfter, Term}
    ensures OnTrack(Apply(s, e))
  {
    if e.Call? && s.pc in {Term, Kill} {
      var sig := if s.pc == Term then SIGTERM else SIGKILL;
      assert Apply(s, e).log == s.log + [Sent(sig, s.owner.value)];
    }
  }

  lemma {:induction false} RunStaysOnTrack(s: State, events: seq<Event>)
    requires OnTrack(s) && Undisturbed(s, events)
    ensures Exec(s, events).Some? && OnTrack(Exec(s, events).value)
    decreases |events|
  {
    if events != [] {
      EventStaysOnTrack(s, events[0]);
      RunStaysOnTrack(Apply(s, events[0]), events[1..]);
    }
  }

  // In every run that nothing disturbs, the call does what it is for: when it is over
  // the process has been sent a SIGTERM, a SIGKILL too exactly when the grace period
  // ran out, and the call has returned true.
  lemma OwnerIsStopped(s: State, events: seq<Event>)
    requires Initial(s) && Undisturbed(s, events)
    ensures Exec(s, events).Some?
    ensures var t := Exec(s, events).value;
      t.pc == Done ==>
        && t.result == Some(true) && t.owner.Some?
        && t.log == if t.timedOut then [Sent(SIGTERM, t.owner.value), Sent(SIGKILL, t.owner.value)]
                    else [Sent(SIGTERM, t.owner.value)]
  {
    RunStaysOnTrack(s, events);
  }

  // ... and there is such a run whenever the pid is somebody's: four calls send the
  // SIGTERM, and three more steps the SIGKILL if the process is still running.
  lemma FourCallsSignal(s: State)
    requires Initial(s) && s.pid in s.w.table
    ensures var t := Exec(s, [Call(true), Call(true), Call(true), Call(true)]);
      && t.Some? && t.value.log == [Sent(SIGTERM, s.w.table[s.pid])] && t.value.result == Some(true)
      && t.value.pc == Poll && t.value.w == s.w && t.value.pid == s.pid && t.value.pinned == Some(s.w.table[s.pid])
  {
    var open := Apply(s, Call(true));
    var again := Apply(open, Call(true));
    var term := Apply(again, Call(true));
    Then(term, Call(true), []);
    Then(again, Call(true), [Call(true)]);
    Then(open, Call(true), [Call(true)] + [Call(true)]);
    Then(s, Call(true), [Call(true)] + ([Call(true)] + [Call(true)]));
    assert Exec(Apply(term, Call(true)), []) == Some(Apply(term, Call(true)));
    assert [Call(true)] + ([Call(true)] + ([Call(true)] + [Call(true)])) == [Call(true), Call(true), Call(true), Call(true)];
  }

  lemma ThreeStepsKill(s: State, p: Proc)
    requires s.pc == Poll && s.pinned == Some(p) && At(s.w, s.pid) == Some(p) && p !in s.w.exited
    ensures var t := Exec(s, [PollReturns(true), Call(true), Call(true)]);
      t.Some? && t.value.log == s.log + [Sent(SIGKILL, p)] && t.value.pc == Done && t.value.result == s.result
  {
    var kill := Apply(s, PollReturns(true));
    var close := Apply(kill, Call(true));
    Then(close, Call(true), []);
    Then(kill, Call(true), [Call(true)]);
    Then(s, PollReturns(true), [Call(true)] + [Call(true)]);
    assert Exec(Apply(close, Call(true)), []) == Some(Apply(close, Call(true)));
    assert [PollReturns(true)] + ([Call(true)] + [Call(true)]) == [PollReturns(true), Call(true), Call(true)];
  }

  ghost predicate ReachesOwner(s: State) {
    forall i :: 0 <= i < |s.log| ==> Some(s.log[i].proc) == s.owner
  }

  // The start time is what makes the difference. Once the call has asked for it,
  // no later run can signal a stranger exactly when it was read: otherwise the pid
  // may be recycled before pidfd_open.
  lemma SafeExactlyWithStartTime(s: State)
    requires Inv(s) && s.pc == Open && s.owner.Some? && At(s.w, s.pid) == s.owner
    ensures (forall events :: Exec(s, events).Some? ==> ReachesOwner(Exec(s, events).value)) <==> s.startBefore.Some?
  {
    if s.startBefore.Some? {
      forall events | Exec(s, events).Some? ensures ReachesOwner(Exec(s, events).value) {
        RunKeepsInv(s, events);
        StartTimeStays(s, events);
      }
    } else {
      var events := Recycle(s);
      assert !ReachesOwner(Exec(s, events).value);
    }
  }

  lemma {:induction false} StartTimeStays(s: State, events: seq<Event>)
    requires s.pc != ReadBefore && Exec(s, events).Some?
    ensures Exec(s, events).value.startBefore == s.startBefore
    decreases |events|
  {
    if events != [] {
      StartTimeStays(Apply(s, events[0]), events[1..]);
    }
  }

  lemma {:induction false} UnusedStart(held: set<Holder>) returns (n: nat)
    ensures forall h :: h in held ==> h.proc.start < n
  {
    n := 0;
    if held != {} {
      var g :| g in held;
      var m := UnusedStart(held - {g});
      n := if m > g.proc.start then m else g.proc.start + 1;
    }
  }

  // The owner exits and is reaped, its pid goes to another process, and the call
  // opens and signals that one.
  lemma Recycle(s: State) returns (events: seq<Event>)
    requires Inv(s) && s.pc == Open && s.owner.Some? && At(s.w, s.pid) == s.owner && s.startBefore.None?
    ensures Exec(s, events).Some? && !ReachesOwner(Exec(s, events).value)
  {
    var n := UnusedStart(s.w.held);
    var freed := FreePid(s);
    var taken := Apply(freed, Spawn(s.pid, n));
    var stranger := Proc(s.w.next, n);
    var signal := [Call(true), Call(true)];
    StrangerIsSignalled(taken, stranger);
    Then(freed, Spawn(s.pid, n), signal);
    Then(Apply(s, Exit(s.pid)), Reap(s.pid), [Spawn(s.pid, n)] + signal);
    Then(s, Exit(s.pid), [Reap(s.pid)] + ([Spawn(s.pid, n)] + signal));
    events := [Exit(s.pid)] + ([Reap(s.pid)] + ([Spawn(s.pid, n)] + signal));
    assert Holder(s.pid, s.owner.value) in s.w.held && s.owner.value.uid < stranger.uid;
    var t := Exec(s, events).value;
    assert t.log[0].proc == stranger && t.owner == s.owner;
  }

  lemma FreePid(s: State) returns (freed: State)
    requires s.pid in s.w.table
    ensures Enabled(s, Exit(s.pid)) && Enabled(Apply(s, Exit(s.pid)), Reap(s.pid))
    ensures freed == Apply(Apply(s, Exit(s.pid)), Reap(s.pid))
    ensures freed == s.(w := freed.w) && s.pid !in freed.w.table
    ensures freed.w.held == s.w.held && freed.w.next == s.w.next
  {
    freed := Apply(Apply(s, Exit(s.pid)), Reap(s.pid));
  }

  lemma StrangerIsSignalled(s: State, stranger: Proc)
    requires s.pc == Open && s.startBefore.None? && s.log == [] && At(s.w, s.pid) == Some(stranger)
    ensures var t := Exec(s, [Call(true), Call(true)]);
      t.Some? && t.value.owner == s.owner && t.value.log == [Sent(SIGTERM, stranger)]
  {
    var pinned := Apply(s, Call(true));
    Then(pinned, Call(true), []);
    Then(s, Call(true), [Call(true)]);
    assert Exec(Apply(pinned, Call(true)), []) == Some(Apply(pinned, Call(true)));
    assert [Call(true)] + [Call(true)] == [Call(true), Call(true)];
  }

  lemma Then(s: State, e: Event, later: seq<Event>)
    requires Enabled(s, e)
    ensures Exec(s, [e] + later) == Exec(Apply(s, e), later)
  {
    assert ([e] + later)[1..] == later;
  }
}

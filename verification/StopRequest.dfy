/** Stopping an app: which processes are signalled, and what the caller hears. */
module StopRequest {

  import opened WireTypes
  import opened Frames
  import opened Delivery
  import opened Wrappers

  import PidSafety

  // An instance as enumerated, and what signal_instance_process returns for its
  // target.
  datatype Instance = Instance(app: Text, running: bool, childPid: int, pid: int, reached: bool)

  // The sandboxed process if it is known, else the outer one.
  function TargetOf(i: Instance): int {
    if i.childPid > 0 then i.childPid else i.pid
  }

  predicate Matches(i: Instance, appId: Text) {
    i.app == appId && i.running
  }

  predicate Signalled(i: Instance, appId: Text) {
    Matches(i, appId) && TargetOf(i) > 0 && i.reached
  }

  // The two messages of stop. Like every C string they hold no NUL.
  datatype Messages = Messages(noRunning: Text, notSignalled: Text) {
    predicate Plain() {
      0 !in noRunning && |noRunning| < MAX_LENGTH && 0 !in notSignalled && |notSignalled| < MAX_LENGTH
    }
  }

  const MESSAGES := Messages(
    Ascii("no running instance for app_id"), Ascii("matched running instance(s) but could not signal any"))

  datatype StopReply = Stopped | NothingRunning | NoneSignalled

  // What the instances call for; a failed enumeration is an empty one.
  ghost predicate ReplyIs(all: seq<Instance>, appId: Text, r: StopReply) {
    && (r == NothingRunning <==> forall i :: 0 <= i < |all| ==> !Matches(all[i], appId))
    && (r == Stopped <==> exists i :: 0 <= i < |all| && Signalled(all[i], appId))
  }

  function StopFrame(r: StopReply, say: Messages): Frame {
    match r
    case Stopped => [0xFF]
    case NothingRunning => ErrorFrame(0x02, say.noRunning)
    case NoneSignalled => ErrorFrame(0x03, say.notSignalled)
  }

  // The pids signal_instance_process is called with, in order.
  function Targets(all: seq<Instance>, appId: Text): seq<int> {
    if all == [] then []
    else
      var most, last := all[..|all| - 1], all[|all| - 1];
      Targets(most, appId) + if Matches(last, appId) && TargetOf(last) > 0 then [TargetOf(last)] else []
  }

  // Every running instance of the app with a pid to signal, and no other process.
  lemma {:induction false} TargetsExactly(all: seq<Instance>, appId: Text, pid: int)
    ensures pid in Targets(all, appId) <==>
            pid > 0 && exists i :: && 0 <= i < |all| && all[i].app == appId && all[i].running
                                   && pid == if all[i].childPid > 0 then all[i].childPid else all[i].pid
  {
    if all != [] {
      var most := all[..|all| - 1];
      TargetsExactly(most, appId, pid);
      assert all == most + [all[|all| - 1]];
    }
  }

  // The loop of InstallationReader::stop.
  method SignalAll(all: seq<Instance>, appId: Text) returns (matched: nat, signalled: nat, targets: seq<int>)
    ensures matched > 0 <==> exists k :: 0 <= k < |all| && all[k].app == appId && all[k].running
    ensures signalled > 0 <==> exists k ::
      0 <= k < |all| && all[k].app == appId && all[k].running && (all[k].childPid > 0 || all[k].pid > 0) && all[k].reached
    ensures targets == Targets(all, appId)
  {
    matched, signalled, targets := 0, 0, [];
    for i := 0 to |all|
      invariant matched > 0 <==> exists k :: 0 <= k < i && Matches(all[k], appId)
      invariant signalled > 0 <==> exists k :: 0 <= k < i && Signalled(all[k], appId)
      invariant targets == Targets(all[..i], appId)
    {
      var inst := all[i];
      assert all[..i + 1][..i] == all[..i];
      if inst.app != appId {
        continue;
      }
      if !inst.running {
        continue;
      }
      matched := matched + 1;
      assert Matches(all[i], appId);
      var target := inst.childPid;
      if target <= 0 {
        target := inst.pid;
      }
      if target <= 0 {
        continue;
      }
      targets := targets + [target];
      if inst.reached {
        assert Signalled(all[i], appId);
        signalled := signalled + 1;
      }
    }
    assert all[..|all|] == all;
  }

  method Stop(port: Port, instances: Option<seq<Instance>>, appId: Text, say: Messages)
    returns (r: StopReply, targets: seq<int>)
    modifies port
    ensures ReplyIs(if instances.Some? then instances.value else [], appId, r)
    ensures port.frames == old(port.frames) + [StopFrame(r, say)]
    ensures targets == Targets(if instances.Some? then instances.value else [], appId)
  {
    var matched, signalled;
    matched, signalled, targets := SignalAll(if instances.Some? then instances.value else [], appId);
    if matched == 0 {
      port.PostFramedError(0x02, say.noRunning);
      return NothingRunning, targets;
    }
    if signalled == 0 {
      port.PostFramedError(0x03, say.notSignalled);
      return NoneSignalled, targets;
    }
    port.PostSentinel();
    r := Stopped;
  }

  // What a frame says about a stop that is still pending.
  function StopOutcome(msg: Frame): Outcome<()> {
    if msg == [] then Pending
    else if msg[0] == 0x02 then Error(NotFoundException, ErrorText(msg, 1))
    else if msg[0] == 0x03 then Error(StopException, ErrorText(msg, 1))
    else if msg[0] == 0xFF then Value(())
    else Pending
  }

  class StopListener {
    const completer: Completer<()>
    var isOpen: bool

    constructor ()
      ensures fresh(completer) && completer.outcome == Pending && isOpen
    {
      isOpen := true;
      completer := new Completer();
    }

    method OnMessage(msg: Frame)
      modifies this, completer
      ensures completer.outcome ==
        if old(isOpen) && old(completer.outcome).Pending? then StopOutcome(msg) else old(completer.outcome)
    {
      if !isOpen || msg == [] {
        return;
      }
      match msg[0]
      case 0x02 =>
        if completer.outcome.Pending? {
          completer.CompleteError(NotFoundException, ErrorText(msg, 1));
        }
        isOpen := false;
      case 0x03 =>
        if completer.outcome.Pending? {
          completer.CompleteError(StopException, ErrorText(msg, 1));
        }
        isOpen := false;
      case 0xFF =>
        if completer.outcome.Pending? {
          completer.Complete(());
        }
        isOpen := false;
      case _ =>
    }
  }

  function StopAnswer(r: StopReply, say: Messages): Outcome<()> {
    match r
    case Stopped => Value(())
    case NothingRunning => Error(NotFoundException, say.noRunning)
    case NoneSignalled => Error(StopException, say.notSignalled)
  }

  method StopAppSaying(instances: Option<seq<Instance>>, appId: Text, say: Messages)
    returns (r: StopReply, outcome: Outcome<()>)
    requires say.Plain()
    ensures ReplyIs(if instances.Some? then instances.value else [], appId, r)
    ensures outcome == StopAnswer(r, say)
  {
    var port := new Port();
    var targets;
    r, targets := Stop(port, instances, appId, say);
    var l := new StopListener();
    l.OnMessage(port.frames[0]);
    Whole(0x02, say.noRunning);
    Whole(0x03, say.notSignalled);
    outcome := l.completer.outcome;
  }

  // FlatpakInstallation.stop, both sides: it completes when some running instance
  // of the app was signalled, and otherwise says, word for word, whether there was
  // none or none could be reached.
  method StopApp(instances: Option<seq<Instance>>, appId: Text) returns (r: StopReply, outcome: Outcome<()>)
    ensures var all := if instances.Some? then instances.value else [];
      && ReplyIs(all, appId, r)
      && (r == NothingRunning <==> forall i :: 0 <= i < |all| ==> all[i].app != appId || !all[i].running)
      && (r == Stopped <==> exists i ::
            0 <= i < |all| && all[i].app == appId && all[i].running && (all[i].childPid > 0 || all[i].pid > 0) && all[i].reached)
    ensures outcome == StopAnswer(r, MESSAGES)
    ensures r == Stopped ==> outcome == Value(())
    ensures r == NothingRunning ==> outcome == Error(NotFoundException, Ascii("no running instance for app_id"))
    ensures r == NoneSignalled ==>
      outcome == Error(StopException, Ascii("matched running instance(s) but could not signal any"))
  {
    r, outcome := StopAppSaying(instances, appId, MESSAGES);
    ghost var all := if instances.Some? then instances.value else [];
    assert forall i :: 0 <= i < |all| ==> (Matches(all[i], appId) <==> all[i].app == appId && all[i].running);
    assert forall i :: 0 <= i < |all| ==> (Signalled(all[i], appId) <==>
      all[i].app == appId && all[i].running && (all[i].childPid > 0 || all[i].pid > 0) && all[i].reached);
  }

  // ── What a completed stop has done ──────────────────────────────────────

  // t is where some run of signal_instance_process on the pid has got to.
  ghost predicate IsCall(t: PidSafety.State, pid: int) {
    exists s: PidSafety.State, events ::
      PidSafety.Initial(s) && s.pid == pid && PidSafety.Exec(s, events) == Some(t)
  }

  // The SIGTERM of a call that opened a pidfd has been sent to the process it pinned
  // and, with a start time in hand, that is the process the pid belonged to.
  ghost predicate Reached(t: PidSafety.State) {
    && |t.log| > 0 && t.log[0].sig == PidSafety.SIGTERM && Some(t.log[0].proc) == t.pinned
    && (t.startBefore.Some? ==> t.pinned == t.owner)
  }

  // A stop that completes has reached a process of the app: if each reached is what
  // the call on that target returned, then for some running instance the call sent
  // its SIGTERM where it should, or had to do without a pidfd.
  lemma StopReaches(all: seq<Instance>, appId: Text, calls: seq<PidSafety.State>) returns (i: nat)
    requires ReplyIs(all, appId, Stopped) && |calls| == |all|
    requires forall k :: 0 <= k < |all| && Matches(all[k], appId) && TargetOf(all[k]) > 0 ==>
      IsCall(calls[k], TargetOf(all[k])) && all[k].reached == (calls[k].result == Some(true))
    ensures i < |all| && Matches(all[i], appId) && TargetOf(all[i]) > 0
    ensures calls[i].pinned.Some? ==> Reached(calls[i])
  {
    i :| 0 <= i < |all| && Signalled(all[i], appId);
    assert IsCall(calls[i], TargetOf(all[i]));
    var s: PidSafety.State, events :|
      PidSafety.Initial(s) && s.pid == TargetOf(all[i]) && PidSafety.Exec(s, events) == Some(calls[i]);
    PidSafety.PidReuseSafety(s, events);
  }
}

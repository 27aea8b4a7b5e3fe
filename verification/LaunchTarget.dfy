/** launch_impl: which installed ref a launch with optional hints starts, and what
    the caller hears of it. */
module LaunchTarget {

  import opened Bytes
  import opened WireTypes
  import opened DartCodec
  import opened Frames
  import opened Delivery
  import opened Wrappers

  datatype Target = Target(arch: Text, branch: Text)

  datatype Installed = Installed(isApp: bool, name: Text, target: Target)

  // A hint that is not given is None.
  datatype Want = Want(appId: Text, arch: Option<Text>, branch: Option<Text>)

  predicate MeetsHints(t: Target, want: Want) {
    (want.arch.Some? ==> t.arch == want.arch.value) && (want.branch.Some? ==> t.branch == want.branch.value)
  }

  predicate Match(r: Installed, want: Want) {
    r.isApp && r.name == want.appId && MeetsHints(r.target, want)
  }

  predicate DefaultMatch(r: Installed, want: Want, defaultArch: Text) {
    Match(r, want) && r.target.arch == defaultArch
  }

  // refs[k] is the ref to launch: with the arch left open, the first match of the
  // default arch if there is one; otherwise the first match.
  ghost predicate Preferred(refs: seq<Installed>, k: nat, want: Want, defaultArch: Text) {
    && k < |refs| && Match(refs[k], want)
    && if want.arch.None? && exists j :: 0 <= j < |refs| && DefaultMatch(refs[j], want, defaultArch) then
         && DefaultMatch(refs[k], want, defaultArch)
         && forall j :: 0 <= j < k ==> !DefaultMatch(refs[j], want, defaultArch)
       else
         forall j :: 0 <= j < k ==> !Match(refs[j], want)
  }

  lemma PreferredIsUnique(refs: seq<Installed>, j: nat, k: nat, want: Want, defaultArch: Text)
    requires Preferred(refs, j, want, defaultArch) && Preferred(refs, k, want, defaultArch)
    ensures j == k
  {
  }

  // The scan of resolve_launch_target, with its early break.
  method Scan(refs: seq<Installed>, want: Want, defaultArch: Text) returns (found: Option<Target>, ghost chosen: nat)
    ensures found.Some? <==> exists k :: 0 <= k < |refs| && Match(refs[k], want)
    ensures found.Some? ==> Preferred(refs, chosen, want, defaultArch) && found.value == refs[chosen].target
    ensures found.Some? ==> refs[chosen].isApp && refs[chosen].name == want.appId
    ensures found.Some? && want.arch.Some? ==> found.value.arch == want.arch.value
    ensures found.Some? && want.branch.Some? ==> found.value.branch == want.branch.value
    ensures forall k ::
      (&& 0 <= k < |refs| && refs[k].isApp && refs[k].name == want.appId
       && want.arch in {None, Some(refs[k].target.arch)} && want.branch in {None, Some(refs[k].target.branch)})
      ==>
        && found.Some?
        && (k < chosen ==> want.arch.None? && refs[k].target.arch != defaultArch && found.value.arch == defaultArch)
        && (refs[k].target.arch == defaultArch ==> found.value.arch == defaultArch)
  {
    found, chosen := None, 0;
    for i := 0 to |refs|
      invariant found.Some? <==> exists k :: 0 <= k < i && Match(refs[k], want)
      invariant found.Some? ==> chosen < i && Match(refs[chosen], want) && found.value == refs[chosen].target
      invariant found.Some? ==> forall j :: 0 <= j < chosen ==> !Match(refs[j], want)
      invariant forall j :: 0 <= j < i ==> !DefaultMatch(refs[j], want, defaultArch)
    {
      var r := refs[i];
      if !r.isApp {
        continue;
      }
      if r.name != want.appId {
        continue;
      }
      if want.arch.Some? && r.target.arch != want.arch.value {
        continue;
      }
      if want.branch.Some? && r.target.branch != want.branch.value {
        continue;
      }
      assert Match(r, want);
      if found.None? || (want.arch.None? && r.target.arch == defaultArch) {
        found, chosen := Some(r.target), i;
      }
      if r.target.arch == defaultArch {
        assert DefaultMatch(refs[i], want, defaultArch);
        break;
      }
    }
  }

  // What the installation answers: the current app, if any, and the list of its
  // refs or the message of the error that kept it from being read.
  datatype Installation = Installation(current: Option<Target>, refs: Result<seq<Installed>, Option<Text>>, defaultArch: Text)

  const LIST_FAILED := Ascii("failed to list installed refs")

  function ListError(e: Option<Text>): Text {
    if e.Some? then CStr(e.value) else LIST_FAILED
  }

  predicate CurrentMeets(inst: Installation, want: Want) {
    inst.current.Some? && MeetsHints(inst.current.value, want)
  }

  // t is what a launch with these hints is to start.
  ghost predicate IsTarget(inst: Installation, want: Want, t: Target) {
    if CurrentMeets(inst, want) then t == inst.current.value
    else inst.refs.Ok? && exists k ::
      0 <= k < |inst.refs.value| && Preferred(inst.refs.value, k, want, inst.defaultArch) && t == inst.refs.value[k].target
  }

  ghost predicate HasTarget(inst: Installation, want: Want) {
    || CurrentMeets(inst, want)
    || (inst.refs.Ok? && exists k :: 0 <= k < |inst.refs.value| && Match(inst.refs.value[k], want))
  }

  method ResolveLaunchTarget(inst: Installation, want: Want) returns (found: Option<Target>, err: Text)
    ensures found.Some? <==> HasTarget(inst, want)
    ensures found.Some? ==> IsTarget(inst, want, found.value) && MeetsHints(found.value, want)
    ensures err == if CurrentMeets(inst, want) || inst.refs.Ok? then [] else ListError(inst.refs.error)
  {
    err := [];
    if inst.current.Some? {
      var t := inst.current.value;
      var archOk := want.arch.None? || t.arch == want.arch.value;
      var branchOk := want.branch.None? || t.branch == want.branch.value;
      if archOk && branchOk {
        return Some(t), [];
      }
    }
    if inst.refs.Err? {
      return None, ListError(inst.refs.error);
    }
    ghost var chosen;
    found, chosen := Scan(inst.refs.value, want, inst.defaultArch);
  }

  // ── launch_impl ─────────────────────────────────────────────────────────

  // What libflatpak makes of the launch.
  datatype Spawn = NotSpawned(notInstalled: bool, msg: Option<Text>) | Spawned(instance: FpInstance)

  // What the caller is to hear: which launch was tried, or why none was.
  datatype Verdict =
    | NotInstalled
    | Unreadable(msg: Text)
    | Tried(target: Target, commit: Option<Text>)

  function Hint(s: Option<Text>): Option<Text> {
    if s.Some? && CStr(s.value) != [] then Some(CStr(s.value)) else None
  }

  function WantOf(appId: Text, arch: Option<Text>, branch: Option<Text>): Want {
    Want(appId, Hint(arch), Hint(branch))
  }

  // The value is as the argument of a launch asks; one that is None or empty asks for
  // nothing.
  predicate Admits(argument: Option<Text>, value: Text) {
    argument.None? || CStr(argument.value) == [] || value == CStr(argument.value)
  }

  ghost predicate IsVerdict(inst: Installation, want: Want, commit: Option<Text>, v: Verdict) {
    && (v.Tried? <==> BothHints(want) || HasTarget(inst, want))
    && (v.Tried? ==> v.commit == commit && MeetsHints(v.target, want))
    && (v.Tried? && !BothHints(want) ==> IsTarget(inst, want, v.target))
    && (v.Unreadable? <==> !v.Tried? && inst.refs.Err? && ListError(inst.refs.error) != [])
    && (v.Unreadable? ==> v.msg == ListError(inst.refs.error))
  }

  // An installed app of that name, of the arch and branch asked for.
  predicate Suits(r: Installed, appId: Text, arch: Option<Text>, branch: Option<Text>) {
    r.isApp && r.name == appId && Admits(arch, r.target.arch) && Admits(branch, r.target.branch)
  }

  // What is looked for is what the arguments ask for.
  lemma HintsAreTheArguments(r: Installed, appId: Text, arch: Option<Text>, branch: Option<Text>)
    ensures Match(r, WantOf(appId, arch, branch)) <==> Suits(r, appId, arch, branch)
    ensures MeetsHints(r.target, WantOf(appId, arch, branch)) <==> Admits(arch, r.target.arch) && Admits(branch, r.target.branch)
  {
  }

  // The pair handed to libflatpak is one ref's own: the hints when both are given,
  // and otherwise the target they select, never one ref's arch with another's
  // branch. Nothing is started iff a lookup was needed and failed; an unreadable
  // installation is told apart from a missing app by its message.
  method SelectTarget(inst: Installation, appId: Text, arch: Option<Text>, branch: Option<Text>, commit: Option<Text>)
    returns (v: Verdict)
    ensures IsVerdict(inst, WantOf(appId, arch, branch), Hint(commit), v)
    ensures v.Tried? && arch.Some? && CStr(arch.value) != [] ==> v.target.arch == CStr(arch.value)
    ensures v.Tried? && branch.Some? && CStr(branch.value) != [] ==> v.target.branch == CStr(branch.value)
    ensures v.Tried? ==> v.commit == if commit.Some? && CStr(commit.value) != [] then Some(CStr(commit.value)) else None
    ensures v.Tried? <==>
      || (arch.Some? && CStr(arch.value) != [] && branch.Some? && CStr(branch.value) != [])
      || (inst.current.Some? && Admits(arch, inst.current.value.arch) && Admits(branch, inst.current.value.branch))
      || (inst.refs.Ok? && exists k :: 0 <= k < |inst.refs.value| && Suits(inst.refs.value[k], appId, arch, branch))
    ensures inst.current.Some? && Admits(arch, inst.current.value.arch) && Admits(branch, inst.current.value.branch) ==>
      v.Tried? && v.target == inst.current.value
  {
    forall r: Installed {
      HintsAreTheArguments(r, appId, arch, branch);
    }
    if inst.current.Some? {
      HintsAreTheArguments(Installed(true, appId, inst.current.value), appId, arch, branch);
    }
    var want := WantOf(appId, arch, branch);
    var useArch, useBranch := want.arch, want.branch;
    if useArch.None? || useBranch.None? {
      var resolved, err := ResolveLaunchTarget(inst, want);
      if resolved.None? {
        return if err == [] then NotInstalled else Unreadable(err);
      }
      if useArch.None? {
        useArch := Some(resolved.value.arch);
      }
      if useBranch.None? {
        useBranch := Some(resolved.value.branch);
      }
      assert Target(useArch.value, useBranch.value) == resolved.value;
    }
    v := Tried(Target(useArch.value, useBranch.value), Hint(commit));
  }

  const NOT_INSTALLED := Ascii("app not installed")
  const LAUNCH_FAILED := Ascii("launch failed")
  const NO_INSTANCE_MSG := Ascii("launch produced no instance")

  // The frames of one launch.
  method PostLaunch(port: Port, v: Verdict, spawn: Spawn)
    requires spawn.Spawned? ==> Postable(Instance(spawn.instance))
    modifies port
    ensures port.frames == old(port.frames) + LaunchFrames(v, spawn)
  {
    match v
    case NotInstalled => port.PostFramedError(0x02, NOT_INSTALLED);
    case Unreadable(msg) => port.PostFramedError(0x03, msg);
    case Tried(_, _) =>
      if spawn.NotSpawned? {
        if spawn.notInstalled && spawn.msg.Some? {
          port.PostFramedError(0x02, spawn.msg.value);
        } else {
          port.PostFramedError(0x03, if spawn.msg.Some? then spawn.msg.value else LAUNCH_FAILED);
        }
        return;
      }
      PostItem(port, Instance(spawn.instance));
      port.PostSentinel();
  }

  ghost function LaunchFrames(v: Verdict, spawn: Spawn): (fs: seq<Frame>)
    requires spawn.Spawned? ==> Postable(Instance(spawn.instance))
    ensures |fs| > 0
  {
    match v
    case NotInstalled => [ErrorFrame(0x02, NOT_INSTALLED)]
    case Unreadable(msg) => [ErrorFrame(0x03, msg)]
    case Tried(_, _) =>
      match spawn
      case NotSpawned(notInstalled, msg) =>
        if notInstalled && msg.Some? then [ErrorFrame(0x02, msg.value)]
        else [ErrorFrame(0x03, if msg.Some? then msg.value else LAUNCH_FAILED)]
      case Spawned(instance) => [ItemFrame(Instance(instance)), [0xFF]]
  }

  // ── FlatpakInstallation.launch ──────────────────────────────────────────

  class LaunchListener {
    const completer: Completer<FpInstance>
    var result: Option<FpInstance>
    var isOpen: bool

    constructor ()
      ensures fresh(completer) && completer.outcome == Pending && result == None && isOpen
    {
      result, isOpen := None, true;
      completer := new Completer();
    }

    method OnMessage(msg: Frame, ghost sent: FpInstance)
      requires Addressable(msg)
      modifies this, completer
      ensures !old(isOpen) ==> result == old(result) && !isOpen && completer.outcome == old(completer.outcome)
      ensures !old(completer.outcome).Pending? ==> completer.outcome == old(completer.outcome)
      ensures old(isOpen) && Postable(Instance(sent)) && msg == ItemFrame(Instance(sent)) ==>
        isOpen && result == Some(sent) && completer.outcome == old(completer.outcome)
      ensures old(isOpen) && old(completer.outcome).Pending? && msg != [] && msg[0] in {0x02, 0x03} ==>
        && !isOpen
        && completer.outcome == Error(if msg[0] == 0x02 then NotFoundException else LaunchException, ErrorText(msg, 1))
      ensures old(isOpen) && old(completer.outcome).Pending? && msg != [] && msg[0] == 0xFF ==>
        && !isOpen
        && completer.outcome == if old(result).Some? then Value(old(result).value) else Error(LaunchException, NO_INSTANCE_MSG)
    {
      if !isOpen || msg == [] {
        return;
      }
      match msg[0]
      case 0x01 =>
        if |msg| > 1 {
          var decoded := DecodeRunning(msg, sent);
          result := if decoded.Some? then decoded else result;
        }
      case 0x02 =>
        if completer.outcome.Pending? {
          completer.CompleteError(NotFoundException, ErrorText(msg, 1));
        }
        isOpen := false;
      case 0x03 =>
        if completer.outcome.Pending? {
          completer.CompleteError(LaunchException, ErrorText(msg, 1));
        }
        isOpen := false;
      case 0xFF =>
        if completer.outcome.Pending? {
          if result.Some? {
            completer.Complete(result.value);
          } else {
            completer.CompleteError(LaunchException, NO_INSTANCE_MSG);
          }
        }
        isOpen := false;
      case _ =>
    }
  }

  // What the launch future completes with.
  function LaunchAnswer(v: Verdict, spawn: Spawn): Outcome<FpInstance> {
    match v
    case NotInstalled => Error(NotFoundException, NOT_INSTALLED)
    case Unreadable(msg) => Error(LaunchException, Shortened(msg))
    case Tried(_, _) =>
      match spawn
      case Spawned(instance) => Value(instance)
      case NotSpawned(notInstalled, msg) =>
        if msg.None? then Error(LaunchException, LAUNCH_FAILED)
        else Error(if notInstalled then NotFoundException else LaunchException, Shortened(msg.value))
  }

  // The words and the exception for each way a launch can fail.
  lemma LaunchFailures(v: Verdict, notInstalled: bool, msg: Option<Text>)
    ensures v.NotInstalled? ==>
      LaunchAnswer(v, NotSpawned(notInstalled, msg)) == Error(NotFoundException, Ascii("app not installed"))
    ensures v.Unreadable? ==> LaunchAnswer(v, NotSpawned(notInstalled, msg)) == Error(LaunchException, Shortened(v.msg))
    ensures v.Tried? && msg.None? ==>
      LaunchAnswer(v, NotSpawned(notInstalled, msg)) == Error(LaunchException, Ascii("launch failed"))
    ensures v.Tried? && msg.Some? ==>
      LaunchAnswer(v, NotSpawned(notInstalled, msg))
      == Error(if notInstalled then NotFoundException else LaunchException, Shortened(msg.value))
    ensures NO_INSTANCE_MSG == Ascii("launch produced no instance")
    ensures ListError(msg) == if msg.Some? then CStr(msg.value) else Ascii("failed to list installed refs")
  {
  }

  // FlatpakInstallation.launch, both sides: the future completes once, on the
  // last frame, with the instance that was spawned or the reason there is none.
  method Launch(inst: Installation, appId: Text, arch: Option<Text>, branch: Option<Text>, commit: Option<Text>,
                spawn: Spawn, delivered: nat)
    returns (v: Verdict, outcome: Outcome<FpInstance>)
    requires spawn.Spawned? ==> Postable(Instance(spawn.instance))
    ensures outcome == if delivered >= |LaunchFrames(v, spawn)| then LaunchAnswer(v, spawn) else Pending
    ensures IsVerdict(inst, WantOf(appId, arch, branch), Hint(commit), v)
    ensures v.Tried? && arch.Some? && CStr(arch.value) != [] ==> v.target.arch == CStr(arch.value)
    ensures v.Tried? && branch.Some? && CStr(branch.value) != [] ==> v.target.branch == CStr(branch.value)
    ensures v.Tried? ==> v.commit == if commit.Some? && CStr(commit.value) != [] then Some(CStr(commit.value)) else None
    ensures v.Tried? <==>
      || (arch.Some? && CStr(arch.value) != [] && branch.Some? && CStr(branch.value) != [])
      || (inst.current.Some? && Admits(arch, inst.current.value.arch) && Admits(branch, inst.current.value.branch))
      || (inst.refs.Ok? && exists k :: 0 <= k < |inst.refs.value| && Suits(inst.refs.value[k], appId, arch, branch))
    ensures inst.current.Some? && Admits(arch, inst.current.value.arch) && Admits(branch, inst.current.value.branch) ==>
      v.Tried? && v.target == inst.current.value
  {
    v := SelectTarget(inst, appId, arch, branch, commit);
    var port := new Port();
    PostLaunch(port, v, spawn);
    var l := new LaunchListener();
    var heard := if delivered < |port.frames| then port.frames[..delivered] else port.frames;
    outcome := Hear(l, heard, v, spawn);
  }

  predicate BothHints(want: Want) {
    want.arch.Some? && want.branch.Some?
  }

  // The listener after some of the frames of a launch.
  method Hear(l: LaunchListener, heard: seq<Frame>, ghost v: Verdict, ghost spawn: Spawn)
    returns (outcome: Outcome<FpInstance>)
    requires spawn.Spawned? ==> Postable(Instance(spawn.instance))
    requires l.isOpen && l.completer.outcome == Pending && l.result == None && heard <= LaunchFrames(v, spawn)
    modifies l, l.completer
    ensures outcome == if heard == LaunchFrames(v, spawn) then LaunchAnswer(v, spawn) else Pending
  {
    ghost var sent := if spawn.Spawned? then spawn.instance else NO_INSTANCE;
    LaunchErrors(v, spawn);
    if |heard| > 0 {
      l.OnMessage(heard[0], sent);
    }
    if |heard| > 1 {
      l.OnMessage(heard[1], sent);
    }
    outcome := l.completer.outcome;
  }

  // A lone error frame carries the answer.
  lemma LaunchErrors(v: Verdict, spawn: Spawn)
    requires spawn.Spawned? ==> Postable(Instance(spawn.instance))
    ensures forall i :: 0 <= i < |LaunchFrames(v, spawn)| ==> Addressable(LaunchFrames(v, spawn)[i])
    ensures var fs := LaunchFrames(v, spawn); !(v.Tried? && spawn.Spawned?) ==>
      && |fs| == 1 && fs[0] != [] && fs[0][0] in {0x02, 0x03}
      && LaunchAnswer(v, spawn)
         == Error(if fs[0][0] == 0x02 then NotFoundException else LaunchException, ErrorText(fs[0], 1))
  {
    Pow256Values();
    if v.NotInstalled? {
      Whole(0x02, NOT_INSTALLED);
    } else if v.Unreadable? {
      ErrorArrives(0x03, v.msg);
    } else if spawn.NotSpawned? && spawn.msg.None? {
      Whole(0x03, LAUNCH_FAILED);
    } else if spawn.NotSpawned? {
      ErrorArrives(if spawn.notInstalled then 0x02 else 0x03, spawn.msg.value);
    }
  }
}

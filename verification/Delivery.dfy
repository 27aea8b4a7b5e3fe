/** Replies end to end: the readers post a frame per item and a sentinel, or one
    error frame; a Dart listener folds them into one future. */
module Delivery {

  import opened Bytes
  import opened BeveLite
  import opened GlazeIO
  import opened WireTypes
  import opened DartCodec
  import opened Frames
  import opened Wrappers

  // ── Items ───────────────────────────────────────────────────────────────

  datatype Kind = Apps | Remotes | Instances | Refs | Entries

  datatype Item =
    | App(app: InstalledApp)
    | Remote(remote: FlatpakRemoteInfo)
    | Instance(instance: FpInstance)
    | Ref(ref: FpRef)
    | Entry(entry: FpMetadataEntry)

  // The Dart objects.
  datatype Shown =
    | ShownApp(app: InstalledApp)
    | ShownRemote(remote: FlatpakRemote)
    | ShownInstance(instance: FpInstance)
    | ShownRef(ref: FpRef)
    | ShownEntry(entry: FpMetadataEntry)

  function KindOf(item: Item): Kind {
    match item
    case App(_) => Apps
    case Remote(_) => Remotes
    case Instance(_) => Instances
    case Ref(_) => Refs
    case Entry(_) => Entries
  }

  function FieldsOf(item: Item): Fields {
    match item
    case App(_) => APP_FIELDS
    case Remote(_) => REMOTE_FIELDS
    case Instance(_) => INSTANCE_FIELDS
    case Ref(_) => REF_FIELDS
    case Entry(_) => METADATA_FIELDS
  }

  function ValuesOf(item: Item): Values {
    match item
    case App(a) => AppValues(a)
    case Remote(r) => RemoteValues(r)
    case Instance(i) => InstanceValues(i)
    case Ref(r) => RefValues(r)
    case Entry(e) => MetadataValues(e)
  }

  // The item as Dart shows it: byte counts are signed, enumerations are named.
  function Show(item: Item): Shown {
    match item
    case App(a) => ShownApp(DartApp(a))
    case Remote(r) => ShownRemote(DartRemote(r))
    case Instance(i) => ShownInstance(i)
    case Ref(r) => ShownRef(r)
    case Entry(e) => ShownEntry(e)
  }

  function ShowAll(items: seq<Item>): (shown: seq<Shown>)
    ensures |shown| == |items| && forall i :: 0 <= i < |items| ==> shown[i] == Show(items[i])
  {
    seq(|items|, i requires 0 <= i < |items| => Show(items[i]))
  }

  // An app is shown with the size it was sent with exactly below 2^63.
  lemma SizeArrives(a: InstalledApp)
    requires FitsPrim(a.installedSize, 8, false)
    ensures DartApp(a) == a <==> a.installedSize < 0x8000_0000_0000_0000
    ensures DartApp(a) == a.(installedSize := DartApp(a).installedSize)
    ensures DartApp(a).installedSize
      == if a.installedSize < 0x8000_0000_0000_0000 then a.installedSize else a.installedSize - 0x1_0000_0000_0000_0000
  {
    Pow256Values();
  }

  // The item's C++ value exists and its frame fits a Dart list.
  ghost predicate Postable(item: Item) {
    HaveTypes(FieldsOf(item), ValuesOf(item)) && 2 * (1 + |WriteFields(FieldsOf(item), ValuesOf(item))|) < Pow256(8)
  }

  lemma TextTakesRoom(fields: Fields, vs: Values)
    requires HaveTypes(fields, vs) && fields.F? && fields.head.Str?
    ensures |WriteFields(fields, vs)| >= 8
  {
    assert Write(fields.head, vs.head) == LittleEndian(|vs.head.bytes|, 8) + vs.head.bytes;
  }

  // Every struct has a string, and so a length prefix.
  lemma PayloadIsNotEmpty(item: Item)
    requires Postable(item)
    ensures |WriteFields(FieldsOf(item), ValuesOf(item))| > 0
  {
    if item.App? {
      assert HasType(Struct(REF_FIELDS), VStruct(RefValues(item.app.ref)));
      TextTakesRoom(REF_FIELDS, RefValues(item.app.ref));
    } else {
      TextTakesRoom(FieldsOf(item), ValuesOf(item));
    }
  }

  ghost function ItemFrame(item: Item): (f: Frame)
    requires Postable(item)
    ensures Addressable(f) && |f| > 1 && f[0] == 0x01
  {
    PayloadIsNotEmpty(item);
    [0x01] + WriteFields(FieldsOf(item), ValuesOf(item))
  }

  // post_glaze of one item.
  method PostItem(port: Port, item: Item)
    requires Postable(item)
    modifies port
    ensures port.frames == old(port.frames) + [ItemFrame(item)]
  {
    var payload := WriteBinary(Struct(FieldsOf(item)), VStruct(ValuesOf(item)));
    port.PostFramed(0x01, payload);
  }

  lemma PayloadIsCarried(item: Item)
    requires Postable(item)
    ensures var f := ItemFrame(item); Carries(f, 0, 1, Message(FieldsOf(item), ValuesOf(item), []))
  {
    var w := WriteFields(FieldsOf(item), ValuesOf(item));
    var f := ItemFrame(item);
    assert f[0..] == f && f[1..] == w == w + [];
  }

  method DecodeApp(msg: Frame, ghost sent: InstalledApp) returns (o: Option<InstalledApp>)
    requires Addressable(msg)
    ensures Postable(App(sent)) && msg == ItemFrame(App(sent)) ==> o == Some(DartApp(sent))
  {
    if Postable(App(sent)) {
      PayloadIsCarried(App(sent));
    }
    o := DecodeInstalledApp(msg, 0, 1, sent, []);
  }

  method DecodeRemote(msg: Frame, ghost sent: FlatpakRemoteInfo) returns (o: Option<FlatpakRemote>)
    requires Addressable(msg)
    ensures Postable(Remote(sent)) && msg == ItemFrame(Remote(sent)) ==> o == Some(DartRemote(sent))
  {
    if Postable(Remote(sent)) {
      PayloadIsCarried(Remote(sent));
    }
    o := DecodeFlatpakRemote(msg, 0, 1, sent, []);
  }

  method DecodeRunning(msg: Frame, ghost sent: FpInstance) returns (o: Option<FpInstance>)
    requires Addressable(msg)
    ensures Postable(Instance(sent)) && msg == ItemFrame(Instance(sent)) ==> o == Some(sent)
  {
    if Postable(Instance(sent)) {
      PayloadIsCarried(Instance(sent));
    }
    o := DecodeInstance(msg, 0, 1, sent, []);
  }

  method DecodeUpdate(msg: Frame, ghost sent: FpRef) returns (o: Option<FpRef>)
    requires Addressable(msg)
    ensures Postable(Ref(sent)) && msg == ItemFrame(Ref(sent)) ==> o == Some(sent)
  {
    if Postable(Ref(sent)) {
      PayloadIsCarried(Ref(sent));
    }
    o := DecodeFlatpakRef(msg, 0, 1, sent, []);
  }

  method DecodePermission(msg: Frame, ghost sent: FpMetadataEntry) returns (o: Option<FpMetadataEntry>)
    requires Addressable(msg)
    ensures Postable(Entry(sent)) && msg == ItemFrame(Entry(sent)) ==> o == Some(sent)
  {
    if Postable(Entry(sent)) {
      PayloadIsCarried(Entry(sent));
    }
    o := DecodeMetadataEntry(msg, 0, 1, sent, []);
  }

  // The decoder a listener calls on a 0x01 frame.
  method DecodeItem(kind: Kind, msg: Frame, ghost sent: Item) returns (o: Option<Shown>)
    requires Addressable(msg)
    ensures Postable(sent) && KindOf(sent) == kind && msg == ItemFrame(sent) ==> o == Some(Show(sent))
  {
    match kind
    case Apps =>
      var a :- DecodeApp(msg, if sent.App? then sent.app else NO_APP);
      o := Some(ShownApp(a));
    case Remotes =>
      var r :- DecodeRemote(msg, if sent.Remote? then sent.remote else NO_REMOTE);
      o := Some(ShownRemote(r));
    case Instances =>
      var i :- DecodeRunning(msg, if sent.Instance? then sent.instance else NO_INSTANCE);
      o := Some(ShownInstance(i));
    case Refs =>
      var r :- DecodeUpdate(msg, if sent.Ref? then sent.ref else NO_REF);
      o := Some(ShownRef(r));
    case Entries =>
      var e :- DecodePermission(msg, if sent.Entry? then sent.entry else NO_ENTRY);
      o := Some(ShownEntry(e));
  }

  const NO_REF := FpRef([], [], [], [], [], [])
  const NO_APP := InstalledApp(NO_REF, [], [], [], 0, false, false, [], [], [], [], [])
  const NO_INSTANCE := FpInstance([], [], [], [], [], [], 0, 0, false)
  const NO_ENTRY := FpMetadataEntry([], [], [])
  const NO_REMOTE := FlatpakRemoteInfo([], [], [], [], [], [], [], [], [], [], 0, false, false, false, 0)

  // ── Completers ──────────────────────────────────────────────────────────

  datatype Exception = NotFoundException | RemoteException | LaunchException | StopException

  datatype Outcome<T> = Pending | Value(value: T) | Error(exception: Exception, text: Text)

  // A Completer may be completed once; a second completion is a StateError.
  class Completer<T> {
    var outcome: Outcome<T>

    constructor ()
      ensures outcome == Pending
    {
      outcome := Pending;
    }

    method Complete(value: T)
      requires outcome.Pending?
      modifies this
      ensures outcome == Value(value)
    {
      outcome := Value(value);
    }

    method CompleteError(exception: Exception, text: Text)
      requires outcome.Pending?
      modifies this
      ensures outcome == Error(exception, text)
    {
      outcome := Error(exception, text);
    }
  }

  // ── Lists ───────────────────────────────────────────────────────────────

  // What a list reader has to say.
  datatype Reply = Listed(items: seq<Item>) | Failed(msg: Text)

  ghost predicate WellFormed(reply: Reply, kind: Kind) {
    reply.Listed? ==> forall i :: 0 <= i < |reply.items| ==> Postable(reply.items[i]) && KindOf(reply.items[i]) == kind
  }

  ghost predicate AllPostable(items: seq<Item>) {
    forall i :: 0 <= i < |items| ==> Postable(items[i])
  }

  ghost function ItemFrames(items: seq<Item>): (fs: seq<Frame>)
    requires AllPostable(items)
    ensures |fs| == |items| && forall i :: 0 <= i < |items| ==> fs[i] == ItemFrame(items[i])
  {
    seq(|items|, i requires 0 <= i < |items| => ItemFrame(items[i]))
  }

  ghost function FramesOf(reply: Reply): seq<Frame>
    requires reply.Listed? ==> AllPostable(reply.items)
  {
    match reply
    case Listed(items) => ItemFrames(items) + [[0xFF]]
    case Failed(msg) => [ErrorFrame(0x02, msg)]
  }

  // What the future of a list completes with.
  function Answer(reply: Reply, onError: Exception): Outcome<seq<Shown>> {
    match reply
    case Listed(items) => Value(ShowAll(items))
    case Failed(msg) => Error(onError, Shortened(msg))
  }

  // The closure listApplications, listRemotes, listRunning, checkForUpdates and
  // getPermissions hand to port.listen.
  class ListListener {
    const kind: Kind
    const onError: Exception
    const completer: Completer<seq<Shown>>
    var results: seq<Shown>
    var isOpen: bool

    constructor (kind: Kind, onError: Exception)
      ensures fresh(completer) && completer.outcome == Pending && results == [] && isOpen
      ensures this.kind == kind && this.onError == onError
    {
      this.kind, this.onError := kind, onError;
      results, isOpen := [], true;
      completer := new Completer();
    }

    // A decoder that throws leaves the closure: nothing is added.
    method OnMessage(msg: Frame, ghost sent: Item)
      requires Addressable(msg)
      modifies this, completer
      ensures !old(isOpen) ==> results == old(results) && !isOpen && completer.outcome == old(completer.outcome)
      ensures !old(completer.outcome).Pending? ==> completer.outcome == old(completer.outcome)
      ensures old(isOpen) && (msg == [] || msg[0] !in {0x01, 0x02, 0xFF} || msg == [0x01]) ==>
        isOpen && results == old(results) && completer.outcome == old(completer.outcome)
      ensures old(isOpen) && msg != [] && msg[0] == 0x01 ==> isOpen && completer.outcome == old(completer.outcome)
      ensures old(isOpen) && Postable(sent) && KindOf(sent) == kind && msg == ItemFrame(sent) ==>
        results == old(results) + [Show(sent)]
      ensures old(isOpen) && msg != [] && msg[0] == 0x02 ==>
        !isOpen && (old(completer.outcome).Pending? ==> completer.outcome == Error(onError, ErrorText(msg, 1)))
      ensures old(isOpen) && msg != [] && msg[0] == 0xFF ==>
        !isOpen && (old(completer.outcome).Pending? ==> completer.outcome == Value(old(results)))
    {
      if !isOpen || msg == [] {
        return;
      }
      match msg[0]
      case 0x01 =>
        if |msg| > 1 {
          var item := DecodeItem(kind, msg, sent);
          results := results + if item.Some? then [item.value] else [];
        }
      case 0x02 =>
        var err := ErrorText(msg, 1);
        if completer.outcome.Pending? {
          completer.CompleteError(onError, err);
        }
        isOpen := false;
      case 0xFF =>
        if completer.outcome.Pending? {
          completer.Complete(results);
        }
        isOpen := false;
      case _ =>
    }
  }

  // The listener has seen the first n frames of the reply.
  ghost predicate Heard(l: ListListener, reply: Reply, n: nat)
    requires WellFormed(reply, l.kind) && n <= |FramesOf(reply)|
    reads l, l.completer
  {
    if n < |FramesOf(reply)| then
      l.isOpen && l.completer.outcome.Pending? && l.results == if reply.Listed? then ShowAll(reply.items[..n]) else []
    else
      !l.isOpen && l.completer.outcome == Answer(reply, l.onError)
  }

  lemma FramesFit(reply: Reply, i: nat)
    requires reply.Listed? ==> AllPostable(reply.items)
    requires i < |FramesOf(reply)|
    ensures Addressable(FramesOf(reply)[i])
  {
    Pow256Values();
  }

  method HearItem(l: ListListener, ghost items: seq<Item>, ghost n: nat, msg: Frame)
    requires n < |items| && Postable(items[n]) && KindOf(items[n]) == l.kind && msg == ItemFrame(items[n])
    requires l.isOpen && l.completer.outcome.Pending? && l.results == ShowAll(items[..n])
    modifies l, l.completer
    ensures l.isOpen && l.completer.outcome.Pending? && l.results == ShowAll(items[..n + 1])
  {
    l.OnMessage(msg, items[n]);
    assert ShowAll(items[..n + 1]) == ShowAll(items[..n]) + [Show(items[n])];
  }

  method HearLast(l: ListListener, ghost reply: Reply, msg: Frame)
    requires WellFormed(reply, l.kind) && Addressable(msg)
    requires var n := |FramesOf(reply)| - 1; msg == FramesOf(reply)[n] && Heard(l, reply, n)
    modifies l, l.completer
    ensures !l.isOpen && l.completer.outcome == Answer(reply, l.onError)
  {
    LastFrame(reply);
    l.OnMessage(msg, Ref(NO_REF));
  }

  lemma LastFrame(reply: Reply)
    requires reply.Listed? ==> AllPostable(reply.items)
    ensures var n := |FramesOf(reply)| - 1; var last := FramesOf(reply)[n];
      && last != []
      && (reply.Listed? ==> last == [0xFF] && reply.items[..n] == reply.items)
      && (reply.Failed? ==> last[0] == 0x02 && ErrorText(last, 1) == Shortened(reply.msg))
  {
    if reply.Failed? {
      ErrorArrives(0x02, reply.msg);
    }
  }

  // A reply delivered frame by frame, and then whatever else reaches the port.
  // Until the last frame the future is pending and holds the items so far; then
  // it completes, with exactly the reply, and nothing after that matters.
  method Deliver(l: ListListener, posted: seq<Frame>, delivered: nat, late: seq<Frame>, ghost reply: Reply)
    requires WellFormed(reply, l.kind) && posted == FramesOf(reply) && delivered <= |posted|
    requires l.isOpen && l.completer.outcome.Pending? && l.results == []
    requires forall i :: 0 <= i < |late| ==> Addressable(late[i])
    modifies l, l.completer
    ensures Heard(l, reply, delivered)
  {
    assert Heard(l, reply, 0);
    for n := 0 to delivered
      invariant Heard(l, reply, n)
    {
      FramesFit(reply, n);
      if n + 1 < |posted| {
        HearItem(l, reply.items, n, posted[n]);
      } else {
        HearLast(l, reply, posted[n]);
      }
    }
    if delivered == |posted| {
      for k := 0 to |late|
        invariant Heard(l, reply, delivered)
      {
        l.OnMessage(late[k], Ref(NO_REF));
      }
    }
  }

  // ── list_apps ───────────────────────────────────────────────────────────

  // What libflatpak says of an installed ref; a NULL string is None.
  datatype InstalledRef = InstalledRef(
    isApp: bool, name: Option<Text>, arch: Option<Text>, branch: Option<Text>, commit: Option<Text>,
    collectionId: Option<Text>, origin: Option<Text>, latestCommit: Option<Text>, deployDir: Option<Text>,
    installedSize: int, isCurrent: bool, eol: Option<Text>, eolRebase: Option<Text>, appdataName: Option<Text>,
    appdataSummary: Option<Text>, appdataVersion: Option<Text>)

  const APP_KIND := Ascii("app")
  const RUNTIME_KIND := Ascii("runtime")

  function SafeStr(s: Option<Text>): Text {
    if s.Some? then CStr(s.value) else []
  }

  // The struct list_apps fills; it leaves appDataIcon empty.
  function AppOf(r: InstalledRef): InstalledApp {
    InstalledApp(
      FpRef(if r.isApp then APP_KIND else RUNTIME_KIND, SafeStr(r.name), SafeStr(r.arch), SafeStr(r.branch),
            SafeStr(r.commit), SafeStr(r.collectionId)),
      SafeStr(r.origin), SafeStr(r.latestCommit), SafeStr(r.deployDir), r.installedSize, r.isCurrent, r.eol.Some?,
      SafeStr(r.eolRebase), SafeStr(r.appdataName), SafeStr(r.appdataSummary), SafeStr(r.appdataVersion), [])
  }

  predicate Wanted(r: InstalledRef, includeRuntimes: bool) {
    includeRuntimes || r.isApp
  }

  function Selected(refs: seq<InstalledRef>, includeRuntimes: bool): (items: seq<Item>)
    ensures forall i :: 0 <= i < |items| ==> items[i].App?
  {
    if refs == [] then []
    else
      var most, r := refs[..|refs| - 1], refs[|refs| - 1];
      Selected(most, includeRuntimes) + if Wanted(r, includeRuntimes) then [App(AppOf(r))] else []
  }

  function Listing(refs: Result<seq<InstalledRef>, Text>, includeRuntimes: bool): (reply: Reply)
    ensures reply.Listed? ==> forall i :: 0 <= i < |reply.items| ==> reply.items[i].App?
  {
    match refs
    case Ok(rs) => Listed(Selected(rs, includeRuntimes))
    case Err(msg) => Failed(msg)
  }

  // Every size in the installation fits the machine.
  ghost predicate RefsFit(refs: Result<seq<InstalledRef>, Text>) {
    refs.Ok? ==> forall i :: 0 <= i < |refs.value| ==> Postable(App(AppOf(refs.value[i])))
  }

  lemma {:induction false} SelectedFit(refs: seq<InstalledRef>, includeRuntimes: bool)
    requires forall i :: 0 <= i < |refs| ==> Postable(App(AppOf(refs[i])))
    ensures AllPostable(Selected(refs, includeRuntimes))
  {
    if refs != [] {
      SelectedFit(refs[..|refs| - 1], includeRuntimes);
    }
  }

  // A string is passed on as libflatpak gives it, up to its first NUL; NULL is empty.
  predicate Says(t: Text, s: Option<Text>) {
    match s case None => t == [] case Some(text) => t == CStr(text)
  }

  // Each field of the struct comes from the getter of its name.
  predicate Describes(app: InstalledApp, r: InstalledRef) {
    && app.ref.kind == Ascii(if r.isApp then "app" else "runtime")
    && Says(app.ref.name, r.name) && Says(app.ref.arch, r.arch) && Says(app.ref.branch, r.branch)
    && Says(app.ref.commit, r.commit) && Says(app.ref.collectionId, r.collectionId)
    && Says(app.origin, r.origin) && Says(app.latestCommit, r.latestCommit) && Says(app.installedPath, r.deployDir)
    && app.installedSize == r.installedSize && app.isCurrentArch == r.isCurrent && app.endOfLife == r.eol.Some?
    && Says(app.endOfLifeRebase, r.eolRebase) && Says(app.appDataName, r.appdataName)
    && Says(app.appDataSummary, r.appdataSummary) && Says(app.appDataVersion, r.appdataVersion) && app.appDataIcon == []
  }

  lemma AppIsDescribed(r: InstalledRef)
    ensures Describes(AppOf(r), r)
  {
  }

  // The k-th selected item is the pos[k]-th ref.
  ghost predicate ComesFrom(items: seq<Item>, pos: seq<nat>, refs: seq<InstalledRef>) {
    && |pos| == |items|
    && (forall k :: 0 <= k < |pos| ==> pos[k] < |refs| && items[k] == App(AppOf(refs[pos[k]])))
    && forall j, k :: 0 <= j < k < |pos| ==> pos[j] < pos[k]
  }

  // The loop skips runtimes unless they were asked for and nothing else, and it
  // never stops early or reorders: the items come, in order, from exactly the refs
  // that are apps, or from all of them.
  lemma {:induction false} SelectsInPlace(refs: seq<InstalledRef>, includeRuntimes: bool) returns (pos: seq<nat>)
    ensures ComesFrom(Selected(refs, includeRuntimes), pos, refs)
    ensures forall i: nat :: i in pos <==> i < |refs| && (includeRuntimes || refs[i].isApp)
  {
    pos := [];
    if refs != [] {
      var most := refs[..|refs| - 1];
      pos := SelectsInPlace(most, includeRuntimes);
      assert forall k :: 0 <= k < |pos| ==> most[pos[k]] == refs[pos[k]];
      if Wanted(refs[|refs| - 1], includeRuntimes) {
        pos := pos + [|refs| - 1];
      }
    }
  }

  lemma SelectedNext(refs: seq<InstalledRef>, i: nat, includeRuntimes: bool)
    requires i < |refs|
    ensures Selected(refs[..i + 1], includeRuntimes)
      == Selected(refs[..i], includeRuntimes) + if Wanted(refs[i], includeRuntimes) then [App(AppOf(refs[i]))] else []
  {
    assert refs[..i + 1][..i] == refs[..i];
  }

  method ListApps(port: Port, refs: Result<seq<InstalledRef>, Text>, includeRuntimes: bool)
    requires RefsFit(refs)
    modifies port
    ensures WellFormed(Listing(refs, includeRuntimes), Apps)
    ensures port.frames == old(port.frames) + FramesOf(Listing(refs, includeRuntimes))
  {
    if refs.Err? {
      port.PostFramedError(0x02, refs.error);
      return;
    }
    SelectedFit(refs.value, includeRuntimes);
    PostSelected(port, refs.value, includeRuntimes);
    Associate(old(port.frames), ItemFrames(Selected(refs.value, includeRuntimes)), [[0xFF]]);
    port.PostSentinel();
  }

  // The loop over the installed refs.
  method PostSelected(port: Port, refs: seq<InstalledRef>, includeRuntimes: bool)
    requires forall i :: 0 <= i < |refs| ==> Postable(App(AppOf(refs[i])))
    modifies port
    ensures AllPostable(Selected(refs, includeRuntimes))
    ensures port.frames == old(port.frames) + ItemFrames(Selected(refs, includeRuntimes))
  {
    ghost var items := [];
    for i := 0 to |refs|
      invariant items == Selected(refs[..i], includeRuntimes) && AllPostable(items)
      invariant port.frames == old(port.frames) + ItemFrames(items)
    {
      SelectedNext(refs, i, includeRuntimes);
      if !Wanted(refs[i], includeRuntimes) {
        continue;
      }
      PostNext(port, App(AppOf(refs[i])), items, old(port.frames));
      items := items + [App(AppOf(refs[i]))];
    }
    assert refs[..|refs|] == refs;
  }

  // One more frame of a list.
  method PostNext(port: Port, item: Item, ghost items: seq<Item>, ghost before: seq<Frame>)
    requires Postable(item) && AllPostable(items) && port.frames == before + ItemFrames(items)
    modifies port
    ensures AllPostable(items + [item])
    ensures port.frames == before + ItemFrames(items + [item])
  {
    PostItem(port, item);
    OneMoreFrame(items, item, before);
  }

  lemma OneMoreFrame(items: seq<Item>, item: Item, before: seq<Frame>)
    requires Postable(item) && AllPostable(items)
    ensures AllPostable(items + [item])
    ensures (before + ItemFrames(items)) + [ItemFrame(item)] == before + ItemFrames(items + [item])
  {
    LastItemFrame(items, item);
    Associate(before, ItemFrames(items), [ItemFrame(item)]);
  }

  lemma LastItemFrame(items: seq<Item>, item: Item)
    requires Postable(item) && AllPostable(items)
    ensures AllPostable(items + [item])
    ensures ItemFrames(items + [item]) == ItemFrames(items) + [ItemFrame(item)]
  {
    var longer := items + [item];
    forall i | 0 <= i < |items| ensures longer[i] == items[i] && ItemFrames(longer)[i] == ItemFrames(items)[i] {
    }
    assert longer[|items|] == item;
    SnocByIndex(ItemFrames(items), ItemFrames(longer), ItemFrame(item));
  }

  lemma SnocByIndex(a: seq<Frame>, b: seq<Frame>, f: Frame)
    requires |b| == |a| + 1 && b[|a|] == f && forall i :: 0 <= i < |a| ==> b[i] == a[i]
    ensures b == a + [f]
  {
  }

  // FlatpakInstallation.listApplications, both sides.
  method ListApplications(refs: Result<seq<InstalledRef>, Text>, includeRuntimes: bool, late: seq<Frame>)
    returns (outcome: Outcome<seq<Shown>>)
    requires RefsFit(refs) && forall i :: 0 <= i < |late| ==> Addressable(late[i])
    ensures outcome == Answer(Listing(refs, includeRuntimes), NotFoundException)
  {
    var l := new ListListener(Apps, NotFoundException);
    var port := new Port();
    ListApps(port, refs, includeRuntimes);
    Deliver(l, port.frames, |port.frames|, late, Listing(refs, includeRuntimes));
    outcome := l.completer.outcome;
  }

  // list_running; a null enumeration is an empty one.
  method ListInstances(port: Port, instances: Option<seq<FpInstance>>)
    requires instances.Some? ==> AllPostable(Running(instances.value))
    modifies port
    ensures WellFormed(Listed(Running(Or(instances))), Instances)
    ensures port.frames == old(port.frames) + FramesOf(Listed(Running(Or(instances))))
  {
    var all := Or(instances);
    ghost var items := Running(all);
    for i := 0 to |all|
      invariant port.frames == old(port.frames) + ItemFrames(items[..i])
    {
      assert items[..i + 1] == items[..i] + [items[i]];
      PostNext(port, Instance(all[i]), items[..i], old(port.frames));
    }
    assert items[..|items|] == items;
    Associate(old(port.frames), ItemFrames(items), [[0xFF]]);
    port.PostSentinel();
  }

  function Or(instances: Option<seq<FpInstance>>): seq<FpInstance> {
    if instances.Some? then instances.value else []
  }

  function Running(all: seq<FpInstance>): (items: seq<Item>)
    ensures |items| == |all| && forall i :: 0 <= i < |all| ==> items[i] == Instance(all[i])
  {
    seq(|all|, i requires 0 <= i < |all| => Instance(all[i]))
  }

  // FlatpakInstallation.listRunning, both sides: it never fails, and shows every
  // instance as it was enumerated.
  method ListRunning(instances: Option<seq<FpInstance>>, late: seq<Frame>) returns (outcome: Outcome<seq<Shown>>)
    requires instances.Some? ==> AllPostable(Running(instances.value))
    requires forall i :: 0 <= i < |late| ==> Addressable(late[i])
    ensures outcome == Value(ShowAll(Running(Or(instances))))
  {
    var l := new ListListener(Instances, NotFoundException);
    var port := new Port();
    ListInstances(port, instances);
    Deliver(l, port.frames, |port.frames|, late, Listed(Running(Or(instances))));
    outcome := l.completer.outcome;
  }
}

/** The hand-written positional decoders of GlazeCodec: a byte view with a moving
    position, read in whatever order the decoder asks. */
module DartCodec {

  import opened Bytes
  import opened BeveLite
  import opened WireTypes
  import opened Wrappers

  // A Dart list is indexed by signed 64-bit ints.
  ghost predicate Addressable(buffer: seq<byte>) {
    2 * |buffer| < Pow256(8)
  }

  // What getUint64 makes of a uint64, and back.
  function DartInt(u: int): int {
    if u < 0 then u else ToSigned(u, 8)
  }

  function Suffix(view: seq<byte>, pos: nat): seq<byte> {
    if pos <= |view| then view[pos..] else []
  }

  // ── _BinaryReader ───────────────────────────────────────────────────────

  // Written fields, and what follows them in the buffer.
  datatype Message = Message(fields: Fields, vs: Values, after: seq<byte>) {

    ghost predicate Typed() {
      HaveTypes(fields, vs)
    }

    ghost function Bytes(): seq<byte>
      requires Typed()
    {
      WriteFields(fields, vs) + after
    }

    // The message without its first field.
    ghost function Advance(): Message {
      if fields.F? && vs.V? then Message(fields.tail, vs.tail, after) else this
    }
  }

  lemma FirstField(m: Message)
    requires m.Typed() && m.fields.F?
    ensures m.vs.V? && HasType(m.fields.head, m.vs.head) && m.Advance().Typed()
    ensures m.Bytes() == Write(m.fields.head, m.vs.head) + m.Advance().Bytes()
  {
  }

  function TextOf(v: Value): Text {
    if v.VStr? then v.bytes else []
  }

  function IntOf(v: Value): int {
    if v.VInt? then v.n else 0
  }

  function FlagOf(v: Value): bool {
    v.VBool? && v.b
  }

  // The view holds the message from pos on.
  ghost predicate Holds(view: seq<byte>, pos: nat, m: Message) {
    Addressable(view) && m.Typed() && Suffix(view, pos) == m.Bytes()
  }

  lemma StringInView(view: seq<byte>, pos: nat, bytes: seq<byte>, later: seq<byte>)
    requires Addressable(view) && |bytes| < Pow256(8)
    requires Suffix(view, pos) == Write(Str, VStr(bytes)) + later
    ensures var body := pos + 8;
      && body + |bytes| <= |view| && view[body..body + |bytes|] == bytes && Suffix(view, body + |bytes|) == later
      && FromLittleEndian(Suffix(view, pos)[..8]) == ToSigned(|bytes|, 8) == |bytes|
  {
    var data, body := Suffix(view, pos), bytes + later;
    Associate(LittleEndian(|bytes|, 8), bytes, later);
    LengthPrefix(|bytes|, body);
    assert view[pos + 8..] == data[8..] == body;
    assert body[..|bytes|] == bytes && body[|bytes|..] == later;
  }

  // A RangeError is None. The ghost side is the message the bytes came from, if
  // they came from one, less the fields already read.
  class BinaryReader {
    const view: seq<byte>
    var pos: nat
    ghost var m: Message

    constructor (buffer: seq<byte>, offsetInBytes: nat, offset: nat, ghost m: Message)
      requires Addressable(buffer) && offsetInBytes <= |buffer|
      ensures this.m == m
      ensures Carries(buffer, offsetInBytes, offset, m) ==> Holds(view, pos, m)
    {
      view := buffer[offsetInBytes..];
      pos := offset;
      this.m := m;
    }

    function Rest(): seq<byte>
      reads this
    {
      Suffix(view, pos)
    }

    // The next field is of the kind s.
    ghost predicate Next(s: Schema)
      reads this
    {
      m.fields.F? && m.vs.V? && m.fields.head == s
    }

    // ByteData.getUint8, getUint32 and the bytes of getUint64.
    method GetUnsigned(width: nat) returns (o: Option<nat>)
      requires width > 0
      modifies this`pos
      ensures |old(Rest())| >= width ==>
        o == Some(FromLittleEndian(old(Rest())[..width])) && Rest() == old(Rest())[width..] && pos == old(pos) + width
    {
      if pos + width > |view| {
        return None;
      }
      assert old(Rest())[..width] == view[pos..pos + width];
      o := Some(FromLittleEndian(view[pos..pos + width]));
      pos := pos + width;
      assert Rest() == old(Rest())[width..];
    }

    method ReadString() returns (o: Option<Text>)
      modifies this
      ensures Holds(view, old(pos), old(m)) && old(Next(Str)) ==>
        Holds(view, pos, m) && m == old(m).Advance() && o == Some(TextOf(old(m).vs.head))
    {
      ghost var expected := Holds(view, pos, m) && Next(Str);
      if expected {
        FirstField(m);
        StringInView(view, pos, m.vs.head.bytes, m.Advance().Bytes());
      }
      var n :- GetUnsigned(8);
      // getUint64 gives a signed int; a negative length is a RangeError.
      var len := ToSigned(n, 8);
      if len < 0 || pos + len > |view| {
        return None;
      }
      o := Some(view[pos..pos + len]);
      pos := pos + len;
      m := m.Advance();
    }

    method ReadUint32() returns (o: Option<int>)
      modifies this
      ensures Holds(view, old(pos), old(m)) && old(Next(U32)) ==>
        Holds(view, pos, m) && m == old(m).Advance() && o == Some(IntOf(old(m).vs.head))
    {
      ghost var expected := Holds(view, pos, m) && Next(U32);
      if expected {
        FirstField(m);
        RoundTrip(U32, m.vs.head, m.Advance().Bytes());
      }
      var n :- GetUnsigned(4);
      o := Some(n);
      m := m.Advance();
    }

    method ReadInt32() returns (o: Option<int>)
      modifies this
      ensures Holds(view, old(pos), old(m)) && old(Next(I32)) ==>
        Holds(view, pos, m) && m == old(m).Advance() && o == Some(IntOf(old(m).vs.head))
    {
      ghost var expected := Holds(view, pos, m) && Next(I32);
      if expected {
        FirstField(m);
        RoundTrip(I32, m.vs.head, m.Advance().Bytes());
      }
      var n :- GetUnsigned(4);
      o := Some(ToSigned(n, 4));
      m := m.Advance();
    }

    // A Dart int is signed: the top half of the range comes back negative.
    method ReadUint64() returns (o: Option<int>)
      modifies this
      ensures Holds(view, old(pos), old(m)) && old(Next(U64)) ==>
        Holds(view, pos, m) && m == old(m).Advance() && o == Some(DartInt(IntOf(old(m).vs.head)))
    {
      ghost var expected := Holds(view, pos, m) && Next(U64);
      if expected {
        FirstField(m);
        RoundTrip(U64, m.vs.head, m.Advance().Bytes());
      }
      var n :- GetUnsigned(8);
      o := Some(DartInt(n));
      m := m.Advance();
    }

    method ReadBool() returns (o: Option<bool>)
      modifies this
      ensures Holds(view, old(pos), old(m)) && old(Next(Bool)) ==>
        Holds(view, pos, m) && m == old(m).Advance() && o == Some(FlagOf(old(m).vs.head))
    {
      ghost var expected := Holds(view, pos, m) && Next(Bool);
      if expected {
        FirstField(m);
        RoundTrip(Bool, m.vs.head, m.Advance().Bytes());
      }
      var n :- GetUnsigned(1);
      o := Some(n != 0);
      m := m.Advance();
    }
  }

  // The buffer holds a message at the offset a decoder is given. The view runs to
  // the end of the underlying buffer, past the message.
  ghost predicate Carries(buffer: seq<byte>, offsetInBytes: nat, offset: nat, m: Message)
    requires offsetInBytes <= |buffer|
  {
    m.Typed() && Suffix(buffer[offsetInBytes..], offset) == m.Bytes()
  }

  // ── The decoders ────────────────────────────────────────────────────────

  method DecodeFlatpakRef(buffer: seq<byte>, offsetInBytes: nat, offset: nat, ghost sent: FpRef, ghost after: seq<byte>)
    returns (o: Option<FpRef>)
    requires Addressable(buffer) && offsetInBytes <= |buffer|
    ensures Carries(buffer, offsetInBytes, offset, Message(REF_FIELDS, RefValues(sent), after)) ==> o == Some(sent)
  {
    var r := new BinaryReader(buffer, offsetInBytes, offset, Message(REF_FIELDS, RefValues(sent), after));
    var kind :- r.ReadString();
    var name :- r.ReadString();
    var arch :- r.ReadString();
    var branch :- r.ReadString();
    var commit :- r.ReadString();
    var collectionId :- r.ReadString();
    o := Some(FpRef(kind, name, arch, branch, commit, collectionId));
  }

  method DecodeInstance(buffer: seq<byte>, offsetInBytes: nat, offset: nat,
                        ghost sent: FpInstance, ghost after: seq<byte>)
    returns (o: Option<FpInstance>)
    requires Addressable(buffer) && offsetInBytes <= |buffer|
    ensures Carries(buffer, offsetInBytes, offset, Message(INSTANCE_FIELDS, InstanceValues(sent), after)) ==>
      o == Some(sent)
  {
    var r := new BinaryReader(buffer, offsetInBytes, offset, Message(INSTANCE_FIELDS, InstanceValues(sent), after));
    var appId :- r.ReadString();
    var instanceId :- r.ReadString();
    var arch :- r.ReadString();
    var branch :- r.ReadString();
    var commit :- r.ReadString();
    var runtime :- r.ReadString();
    var found := FpInstance(appId, instanceId, arch, branch, commit, runtime, 0, 0, false);
    o := ReadPids(r, found, sent, after);
  }

  function PidFields(i: FpInstance, after: seq<byte>): Message {
    Message(F(I32, F(I32, F(Bool, NoField))), V(VInt(i.pid), V(VInt(i.childPid), V(VBool(i.isRunning), NoValue))), after)
  }

  // The decoder from pid on.
  method ReadPids(r: BinaryReader, found: FpInstance, ghost sent: FpInstance, ghost after: seq<byte>)
    returns (o: Option<FpInstance>)
    modifies r
    ensures Holds(r.view, old(r.pos), PidFields(sent, after)) && old(r.m) == PidFields(sent, after) ==>
      o == Some(found.(pid := sent.pid, childPid := sent.childPid, isRunning := sent.isRunning))
  {
    var pid :- r.ReadInt32();
    var childPid :- r.ReadInt32();
    var isRunning :- r.ReadBool();
    o := Some(found.(pid := pid, childPid := childPid, isRunning := isRunning));
  }

  method DecodeInstallationInfo(buffer: seq<byte>, offsetInBytes: nat, offset: nat,
                                ghost sent: FpInstallationInfo, ghost after: seq<byte>)
    returns (o: Option<FpInstallationInfo>)
    requires Addressable(buffer) && offsetInBytes <= |buffer|
    ensures Carries(buffer, offsetInBytes, offset, Message(INFO_FIELDS, InfoValues(sent), after)) ==> o == Some(sent)
  {
    var r := new BinaryReader(buffer, offsetInBytes, offset, Message(INFO_FIELDS, InfoValues(sent), after));
    var id :- r.ReadString();
    var displayName :- r.ReadString();
    var path :- r.ReadString();
    var isUser :- r.ReadBool();
    var priority :- r.ReadInt32();
    o := Some(FpInstallationInfo(id, displayName, path, isUser, priority));
  }

  method DecodeMetadataEntry(buffer: seq<byte>, offsetInBytes: nat, offset: nat,
                             ghost sent: FpMetadataEntry, ghost after: seq<byte>)
    returns (o: Option<FpMetadataEntry>)
    requires Addressable(buffer) && offsetInBytes <= |buffer|
    ensures Carries(buffer, offsetInBytes, offset, Message(METADATA_FIELDS, MetadataValues(sent), after)) ==>
      o == Some(sent)
  {
    var r := new BinaryReader(buffer, offsetInBytes, offset, Message(METADATA_FIELDS, MetadataValues(sent), after));
    var section :- r.ReadString();
    var key :- r.ReadString();
    var value :- r.ReadString();
    o := Some(FpMetadataEntry(section, key, value));
  }

  function MetadataItems(entries: seq<FpMetadataEntry>): seq<Value> {
    seq(|entries|, i requires 0 <= i < |entries| => VStruct(MetadataValues(entries[i])))
  }

  // The view holds entries i and later of a written list from pos on.
  ghost predicate InList(view: seq<byte>, pos: nat, sent: seq<FpMetadataEntry>, i: nat, after: seq<byte>) {
    && Addressable(view) && i <= |sent| && HasType(METADATA_LIST, VVec(MetadataItems(sent)))
    && Suffix(view, pos) == WriteItems(METADATA, MetadataItems(sent), i) + after
  }

  method ReadEntry(r: BinaryReader, ghost sent: seq<FpMetadataEntry>, ghost i: nat, ghost after: seq<byte>)
    returns (o: Option<FpMetadataEntry>)
    modifies r
    ensures InList(r.view, old(r.pos), sent, i, after) && i < |sent| ==>
      o == Some(sent[i]) && InList(r.view, r.pos, sent, i + 1, after)
  {
    if InList(r.view, r.pos, sent, i, after) && i < |sent| {
      r.m := ItemIsInline(r.view, r.pos, sent, i, after);
    }
    ghost var after' := r.m.after;
    var section :- r.ReadString();
    var key :- r.ReadString();
    var value :- r.ReadString();
    assert [] + after' == after';
    o := Some(FpMetadataEntry(section, key, value));
  }

  method ReadEntries(r: BinaryReader, count: int, ghost sent: seq<FpMetadataEntry>, ghost after: seq<byte>)
    returns (o: Option<seq<FpMetadataEntry>>)
    modifies r
    ensures InList(r.view, old(r.pos), sent, 0, after) && count == |sent| ==> o == Some(sent)
  {
    ghost var expected := InList(r.view, r.pos, sent, 0, after) && count == |sent|;
    var entries := [];
    while |entries| < count
      invariant expected ==> InList(r.view, r.pos, sent, |entries|, after)
      invariant expected ==> |entries| <= |sent| && forall k :: 0 <= k < |entries| ==> entries[k] == sent[k]
      decreases count - |entries|
    {
      var entry :- ReadEntry(r, sent, |entries|, after);
      entries := entries + [entry];
    }
    assert expected ==> entries == sent;
    o := Some(entries);
  }

  // A count, then as many inlined entries: what fetch_remote_metadata writes by
  // hand is the vector of the entry struct.
  method DecodeRemoteMetadata(buffer: seq<byte>, offsetInBytes: nat, offset: nat,
                              ghost sent: seq<FpMetadataEntry>, ghost after: seq<byte>)
    returns (o: Option<seq<FpMetadataEntry>>)
    requires Addressable(buffer) && offsetInBytes <= |buffer|
    ensures CarriesList(buffer, offsetInBytes, offset, MetadataItems(sent), after) ==> o == Some(sent)
  {
    ghost var items := MetadataItems(sent);
    ghost var counted := Message(NoField, NoValue, []);
    if CarriesList(buffer, offsetInBytes, offset, items, after) {
      counted := Counted(items, after);
      CountComesFirst(items, after);
      ItemsTakeRoom(items, 0);
    }
    var r := new BinaryReader(buffer, offsetInBytes, offset, counted);
    var count :- r.ReadUint64();
    assert [] + counted.after == counted.after;
    o := ReadEntries(r, count, sent, after);
  }

  const METADATA := Struct(METADATA_FIELDS)
  const METADATA_LIST := Vec(METADATA)

  // The list as its count, followed by other bytes.
  ghost function Counted(items: seq<Value>, after: seq<byte>): Message
    requires forall i :: 0 <= i < |items| ==> HasType(METADATA, items[i])
  {
    Message(F(U64, NoField), V(VInt(|items|), NoValue), WriteItems(METADATA, items, 0) + after)
  }

  ghost predicate CarriesList(buffer: seq<byte>, offsetInBytes: nat, offset: nat, items: seq<Value>, after: seq<byte>)
    requires offsetInBytes <= |buffer|
  {
    && HasType(METADATA_LIST, VVec(items))
    && Suffix(buffer[offsetInBytes..], offset) == Write(METADATA_LIST, VVec(items)) + after
  }

  lemma CountComesFirst(items: seq<Value>, after: seq<byte>)
    requires HasType(METADATA_LIST, VVec(items))
    ensures Counted(items, after).Typed()
    ensures Counted(items, after).Bytes() == Write(METADATA_LIST, VVec(items)) + after
  {
    CountAlone(|items|);
    var n, body := LittleEndian(|items|, 8), WriteItems(METADATA, items, 0);
    Associate(n, body, after);
  }

  lemma CountAlone(n: nat)
    requires n < Pow256(8)
    ensures HaveTypes(F(U64, NoField), V(VInt(n), NoValue))
    ensures WriteFields(F(U64, NoField), V(VInt(n), NoValue)) == LittleEndian(n, 8)
  {
    DivUnique(n, Pow256(8), 0, n);
    assert Write(U64, VInt(n)) == LittleEndian(n, 8);
    assert WriteFields(NoField, NoValue) == [];
  }

  // An entry takes at least its three length prefixes.
  lemma {:induction false} ItemsTakeRoom(items: seq<Value>, k: nat)
    requires k <= |items| && forall i :: 0 <= i < |items| ==> HasType(METADATA, items[i])
    ensures |WriteItems(METADATA, items, k)| >= |items| - k
    decreases |items| - k
  {
    if k < |items| {
      ItemsTakeRoom(items, k + 1);
      assert HasType(METADATA, items[k]);
      var vs := items[k].fields;
      assert Write(METADATA, items[k]) == Write(Str, vs.head) + WriteFields(METADATA_FIELDS.tail, vs.tail);
    }
  }

  lemma ItemIsInline(view: seq<byte>, pos: nat, sent: seq<FpMetadataEntry>, i: nat, after: seq<byte>) returns (m: Message)
    requires InList(view, pos, sent, i, after) && i < |sent|
    ensures m == Message(METADATA_FIELDS, MetadataValues(sent[i]), WriteItems(METADATA, MetadataItems(sent), i + 1) + after)
    ensures Holds(view, pos, m)
  {
    var items := MetadataItems(sent);
    assert items[i] == VStruct(MetadataValues(sent[i])) && HasType(METADATA, items[i]);
    var w, later := WriteFields(METADATA_FIELDS, MetadataValues(sent[i])), WriteItems(METADATA, items, i + 1);
    assert WriteItems(METADATA, items, i) == w + later;
    Associate(w, later, after);
    m := Message(METADATA_FIELDS, MetadataValues(sent[i]), later + after);
  }

  // What Dart shows of the byte counters.
  function DartProgress(p: TransactionProgress): TransactionProgress {
    p.(bytesTransferred := DartInt(p.bytesTransferred), bytesTotal := DartInt(p.bytesTotal))
  }

  method DecodeTransactionProgress(buffer: seq<byte>, offsetInBytes: nat, offset: nat,
                                   ghost sent: TransactionProgress, ghost after: seq<byte>)
    returns (o: Option<TransactionProgress>)
    requires Addressable(buffer) && offsetInBytes <= |buffer|
    ensures Carries(buffer, offsetInBytes, offset, Message(PROGRESS_FIELDS, ProgressValues(sent), after)) ==>
      o == Some(DartProgress(sent))
  {
    var r := new BinaryReader(buffer, offsetInBytes, offset, Message(PROGRESS_FIELDS, ProgressValues(sent), after));
    var op :- r.ReadString();
    var ref :- r.ReadString();
    var progress :- r.ReadUint32();
    var bytesTransferred :- r.ReadUint64();
    var bytesTotal :- r.ReadUint64();
    var status :- r.ReadString();
    o := Some(TransactionProgress(op, ref, progress, bytesTransferred, bytesTotal, status));
  }

  // The nested struct is inlined: its fields come first, in order.
  method ReadRef(r: BinaryReader, ghost ref: FpRef, ghost rest: Message) returns (o: Option<FpRef>)
    modifies r
    ensures Holds(r.view, old(r.pos), WithRef(ref, rest)) && old(r.m) == WithRef(ref, rest) ==>
      o == Some(ref) && r.m == rest && Holds(r.view, r.pos, rest)
  {
    var kind :- r.ReadString();
    var name :- r.ReadString();
    var arch :- r.ReadString();
    var branch :- r.ReadString();
    var commit :- r.ReadString();
    var collectionId :- r.ReadString();
    o := Some(FpRef(kind, name, arch, branch, commit, collectionId));
  }

  function WithRef(ref: FpRef, rest: Message): Message {
    Message(
      F(Str, F(Str, F(Str, F(Str, F(Str, F(Str, rest.fields)))))),
      V(VStr(ref.kind), V(VStr(ref.name), V(VStr(ref.arch), V(VStr(ref.branch), V(VStr(ref.commit),
        V(VStr(ref.collectionId), rest.vs)))))),
      rest.after)
  }

  // A nested struct is written as its fields in place.
  lemma NestedIsInline(ref: FpRef, rest: Message)
    requires rest.Typed() && HasType(Struct(REF_FIELDS), VStruct(RefValues(ref)))
    ensures WithRef(ref, rest).Typed()
    ensures WithRef(ref, rest).Bytes()
            == Message(F(Struct(REF_FIELDS), rest.fields), V(VStruct(RefValues(ref)), rest.vs), rest.after).Bytes()
  {
    InlineFields(REF_FIELDS, RefValues(ref), rest.fields, rest.vs);
    var a1, x1 := F(Str, NoField), V(VStr(ref.collectionId), NoValue);
    var a2, x2 := F(Str, a1), V(VStr(ref.commit), x1);
    var a3, x3 := F(Str, a2), V(VStr(ref.branch), x2);
    var a4, x4 := F(Str, a3), V(VStr(ref.arch), x3);
    assert AppendFields(a2, rest.fields) == F(Str, AppendFields(a1, rest.fields)) == F(Str, F(Str, rest.fields));
    assert AppendFields(a4, rest.fields) == F(Str, AppendFields(a3, rest.fields)) == F(Str, F(Str, AppendFields(a2, rest.fields)));
    assert AppendValues(x2, rest.vs) == V(VStr(ref.commit), AppendValues(x1, rest.vs))
        == V(VStr(ref.commit), V(VStr(ref.collectionId), rest.vs));
    assert AppendValues(x4, rest.vs) == V(VStr(ref.arch), AppendValues(x3, rest.vs))
        == V(VStr(ref.arch), V(VStr(ref.branch), AppendValues(x2, rest.vs)));
    assert AppendFields(REF_FIELDS, rest.fields) == WithRef(ref, rest).fields;
    assert AppendValues(RefValues(ref), rest.vs) == WithRef(ref, rest).vs;
    var nested := VStruct(RefValues(ref));
    assert Write(Struct(REF_FIELDS), nested) == WriteFields(REF_FIELDS, RefValues(ref));
    assert WriteFields(F(Struct(REF_FIELDS), rest.fields), V(nested, rest.vs))
        == Write(Struct(REF_FIELDS), nested) + WriteFields(rest.fields, rest.vs);
  }

  function AppendFields(a: Fields, b: Fields): Fields {
    match a case NoField => b case F(head, tail) => F(head, AppendFields(tail, b))
  }

  function AppendValues(a: Values, b: Values): Values {
    match a case NoValue => b case V(head, tail) => V(head, AppendValues(tail, b))
  }

  lemma {:induction false} InlineFields(a: Fields, x: Values, b: Fields, y: Values)
    requires HaveTypes(a, x) && HaveTypes(b, y)
    ensures HaveTypes(AppendFields(a, b), AppendValues(x, y))
    ensures WriteFields(AppendFields(a, b), AppendValues(x, y)) == WriteFields(a, x) + WriteFields(b, y)
  {
    match a
    case NoField => assert [] + WriteFields(b, y) == WriteFields(b, y);
    case F(head, tail) =>
      Associate(Write(head, x.head), WriteFields(tail, x.tail), WriteFields(b, y));
      InlineFields(tail, x.tail, b, y);
  }

  // FlatpakApplication is InstalledApp with a signed size.
  function DartApp(a: InstalledApp): InstalledApp {
    a.(installedSize := DartInt(a.installedSize))
  }

  method DecodeInstalledApp(buffer: seq<byte>, offsetInBytes: nat, offset: nat,
                            ghost sent: InstalledApp, ghost after: seq<byte>)
    returns (o: Option<InstalledApp>)
    requires Addressable(buffer) && offsetInBytes <= |buffer|
    ensures Carries(buffer, offsetInBytes, offset, Message(APP_FIELDS, AppValues(sent), after)) ==>
      o == Some(DartApp(sent))
  {
    ghost var rest := Message(APP_TAIL, AppTail(sent), after);
    ghost var inline := WithRef(sent.ref, rest);
    if Carries(buffer, offsetInBytes, offset, Message(APP_FIELDS, AppValues(sent), after)) {
      NestedIsInline(sent.ref, rest);
    }
    var r := new BinaryReader(buffer, offsetInBytes, offset, inline);
    var ref :- ReadRef(r, sent.ref, rest);
    o := ReadAppTail(r, ref, sent, after);
  }

  // The decoder from origin on.
  method ReadAppTail(r: BinaryReader, ref: FpRef, ghost sent: InstalledApp, ghost after: seq<byte>)
    returns (o: Option<InstalledApp>)
    modifies r
    ensures && Holds(r.view, old(r.pos), Message(APP_TAIL, AppTail(sent), after))
            && old(r.m) == Message(APP_TAIL, AppTail(sent), after)
            ==> o == Some(DartApp(sent).(ref := ref))
  {
    var origin :- r.ReadString();
    var latestCommit :- r.ReadString();
    var installedPath :- r.ReadString();
    var found := InstalledApp(ref, origin, latestCommit, installedPath, 0, false, false, [], [], [], [], []);
    o := ReadAppNumbers(r, found, sent, after);
  }

  function AppNumbers(a: InstalledApp, after: seq<byte>): Message {
    Message(F(U64, F(Bool, F(Bool, AppData(a, after).fields))),
            V(VInt(a.installedSize), V(VBool(a.isCurrentArch), V(VBool(a.endOfLife), AppData(a, after).vs))),
            after)
  }

  // The decoder from installedSize on.
  method ReadAppNumbers(r: BinaryReader, found: InstalledApp, ghost sent: InstalledApp, ghost after: seq<byte>)
    returns (o: Option<InstalledApp>)
    modifies r
    ensures Holds(r.view, old(r.pos), AppNumbers(sent, after)) && old(r.m) == AppNumbers(sent, after) ==>
      o == Some(DartApp(sent).(ref := found.ref, origin := found.origin, latestCommit := found.latestCommit,
                               installedPath := found.installedPath))
  {
    var installedSize :- r.ReadUint64();
    var isCurrentArch :- r.ReadBool();
    var endOfLife :- r.ReadBool();
    o := ReadAppData(r, found.(installedSize := installedSize, isCurrentArch := isCurrentArch, endOfLife := endOfLife),
                     sent, after);
  }

  function AppData(a: InstalledApp, after: seq<byte>): Message {
    Message(F(Str, F(Str, F(Str, F(Str, F(Str, NoField))))),
            V(VStr(a.endOfLifeRebase), V(VStr(a.appDataName), V(VStr(a.appDataSummary), V(VStr(a.appDataVersion),
              V(VStr(a.appDataIcon), NoValue))))),
            after)
  }

  // The decoder from endOfLifeRebase on.
  method ReadAppData(r: BinaryReader, found: InstalledApp, ghost sent: InstalledApp, ghost after: seq<byte>)
    returns (o: Option<InstalledApp>)
    modifies r
    ensures Holds(r.view, old(r.pos), AppData(sent, after)) && old(r.m) == AppData(sent, after) ==>
      o == Some(found.(endOfLifeRebase := sent.endOfLifeRebase, appDataName := sent.appDataName,
                       appDataSummary := sent.appDataSummary, appDataVersion := sent.appDataVersion,
                       appDataIcon := sent.appDataIcon))
  {
    var endOfLifeRebase :- r.ReadString();
    var appDataName :- r.ReadString();
    var appDataSummary :- r.ReadString();
    var appDataVersion :- r.ReadString();
    var appDataIcon :- r.ReadString();
    o := Some(found.(endOfLifeRebase := endOfLifeRebase, appDataName := appDataName, appDataSummary := appDataSummary,
                     appDataVersion := appDataVersion, appDataIcon := appDataIcon));
  }

  // ── Remotes ─────────────────────────────────────────────────────────────

  datatype RemoteSubset = NoSubset | Verified | Floss | VerifiedFloss

  const VERIFIED: Text := [118, 101, 114, 105, 102, 105, 101, 100]
  const FLOSS: Text := [102, 108, 111, 115, 115]
  const VERIFIED_FLOSS: Text := VERIFIED + [95] + FLOSS

  function SubsetFromApi(t: Text): RemoteSubset {
    if t == VERIFIED then Verified
    else if t == FLOSS then Floss
    else if t == VERIFIED_FLOSS then VerifiedFloss
    else NoSubset
  }

  function SubsetApi(s: RemoteSubset): Text {
    match s
    case NoSubset => []
    case Verified => VERIFIED
    case Floss => FLOSS
    case VerifiedFloss => VERIFIED_FLOSS
  }

  datatype RemoteType = User | System | Static

  function RemoteTypeFrom(n: int): RemoteType {
    if n == 1 then System else if n == 2 then Static else User
  }

  // The names on the wire, each its own; anything else is the default.
  lemma RemoteNames(s: RemoteSubset, n: int)
    ensures SubsetFromApi(SubsetApi(s)) == s && (SubsetApi(s) == [] <==> s == NoSubset)
    ensures SubsetFromApi([118, 101, 114, 105, 102, 105, 101, 100]) == Verified
    ensures SubsetFromApi([102, 108, 111, 115, 115]) == Floss
    ensures SubsetFromApi([118, 101, 114, 105, 102, 105, 101, 100, 95, 102, 108, 111, 115, 115]) == VerifiedFloss
    ensures RemoteTypeFrom(0) == User && RemoteTypeFrom(1) == System && RemoteTypeFrom(2) == Static
    ensures n !in {0, 1, 2} ==> RemoteTypeFrom(n) == User
  {
    assert |VERIFIED| == 8 && |FLOSS| == 5 && |VERIFIED_FLOSS| == 14;
  }

  datatype FlatpakRemote = FlatpakRemote(
    name: Text, url: Text, title: Text, comment: Text, description: Text, homepage: Text, defaultBranch: Text,
    subset: RemoteSubset, collectionId: Text, filter: Text, remoteType: RemoteType, disabled: bool, gpgVerify: bool,
    noDeps: bool, priority: int)

  function DartRemote(r: FlatpakRemoteInfo): FlatpakRemote {
    FlatpakRemote(r.name, r.url, r.title, r.comment, r.description, r.homepage, r.defaultBranch,
                  SubsetFromApi(r.subset), r.collectionId, r.filter, RemoteTypeFrom(r.remoteType), r.disabled,
                  r.gpgVerify, r.noDeps, r.priority)
  }

  // Every field is shown as it was sent, under its own name; only the subset and the
  // type are translated.
  lemma RemoteIsShown(r: FlatpakRemoteInfo)
    ensures var d := DartRemote(r);
      && d.name == r.name && d.url == r.url && d.title == r.title && d.comment == r.comment
      && d.description == r.description && d.homepage == r.homepage && d.defaultBranch == r.defaultBranch
      && d.subset == SubsetFromApi(r.subset) && d.collectionId == r.collectionId && d.filter == r.filter
      && d.remoteType == RemoteTypeFrom(r.remoteType) && d.disabled == r.disabled && d.gpgVerify == r.gpgVerify
      && d.noDeps == r.noDeps && d.priority == r.priority
  {
  }

  function RemoteFlags(r: FlatpakRemoteInfo, after: seq<byte>): Message {
    Message(F(I32, F(Bool, F(Bool, F(Bool, F(I32, NoField))))),
            V(VInt(r.remoteType), V(VBool(r.disabled), V(VBool(r.gpgVerify), V(VBool(r.noDeps), V(VInt(r.priority), NoValue))))),
            after)
  }

  // The decoder from remoteType on.
  method ReadRemoteFlags(r: BinaryReader, texts: FlatpakRemote, ghost sent: FlatpakRemoteInfo, ghost after: seq<byte>)
    returns (o: Option<FlatpakRemote>)
    modifies r
    ensures Holds(r.view, old(r.pos), RemoteFlags(sent, after)) && old(r.m) == RemoteFlags(sent, after) ==>
      o == Some(texts.(remoteType := RemoteTypeFrom(sent.remoteType), disabled := sent.disabled,
                       gpgVerify := sent.gpgVerify, noDeps := sent.noDeps, priority := sent.priority))
  {
    var remoteType :- r.ReadInt32();
    var disabled :- r.ReadBool();
    var gpgVerify :- r.ReadBool();
    var noDeps :- r.ReadBool();
    var priority :- r.ReadInt32();
    o := Some(texts.(remoteType := RemoteTypeFrom(remoteType), disabled := disabled, gpgVerify := gpgVerify,
                     noDeps := noDeps, priority := priority));
  }

  function RemoteOrigin(r: FlatpakRemoteInfo, after: seq<byte>): Message {
    Message(F(Str, F(Str, F(Str, RemoteFlags(r, after).fields))),
            V(VStr(r.subset), V(VStr(r.collectionId), V(VStr(r.filter), RemoteFlags(r, after).vs))), after)
  }

  // The decoder from subset on.
  method ReadRemoteOrigin(r: BinaryReader, texts: FlatpakRemote, ghost sent: FlatpakRemoteInfo, ghost after: seq<byte>)
    returns (o: Option<FlatpakRemote>)
    modifies r
    ensures Holds(r.view, old(r.pos), RemoteOrigin(sent, after)) && old(r.m) == RemoteOrigin(sent, after) ==>
      o == Some(DartRemote(sent).(name := texts.name, url := texts.url, title := texts.title, comment := texts.comment,
                                  description := texts.description, homepage := texts.homepage,
                                  defaultBranch := texts.defaultBranch))
  {
    var subset :- r.ReadString();
    var collectionId :- r.ReadString();
    var filter :- r.ReadString();
    o := ReadRemoteFlags(r, texts.(subset := SubsetFromApi(subset), collectionId := collectionId, filter := filter),
                         sent, after);
  }

  method DecodeFlatpakRemote(buffer: seq<byte>, offsetInBytes: nat, offset: nat,
                             ghost sent: FlatpakRemoteInfo, ghost after: seq<byte>)
    returns (o: Option<FlatpakRemote>)
    requires Addressable(buffer) && offsetInBytes <= |buffer|
    ensures Carries(buffer, offsetInBytes, offset, Message(REMOTE_FIELDS, RemoteValues(sent), after)) ==>
      o == Some(DartRemote(sent))
  {
    var r := new BinaryReader(buffer, offsetInBytes, offset, Message(REMOTE_FIELDS, RemoteValues(sent), after));
    var name :- r.ReadString();
    var url :- r.ReadString();
    var title :- r.ReadString();
    var comment :- r.ReadString();
    var description :- r.ReadString();
    var homepage :- r.ReadString();
    var defaultBranch :- r.ReadString();
    var texts := FlatpakRemote(name, url, title, comment, description, homepage, defaultBranch, NoSubset, [], [],
                               User, false, false, false, 0);
    o := ReadRemoteOrigin(r, texts, sent, after);
  }
}

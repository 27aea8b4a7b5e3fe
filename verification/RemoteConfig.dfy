/** Modifying a remote: a Dart change set is encoded, decoded by the bridge and
    applied to a FlatpakRemote field by field. */
module RemoteConfig {

  import opened Bytes
  import opened BeveLite
  import opened GlazeIO
  import opened WireTypes
  import opened DartCodec
  import opened Wrappers

  // ── Dart side ───────────────────────────────────────────────────────────

  // FlatpakRemoteConfig; null is None.
  datatype Changes = Changes(
    url: Option<Text>, title: Option<Text>, comment: Option<Text>, homepage: Option<Text>,
    defaultBranch: Option<Text>, gpgKeyData: Option<seq<byte>>, subset: Option<RemoteSubset>,
    collectionId: Option<Text>, filter: Option<Text>, priority: Option<int>, gpgVerify: Option<bool>,
    disabled: Option<bool>, noDeps: Option<bool>)

  function OrEmpty(t: Option<seq<byte>>): seq<byte> {
    if t.Some? then t.value else []
  }

  function TriState(b: Option<bool>): int {
    if b.None? then -1 else if b.value then 1 else 0
  }

  // setInt32 keeps the low 32 bits of a Dart int.
  function WrapInt32(n: int): int {
    ToSigned(ToUnsigned(n, 4), 4)
  }

  // The RemoteConfig the encoder stands for.
  function OnTheWire(c: Changes): RemoteConfig {
    RemoteConfig(
      OrEmpty(c.url), OrEmpty(c.title), OrEmpty(c.comment), OrEmpty(c.homepage), OrEmpty(c.defaultBranch),
      OrEmpty(c.gpgKeyData), if c.subset.Some? then SubsetApi(c.subset.value) else [], OrEmpty(c.collectionId),
      OrEmpty(c.filter), if c.priority.Some? then WrapInt32(c.priority.value) else -1, TriState(c.gpgVerify),
      TriState(c.disabled), TriState(c.noDeps))
  }

  predicate Short(t: Option<seq<byte>>) {
    t.Some? ==> |t.value| < Pow256(8)
  }

  // No Dart list is longer than a uint64 can say.
  predicate Sized(c: Changes) {
    && Short(c.url) && Short(c.title) && Short(c.comment) && Short(c.homepage) && Short(c.defaultBranch)
    && Short(c.gpgKeyData) && Short(c.collectionId) && Short(c.filter)
  }

  // _BinaryWriter. The ghost side is the struct being written, less the fields
  // already in the buffer.
  class BinaryWriter {
    var buf: seq<byte>
    ghost var m: Message

    constructor (ghost m: Message)
      ensures buf == [] && this.m == m
    {
      buf := [];
      this.m := m;
    }

    // The next field of the struct is v, of the kind s.
    ghost predicate Next(s: Schema, v: Value)
      reads this`m
    {
      m.Typed() && m.fields.F? && m.fields.head == s && m.vs.head == v
    }

    ghost method Wrote(s: Schema, v: Value, before: seq<byte>)
      requires Next(s, v) ==> HasType(s, v) && buf == before + Write(s, v)
      modifies this`m
      ensures m == old(m).Advance()
      ensures old(Next(s, v)) ==> m.Typed() && buf + m.Bytes() == before + old(m).Bytes()
    {
      if Next(s, v) {
        FirstField(m);
        Associate(before, Write(s, v), m.Advance().Bytes());
      }
      m := m.Advance();
    }

    method WriteString(t: Text)
      requires |t| < Pow256(8)
      modifies this
      ensures m == old(m).Advance()
      ensures old(Next(Str, VStr(t))) ==> m.Typed() && buf + m.Bytes() == old(buf) + old(m).Bytes()
    {
      ghost var before := buf;
      buf := buf + LittleEndian(|t|, 8);
      buf := buf + t;
      Associate(before, LittleEndian(|t|, 8), t);
      Wrote(Str, VStr(t), before);
    }

    method WriteByteVector(bytes: seq<byte>)
      requires |bytes| < Pow256(8)
      modifies this
      ensures m == old(m).Advance()
      ensures old(Next(Vec(U8), VVec(ByteValues(bytes)))) ==> m.Typed() && buf + m.Bytes() == old(buf) + old(m).Bytes()
    {
      ghost var before := buf;
      buf := buf + LittleEndian(|bytes|, 8);
      buf := buf + bytes;
      Associate(before, LittleEndian(|bytes|, 8), bytes);
      ByteVector(bytes);
      Wrote(Vec(U8), VVec(ByteValues(bytes)), before);
    }

    method WriteInt32(n: int)
      modifies this
      ensures m == old(m).Advance()
      ensures old(Next(I32, VInt(WrapInt32(n)))) ==> m.Typed() && buf + m.Bytes() == old(buf) + old(m).Bytes()
    {
      ghost var before := buf;
      buf := buf + LittleEndian(ToUnsigned(n, 4), 4);
      WrapsBack(n, 4);
      Wrote(I32, VInt(WrapInt32(n)), before);
    }

    // addByte(v & 0xFF)
    method WriteInt8(n: int)
      requires FitsSigned(n, 1)
      modifies this
      ensures m == old(m).Advance()
      ensures old(Next(I8, VInt(n))) ==> m.Typed() && buf + m.Bytes() == old(buf) + old(m).Bytes()
    {
      ghost var before := buf;
      buf := buf + [n % 256];
      assert ToUnsigned(n, 1) == n % 256;
      assert LittleEndian(n % 256, 1) == [n % 256];
      Wrote(I8, VInt(n), before);
    }
  }

  lemma WrapsBack(n: int, width: nat)
    ensures FitsSigned(ToSigned(ToUnsigned(n, width), width), width)
    ensures ToUnsigned(ToSigned(ToUnsigned(n, width), width), width) == ToUnsigned(n, width)
  {
    var u, m: int := ToUnsigned(n, width), Pow256(width);
    if 2 * u < m {
      DivUnique(u, m, 0, u);
    } else {
      DivUnique(u - m, m, -1, u);
    }
  }

  // vector<uint8_t> is its length and its bytes.
  lemma ByteVector(bytes: seq<byte>)
    requires |bytes| < Pow256(8)
    ensures HasType(Vec(U8), VVec(ByteValues(bytes)))
    ensures Write(Vec(U8), VVec(ByteValues(bytes))) == LittleEndian(|bytes|, 8) + bytes
  {
    ByteItems(bytes, 0);
    assert bytes[0..] == bytes;
  }

  lemma {:induction false} ByteItems(bytes: seq<byte>, k: nat)
    requires k <= |bytes|
    ensures forall i :: 0 <= i < |bytes| ==> HasType(U8, ByteValues(bytes)[i])
    ensures WriteItems(U8, ByteValues(bytes), k) == bytes[k..]
    decreases |bytes| - k
  {
    if k < |bytes| {
      ByteItems(bytes, k + 1);
      assert Write(U8, VInt(bytes[k])) == [bytes[k]] by {
        assert ToUnsigned(bytes[k], 1) == bytes[k] % 256 == bytes[k];
        assert LittleEndian(bytes[k], 1) == [bytes[k]];
      }
      assert bytes[k..] == [bytes[k]] + bytes[k + 1..];
    }
  }

  function ConfigMessage(c: RemoteConfig): Message {
    Message(CONFIG_FIELDS, ConfigValues(c), [])
  }

  lemma TriStateFits(b: Option<bool>)
    ensures FitsSigned(TriState(b), 1)
  {
  }

  // The fields still to be written once the first five strings are.
  function KeyMessage(w: RemoteConfig): Message {
    Message(F(Vec(U8), SettingsMessage(w).fields), V(VVec(ByteValues(w.gpgKeyData)), SettingsMessage(w).vs), [])
  }

  // The fields from subset on.
  function SettingsMessage(w: RemoteConfig): Message {
    Message(F(Str, F(Str, F(Str, NumbersMessage(w).fields))),
            V(VStr(w.subset), V(VStr(w.collectionId), V(VStr(w.filter), NumbersMessage(w).vs))), [])
  }

  function NumbersMessage(w: RemoteConfig): Message {
    Message(F(I32, F(I8, F(I8, F(I8, NoField)))),
            V(VInt(w.priority), V(VInt(w.gpgVerify), V(VInt(w.disabled), V(VInt(w.noDeps), NoValue)))), [])
  }

  predicate FlagsFit(w: RemoteConfig) {
    FitsSigned(w.gpgVerify, 1) && FitsSigned(w.disabled, 1) && FitsSigned(w.noDeps, 1)
  }

  lemma OneMoreField(s: Schema, v: Value, fields: Fields, vs: Values)
    requires HasType(s, v) && HaveTypes(fields, vs)
    ensures HaveTypes(F(s, fields), V(v, vs))
  {
  }

  lemma OneMoreText(t: Text, fields: Fields, vs: Values)
    requires |t| < Pow256(8) && HaveTypes(fields, vs)
    ensures HaveTypes(F(Str, fields), V(VStr(t), vs))
  {
  }

  lemma NumbersAreTyped(w: RemoteConfig)
    requires FitsSigned(w.priority, 4) && FlagsFit(w)
    ensures NumbersMessage(w).Typed()
  {
    OneMoreField(I8, VInt(w.noDeps), NoField, NoValue);
    OneMoreField(I8, VInt(w.disabled), F(I8, NoField), V(VInt(w.noDeps), NoValue));
    OneMoreField(I8, VInt(w.gpgVerify), F(I8, F(I8, NoField)), V(VInt(w.disabled), V(VInt(w.noDeps), NoValue)));
    OneMoreField(I32, VInt(w.priority), F(I8, F(I8, F(I8, NoField))),
                 V(VInt(w.gpgVerify), V(VInt(w.disabled), V(VInt(w.noDeps), NoValue))));
  }

  lemma ConfigIsTyped(w: RemoteConfig)
    requires FitsSigned(w.priority, 4) && FlagsFit(w)
    requires |w.url| < Pow256(8) && |w.title| < Pow256(8) && |w.comment| < Pow256(8) && |w.homepage| < Pow256(8)
    requires |w.defaultBranch| < Pow256(8) && |w.gpgKeyData| < Pow256(8) && |w.subset| < Pow256(8)
    requires |w.collectionId| < Pow256(8) && |w.filter| < Pow256(8)
    ensures ConfigMessage(w).Typed() && KeyMessage(w).Typed() && SettingsMessage(w).Typed() && NumbersMessage(w).Typed()
  {
    NumbersAreTyped(w);
    var f0, v0 := NumbersMessage(w).fields, NumbersMessage(w).vs;
    OneMoreText(w.filter, f0, v0);
    OneMoreText(w.collectionId, F(Str, f0), V(VStr(w.filter), v0));
    OneMoreText(w.subset, F(Str, F(Str, f0)), V(VStr(w.collectionId), V(VStr(w.filter), v0)));
    ByteVector(w.gpgKeyData);
    OneMoreField(Vec(U8), VVec(ByteValues(w.gpgKeyData)), SettingsMessage(w).fields, SettingsMessage(w).vs);
    var f1, v1 := KeyMessage(w).fields, KeyMessage(w).vs;
    OneMoreText(w.defaultBranch, f1, v1);
    var f2, v2 := F(Str, f1), V(VStr(w.defaultBranch), v1);
    OneMoreText(w.homepage, f2, v2);
    OneMoreText(w.comment, F(Str, f2), V(VStr(w.homepage), v2));
    var f4, v4 := F(Str, F(Str, f2)), V(VStr(w.comment), V(VStr(w.homepage), v2));
    OneMoreText(w.title, f4, v4);
    OneMoreText(w.url, F(Str, f4), V(VStr(w.title), v4));
  }

  lemma OnTheWireIsTyped(c: Changes)
    requires Sized(c)
    ensures var w := OnTheWire(c);
      ConfigMessage(w).Typed() && KeyMessage(w).Typed() && SettingsMessage(w).Typed() && NumbersMessage(w).Typed()
  {
    Pow256Values();
    WrapsBack(if c.priority.Some? then c.priority.value else -1, 4);
    assert WrapInt32(-1) == -1;
    TriStateFits(c.gpgVerify);
    TriStateFits(c.disabled);
    TriStateFits(c.noDeps);
    ConfigIsTyped(OnTheWire(c));
  }

  // encodeRemoteConfig writes exactly what the C++ writer would write for the
  // struct the change set stands for.
  method EncodeRemoteConfig(c: Changes) returns (bytes: seq<byte>)
    requires Sized(c)
    ensures ConfigMessage(OnTheWire(c)).Typed()
    ensures bytes == Write(Struct(CONFIG_FIELDS), VStruct(ConfigValues(OnTheWire(c))))
  {
    ghost var m := ConfigMessage(OnTheWire(c));
    OnTheWireIsTyped(c);
    var w := new BinaryWriter(m);
    EncodeTexts(w, c);
    EncodeKey(w, c);
    EncodeNumbers(w, c);
    bytes := w.buf;
    assert m.Bytes() == WriteFields(CONFIG_FIELDS, m.vs) + [] == WriteFields(CONFIG_FIELDS, m.vs);
    assert [] + m.Bytes() == m.Bytes();
  }

  method EncodeTexts(w: BinaryWriter, c: Changes)
    requires Sized(c) && w.m == ConfigMessage(OnTheWire(c)) && w.m.Typed()
    modifies w
    ensures w.m == KeyMessage(OnTheWire(c)) && w.m.Typed()
    ensures w.buf + w.m.Bytes() == old(w.buf) + old(w.m).Bytes()
  {
    w.WriteString(OrEmpty(c.url));
    w.WriteString(OrEmpty(c.title));
    w.WriteString(OrEmpty(c.comment));
    w.WriteString(OrEmpty(c.homepage));
    w.WriteString(OrEmpty(c.defaultBranch));
  }

  method EncodeKey(w: BinaryWriter, c: Changes)
    requires Sized(c) && w.m == KeyMessage(OnTheWire(c)) && w.m.Typed()
    modifies w
    ensures w.m == NumbersMessage(OnTheWire(c)) && w.m.Typed()
    ensures w.buf + w.m.Bytes() == old(w.buf) + old(w.m).Bytes()
  {
    w.WriteByteVector(OrEmpty(c.gpgKeyData));
    w.WriteString(if c.subset.Some? then SubsetApi(c.subset.value) else []);
    w.WriteString(OrEmpty(c.collectionId));
    w.WriteString(OrEmpty(c.filter));
  }

  method EncodeNumbers(w: BinaryWriter, c: Changes)
    requires Sized(c) && w.m == NumbersMessage(OnTheWire(c)) && w.m.Typed()
    modifies w
    ensures w.buf == old(w.buf) + old(w.m).Bytes()
  {
    w.WriteInt32(if c.priority.Some? then c.priority.value else -1);
    w.WriteInt8(TriState(c.gpgVerify));
    w.WriteInt8(TriState(c.disabled));
    w.WriteInt8(TriState(c.noDeps));
    assert w.buf + [] == w.buf;
  }

  // ── The bridge ──────────────────────────────────────────────────────────

  const DEFAULT_CONFIG := RemoteConfig([], [], [], [], [], [], [], [], [], -1, -1, -1, -1)

  function BytesOf(items: seq<Value>): (bytes: seq<byte>)
  {
    seq(|items|, i requires 0 <= i < |items| => if items[i].VInt? && 0 <= items[i].n < 256 then items[i].n as byte else 0)
  }

  function Head(vs: Values): Value {
    if vs.V? then vs.head else VBool(false)
  }

  function Tail(vs: Values): Values {
    if vs.V? then vs.tail else NoValue
  }

  // The fields of a parsed RemoteConfig.
  function ConfigOf(v: Value): RemoteConfig {
    var v0 := if v.VStruct? then v.fields else NoValue;
    var v3 := Tail(Tail(Tail(v0)));
    var v6 := Tail(Tail(Tail(v3)));
    var v9 := Tail(Tail(Tail(v6)));
    RemoteConfig(
      TextOf(Head(v0)), TextOf(Head(Tail(v0))), TextOf(Head(Tail(Tail(v0)))),
      TextOf(Head(v3)), TextOf(Head(Tail(v3))), if Head(Tail(Tail(v3))).VVec? then BytesOf(Head(Tail(Tail(v3))).items) else [],
      TextOf(Head(v6)), TextOf(Head(Tail(v6))), TextOf(Head(Tail(Tail(v6)))),
      IntOf(Head(v9)), IntOf(Head(Tail(v9))), IntOf(Head(Tail(Tail(v9)))), IntOf(Head(Tail(Tail(Tail(v9))))))
  }

  lemma ConfigOfValues(c: RemoteConfig)
    ensures ConfigOf(VStruct(ConfigValues(c))) == c
  {
    assert BytesOf(ByteValues(c.gpgKeyData)) == c.gpgKeyData;
  }

  // A null or empty buffer, or one that does not parse, decodes to the defaults.
  method DecodeConfig(buf: seq<byte>) returns (cfg: RemoteConfig)
    ensures cfg == Decoded(buf)
  {
    cfg := DEFAULT_CONFIG;
    if |buf| > 0 {
      var ok, v := ReadBinary(Struct(CONFIG_FIELDS), buf, VStruct(ConfigValues(cfg)));
      ConfigOfValues(cfg);
      cfg := ConfigOf(v);
    }
  }

  function Decoded(buf: seq<byte>): RemoteConfig {
    var p := Read(Struct(CONFIG_FIELDS), buf);
    if buf != [] && p.Got? then ConfigOf(p.value) else DEFAULT_CONFIG
  }

  // What libflatpak keeps of a remote.
  datatype RemoteState = RemoteState(
    url: Text, title: Text, comment: Text, homepage: Text, defaultBranch: Text, collectionId: Text, filter: Text,
    gpgKey: seq<byte>, gpgVerify: bool, disabled: bool, noDeps: bool, prio: int, subset: Text)

  // A change to each field, or none.
  datatype Effect = Effect(
    url: Option<Text>, title: Option<Text>, comment: Option<Text>, homepage: Option<Text>,
    defaultBranch: Option<Text>, collectionId: Option<Text>, filter: Option<Text>, gpgKey: Option<seq<byte>>,
    gpgVerify: Option<bool>, disabled: Option<bool>, noDeps: Option<bool>, prio: Option<int>)

  function Over<T>(change: Option<T>, was: T): T {
    if change.Some? then change.value else was
  }

  // The remote with exactly the changed fields replaced.
  function Overlay(e: Effect, r: RemoteState): RemoteState {
    RemoteState(
      Over(e.url, r.url), Over(e.title, r.title), Over(e.comment, r.comment), Over(e.homepage, r.homepage),
      Over(e.defaultBranch, r.defaultBranch), Over(e.collectionId, r.collectionId), Over(e.filter, r.filter),
      Over(e.gpgKey, r.gpgKey), Over(e.gpgVerify, r.gpgVerify), Over(e.disabled, r.disabled), Over(e.noDeps, r.noDeps),
      Over(e.prio, r.prio), r.subset)
  }

  class FlatpakRemote {
    var url: Text
    var title: Text
    var comment: Text
    var homepage: Text
    var defaultBranch: Text
    var collectionId: Text
    var filter: Text
    var gpgKey: seq<byte>
    var gpgVerify: bool
    var disabled: bool
    var noDeps: bool
    var prio: int
    var subset: Text

    constructor (r: RemoteState)
      ensures State() == r
    {
      url, title, comment, homepage, defaultBranch := r.url, r.title, r.comment, r.homepage, r.defaultBranch;
      collectionId, filter, gpgKey, gpgVerify := r.collectionId, r.filter, r.gpgKey, r.gpgVerify;
      disabled, noDeps, prio, subset := r.disabled, r.noDeps, r.prio, r.subset;
    }

    function State(): RemoteState
      reads this
    {
      RemoteState(url, title, comment, homepage, defaultBranch, collectionId, filter, gpgKey, gpgVerify, disabled,
                  noDeps, prio, subset)
    }

    // apply_config: one guarded setter after another; nothing is done with subset.
    method ApplyConfig(cfg: RemoteConfig)
      modifies this
      ensures State() == Overlay(WireEffect(cfg), old(State()))
    {
      ApplyNames(cfg);
      ApplyOrigin(cfg);
      ApplySettings(cfg);
    }

    method ApplyNames(cfg: RemoteConfig)
      modifies `url, `title, `comment, `homepage
      ensures var was := old(State());
        State() == was.(url := Over(IfAny(cfg.url), was.url), title := Over(IfAny(cfg.title), was.title),
                        comment := Over(IfAny(cfg.comment), was.comment),
                        homepage := Over(IfAny(cfg.homepage), was.homepage))
    {
      if |cfg.url| > 0 { url := CStr(cfg.url); }
      if |cfg.title| > 0 { title := CStr(cfg.title); }
      if |cfg.comment| > 0 { comment := CStr(cfg.comment); }
      if |cfg.homepage| > 0 { homepage := CStr(cfg.homepage); }
    }

    method ApplyOrigin(cfg: RemoteConfig)
      modifies `defaultBranch, `collectionId, `filter, `gpgKey
      ensures var was := old(State());
        State() == was.(defaultBranch := Over(IfAny(cfg.defaultBranch), was.defaultBranch),
                        collectionId := Over(IfAny(cfg.collectionId), was.collectionId),
                        filter := Over(IfAny(cfg.filter), was.filter),
                        gpgKey := if cfg.gpgKeyData == [] then was.gpgKey else cfg.gpgKeyData)
    {
      if |cfg.defaultBranch| > 0 { defaultBranch := CStr(cfg.defaultBranch); }
      if |cfg.collectionId| > 0 { collectionId := CStr(cfg.collectionId); }
      if |cfg.filter| > 0 { filter := CStr(cfg.filter); }
      if |cfg.gpgKeyData| > 0 { gpgKey := cfg.gpgKeyData; }
    }

    method ApplySettings(cfg: RemoteConfig)
      modifies `gpgVerify, `disabled, `noDeps, `prio
      ensures var was := old(State());
        State() == was.(gpgVerify := Over(FromTriState(cfg.gpgVerify), was.gpgVerify),
                        disabled := Over(FromTriState(cfg.disabled), was.disabled),
                        noDeps := Over(FromTriState(cfg.noDeps), was.noDeps),
                        prio := if cfg.priority >= 0 then cfg.priority else was.prio)
    {
      if cfg.gpgVerify >= 0 { gpgVerify := cfg.gpgVerify != 0; }
      if cfg.disabled >= 0 { disabled := cfg.disabled != 0; }
      if cfg.noDeps >= 0 { noDeps := cfg.noDeps != 0; }
      if cfg.priority >= 0 { prio := cfg.priority; }
    }
  }

  function IfAny(t: Text): Option<Text> {
    if t == [] then None else Some(CStr(t))
  }

  function WireEffect(c: RemoteConfig): Effect {
    Effect(IfAny(c.url), IfAny(c.title), IfAny(c.comment), IfAny(c.homepage), IfAny(c.defaultBranch),
           IfAny(c.collectionId), IfAny(c.filter), if c.gpgKeyData == [] then None else Some(c.gpgKeyData),
           FromTriState(c.gpgVerify), FromTriState(c.disabled), FromTriState(c.noDeps),
           if c.priority >= 0 then Some(c.priority) else None)
  }

  function FromTriState(n: int): Option<bool> {
    if n >= 0 then Some(n != 0) else None
  }

  // ── The whole way ───────────────────────────────────────────────────────

  function TextEffect(t: Option<Text>): Option<Text> {
    if t.Some? && t.value != [] then Some(CStr(t.value)) else None
  }

  // What a change set asks for, field by field: a text or key that is set and not
  // empty, a flag that is set, a priority whose low 32 bits are not negative.
  function EffectOf(c: Changes): Effect {
    Effect(TextEffect(c.url), TextEffect(c.title), TextEffect(c.comment), TextEffect(c.homepage),
           TextEffect(c.defaultBranch), TextEffect(c.collectionId), TextEffect(c.filter),
           if c.gpgKeyData.Some? && c.gpgKeyData.value != [] then c.gpgKeyData else None,
           c.gpgVerify, c.disabled, c.noDeps,
           if c.priority.Some? && WrapInt32(c.priority.value) >= 0 then Some(WrapInt32(c.priority.value)) else None)
  }

  lemma WireKeepsTheEffect(c: Changes)
    ensures WireEffect(OnTheWire(c)) == EffectOf(c)
  {
  }

  // What the bridge makes of the first kept bytes of an encoded change set.
  lemma PushedConfig(c: Changes, kept: nat)
    requires Sized(c) && ConfigMessage(OnTheWire(c)).Typed()
    ensures var bytes := Write(Struct(CONFIG_FIELDS), VStruct(ConfigValues(OnTheWire(c))));
      && (kept < |bytes| ==> Decoded(bytes[..kept]) == DEFAULT_CONFIG)
      && (bytes != [] ==> Decoded(bytes) == OnTheWire(c))
  {
    var w := OnTheWire(c);
    var s, v := Struct(CONFIG_FIELDS), VStruct(ConfigValues(w));
    assert HasType(s, v);
    if kept < |Write(s, v)| {
      TruncationIsRejected(s, v, kept);
    }
    RoundTrip(s, v, []);
    assert Write(s, v) + [] == Write(s, v);
    ConfigOfValues(w);
  }

  // Pushing a change set through encoder, decoder and apply_config changes
  // exactly the fields it asks for; a buffer cut short anywhere changes nothing.
  method PushModify(remote: FlatpakRemote, c: Changes, kept: nat) returns (whole: bool)
    requires Sized(c)
    modifies remote
    ensures ConfigMessage(OnTheWire(c)).Typed()
    ensures whole == (kept >= |Write(Struct(CONFIG_FIELDS), VStruct(ConfigValues(OnTheWire(c))))|)
    ensures remote.State() == if whole then Overlay(EffectOf(c), old(remote.State())) else old(remote.State())
  {
    var bytes := EncodeRemoteConfig(c);
    PushedConfig(c, kept);
    whole := kept >= |bytes|;
    var cfg := DecodeConfig(if whole then bytes else bytes[..kept]);
    WireKeepsTheEffect(c);
    remote.ApplyConfig(cfg);
  }

  // A text that is set shows on the remote as it was given exactly when it has no
  // NUL and is not empty; an empty one, which is documented to clear the field, shows
  // only where there was nothing to clear.
  predicate Shows(t: Text, was: Text) {
    if t == [] then was == [] else 0 !in t
  }

  // What a push makes of one text.
  predicate Arrives(change: Option<Text>, was: Text, now: Text) {
    if change.None? then now == was else (now == change.value <==> Shows(change.value, was))
  }

  lemma TextArrives(change: Option<Text>, was: Text)
    ensures Arrives(change, was, Over(TextEffect(change), was))
  {
  }

  lemma TextsArrive(c: Changes, was: RemoteState, now: RemoteState)
    requires now == Overlay(EffectOf(c), was)
    ensures Arrives(c.url, was.url, now.url) && Arrives(c.title, was.title, now.title)
    ensures Arrives(c.comment, was.comment, now.comment) && Arrives(c.homepage, was.homepage, now.homepage)
    ensures Arrives(c.defaultBranch, was.defaultBranch, now.defaultBranch)
    ensures Arrives(c.collectionId, was.collectionId, now.collectionId) && Arrives(c.filter, was.filter, now.filter)
  {
    TextArrives(c.url, was.url);
    TextArrives(c.title, was.title);
    TextArrives(c.comment, was.comment);
    TextArrives(c.homepage, was.homepage);
    TextArrives(c.defaultBranch, was.defaultBranch);
    TextArrives(c.collectionId, was.collectionId);
    TextArrives(c.filter, was.filter);
  }

  lemma SettingsArrive(c: Changes, was: RemoteState, now: RemoteState)
    requires now == Overlay(EffectOf(c), was)
    ensures now.gpgVerify == (if c.gpgVerify.Some? then c.gpgVerify.value else was.gpgVerify)
    ensures now.disabled == (if c.disabled.Some? then c.disabled.value else was.disabled)
    ensures now.noDeps == (if c.noDeps.Some? then c.noDeps.value else was.noDeps)
    ensures now.gpgKey == if c.gpgKeyData.Some? && c.gpgKeyData.value != [] then c.gpgKeyData.value else was.gpgKey
    ensures c.priority.None? ==> now.prio == was.prio
  {
  }

  // A whole buffer, end to end: each text arrives or not as its own value and what
  // the remote had decide, flags and a key that is not empty arrive, and the subset is
  // not touched, set or not.
  method PushWhole(remote: FlatpakRemote, c: Changes)
    requires Sized(c)
    modifies remote
    ensures remote.State() == Overlay(EffectOf(c), old(remote.State()))
    ensures Arrives(c.url, old(remote.url), remote.url) && Arrives(c.title, old(remote.title), remote.title)
    ensures Arrives(c.comment, old(remote.comment), remote.comment)
    ensures Arrives(c.homepage, old(remote.homepage), remote.homepage)
    ensures Arrives(c.defaultBranch, old(remote.defaultBranch), remote.defaultBranch)
    ensures Arrives(c.collectionId, old(remote.collectionId), remote.collectionId)
    ensures Arrives(c.filter, old(remote.filter), remote.filter) && remote.subset == old(remote.subset)
    ensures remote.gpgVerify == (if c.gpgVerify.Some? then c.gpgVerify.value else old(remote.gpgVerify))
    ensures remote.disabled == (if c.disabled.Some? then c.disabled.value else old(remote.disabled))
    ensures remote.noDeps == (if c.noDeps.Some? then c.noDeps.value else old(remote.noDeps))
    ensures remote.gpgKey == if c.gpgKeyData.Some? && c.gpgKeyData.value != [] then c.gpgKeyData.value else old(remote.gpgKey)
    ensures c.priority.None? ==> remote.prio == old(remote.prio)
  {
    OnTheWireIsTyped(c);
    var size := |Write(Struct(CONFIG_FIELDS), VStruct(ConfigValues(OnTheWire(c))))|;
    ghost var was := remote.State();
    var whole := PushModify(remote, c, size);
    TextsArrive(c, was, remote.State());
    SettingsArrive(c, was, remote.State());
  }

  // ── Composition ─────────────────────────────────────────────────────────

  function Later<T>(a: Option<T>, b: Option<T>): Option<T> {
    if b.Some? then b else a
  }

  // The field-wise override of one effect by a later one.
  function Override(a: Effect, b: Effect): Effect {
    Effect(Later(a.url, b.url), Later(a.title, b.title), Later(a.comment, b.comment), Later(a.homepage, b.homepage),
           Later(a.defaultBranch, b.defaultBranch), Later(a.collectionId, b.collectionId), Later(a.filter, b.filter),
           Later(a.gpgKey, b.gpgKey), Later(a.gpgVerify, b.gpgVerify), Later(a.disabled, b.disabled),
           Later(a.noDeps, b.noDeps), Later(a.prio, b.prio))
  }

  lemma OverlayTwice(a: Effect, b: Effect, r: RemoteState)
    ensures Overlay(b, Overlay(a, r)) == Overlay(Override(a, b), r)
  {
  }

  // The override a caller would write: a field of b wherever b sets it.
  function Merge(a: Changes, b: Changes): Changes {
    Changes(Later(a.url, b.url), Later(a.title, b.title), Later(a.comment, b.comment), Later(a.homepage, b.homepage),
            Later(a.defaultBranch, b.defaultBranch), Later(a.gpgKeyData, b.gpgKeyData), Later(a.subset, b.subset),
            Later(a.collectionId, b.collectionId), Later(a.filter, b.filter), Later(a.priority, b.priority),
            Later(a.gpgVerify, b.gpgVerify), Later(a.disabled, b.disabled), Later(a.noDeps, b.noDeps))
  }

  // b blanks a text or key that a sets: it is sent as the empty value, which the
  // bridge takes for "leave alone".
  predicate Blanks(a: Option<seq<byte>>, b: Option<seq<byte>>) {
    a.Some? && a.value != [] && b == Some([])
  }

  // b sets a priority the bridge ignores where a's would have been taken.
  predicate BlanksPriority(a: Option<int>, b: Option<int>) {
    a.Some? && WrapInt32(a.value) >= 0 && b.Some? && WrapInt32(b.value) < 0
  }

  predicate SetsAside(a: Changes, b: Changes) {
    || Blanks(a.url, b.url) || Blanks(a.title, b.title) || Blanks(a.comment, b.comment)
    || Blanks(a.homepage, b.homepage) || Blanks(a.defaultBranch, b.defaultBranch)
    || Blanks(a.collectionId, b.collectionId) || Blanks(a.filter, b.filter) || Blanks(a.gpgKeyData, b.gpgKeyData)
    || BlanksPriority(a.priority, b.priority)
  }

  lemma LaterText(a: Option<Text>, b: Option<Text>)
    ensures TextEffect(Later(a, b)) == Later(TextEffect(a), TextEffect(b)) <==> !Blanks(a, b)
  {
  }

  lemma MergedEffect(a: Changes, b: Changes)
    ensures EffectOf(Merge(a, b)) == Override(EffectOf(a), EffectOf(b)) <==> !SetsAside(a, b)
    ensures Weaker(EffectOf(Merge(a, b)), Override(EffectOf(a), EffectOf(b)))
  {
    LaterText(a.url, b.url);
    LaterText(a.title, b.title);
    LaterText(a.comment, b.comment);
    LaterText(a.homepage, b.homepage);
    LaterText(a.defaultBranch, b.defaultBranch);
    LaterText(a.collectionId, b.collectionId);
    LaterText(a.filter, b.filter);
  }

  predicate Less<T(==)>(a: Option<T>, b: Option<T>) {
    a.None? || a == b
  }

  // m makes some of o's changes and no other.
  predicate Weaker(m: Effect, o: Effect) {
    && Less(m.url, o.url) && Less(m.title, o.title) && Less(m.comment, o.comment) && Less(m.homepage, o.homepage)
    && Less(m.defaultBranch, o.defaultBranch) && Less(m.collectionId, o.collectionId) && Less(m.filter, o.filter)
    && Less(m.gpgKey, o.gpgKey) && Less(m.gpgVerify, o.gpgVerify) && Less(m.disabled, o.disabled)
    && Less(m.noDeps, o.noDeps) && Less(m.prio, o.prio)
  }

  function Unlike(t: Option<seq<byte>>): seq<byte> {
    if t == Some([]) then [1] else []
  }

  // A remote on which every change of e shows.
  function Foil(e: Effect): RemoteState {
    RemoteState(
      Unlike(e.url), Unlike(e.title), Unlike(e.comment), Unlike(e.homepage), Unlike(e.defaultBranch),
      Unlike(e.collectionId), Unlike(e.filter), Unlike(e.gpgKey), e.gpgVerify == Some(false),
      e.disabled == Some(false), e.noDeps == Some(false), if e.prio == Some(0) then 1 else 0, [])
  }

  lemma FoilTells(m: Effect, o: Effect)
    requires Weaker(m, o) && m != o
    ensures Overlay(m, Foil(o)) != Overlay(o, Foil(o))
  {
  }

  // One push of the merged change set does what the two pushes do, on every
  // remote, exactly when b sets no field aside that a had set.
  lemma MergeIsTwoPushes(a: Changes, b: Changes)
    ensures (forall r :: Overlay(EffectOf(Merge(a, b)), r) == Overlay(EffectOf(b), Overlay(EffectOf(a), r)))
      <==> !SetsAside(a, b)
  {
    var o, m := Override(EffectOf(a), EffectOf(b)), EffectOf(Merge(a, b));
    MergedEffect(a, b);
    forall r ensures Overlay(EffectOf(b), Overlay(EffectOf(a), r)) == Overlay(o, r) {
      OverlayTwice(EffectOf(a), EffectOf(b), r);
    }
    if m != o {
      FoilTells(m, o);
    }
  }

  const NO_CHANGES :=
    Changes(None, None, None, None, None, None, None, None, None, None, None, None, None)

  // Setting the filter and the subset to nothing on a remote that has both clears
  // neither, by way of the encoder, the decoder and apply_config.
  method BlanksClearNothing() returns (c: Changes, remote: FlatpakRemote)
    ensures Sized(c) && c.filter == Some([]) && c.subset == Some(NoSubset) && fresh(remote)
    ensures remote.filter == [47, 102] && remote.subset == FLOSS
  {
    c := NO_CHANGES.(filter := Some([]), subset := Some(NoSubset));
    var r := RemoteState([], [], [], [], [], [], [47, 102], [], false, false, false, 0, FLOSS);
    remote := new FlatpakRemote(r);
    PushWhole(remote, c);
    assert remote.State().filter == r.filter && remote.State().subset == r.subset;
  }

  // A priority reaches the remote as it was given exactly when it fits an int32
  // and is not negative; -1 and anything that wraps below zero is dropped.
  lemma PriorityArrives(c: Changes)
    requires c.priority.Some?
    ensures EffectOf(c).prio == c.priority <==> 0 <= c.priority.value < 0x8000_0000
  {
    Pow256Values();
    var p := c.priority.value;
    if FitsSigned(p, 4) {
      SignedRoundTrip(p, 4);
    }
  }
}

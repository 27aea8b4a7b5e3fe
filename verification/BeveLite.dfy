/** The BEVE-Lite wire format of glz::Writer and glz::Reader: values are written
    in schema order with no tags or names, so the schema alone says where each
    one ends.

    A schema is a type the templates accept. The reader has no overload for a
    bool, optional or vector as the element of an optional or vector; what is
    proved here holds for those too. A floating-point field travels as the
    unsigned integer with its bits. */
module BeveLite {

  import opened Bytes
  import opened Wrappers

  datatype Schema =
    | Prim(width: nat, signed: bool)
    | Bool
    | Str
    | Struct(fields: Fields)
    | Opt(elem: Schema)
    | Vec(elem: Schema)

  // The tuple of glz::meta<T>::fields.
  datatype Fields = NoField | F(head: Schema, tail: Fields)

  // A string is its UTF-8 bytes.
  datatype Value =
    | VInt(n: int)
    | VBool(b: bool)
    | VStr(bytes: seq<byte>)
    | VStruct(fields: Values)
    | VOpt(value: Option<Value>)
    | VVec(items: seq<Value>)

  datatype Values = NoValue | V(head: Value, tail: Values)

  const U8 := Prim(1, false)
  const I8 := Prim(1, true)
  const I32 := Prim(4, true)
  const U32 := Prim(4, false)
  const U64 := Prim(8, false)

  predicate FitsPrim(n: int, width: nat, signed: bool) {
    if signed then FitsSigned(n, width) else 0 <= n < Pow256(width)
  }

  // v is a value of the C++ type described by s. Sizes are size_t.
  predicate HasType(s: Schema, v: Value) {
    match s
    case Prim(width, signed) => v.VInt? && FitsPrim(v.n, width, signed)
    case Bool => v.VBool?
    case Str => v.VStr? && |v.bytes| < Pow256(8)
    case Struct(fields) => v.VStruct? && HaveTypes(fields, v.fields)
    case Opt(elem) => v.VOpt? && (v.value.Some? ==> HasType(elem, v.value.value))
    case Vec(elem) => v.VVec? && |v.items| < Pow256(8) && forall i :: 0 <= i < |v.items| ==> HasType(elem, v.items[i])
  }

  predicate HaveTypes(fields: Fields, vs: Values) {
    match fields
    case NoField => vs.NoValue?
    case F(head, tail) => vs.V? && HasType(head, vs.head) && HaveTypes(tail, vs.tail)
  }

  // ── Writing ─────────────────────────────────────────────────────────────

  function Write(s: Schema, v: Value): seq<byte>
    requires HasType(s, v)
    decreases s, 0
  {
    match s
    case Prim(width, _) => LittleEndian(ToUnsigned(v.n, width), width)
    case Bool => [if v.b then 1 else 0]
    case Str => LittleEndian(|v.bytes|, 8) + v.bytes
    case Struct(fields) => WriteFields(fields, v.fields)
    case Opt(elem) => if v.value.None? then [0] else [1] + Write(elem, v.value.value)
    case Vec(elem) => LittleEndian(|v.items|, 8) + WriteItems(elem, v.items, 0)
  }

  function WriteFields(fields: Fields, vs: Values): seq<byte>
    requires HaveTypes(fields, vs)
    decreases fields, 0
  {
    match fields
    case NoField => []
    case F(head, tail) => Write(head, vs.head) + WriteFields(tail, vs.tail)
  }

  // Items k and later.
  function WriteItems(elem: Schema, items: seq<Value>, k: nat): seq<byte>
    requires k <= |items| && forall i :: 0 <= i < |items| ==> HasType(elem, items[i])
    decreases elem, 1 + |items| - k
  {
    if k == |items| then [] else Write(elem, items[k]) + WriteItems(elem, items, k + 1)
  }

  // ── Reading ─────────────────────────────────────────────────────────────

  // What a read leaves behind: the value and the unread bytes, or a throw.
  datatype Parsed = Thrown | Got(value: Value, rest: seq<byte>)
  datatype ParsedFields = ThrownFields | GotFields(values: Values, rest: seq<byte>)
  datatype ParsedSeq = ThrownSeq | GotSeq(values: seq<Value>, rest: seq<byte>)

  function Prepend(v: Value, p: ParsedSeq): ParsedSeq {
    if p.ThrownSeq? then ThrownSeq else GotSeq([v] + p.values, p.rest)
  }

  // The values read so far, then whatever the rest of the read gives.
  function PrependAll(vs: seq<Value>, p: ParsedSeq): ParsedSeq {
    if p.ThrownSeq? then ThrownSeq else GotSeq(vs + p.values, p.rest)
  }

  function FromUnsigned(u: nat, width: nat, signed: bool): int {
    if signed then ToSigned(u, width) else u
  }

  function Read(s: Schema, data: seq<byte>): Parsed
    decreases s, 0
  {
    match s
    case Prim(width, signed) =>
      if |data| < width then Thrown
      else Got(VInt(FromUnsigned(FromLittleEndian(data[..width]), width, signed)), data[width..])
    case Bool => if data == [] then Thrown else Got(VBool(data[0] != 0), data[1..])
    case Str =>
      if |data| < 8 then Thrown
      else
        var n := FromLittleEndian(data[..8]);
        if |data| - 8 < n then Thrown else Got(VStr(data[8..8 + n]), data[8 + n..])
    case Struct(fields) =>
      var p := ReadFields(fields, data);
      if p.ThrownFields? then Thrown else Got(VStruct(p.values), p.rest)
    case Opt(elem) =>
      if data == [] then Thrown
      else if data[0] == 0 then Got(VOpt(None), data[1..])
      else
        var p := Read(elem, data[1..]);
        if p.Thrown? then Thrown else Got(VOpt(Some(p.value)), p.rest)
    case Vec(elem) =>
      if |data| < 8 then Thrown
      else
        var p := ReadItems(elem, FromLittleEndian(data[..8]), data[8..]);
        if p.ThrownSeq? then Thrown else Got(VVec(p.values), p.rest)
  }

  function ReadFields(fields: Fields, data: seq<byte>): ParsedFields
    decreases fields, 0
  {
    match fields
    case NoField => GotFields(NoValue, data)
    case F(head, tail) =>
      var p := Read(head, data);
      if p.Thrown? then ThrownFields
      else
        var later := ReadFields(tail, p.rest);
        if later.ThrownFields? then ThrownFields else GotFields(V(p.value, later.values), later.rest)
  }

  function ReadItems(elem: Schema, n: nat, data: seq<byte>): ParsedSeq
    decreases elem, 1 + n
  {
    if n == 0 then GotSeq([], data)
    else
      var p := Read(elem, data);
      if p.Thrown? then ThrownSeq else Prepend(p.value, ReadItems(elem, n - 1, p.rest))
  }

  lemma PrependAllSnoc(vs: seq<Value>, v: Value, p: ParsedSeq)
    ensures PrependAll(vs, Prepend(v, p)) == PrependAll(vs + [v], p)
  {
    if p.GotSeq? {
      assert vs + ([v] + p.values) == (vs + [v]) + p.values;
    }
  }

  lemma StartOfItems(p: ParsedSeq)
    ensures PrependAll([], p) == p
  {
    if p.GotSeq? {
      assert [] + p.values == p.values;
    }
  }

  // The loop of the vector reader, one element further.
  lemma NextItem(elem: Schema, n: nat, data: seq<byte>, vs: seq<Value>)
    requires n > 0
    ensures match Read(elem, data)
      case Thrown => PrependAll(vs, ReadItems(elem, n, data)) == ThrownSeq
      case Got(v, rest) =>
        PrependAll(vs, ReadItems(elem, n, data)) == PrependAll(vs + [v], ReadItems(elem, n - 1, rest))
  {
    var p := Read(elem, data);
    if p.Got? {
      PrependAllSnoc(vs, p.value, ReadItems(elem, n - 1, p.rest));
    }
  }

  // ── Round trip ──────────────────────────────────────────────────────────

  lemma LengthPrefix(n: nat, tail: seq<byte>)
    requires n < Pow256(8)
    ensures var data := LittleEndian(n, 8) + tail;
      |data| >= 8 && FromLittleEndian(data[..8]) == n && data[8..] == tail
  {
    LittleEndianRoundTrip(n, 8);
    assert (LittleEndian(n, 8) + tail)[..8] == LittleEndian(n, 8);
  }

  lemma PrimRoundTrip(width: nat, signed: bool, n: int, rest: seq<byte>)
    requires FitsPrim(n, width, signed)
    ensures Read(Prim(width, signed), Write(Prim(width, signed), VInt(n)) + rest) == Got(VInt(n), rest)
  {
    var w := Write(Prim(width, signed), VInt(n));
    assert (w + rest)[..width] == w && (w + rest)[width..] == rest;
    LittleEndianRoundTrip(ToUnsigned(n, width), width);
    if signed {
      SignedRoundTrip(n, width);
    } else {
      DivUnique(n, Pow256(width), 0, n);
    }
  }

  lemma StrRoundTrip(bytes: seq<byte>, rest: seq<byte>)
    requires |bytes| < Pow256(8)
    ensures Read(Str, Write(Str, VStr(bytes)) + rest) == Got(VStr(bytes), rest)
  {
    var data := LittleEndian(|bytes|, 8) + (bytes + rest);
    assert Write(Str, VStr(bytes)) + rest == data;
    LengthPrefix(|bytes|, bytes + rest);
    assert data[8..8 + |bytes|] == bytes;
    assert data[8 + |bytes|..] == rest;
  }

  lemma {:induction false} RoundTrip(s: Schema, v: Value, rest: seq<byte>)
    requires HasType(s, v)
    ensures Read(s, Write(s, v) + rest) == Got(v, rest)
    decreases s, 0
  {
    match s
    case Prim(width, signed) => PrimRoundTrip(width, signed, v.n, rest);
    case Bool =>
    case Str => StrRoundTrip(v.bytes, rest);
    case Struct(fields) => FieldsRoundTrip(fields, v.fields, rest);
    case Opt(elem) =>
      if v.value.Some? {
        assert Write(s, v) + rest == [1] + (Write(elem, v.value.value) + rest);
        RoundTrip(elem, v.value.value, rest);
      }
    case Vec(elem) =>
      var items := WriteItems(elem, v.items, 0);
      assert Write(s, v) + rest == LittleEndian(|v.items|, 8) + (items + rest);
      LengthPrefix(|v.items|, items + rest);
      ItemsRoundTrip(elem, v.items, 0, rest);
      assert v.items[0..] == v.items;
  }

  lemma {:induction false} FieldsRoundTrip(fields: Fields, vs: Values, rest: seq<byte>)
    requires HaveTypes(fields, vs)
    ensures ReadFields(fields, WriteFields(fields, vs) + rest) == GotFields(vs, rest)
    decreases fields, 0
  {
    match fields
    case NoField => assert [] + rest == rest;
    case F(head, tail) =>
      var later := WriteFields(tail, vs.tail);
      assert WriteFields(fields, vs) + rest == Write(head, vs.head) + (later + rest);
      RoundTrip(head, vs.head, later + rest);
      FieldsRoundTrip(tail, vs.tail, rest);
  }

  lemma {:induction false} ItemsRoundTrip(elem: Schema, items: seq<Value>, k: nat, rest: seq<byte>)
    requires k <= |items| && forall i :: 0 <= i < |items| ==> HasType(elem, items[i])
    ensures ReadItems(elem, |items| - k, WriteItems(elem, items, k) + rest) == GotSeq(items[k..], rest)
    decreases elem, 1 + |items| - k
  {
    if k == |items| {
      assert items[k..] == [] && [] + rest == rest;
    } else {
      var later := WriteItems(elem, items, k + 1);
      assert items[k..] == [items[k]] + items[k + 1..];
      assert WriteItems(elem, items, k) + rest == Write(elem, items[k]) + (later + rest);
      RoundTrip(elem, items[k], later + rest);
      ItemsRoundTrip(elem, items, k + 1, rest);
    }
  }

  // ── Truncation ──────────────────────────────────────────────────────────

  // A successful read looks only at the bytes it consumes: whatever follows them
  // is left exactly as it was. This holds of every buffer, written or not.
  lemma {:induction false} ReadIsLocal(s: Schema, data: seq<byte>, more: seq<byte>)
    requires Read(s, data).Got?
    ensures Read(s, data + more) == Got(Read(s, data).value, Read(s, data).rest + more)
    decreases s, 0
  {
    match s
    case Prim(width, signed) => Cut(data, more, 0, width);
    case Bool => Cut(data, more, 0, 1);
    case Str => StrIsLocal(data, more);
    case Struct(fields) => FieldsAreLocal(fields, data, more);
    case Opt(elem) =>
      Cut(data, more, 0, 1);
      if data[0] != 0 {
        ReadIsLocal(elem, data[1..], more);
      }
    case Vec(elem) =>
      Cut(data, more, 0, 8);
      ItemsAreLocal(elem, FromLittleEndian(data[..8]), data[8..], more);
  }

  // What follows a buffer does not change a part of it.
  lemma Cut(data: seq<byte>, more: seq<byte>, i: nat, j: nat)
    requires i <= j <= |data|
    ensures (data + more)[i..j] == data[i..j] && (data + more)[j..] == data[j..] + more
    ensures i == 0 ==> (data + more)[..j] == data[..j]
  {
  }

  lemma StrIsLocal(data: seq<byte>, more: seq<byte>)
    requires Read(Str, data).Got?
    ensures Read(Str, data + more) == Got(Read(Str, data).value, Read(Str, data).rest + more)
  {
    Cut(data, more, 0, 8);
    Cut(data, more, 8, 8 + FromLittleEndian(data[..8]));
  }

  lemma {:induction false} FieldsAreLocal(fields: Fields, data: seq<byte>, more: seq<byte>)
    requires ReadFields(fields, data).GotFields?
    ensures ReadFields(fields, data + more)
            == GotFields(ReadFields(fields, data).values, ReadFields(fields, data).rest + more)
    decreases fields, 0
  {
    match fields
    case NoField =>
    case F(head, tail) =>
      ReadIsLocal(head, data, more);
      FieldsAreLocal(tail, Read(head, data).rest, more);
  }

  lemma {:induction false} ItemsAreLocal(elem: Schema, n: nat, data: seq<byte>, more: seq<byte>)
    requires ReadItems(elem, n, data).GotSeq?
    ensures ReadItems(elem, n, data + more)
            == GotSeq(ReadItems(elem, n, data).values, ReadItems(elem, n, data).rest + more)
    decreases elem, 1 + n
  {
    if n > 0 {
      ReadIsLocal(elem, data, more);
      ItemsAreLocal(elem, n - 1, Read(elem, data).rest, more);
    }
  }

  // Every strict prefix of a written value is rejected.
  lemma TruncationIsRejected(s: Schema, v: Value, k: nat)
    requires HasType(s, v) && k < |Write(s, v)|
    ensures Read(s, Write(s, v)[..k]).Thrown?
  {
    var w := Write(s, v);
    if Read(s, w[..k]).Got? {
      ReadIsLocal(s, w[..k], w[k..]);
      assert w[..k] + w[k..] == w == w + [];
      RoundTrip(s, v, []);
    }
  }

  // The encoding is injective and prefix-free: no written value is the start of
  // another of the same type.
  lemma PrefixFree(s: Schema, a: Value, b: Value)
    requires HasType(s, a) && HasType(s, b) && Write(s, a) <= Write(s, b)
    ensures a == b
  {
    var wa, wb := Write(s, a), Write(s, b);
    assert wb == wa + wb[|wa|..];
    RoundTrip(s, a, wb[|wa|..]);
    RoundTrip(s, b, []);
    assert wb + [] == wb;
  }
}

/** glz::Writer and glz::Reader: the buffer that grows and the pointer that
    advances, proved against the format. A throw is a None result. */
module GlazeIO {

  import opened Bytes
  import opened BeveLite
  import opened Wrappers

  class Writer {
    var buf: seq<byte>

    constructor ()
      ensures buf == []
    {
      buf := [];
    }

    // Memory is not the issue here: an integer is copied out byte by byte.
    method WriteInt(n: int, width: nat)
      modifies this
      ensures buf == old(buf) + LittleEndian(ToUnsigned(n, width), width)
    {
      var u: nat, left: nat := ToUnsigned(n, width), width;
      while left > 0
        invariant left <= width
        invariant buf + LittleEndian(u, left) == old(buf) + LittleEndian(ToUnsigned(n, width), width)
      {
        assert buf + LittleEndian(u, left) == (buf + [u % 256]) + LittleEndian(u / 256, left - 1);
        buf := buf + [u % 256];
        u, left := u / 256, left - 1;
      }
    }

    method WriteBool(b: bool)
      modifies this
      ensures buf == old(buf) + [if b then 1 else 0]
    {
      buf := buf + [if b then 1 else 0];
    }

    // write<uint64_t> of a size().
    method WriteSize(n: nat)
      requires n < Pow256(8)
      modifies this
      ensures buf == old(buf) + LittleEndian(n, 8)
    {
      DivUnique(n, Pow256(8), 0, n);
      WriteInt(n, 8);
    }

    method WriteString(bytes: seq<byte>)
      requires |bytes| < Pow256(8)
      modifies this
      ensures buf == old(buf) + Write(Str, VStr(bytes))
    {
      WriteSize(|bytes|);
      buf := buf + bytes;
    }

    method WriteValue(s: Schema, v: Value)
      requires HasType(s, v)
      modifies this
      ensures buf == old(buf) + Write(s, v)
      decreases s, 0
    {
      match s
      case Prim(width, _) => WriteInt(v.n, width);
      case Bool => WriteBool(v.b);
      case Str => WriteString(v.bytes);
      case Struct(fields) => WriteStruct(fields, v.fields);
      case Opt(elem) => WriteOptional(elem, v.value);
      case Vec(elem) => WriteVector(elem, v.items);
    }

    method WriteOptional(elem: Schema, value: Option<Value>)
      requires value.Some? ==> HasType(elem, value.value)
      modifies this
      ensures buf == old(buf) + Write(Opt(elem), VOpt(value))
      decreases elem, 1
    {
      WriteBool(value.Some?);
      if value.Some? {
        WriteValue(elem, value.value);
        assert buf == old(buf) + ([1] + Write(elem, value.value));
      }
    }

    // detail::each over the field tuple.
    method WriteStruct(fields: Fields, vs: Values)
      requires HaveTypes(fields, vs)
      modifies this
      ensures buf == old(buf) + WriteFields(fields, vs)
      decreases fields, 0
    {
      if fields.F? {
        WriteValue(fields.head, vs.head);
        WriteStruct(fields.tail, vs.tail);
        assert buf == old(buf) + (Write(fields.head, vs.head) + WriteFields(fields.tail, vs.tail));
      }
    }

    method WriteVector(elem: Schema, items: seq<Value>)
      requires |items| < Pow256(8) && forall i :: 0 <= i < |items| ==> HasType(elem, items[i])
      modifies this
      ensures buf == old(buf) + Write(Vec(elem), VVec(items))
      decreases elem, 2
    {
      WriteSize(|items|);
      WriteEach(elem, items);
    }

    // The loop of the vector writer.
    method WriteEach(elem: Schema, items: seq<Value>)
      requires forall i :: 0 <= i < |items| ==> HasType(elem, items[i])
      modifies this
      ensures buf == old(buf) + WriteItems(elem, items, 0)
      decreases elem, 1
    {
      for i := 0 to |items|
        invariant buf + WriteItems(elem, items, i) == old(buf) + WriteItems(elem, items, 0)
      {
        ghost var before, w, later := buf, Write(elem, items[i]), WriteItems(elem, items, i + 1);
        assert (before + w) + later == before + (w + later);
        WriteValue(elem, items[i]);
      }
    }
  }

  class Reader {
    const data: seq<byte>
    var p: nat

    constructor (data: seq<byte>)
      ensures this.data == data && p == 0 && Rest() == data
    {
      this.data := data;
      p := 0;
    }

    // [p, end)
    function Rest(): seq<byte>
      reads this
    {
      if p <= |data| then data[p..] else []
    }

    method ReadInt(width: nat, signed: bool) returns (o: Option<int>)
      modifies this
      requires p <= |data|
      ensures p <= |data|
      ensures match Read(Prim(width, signed), old(Rest()))
        case Thrown => o.None? && p == old(p)
        case Got(v, rest) => o == Some(v.n) && Rest() == rest
    {
      if p + width > |data| {
        return None;
      }
      assert old(Rest())[..width] == data[p..p + width];
      o := Some(FromUnsigned(FromLittleEndian(data[p..p + width]), width, signed));
      p := p + width;
      assert Rest() == old(Rest())[width..];
    }

    method ReadBool() returns (o: Option<bool>)
      requires p <= |data|
      modifies this
      ensures p <= |data|
      ensures match Read(Bool, old(Rest()))
        case Thrown => o.None?
        case Got(v, rest) => o == Some(v.b) && Rest() == rest
      ensures old(Rest()) != [] ==> o == Some(old(Rest())[0] != 0)
    {
      if p >= |data| {
        return None;
      }
      o := Some(data[p] != 0);
      p := p + 1;
      assert Rest() == old(Rest())[1..];
    }

    method ReadString() returns (o: Option<seq<byte>>)
      requires p <= |data|
      modifies this
      ensures p <= |data|
      ensures match Read(Str, old(Rest()))
        case Thrown => o.None?
        case Got(v, rest) => o == Some(v.bytes) && Rest() == rest
    {
      var n := ReadInt(8, false);
      if n.None? || p + n.value > |data| {
        return None;
      }
      o := Some(data[p..p + n.value]);
      assert old(Rest())[8..8 + n.value] == data[p..p + n.value];
      p := p + n.value;
      assert Rest() == old(Rest())[8 + n.value..];
    }

    method ReadValue(s: Schema) returns (o: Option<Value>)
      requires p <= |data|
      modifies this
      ensures p <= |data|
      ensures match Read(s, old(Rest()))
        case Thrown => o.None?
        case Got(v, rest) => o == Some(v) && Rest() == rest
      decreases s, 0
    {
      match s
      case Prim(width, signed) =>
        var n := ReadInt(width, signed);
        o := if n.None? then None else Some(VInt(n.value));
      case Bool =>
        var b := ReadBool();
        o := if b.None? then None else Some(VBool(b.value));
      case Str =>
        var bytes := ReadString();
        o := if bytes.None? then None else Some(VStr(bytes.value));
      case Struct(fields) =>
        var vs := ReadStruct(fields);
        o := if vs.None? then None else Some(VStruct(vs.value));
      case Opt(elem) => o := ReadOptional(elem);
      case Vec(elem) =>
        var items := ReadVector(elem);
        o := if items.None? then None else Some(VVec(items.value));
    }

    method ReadOptional(elem: Schema) returns (o: Option<Value>)
      requires p <= |data|
      modifies this
      ensures p <= |data|
      ensures match Read(Opt(elem), old(Rest()))
        case Thrown => o.None?
        case Got(v, rest) => o == Some(v) && Rest() == rest
      decreases elem, 1
    {
      var present := ReadBool();
      if present.None? {
        return None;
      }
      if !present.value {
        return Some(VOpt(None));
      }
      var value := ReadValue(elem);
      o := if value.None? then None else Some(VOpt(value));
    }

    // detail::each over the field tuple.
    method ReadStruct(fields: Fields) returns (o: Option<Values>)
      requires p <= |data|
      modifies this
      ensures p <= |data|
      ensures match ReadFields(fields, old(Rest()))
        case ThrownFields => o.None?
        case GotFields(vs, rest) => o == Some(vs) && Rest() == rest
      decreases fields, 0
    {
      if fields.NoField? {
        return Some(NoValue);
      }
      var head :- ReadValue(fields.head);
      var tail :- ReadStruct(fields.tail);
      o := Some(V(head, tail));
    }

    method ReadVector(elem: Schema) returns (o: Option<seq<Value>>)
      requires p <= |data|
      modifies this
      ensures p <= |data|
      ensures match Read(Vec(elem), old(Rest()))
        case Thrown => o.None?
        case Got(v, rest) => o == Some(v.items) && Rest() == rest
      decreases elem, 2
    {
      var n := ReadInt(8, false);
      if n.None? {
        return None;
      }
      o := ReadEach(elem, n.value);
    }

    // The loop of the vector reader: n elements, pushed back one at a time.
    method ReadEach(elem: Schema, n: nat) returns (o: Option<seq<Value>>)
      requires p <= |data|
      modifies this
      ensures p <= |data|
      ensures match ReadItems(elem, n, old(Rest()))
        case ThrownSeq => o.None?
        case GotSeq(vs, rest) => o == Some(vs) && Rest() == rest
      decreases elem, 1
    {
      ghost var all := ReadItems(elem, n, Rest());
      var vs := [];
      StartOfItems(all);
      for i := 0 to n
        invariant p <= |data|
        invariant all == PrependAll(vs, ReadItems(elem, n - i, Rest()))
      {
        NextItem(elem, n - i, Rest(), vs);
        var item := ReadValue(elem);
        if item.None? {
          return None;
        }
        vs := vs + [item.value];
      }
      o := Some(vs);
      assert vs + [] == vs;
    }
  }

  method WriteBinary(s: Schema, v: Value) returns (bytes: seq<byte>)
    requires HasType(s, v)
    ensures bytes == Write(s, v)
  {
    var w := new Writer();
    w.WriteValue(s, v);
    bytes := w.buf;
  }

  // The two-argument read_binary: out keeps its value when the read throws.
  method ReadBinary(s: Schema, bytes: seq<byte>, out: Value) returns (ok: bool, out': Value)
    ensures ok == Read(s, bytes).Got?
    ensures out' == if ok then Read(s, bytes).value else out
  {
    var r := new Reader(bytes);
    var v := r.ReadValue(s);
    if v.None? {
      return false, out;
    }
    return true, v.value;
  }

  // What a written value, whole or cut short, does to out.
  method WriteThenRead(s: Schema, v: Value, kept: nat, out: Value) returns (ok: bool, out': Value)
    requires HasType(s, v)
    ensures ok <==> kept >= |Write(s, v)|
    ensures out' == if ok then v else out
  {
    var bytes := WriteBinary(s, v);
    RoundTrip(s, v, []);
    assert bytes + [] == bytes;
    if kept < |bytes| {
      TruncationIsRejected(s, v, kept);
      bytes := bytes[..kept];
    }
    ok, out' := ReadBinary(s, bytes, out);
  }
}

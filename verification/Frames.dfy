/** The frames native code posts to a Dart port, and the error text inside them. */
module Frames {

  import opened Bytes
  import opened WireTypes

  type Frame = seq<byte>

  const MAX_LENGTH := 0x1_0000_0000

  // What strlen(msg), cast to a uint32_t, makes of a C string.
  function Strlen32(msg: Text): (n: nat)
    ensures n <= |CStr(msg)| && n < MAX_LENGTH
    ensures n == |CStr(msg)| <==> |CStr(msg)| < MAX_LENGTH
  {
    |CStr(msg)| % MAX_LENGTH
  }

  // What is left of a message whose length went through 32 bits.
  function Shortened(msg: Text): Text {
    CStr(msg)[..Strlen32(msg)]
  }

  function ErrorFrame(discriminator: byte, msg: Text): Frame {
    var n := Strlen32(msg);
    [discriminator] + (LittleEndian(n, 4) + Shortened(msg))
  }

  // A Dart port: the frames posted to it, oldest first.
  class Port {
    var frames: seq<Frame>

    constructor ()
      ensures frames == []
    {
      frames := [];
    }

    // memcpy of the first n bytes of src.
    static method Copy(buf: array<byte>, at: nat, src: seq<byte>, n: nat)
      requires at + n <= buf.Length && n <= |src|
      modifies buf
      ensures buf[..at + n] == old(buf[..at]) + src[..n] && buf[at + n..] == old(buf[at + n..])
    {
      for i := 0 to n
        invariant buf[..at + i] == old(buf[..at]) + src[..i] && buf[at + n..] == old(buf[at + n..])
      {
        ghost var filled := buf[..at + i];
        buf[at + i] := src[i];
        assert buf[..at + i + 1] == filled + [src[i]];
        assert src[..i + 1] == src[..i] + [src[i]];
      }
    }

    method PostOwned(buf: array<byte>)
      modifies this
      ensures frames == old(frames) + [buf[..]]
    {
      frames := frames + [buf[..]];
    }

    method PostFramed(discriminator: byte, payload: seq<byte>)
      modifies this
      ensures frames == old(frames) + [[discriminator] + payload]
    {
      var buf := new byte[1 + |payload|];
      buf[0] := discriminator;
      assert buf[..1] == [discriminator];
      Copy(buf, 1, payload, |payload|);
      assert payload[..|payload|] == payload && buf[..] == buf[..1 + |payload|];
      PostOwned(buf);
    }

    method PostFramedError(discriminator: byte, msg: Text)
      modifies this
      ensures frames == old(frames) + [ErrorFrame(discriminator, msg)]
    {
      var text, n := CStr(msg), Strlen32(msg);
      var prefix := LittleEndian(n, 4);
      var buf := new byte[1 + 4 + n];
      buf[0] := discriminator;
      assert buf[..1] == [discriminator];
      Copy(buf, 1, prefix, 4);
      assert prefix[..4] == prefix && buf[..5] == [discriminator] + prefix;
      Copy(buf, 5, text, n);
      assert buf[..] == buf[..5 + n];
      Associate([discriminator], prefix, text[..n]);
      PostOwned(buf);
    }

    method PostSentinel()
      modifies this
      ensures frames == old(frames) + [[0xFF]]
    {
      frames := frames + [[0xFF]];
    }
  }

  // A message of the program's own, none of which holds a NUL.
  function Ascii(s: string): (t: Text)
    ensures |t| == |s| && 0 !in t
  {
    seq(|s|, i requires 0 <= i < |s| => if 0 < s[i] as int < 128 then s[i] as int else 63)
  }

  const UNKNOWN_ERROR := Ascii("unknown error")
  const TRUNCATED_ERROR := Ascii("truncated error")

  // GlazeCodec.decodeError.
  function ErrorText(data: Frame, offset: nat): Text {
    if |data| < offset + 4 then UNKNOWN_ERROR
    else
      var len := FromLittleEndian(data[offset..offset + 4]);
      var start := offset + 4;
      if |data| < start + len then TRUNCATED_ERROR else data[start..start + len]
  }

  lemma Layout(discriminator: byte, prefix: seq<byte>, text: seq<byte>)
    requires |prefix| == 4
    ensures var frame := [discriminator] + (prefix + text);
      frame[1..5] == prefix && frame[5..] == text && frame[5..5 + |text|] == text
  {
  }

  lemma ErrorLength(discriminator: byte, msg: Text)
    ensures var frame := ErrorFrame(discriminator, msg);
      && |frame| == 5 + Strlen32(msg) && frame[1..5] == LittleEndian(Strlen32(msg), 4)
      && frame[5..5 + Strlen32(msg)] == Shortened(msg)
      && FromLittleEndian(frame[1..5]) == Strlen32(msg)
  {
    Pow256Values();
    LittleEndianRoundTrip(Strlen32(msg), 4);
    Layout(discriminator, LittleEndian(Strlen32(msg), 4), Shortened(msg));
  }

  // Dart shows the text of an error frame as it was posted, exactly when strlen
  // fits 32 bits; a longer text is cut to its length modulo 2^32.
  lemma ErrorArrives(discriminator: byte, msg: Text)
    ensures ErrorText(ErrorFrame(discriminator, msg), 1) == Shortened(msg) == CStr(msg)[..|CStr(msg)| % 0x1_0000_0000]
    ensures ErrorText(ErrorFrame(discriminator, msg), 1) == CStr(msg) <==> |CStr(msg)| < 0x1_0000_0000
  {
    ErrorLength(discriminator, msg);
    assert CStr(msg)[..|CStr(msg)|] == CStr(msg);
  }

  // An error frame cut short anywhere is recognised as such.
  lemma CutErrorFrame(discriminator: byte, msg: Text, kept: nat)
    requires kept < |ErrorFrame(discriminator, msg)|
    ensures ErrorText(ErrorFrame(discriminator, msg)[..kept], 1) == Ascii(if kept < 5 then "unknown error" else "truncated error")
  {
    var frame := ErrorFrame(discriminator, msg);
    ErrorLength(discriminator, msg);
    if kept >= 5 {
      assert frame[..kept][1..5] == frame[1..5];
    }
  }

  // A message without a NUL, and not too long, arrives as it is.
  lemma Whole(discriminator: byte, msg: Text)
    requires 0 !in msg && |msg| < MAX_LENGTH
    ensures ErrorText(ErrorFrame(discriminator, msg), 1) == msg
  {
    assert CStr(msg) == msg;
    ErrorArrives(discriminator, msg);
  }
}

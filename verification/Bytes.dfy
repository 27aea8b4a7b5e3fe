/** Fixed-width little-endian integers. */
module Bytes {

  type byte = b: nat | b < 256

  lemma Associate<T>(a: seq<T>, b: seq<T>, c: seq<T>)
    ensures a + (b + c) == (a + b) + c
  {
  }

  function Pow256(width: nat): (r: nat)
    ensures r > 0
  {
    if width == 0 then 1 else 256 * Pow256(width - 1)
  }

  function LittleEndian(n: nat, width: nat): (bs: seq<byte>)
    ensures |bs| == width
  {
    if width == 0 then [] else [n % 256] + LittleEndian(n / 256, width - 1)
  }

  function FromLittleEndian(bs: seq<byte>): (n: nat)
    ensures n < Pow256(|bs|)
  {
    if bs == [] then 0 else bs[0] + 256 * FromLittleEndian(bs[1..])
  }

  lemma {:induction false} LittleEndianRoundTrip(n: nat, width: nat)
    requires n < Pow256(width)
    ensures FromLittleEndian(LittleEndian(n, width)) == n
  {
    if width > 0 {
      assert LittleEndian(n, width)[1..] == LittleEndian(n / 256, width - 1);
      LittleEndianRoundTrip(n / 256, width - 1);
    }
  }

  // Byte i of the encoding is the i-th from the low end.
  lemma {:induction false} LittleEndianAt(n: nat, width: nat, i: nat)
    requires i < width
    ensures LittleEndian(n, width)[i] == n / Pow256(i) % 256
  {
    if i == 0 {
      assert Pow256(0) == 1;
    } else {
      LittleEndianAt(n / 256, width - 1, i - 1);
      DivTwice(n, Pow256(i - 1));
    }
  }

  lemma DivTwice(n: nat, m: nat)
    requires m > 0
    ensures n / 256 / m == n / (256 * m)
  {
    var q, r := n / 256 / m, n / 256 % m;
    assert n / 256 == q * m + r;
    assert n == q * (256 * m) + (256 * r + n % 256);
    DivUnique(n, 256 * m, q, 256 * r + n % 256);
  }

  lemma Pow256Values()
    ensures Pow256(1) == 0x100 && Pow256(4) == 0x1_0000_0000 && Pow256(8) == 0x1_0000_0000_0000_0000
  {
    assert Pow256(2) == 0x1_0000;
    assert Pow256(3) == 0x100_0000;
    assert Pow256(5) == 0x100_0000_0000;
    assert Pow256(6) == 0x1_0000_0000_0000;
    assert Pow256(7) == 0x100_0000_0000_0000;
  }

  // The two's complement reading of an unsigned value of the given width.
  function ToSigned(u: nat, width: nat): int {
    if 2 * u < Pow256(width) then u else u - Pow256(width)
  }

  // static_cast to an unsigned type of the given width.
  function ToUnsigned(n: int, width: nat): (u: nat)
    ensures u < Pow256(width)
  {
    n % Pow256(width)
  }

  predicate FitsSigned(n: int, width: nat) {
    -(Pow256(width) as int) <= 2 * n < Pow256(width)
  }

  lemma SignedRoundTrip(n: int, width: nat)
    requires FitsSigned(n, width)
    ensures ToSigned(ToUnsigned(n, width), width) == n
    ensures ToUnsigned(n, width) == if n >= 0 then n else n + Pow256(width)
  {
    var m: int := Pow256(width);
    if n >= 0 {
      DivUnique(n, m, 0, n);
    } else {
      DivUnique(n, m, -1, n + m);
    }
  }

  lemma DivUnique(a: int, m: int, q: int, r: int)
    requires 0 <= r < m && a == q * m + r
    ensures a / m == q && a % m == r
  {
    var d := a / m - q;
    assert d * m == r - a % m;
    MultipleBelow(d, m);
  }

  // The only multiple of m strictly between -m and m is 0.
  lemma MultipleBelow(d: int, m: int)
    requires m > 0 && -m < d * m < m
    ensures d == 0
  {
  }
}

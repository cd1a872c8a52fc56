/**
 Bytes, fixed-width integers and their encodings, and the outcomes of reading a
 stream of bytes.
 */
module Bytes {
  import opened Arithmetic

  type byte = x: int | 0 <= x < 0x100
  type uint16 = x: int | 0 <= x < 0x1_0000
  type uint32 = x: int | 0 <= x < 0x1_0000_0000
  type int32 = x: int | -0x8000_0000 <= x < 0x8000_0000
  type int64 = x: int | -0x8000_0000_0000_0000 <= x < 0x8000_0000_0000_0000

  const TWO_32 := 0x1_0000_0000
  const TWO_64 := 0x1_0000_0000_0000_0000

  /** The errors a read of a connection can end in. */
  datatype Error =
    | EOF
    | UnexpectedEOF
    | FrameNotMasked
    | UnsupportedFrame
    | MessageTooLarge
    | NegativeLength // `make` with a negative length: the runtime panics

  datatype Result<+T> = Ok(value: T) | Err(error: Error)

  /** The outcome of a read, and what the reader has left. */
  datatype Taken<+T> = Taken(r: Result<T>, rest: seq<byte>)

  /** `io.ReadFull` of `n` bytes: on failure the reader is drained. */
  function TakeFull(s: seq<byte>, n: nat): Taken<seq<byte>> {
    if n <= |s| then Taken(Ok(s[..n]), s[n..])
    else Taken(Err(if s == [] then EOF else UnexpectedEOF), [])
  }

  lemma TakeFullExact(a: seq<byte>, b: seq<byte>)
    ensures TakeFull(a + b, |a|) == Taken(Ok(a), b)
  {
    assert (a + b)[..|a|] == a && (a + b)[|a|..] == b;
  }

  // ---------------------------------------------------------------------------
  // Two's complement

  /** Go's `int32(x)`: the low 32 bits, read as a signed number. */
  function Int32(x: int): (r: int32)
    ensures (r - x) % TWO_32 == 0
  {
    var u := x % TWO_32;
    if u < 0x8000_0000 then u else u - TWO_32
  }

  /** Go's `int64(x)`: the low 64 bits, read as a signed number. */
  function Int64(x: int): (r: int64)
    ensures (r - x) % TWO_64 == 0
  {
    var u := x % TWO_64;
    if u < 0x8000_0000_0000_0000 then u else u - TWO_64
  }

  lemma Int32Inverse(x: int32)
    ensures Int32(x % TWO_32) == x
  {
  }

  lemma Int64Inverse(x: int64)
    ensures Int64(x % TWO_64) == x
  {
  }

  // ---------------------------------------------------------------------------
  // Fixed-width encodings

  function Pow256(n: nat): (p: nat)
    ensures p > 0
  {
    if n == 0 then 1 else 256 * Pow256(n - 1)
  }

  /** The low `n` bytes of `x`, least significant first. */
  function LittleEndian(n: nat, x: nat): (s: seq<byte>)
    ensures |s| == n
  {
    if n == 0 then [] else [x % 256] + LittleEndian(n - 1, x / 256)
  }

  function FromLittleEndian(s: seq<byte>): (x: nat) {
    if s == [] then 0 else s[0] + 256 * FromLittleEndian(s[1..])
  }

  /** The low `n` bytes of `x`, most significant first. */
  function BigEndian(n: nat, x: nat): (s: seq<byte>)
    ensures |s| == n
  {
    if n == 0 then [] else BigEndian(n - 1, x / 256) + [x % 256]
  }

  function FromBigEndian(s: seq<byte>): (x: nat) {
    if s == [] then 0 else 256 * FromBigEndian(s[..|s| - 1]) + s[|s| - 1]
  }

  lemma {:induction false} LittleEndianRoundTrip(n: nat, x: nat)
    requires x < Pow256(n)
    ensures FromLittleEndian(LittleEndian(n, x)) == x
  {
    if n > 0 {
      LittleEndianRoundTrip(n - 1, x / 256);
      assert LittleEndian(n, x)[1..] == LittleEndian(n - 1, x / 256);
    }
  }

  lemma {:induction false} BigEndianRoundTrip(n: nat, x: nat)
    requires x < Pow256(n)
    ensures FromBigEndian(BigEndian(n, x)) == x
  {
    if n > 0 {
      BigEndianRoundTrip(n - 1, x / 256);
      assert BigEndian(n, x)[..n - 1] == BigEndian(n - 1, x / 256);
    }
  }

  lemma {:induction false} LittleEndianBound(s: seq<byte>)
    ensures FromLittleEndian(s) < Pow256(|s|)
  {
    if s != [] {
      LittleEndianBound(s[1..]);
    }
  }

  /** Every byte string is the encoding of the number it decodes to. */
  lemma {:induction false} BigEndianInverse(s: seq<byte>)
    ensures FromBigEndian(s) < Pow256(|s|) && BigEndian(|s|, FromBigEndian(s)) == s
  {
    if s != [] {
      BigEndianInverse(s[..|s| - 1]);
      assert s == s[..|s| - 1] + [s[|s| - 1]];
    }
  }

  /** Byte `i` of the little-endian encoding has weight 256 to the power `i`. */
  lemma {:induction false} LittleEndianAt(n: nat, x: nat, i: nat)
    requires i < n
    ensures LittleEndian(n, x)[i] == x / Pow256(i) % 256
  {
    if i > 0 {
      LittleEndianAt(n - 1, x / 256, i - 1);
      DivDiv(x, 256, Pow256(i - 1), Pow256(i));
    }
  }

  /** In the big-endian encoding, the last byte has weight 1. */
  lemma {:induction false} BigEndianAt(n: nat, x: nat, i: nat)
    requires i < n
    ensures BigEndian(n, x)[n - 1 - i] == x / Pow256(i) % 256
  {
    if i > 0 {
      BigEndianAt(n - 1, x / 256, i - 1);
      DivDiv(x, 256, Pow256(i - 1), Pow256(i));
    }
  }

  /** The top bit of the first byte is the top bit of the number. */
  lemma {:induction false} BigEndianTopBit(s: seq<byte>)
    requires s != []
    ensures FromBigEndian(s) >= 128 * Pow256(|s| - 1) <==> s[0] >= 128
  {
    if |s| > 1 {
      BigEndianTopBit(s[..|s| - 1]);
    } else {
      assert s[..0] == [];
    }
  }

  lemma Widths()
    ensures Pow256(2) == 0x1_0000 && Pow256(4) == TWO_32 && Pow256(8) == TWO_64
  {
    assert Pow256(1) == 256;
    assert Pow256(3) == 256 * Pow256(2);
    assert Pow256(5) == 256 * Pow256(4);
    assert Pow256(6) == 256 * Pow256(5);
    assert Pow256(7) == 256 * Pow256(6);
  }

  /** Two and four bytes, least significant first. */
  lemma LittleEndianSmall(x: nat)
    ensures LittleEndian(2, x) == [x % 256, x / 256 % 256]
    ensures LittleEndian(4, x) == [x % 256, x / 256 % 256, x / 0x1_0000 % 256, x / 0x100_0000 % 256]
  {
    assert x / 256 / 256 == x / 0x1_0000 && x / 256 / 256 / 256 == x / 0x100_0000;
    assert LittleEndian(2, x / 256 / 256) == [x / 256 / 256 % 256, x / 256 / 256 / 256 % 256];
  }

  // ---------------------------------------------------------------------------
  // Exclusive or

  function Pow2(n: nat): (p: nat)
    ensures p > 0
  {
    if n == 0 then 1 else 2 * Pow2(n - 1)
  }

  /** The exclusive or of the low `n` bits of `a` and `b`. */
  function XorBits(n: nat, a: nat, b: nat): (r: nat)
    ensures r < Pow2(n)
  {
    if n == 0 then 0 else (if a % 2 == b % 2 then 0 else 1) + 2 * XorBits(n - 1, a / 2, b / 2)
  }

  function Xor(a: byte, b: byte): (r: byte) {
    assert Pow2(8) == 256 by { assert Pow2(2) == 4; assert Pow2(4) == 16; assert Pow2(6) == 64; }
    XorBits(8, a, b)
  }

  lemma {:induction false} XorBitsTwice(n: nat, a: nat, b: nat)
    requires a < Pow2(n)
    ensures XorBits(n, XorBits(n, a, b), b) == a
  {
    if n > 0 {
      XorBitsTwice(n - 1, a / 2, b / 2);
      assert XorBits(n, a, b) / 2 == XorBits(n - 1, a / 2, b / 2);
    }
  }

  lemma Parity(a: nat, b: nat)
    ensures (a + b) % 2 == if a % 2 == b % 2 then 0 else 1
  {
  }

  lemma FirstBit(d: nat, x: nat)
    requires d < 2
    ensures (d + 2 * x) % 2 == d && (d + 2 * x) / 2 == x
  {
  }

  lemma {:induction false} XorBitsFirst(n: nat, a: nat, b: nat)
    requires n > 0
    ensures XorBits(n, a, b) % 2 == (a + b) % 2 && XorBits(n, a, b) / 2 == XorBits(n - 1, a / 2, b / 2)
  {
    Parity(a, b);
    FirstBit(if a % 2 == b % 2 then 0 else 1, XorBits(n - 1, a / 2, b / 2));
  }

  lemma Pow2Next(i: nat)
    requires i > 0
    ensures Pow2(i) == 2 * Pow2(i - 1) && Pow2(0) == 1
  {
  }

  /** Bit `i` of a number. */
  function Bit(x: nat, i: nat): (b: nat)
    ensures b < 2
  {
    x / Pow2(i) % 2
  }

  lemma Bit0(x: nat)
    ensures Bit(x, 0) == x % 2
  {
  }

  lemma BitNext(x: nat, i: nat)
    requires i > 0
    ensures Bit(x, i) == Bit(x / 2, i - 1)
  {
    hide Pow2;
    Pow2Next(i);
    DivDiv(x, 2, Pow2(i - 1), Pow2(i));
  }

  lemma {:induction false} XorBitsAt(n: nat, a: nat, b: nat, i: nat)
    requires i < n
    ensures Bit(XorBits(n, a, b), i) == (Bit(a, i) + Bit(b, i)) % 2
  {
    hide XorBits, Bit;
    var r := XorBits(n, a, b);
    XorBitsFirst(n, a, b);
    if i == 0 {
      Bit0(r);
      Bit0(a);
      Bit0(b);
    } else {
      BitNext(r, i);
      BitNext(a, i);
      BitNext(b, i);
      XorBitsAt(n - 1, a / 2, b / 2, i - 1);
    }
  }

  /** Every bit of the exclusive or is the sum of the two bits, without carry. */
  lemma XorAt(a: byte, b: byte, i: nat)
    requires i < 8
    ensures Bit(Xor(a, b), i) == (Bit(a, i) + Bit(b, i)) % 2
  {
    XorBitsAt(8, a, b, i);
  }

  /** Masking twice with the same key byte is the identity. */
  lemma XorTwice(a: byte, b: byte)
    ensures Xor(Xor(a, b), b) == a
  {
    assert Pow2(8) == 256 by { assert Pow2(2) == 4; assert Pow2(4) == 16; assert Pow2(6) == 64; }
    XorBitsTwice(8, a, b);
  }
}

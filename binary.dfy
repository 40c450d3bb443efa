/**
  Fixed-width integers as Go has them, and the big-endian 4-byte layout of
  `encoding/binary` that the binary codecs put in front of their payload.
*/
module Binary {

  /** One byte of an encoding. */
  type Byte = x: int | 0 <= x < 0x100

  /** Go's `int32`. */
  type Int32 = x: int | -0x8000_0000 <= x < 0x8000_0000

  const TwoTo32: int := 0x1_0000_0000

  /**
    Go's conversion `int32(x)`: keep the low 32 bits of `x` and read them in
    two's complement. The result is congruent to `x` modulo 2^32.
  */
  function WrapInt32(x: int): (r: Int32)
    ensures (r - x) % TwoTo32 == 0
  {
    var u := x % TwoTo32;
    if u < 0x8000_0000 then u else u - TwoTo32
  }

  /** Two values wrap to the same int32 exactly when they are congruent modulo 2^32. */
  lemma WrapInt32Equal(x: int, y: int)
    ensures WrapInt32(x) == WrapInt32(y) <==> (x - y) % TwoTo32 == 0
  {
    var rx, ry := WrapInt32(x), WrapInt32(y);
    assert (rx - x) % TwoTo32 == 0 && (ry - y) % TwoTo32 == 0;
    if rx == ry {
      assert x - y == (ry - y) - (rx - x);
      ModSub(ry - y, rx - x);
    } else {
      assert -TwoTo32 < rx - ry < TwoTo32;
      if (x - y) % TwoTo32 == 0 {
        assert rx - ry == (rx - x) + (x - y) - (ry - y);
        ModAdd3(rx - x, x - y, ry - y);
        assert false;
      }
    }
  }

  lemma ModSub(a: int, b: int)
    requires a % TwoTo32 == 0 && b % TwoTo32 == 0
    ensures (a - b) % TwoTo32 == 0
  {
    var p, q := a / TwoTo32, b / TwoTo32;
    assert a - b == (p - q) * TwoTo32;
  }

  lemma ModAdd3(a: int, b: int, c: int)
    requires a % TwoTo32 == 0 && b % TwoTo32 == 0 && c % TwoTo32 == 0
    ensures (a + b - c) % TwoTo32 == 0
  {
    var p, q, r := a / TwoTo32, b / TwoTo32, c / TwoTo32;
    assert a + b - c == (p + q - r) * TwoTo32;
  }

  /** Go's conversion `uint32(x)` of an int32: the same 32 bits read as unsigned. */
  function Uint32Of(x: Int32): (u: nat)
    ensures u < TwoTo32
    ensures WrapInt32(u) == x
  {
    if x < 0 then x + TwoTo32 else x
  }

  /** `binary.BigEndian.PutUint32`: the four bytes of `u`, most significant first. */
  function PutUint32(u: nat): (b: seq<Byte>)
    requires u < TwoTo32
    ensures |b| == 4
  {
    [u / 0x100_0000, (u / 0x1_0000) % 0x100, (u / 0x100) % 0x100, u % 0x100]
  }

  /** `binary.BigEndian.Uint32`: the unsigned number whose big-endian bytes are `b`. */
  function Uint32(b: seq<Byte>): (u: nat)
    requires |b| == 4
    ensures u < TwoTo32
  {
    (b[0] as int) * 0x100_0000 + (b[1] as int) * 0x1_0000 + (b[2] as int) * 0x100 + b[3] as int
  }

  /** Reading back the bytes written by PutUint32 gives the number written. */
  lemma Uint32OfPutUint32(u: nat)
    requires u < TwoTo32
    ensures Uint32(PutUint32(u)) == u
  {
    var b := PutUint32(u);
    var hi := u / 0x1_0000;
    var lo := u % 0x1_0000;
    assert u == hi * 0x1_0000 + lo;
    assert hi == (hi / 0x100) * 0x100 + hi % 0x100;
    assert lo == (lo / 0x100) * 0x100 + lo % 0x100;
    assert b[0] == hi / 0x100 by {
      assert u / 0x100_0000 == (u / 0x1_0000) / 0x100;
    }
    assert b[1] == hi % 0x100;
    assert b[2] == lo / 0x100 by {
      assert u / 0x100 == hi * 0x100 + lo / 0x100;
    }
    assert b[3] == lo % 0x100 by {
      assert u % 0x100 == lo % 0x100;
    }
  }

  /** The big-endian layout of an int32: its two's-complement bits. */
  function EncodeInt32(x: Int32): (b: seq<Byte>)
    ensures |b| == 4
  {
    PutUint32(Uint32Of(x))
  }

  /** `int32(binary.BigEndian.Uint32(b))`. */
  function DecodeInt32(b: seq<Byte>): Int32
    requires |b| == 4
  {
    WrapInt32(Uint32(b))
  }

  /** Every int32, negative ones included, survives the 4-byte layout. */
  lemma Int32RoundTrip(x: Int32)
    ensures DecodeInt32(EncodeInt32(x)) == x
  {
    Uint32OfPutUint32(Uint32Of(x));
  }

  /** The layout is all zero bytes exactly for the number 0. */
  lemma EncodeInt32Zero(x: Int32)
    ensures EncodeInt32(x) == [0, 0, 0, 0] <==> x == 0
  {
    if EncodeInt32(x) == [0, 0, 0, 0] {
      Int32RoundTrip(x);
      assert Uint32([0, 0, 0, 0]) == 0;
    }
  }
}

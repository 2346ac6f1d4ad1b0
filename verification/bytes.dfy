/** Byte-level helpers: the fixed-width codecs of spec/binary.go, the exact reads of
    spec/bytes.go, and the io.Reader / io.Writer ends they work on. */
module Bytes {

  type byte = b: int | 0 <= b < 0x100
  type uint16 = n: int | 0 <= n < 0x1_0000
  type uint32 = n: int | 0 <= n < 0x1_0000_0000

  datatype Error = EndOfInput | UnknownFormatId | TooManyBytes

  datatype Option<+T> = None | Some(value: T)

  function Min(a: int, b: int): int {
    if a < b then a else b
  }

  // ----- reading integers -----

  function Weigh(b3: int, b2: int, b1: int, b0: int): int {
    b3 * 0x100_0000 + b2 * 0x1_0000 + b1 * 0x100 + b0
  }

  function AtOrZero(b: seq<byte>, i: int): byte {
    if 0 <= i < |b| then b[i] else 0
  }

  /** Like Go's binary.BigEndian.Uint32, this looks at the first four bytes only. */
  function BigEndian32(p: seq<byte>): uint32
    requires |p| >= 4
  {
    Weigh(p[0], p[1], p[2], p[3])
  }

  function Uint16(b: seq<byte>): uint16
    requires |b| == 2
  {
    Weigh(0, 0, b[0], b[1])
  }

  /** A big-endian string of at most four bytes, the missing high bytes being zero. */
  function Uint32(b: seq<byte>): uint32
    requires |b| <= 4
  {
    Weigh(AtOrZero(b, |b| - 4), AtOrZero(b, |b| - 3), AtOrZero(b, |b| - 2), AtOrZero(b, |b| - 1))
  }

  /** A little-endian string of at most four bytes, the missing high bytes being zero. */
  function LittleEndianUint32(b: seq<byte>): uint32
    requires |b| <= 4
  {
    Weigh(AtOrZero(b, 3), AtOrZero(b, 2), AtOrZero(b, 1), AtOrZero(b, 0))
  }

  function Pad(b: seq<byte>, n: nat): (p: seq<byte>)
    requires |b| <= n
  {
    seq(n - |b|, _ => 0) + b
  }

  /** Uint32 is the fixed-width read of the padded string, as the source computes it. */
  lemma Uint32Pads(b: seq<byte>)
    requires |b| <= 4
    ensures Uint32(b) == BigEndian32(Pad(b, 4))
  {
    var p := Pad(b, 4);
    assert forall i :: 0 <= i < 4 ==> p[i] == AtOrZero(b, i - (4 - |b|));
  }

  // ----- writing integers -----

  function Uint16Bytes(n: uint16): seq<byte> {
    [n / 0x100, n % 0x100]
  }

  /** The 24-bit form keeps the low three bytes of its argument. */
  function Uint24Bytes(n: uint32): seq<byte> {
    [n / 0x1_0000 % 0x100, n / 0x100 % 0x100, n % 0x100]
  }

  function Uint32Bytes(n: uint32): seq<byte> {
    [n / 0x100_0000, n / 0x1_0000 % 0x100, n / 0x100 % 0x100, n % 0x100]
  }

  function LittleEndianUint32Bytes(n: uint32): seq<byte> {
    [n % 0x100, n / 0x100 % 0x100, n / 0x1_0000 % 0x100, n / 0x100_0000]
  }

  /** What the bytes weigh, in either order. */
  lemma ReadOrder(a: byte, b: byte, c: byte, d: byte)
    ensures Uint32([a, b, c, d]) == BigEndian32([a, b, c, d]) == a * 16777216 + b * 65536 + c * 256 + d
    ensures LittleEndianUint32([a, b, c, d]) == a + b * 256 + c * 65536 + d * 16777216
    ensures Uint16([a, b]) == Uint32([a, b]) == a * 256 + b
    ensures Uint32([a, b, c]) == a * 65536 + b * 256 + c
  {
  }

  /** And where a number goes that is to weigh the same. */
  lemma WriteOrder(a: byte, b: byte, c: byte, d: byte)
    ensures Uint32Bytes(a * 16777216 + b * 65536 + c * 256 + d) == [a, b, c, d]
    ensures LittleEndianUint32Bytes(a + b * 256 + c * 65536 + d * 16777216) == [a, b, c, d]
    ensures Uint24Bytes(a * 65536 + b * 256 + c) == [a, b, c]
    ensures Uint16Bytes(a * 256 + b) == [a, b]
  {
    Decompose(a, b, c, d);
    Decompose(d, c, b, a);
    Decompose(0, a, b, c);
  }

  // ----- the codecs are inverse to each other -----

  lemma Compose(n: uint32)
    ensures Weigh(n / 0x100_0000, n / 0x1_0000 % 0x100, n / 0x100 % 0x100, n % 0x100) == n
  {
    var m := n / 0x100;
    assert n == m * 0x100 + n % 0x100;
    assert n / 0x1_0000 == m / 0x100;
    var l := m / 0x100;
    assert m == l * 0x100 + m % 0x100;
    assert n / 0x100_0000 == l / 0x100;
    assert l == l / 0x100 * 0x100 + l % 0x100;
  }

  lemma Decompose(b3: byte, b2: byte, b1: byte, b0: byte)
    ensures var n := Weigh(b3, b2, b1, b0);
            n / 0x100_0000 == b3 && n / 0x1_0000 % 0x100 == b2 && n / 0x100 % 0x100 == b1 && n % 0x100 == b0
  {
    var n := Weigh(b3, b2, b1, b0);
    assert n / 0x1_0000 == b3 * 0x100 + b2;
    assert n / 0x100 == b3 * 0x1_0000 + b2 * 0x100 + b1;
  }

  lemma Uint32RoundTrip(n: uint32)
    ensures Uint32(Uint32Bytes(n)) == n
    ensures BigEndian32(Uint32Bytes(n)) == n
    ensures LittleEndianUint32(LittleEndianUint32Bytes(n)) == n
  {
    Compose(n);
  }

  lemma Uint24RoundTrip(n: uint32)
    requires n <= 0xffffff
    ensures Uint32(Uint24Bytes(n)) == n
  {
    hide Weigh;
    Compose(n);
    assert n / 0x100_0000 == 0;
  }

  lemma Uint16RoundTrip(n: uint16)
    ensures Uint32(Uint16Bytes(n)) == n
  {
  }

  lemma Uint16Rewrite(b: seq<byte>)
    requires |b| == 2
    ensures Uint32(b) < 0x1_0000 && Uint16Bytes(Uint32(b)) == b
  {
  }

  lemma Uint24Rewrite(b: seq<byte>)
    requires |b| == 3
    ensures Uint24Bytes(Uint32(b)) == b
  {
    Decompose(0, b[0], b[1], b[2]);
  }

  lemma Uint32Rewrite(b: seq<byte>)
    requires |b| == 4
    ensures Uint32Bytes(Uint32(b)) == b
  {
    Decompose(b[0], b[1], b[2], b[3]);
  }

  lemma LittleEndianRewrite(b: seq<byte>)
    requires |b| == 4
    ensures LittleEndianUint32Bytes(LittleEndianUint32(b)) == b
  {
    Decompose(b[3], b[2], b[1], b[0]);
  }

  // ----- io.Reader and io.Writer -----

  /** An io.Reader over a finite byte string: `data` is what has not been read yet. */
  class Source {
    var data: seq<byte>

    constructor (data: seq<byte>)
      ensures this.data == data
    {
      this.data := data;
    }

    method ReadByte() returns (b: Option<byte>)
      modifies this
      ensures old(data) == [] ==> b == None && data == []
      ensures old(data) != [] ==> b == Some(old(data)[0]) && data == old(data)[1..]
    {
      if |data| == 0 {
        return None;
      }
      b := Some(data[0]);
      data := data[1..];
    }

    /** io.ReadFull: all `n` bytes, or an error after draining what was left. */
    method ReadBytes(n: nat) returns (b: Option<seq<byte>>)
      modifies this
      ensures n <= |old(data)| ==> b == Some(old(data)[..n]) && data == old(data)[n..]
      ensures n > |old(data)| ==> b == None && data == []
    {
      if n > |data| {
        data := [];
        return None;
      }
      b := Some(data[..n]);
      data := data[n..];
    }
  }

  /** An io.Writer that does not fail: `data` is everything written so far. */
  class Sink {
    var data: seq<byte>

    constructor ()
      ensures data == []
    {
      data := [];
    }

    method Write(b: seq<byte>)
      modifies this
      ensures data == old(data) + b
    {
      data := data + b;
    }
  }
}

/** The chunk header byte by byte. Wire decodes and encodes it through the fixed-width codecs;
    here both are fixed by where each byte goes and what it weighs, and by nothing else. */
module Layout {
  import opened Bytes
  import opened Wire

  function At(s: seq<byte>, k: nat): int
    requires k < |s|
  {
    s[k]
  }

  /** Three and four bytes from place `k` on, the first of them the most significant. */
  function Three(s: seq<byte>, k: nat): int
    requires k + 3 <= |s|
  {
    At(s, k) * 65536 + At(s, k + 1) * 256 + At(s, k + 2)
  }

  function Four(s: seq<byte>, k: nat): int
    requires k + 4 <= |s|
  {
    At(s, k) * 16777216 + At(s, k + 1) * 65536 + At(s, k + 2) * 256 + At(s, k + 3)
  }

  /** The first byte has the format in its two high bits and, in the others, either the id of
      the chunk stream or a marker: 63 for two more bytes, 0 for one more. */
  function BasicLength(s: seq<byte>): (n: nat)
    requires s != []
  {
    if At(s, 0) % 64 == 63 then 3 else if At(s, 0) % 64 == 0 then 2 else 1
  }

  function IdOf(s: seq<byte>): int
    requires s != [] && BasicLength(s) <= |s|
  {
    if At(s, 0) % 64 == 63 then At(s, 1) * 256 + At(s, 2) + 64
    else if At(s, 0) % 64 == 0 then At(s, 1) + 64
    else At(s, 0) % 64
  }

  /** The fields of format `f`: timestamp in three bytes; then, in formats 0 and 1, length in
      three and type id in one; then, in format 0, the message stream id in four, the first of
      them the least significant. What a format leaves out stays as it was in `m`. */
  function FieldsLength(f: int): nat {
    if f == 0 then 11 else if f == 1 then 7 else if f == 2 then 3 else 0
  }

  function FieldsOf(f: int, m: MessageHeader, s: seq<byte>, n: nat): MessageHeader
    requires 0 <= f <= 3 && n + FieldsLength(f) <= |s|
  {
    if f == 3 then MessageHeader(3, m.timestamp, m.timestampDelta, m.length, m.typeId, m.streamId)
    else if f == 2 then MessageHeader(2, Three(s, n), true, m.length, m.typeId, m.streamId)
    else if f == 1 then MessageHeader(1, Three(s, n), true, Three(s, n + 3), s[n + 6], m.streamId)
    else
      MessageHeader(0, Three(s, n), false, Three(s, n + 3), s[n + 6],
                    At(s, n + 7) + At(s, n + 8) * 256 + At(s, n + 9) * 65536 + At(s, n + 10) * 16777216)
  }

  /** What the bytes `s` say, read into a header `h`: four more bytes follow if and only if the
      timestamp is 16777215, that is, if its three bytes are 255. */
  function Says(h: Header, s: seq<byte>): Parsed<Header> {
    if s == [] || |s| < BasicLength(s) + FieldsLength(At(s, 0) / 64) then Short
    else
      var f := At(s, 0) / 64;
      var k := BasicLength(s) + FieldsLength(f);
      var m := FieldsOf(f, h.message, s, BasicLength(s));
      if m.timestamp != 16777215 then Got(Header(BasicHeader(f, IdOf(s)), m, h.extended), s[k..])
      else if |s| < k + 4 then Short
      else Got(Header(BasicHeader(f, IdOf(s)), m, Four(s, k)), s[k + 4..])
  }

  lemma ThreeBytesWeigh(s: seq<byte>, k: nat)
    requires k + 3 <= |s|
    ensures Uint32(s[k..k + 3]) == Three(s, k)
    ensures Three(s, k) == 16777215 <==> s[k] == 255 && s[k + 1] == 255 && s[k + 2] == 255
  {
  }

  lemma FourBytesWeigh(s: seq<byte>, k: nat)
    requires k + 4 <= |s|
    ensures Uint32(s[k..k + 4]) == Four(s, k)
    ensures LittleEndianUint32(s[k..k + 4])
         == At(s, k) + At(s, k + 1) * 256 + At(s, k + 2) * 65536 + At(s, k + 3) * 16777216
  {
  }

  lemma BasicSays(s: seq<byte>)
    ensures ReadBasic(s) ==
            if s == [] || |s| < BasicLength(s) then Short
            else Got(BasicHeader(At(s, 0) / 64, IdOf(s)), s[BasicLength(s)..])
  {
  }

  lemma FieldsSay(f: int, m: MessageHeader, s: seq<byte>, n: nat)
    requires 0 <= f <= 3 && n <= |s|
    ensures ReadMessage(m.(formatId := f), s[n..]) ==
            if |s| < n + FieldsLength(f) then Short else Got(FieldsOf(f, m, s, n), s[n + FieldsLength(f)..])
  {
    hide Uint32, LittleEndianUint32, Three;
    var t := s[n..];
    if |s| >= n + FieldsLength(f) {
      assert t[FieldsLength(f)..] == s[n + FieldsLength(f)..];
      if f <= 2 {
        assert t[..3] == s[n..n + 3];
        ThreeBytesWeigh(s, n);
      }
      if f <= 1 {
        assert t[3..6] == s[n + 3..n + 6];
        ThreeBytesWeigh(s, n + 3);
      }
      if f == 0 {
        assert t[7..11] == s[n + 7..n + 11];
        FourBytesWeigh(s, n + 7);
      }
    }
  }

  /** Reading a header is reading off its bytes; the receive loop starts from one of zeros. */
  lemma HeaderLayout(h: Header, s: seq<byte>)
    ensures ReadHeaderInto(h, s) == Says(h, s)
    ensures h == Header(BasicHeader(0, 0), MessageHeader(0, 0, false, 0, 0, 0), 0) ==> ReadHeader(s) == Says(h, s)
  {
    hide ReadBasic, ReadMessage, IdOf, FieldsOf, Uint32, Four;
    BasicSays(s);
    if s != [] && |s| >= BasicLength(s) {
      var f, n := At(s, 0) / 64, BasicLength(s);
      FieldsSay(f, h.message, s, n);
      var k := n + FieldsLength(f);
      if |s| >= k + 4 {
        assert s[k..][..4] == s[k..k + 4] && s[k..][4..] == s[k + 4..];
        FourBytesWeigh(s, k);
      }
    }
  }

  /** The bytes of a header, whatever its fields; what does not fit is cut off. */
  function SpellsBasic(h: BasicHeader): seq<byte> {
    var f := h.formatId % 4 * 64;
    if h.streamId < 64 then [f + h.streamId]
    else if h.streamId < 320 then [f, h.streamId - 64]
    else [f + 63, (h.streamId - 64) / 256 % 256, (h.streamId - 64) % 256]
  }

  function SpellsThree(n: uint32): seq<byte> {
    [n / 65536 % 256, n / 256 % 256, n % 256]
  }

  function SpellsFields(m: MessageHeader): seq<byte> {
    if m.formatId == 0 then
      SpellsThree(m.timestamp) + SpellsThree(m.length) + [m.typeId]
      + [m.streamId % 256, m.streamId / 256 % 256, m.streamId / 65536 % 256, m.streamId / 16777216]
    else if m.formatId == 1 then SpellsThree(m.timestamp) + SpellsThree(m.length) + [m.typeId]
    else if m.formatId == 2 then SpellsThree(m.timestamp)
    else []
  }

  function Spells(h: Header): seq<byte> {
    var e := h.extended;
    SpellsBasic(h.basic) + SpellsFields(h.message)
    + if h.message.timestamp == 16777215 then [e / 16777216, e / 65536 % 256, e / 256 % 256, e % 256] else []
  }

  lemma BasicSpelling(h: BasicHeader)
    ensures WriteBasic(h) == SpellsBasic(h)
  {
    if h.streamId >= 320 {
      LowTwoBytes(h.streamId - 64);
    }
  }

  lemma LowTwoBytes(n: nat)
    ensures n % 65536 / 256 == n / 256 % 256 && n % 65536 % 256 == n % 256
  {
  }

  lemma FieldsSpelling(m: MessageHeader)
    ensures WriteMessage(m) == SpellsFields(m)
  {
  }

  lemma HeaderSpelling(h: Header)
    ensures WriteHeader(h) == Spells(h)
  {
    hide SpellsBasic, SpellsFields, WriteBasic, WriteMessage;
    BasicSpelling(h.basic);
    FieldsSpelling(h.message);
  }
}

/** The chunk header on the wire (chunk/basic_header.go, message_header.go,
    extended_timestamp.go, header.go): values, their encoding and their decoding. */
module Wire {
  import opened Bytes

  datatype BasicHeader = BasicHeader(formatId: byte, streamId: uint32)

  datatype MessageHeader = MessageHeader(
    formatId: byte,
    timestamp: uint32,
    timestampDelta: bool,
    length: uint32,
    typeId: byte,
    streamId: uint32)

  datatype Header = Header(basic: BasicHeader, message: MessageHeader, extended: uint32)

  datatype Chunk = Chunk(header: Header, data: seq<byte>) {
    function StreamId(): uint32 { header.basic.streamId }
    function TypeId(): byte { header.message.typeId }
  }

  /** What a read leaves behind: a value and the unread rest, or an error. */
  datatype Parsed<+T> = Got(value: T, rest: seq<byte>) | Short | UnknownFormat

  const NO_MESSAGE := MessageHeader(0, 0, false, 0, 0, 0)
  const NEW_HEADER := Header(BasicHeader(0, 0), NO_MESSAGE, 0)
  const EXTENDED: uint32 := 0xffffff

  // ----- basic header -----

  function ReadBasic(s: seq<byte>): Parsed<BasicHeader> {
    if |s| < 1 then Short
    else if s[0] % 64 == 63 then
      if |s| < 3 then Short else Got(BasicHeader(s[0] / 64, Uint32(s[1..3]) + 64), s[3..])
    else if s[0] % 64 == 0 then
      if |s| < 2 then Short else Got(BasicHeader(s[0] / 64, Uint32(s[1..2]) + 64), s[2..])
    else
      Got(BasicHeader(s[0] / 64, Uint32([s[0] % 64])), s[1..])
  }

  /** The shift by six drops all but the two low bits of the format id, and the conversion
      to uint16 all but the two low bytes of the stream id. */
  function WriteBasic(h: BasicHeader): seq<byte> {
    var format := h.formatId % 4 * 64;
    if h.streamId < 64 then [format + h.streamId]
    else if h.streamId < 320 then [format, h.streamId - 64]
    else [format + 63] + Uint16Bytes((h.streamId - 64) % 0x1_0000)
  }

  /** The basic headers that survive a round trip. Ids 0 and 63 collide with the two
      markers, and nothing above 65599 fits. */
  predicate Representable(h: BasicHeader) {
    h.formatId <= 3 && 0 < h.streamId <= 65599 && h.streamId != 63
  }

  // ----- message header -----

  /** Fields that the format does not carry keep the value they had in `m`. */
  function ReadMessage(m: MessageHeader, s: seq<byte>): Parsed<MessageHeader> {
    match m.formatId
    case 0 =>
      if |s| < 11 then Short
      else Got(MessageHeader(0, Uint32(s[..3]), false, Uint32(s[3..6]), s[6], LittleEndianUint32(s[7..11])), s[11..])
    case 1 =>
      if |s| < 7 then Short
      else
        Got(m.(timestamp := Uint32(s[..3]), timestampDelta := true, length := Uint32(s[3..6]), typeId := s[6]), s[7..])
    case 2 =>
      if |s| < 3 then Short
      else Got(m.(timestamp := Uint32(s[..3]), timestampDelta := true), s[3..])
    case 3 => Got(m, s)
    case _ => UnknownFormat
  }

  function WriteMessage(m: MessageHeader): seq<byte> {
    match m.formatId
    case 0 => Uint24Bytes(m.timestamp) + Uint24Bytes(m.length) + [m.typeId] + LittleEndianUint32Bytes(m.streamId)
    case 1 => Uint24Bytes(m.timestamp) + Uint24Bytes(m.length) + [m.typeId]
    case 2 => Uint24Bytes(m.timestamp)
    case _ => []
  }

  // ----- whole header -----

  function ReadHeaderInto(h: Header, s: seq<byte>): Parsed<Header> {
    match ReadBasic(s)
    case Got(basic, s1) =>
      (match ReadMessage(h.message.(formatId := basic.formatId), s1)
       case Got(message, s2) =>
         if message.timestamp != EXTENDED then Got(Header(basic, message, h.extended), s2)
         else if |s2| < 4 then Short
         else Got(Header(basic, message, Uint32(s2[..4])), s2[4..])
       case Short => Short
       case UnknownFormat => UnknownFormat)
    case Short => Short
    case UnknownFormat => UnknownFormat
  }

  /** Each iteration of the receive loop reads into a newly allocated header. */
  function ReadHeader(s: seq<byte>): Parsed<Header> {
    ReadHeaderInto(NEW_HEADER, s)
  }

  function WriteHeader(h: Header): seq<byte> {
    WriteBasic(h.basic) + WriteMessage(h.message)
    + if h.message.timestamp == EXTENDED then Uint32Bytes(h.extended) else []
  }

  /** The fields a format does not carry are zero, and those it carries fit. */
  predicate FieldsFit(m: MessageHeader) {
    && m.timestamp <= 0xffffff
    && m.length <= 0xffffff
    && (m.timestampDelta <==> m.formatId == 1 || m.formatId == 2)
    && (m.formatId != 0 ==> m.streamId == 0)
    && (m.formatId >= 2 ==> m.length == 0 && m.typeId == 0)
    && (m.formatId == 3 ==> m.timestamp == 0)
  }

  predicate Canonical(h: Header) {
    && Representable(h.basic)
    && h.message.formatId == h.basic.formatId
    && FieldsFit(h.message)
    && (h.message.timestamp != EXTENDED ==> h.extended == 0)
  }

  // ----- round trips -----

  lemma Marker(format: byte, low: byte)
    requires format <= 3 && low < 64
    ensures var b := format % 4 * 64 + low; b / 64 == format && b % 64 == low
  {
  }

  lemma BasicRoundTrip(h: BasicHeader, rest: seq<byte>)
    requires Representable(h)
    ensures ReadBasic(WriteBasic(h) + rest) == Got(h, rest)
  {
    hide Uint32;
    var s := WriteBasic(h) + rest;
    if h.streamId < 64 {
      Marker(h.formatId, h.streamId);
      OneByte(h.streamId);
      assert s[1..] == rest;
    } else if h.streamId < 320 {
      Marker(h.formatId, 0);
      OneByte(h.streamId - 64);
      assert s[1..2] == [h.streamId - 64] && s[2..] == rest;
    } else {
      Marker(h.formatId, 63);
      var tail := Uint16Bytes(h.streamId - 64);
      assert Uint32(tail) == h.streamId - 64 by { Uint16RoundTrip(h.streamId - 64); }
      assert s[1..3] == tail && s[3..] == rest;
    }
  }

  /** The fields of a message header are read off their places in the string. */
  lemma FormatZero(m: MessageHeader, ts: seq<byte>, length: seq<byte>, stream: seq<byte>, rest: seq<byte>)
    requires ts == Uint24Bytes(m.timestamp) && length == Uint24Bytes(m.length)
    requires stream == LittleEndianUint32Bytes(m.streamId)
    requires m == MessageHeader(0, Uint32(ts), false, Uint32(length), m.typeId, LittleEndianUint32(stream))
    ensures ReadMessage(NO_MESSAGE, WriteMessage(m) + rest) == Got(m, rest)
  {
    var s := ts + length + [m.typeId] + stream + rest;
    assert s[..3] == ts && s[3..6] == length && s[6] == m.typeId && s[7..11] == stream && s[11..] == rest;
  }

  lemma FormatOne(m: MessageHeader, ts: seq<byte>, length: seq<byte>, rest: seq<byte>)
    requires ts == Uint24Bytes(m.timestamp) && length == Uint24Bytes(m.length)
    requires m == MessageHeader(1, Uint32(ts), true, Uint32(length), m.typeId, 0)
    ensures ReadMessage(NO_MESSAGE.(formatId := 1), WriteMessage(m) + rest) == Got(m, rest)
  {
    var s := ts + length + [m.typeId] + rest;
    assert s[..3] == ts && s[3..6] == length && s[6] == m.typeId && s[7..] == rest;
  }

  lemma FormatTwo(m: MessageHeader, ts: seq<byte>, rest: seq<byte>)
    requires ts == Uint24Bytes(m.timestamp)
    requires m == MessageHeader(2, Uint32(ts), true, 0, 0, 0)
    ensures ReadMessage(NO_MESSAGE.(formatId := 2), WriteMessage(m) + rest) == Got(m, rest)
  {
    var s := ts + rest;
    assert s[..3] == ts && s[3..] == rest;
  }

  /** What a reader makes of the fields that a message header carries. */
  function Reread(m: MessageHeader): MessageHeader {
    var ts, length := Uint32(Uint24Bytes(m.timestamp)), Uint32(Uint24Bytes(m.length));
    match m.formatId
    case 0 => MessageHeader(0, ts, false, length, m.typeId, LittleEndianUint32(LittleEndianUint32Bytes(m.streamId)))
    case 1 => MessageHeader(1, ts, true, length, m.typeId, 0)
    case 2 => MessageHeader(2, ts, true, 0, 0, 0)
    case _ => NO_MESSAGE.(formatId := 3)
  }

  lemma FieldsSurvive(m: MessageHeader)
    requires m.formatId <= 3 && FieldsFit(m)
    ensures Reread(m) == m
  {
    Uint24RoundTrip(m.timestamp);
    Uint24RoundTrip(m.length);
    Uint32RoundTrip(m.streamId);
  }

  lemma ReadsFields(m: MessageHeader, rest: seq<byte>)
    requires m.formatId <= 3 && Reread(m) == m
    ensures ReadMessage(NO_MESSAGE.(formatId := m.formatId), WriteMessage(m) + rest) == Got(m, rest)
  {
    if m.formatId == 0 {
      FormatZero(m, Uint24Bytes(m.timestamp), Uint24Bytes(m.length), LittleEndianUint32Bytes(m.streamId), rest);
    } else if m.formatId == 1 {
      FormatOne(m, Uint24Bytes(m.timestamp), Uint24Bytes(m.length), rest);
    } else if m.formatId == 2 {
      FormatTwo(m, Uint24Bytes(m.timestamp), rest);
    } else {
      assert WriteMessage(m) + rest == rest;
    }
  }

  lemma MessageRoundTrip(m: MessageHeader, rest: seq<byte>)
    requires m.formatId <= 3 && FieldsFit(m)
    ensures ReadMessage(NO_MESSAGE.(formatId := m.formatId), WriteMessage(m) + rest) == Got(m, rest)
  {
    FieldsSurvive(m);
    ReadsFields(m, rest);
  }

  /** Reading what was written gives the header back and consumes exactly its bytes. */
  lemma HeaderRoundTrip(h: Header, rest: seq<byte>)
    requires Canonical(h)
    ensures ReadHeader(WriteHeader(h) + rest) == Got(h, rest)
  {
    var tail := if h.message.timestamp == EXTENDED then Uint32Bytes(h.extended) else [];
    assert WriteHeader(h) + rest == WriteBasic(h.basic) + (WriteMessage(h.message) + (tail + rest));
    BasicRoundTrip(h.basic, WriteMessage(h.message) + (tail + rest));
    MessageRoundTrip(h.message, tail + rest);
    if h.message.timestamp == EXTENDED {
      Uint32RoundTrip(h.extended);
      assert (tail + rest)[..4] == tail && (tail + rest)[4..] == rest;
    } else {
      assert tail + rest == rest;
    }
  }

  lemma ReadBasicIsRepresentable(s: seq<byte>)
    ensures ReadBasic(s) != UnknownFormat
    ensures ReadBasic(s).Got? ==>
              && Representable(ReadBasic(s).value)
              && 1 <= |s| - |ReadBasic(s).rest| <= 3
              && ReadBasic(s).rest == s[|s| - |ReadBasic(s).rest|..]
  {
  }

  lemma ReadMessageFits(format: byte, s: seq<byte>)
    requires format <= 3
    ensures var p := ReadMessage(NO_MESSAGE.(formatId := format), s);
            && p != UnknownFormat
            && (p.Got? ==>
                  && p.value.formatId == format && FieldsFit(p.value)
                  && |s| - |p.rest| <= 11
                  && p.rest == s[|s| - |p.rest|..])
  {
  }

  /** Whatever the input, a header that was read is canonical, its bytes are a prefix of
      the input, and the format is always known. */
  lemma ReadIsCanonical(s: seq<byte>)
    ensures ReadHeader(s) != UnknownFormat
    ensures ReadHeader(s).Got? ==>
              && Canonical(ReadHeader(s).value)
              && 1 <= |s| - |ReadHeader(s).rest| <= 18
              && ReadHeader(s).rest == s[|s| - |ReadHeader(s).rest|..]
  {
    ReadBasicIsRepresentable(s);
    if ReadBasic(s).Got? {
      ReadMessageFits(ReadBasic(s).value.formatId, ReadBasic(s).rest);
    }
  }

  /** Exactly the canonical headers round trip. */
  lemma RoundTripIffCanonical(h: Header)
    ensures (forall rest :: ReadHeader(WriteHeader(h) + rest) == Got(h, rest)) <==> Canonical(h)
  {
    if forall rest :: ReadHeader(WriteHeader(h) + rest) == Got(h, rest) {
      assert ReadHeader(WriteHeader(h) + []) == Got(h, []);
      ReadIsCanonical(WriteHeader(h) + []);
    }
    if Canonical(h) {
      forall rest ensures ReadHeader(WriteHeader(h) + rest) == Got(h, rest) {
        HeaderRoundTrip(h, rest);
      }
    }
  }

  /** The other way round, re-encoding a decoded header restores the bytes exactly when
      they did not spell a small stream id in the three-byte form. */
  lemma RereadIffShortest(s: seq<byte>)
    requires ReadHeader(s).Got?
    ensures WriteHeader(ReadHeader(s).value) + ReadHeader(s).rest == s
       <==> !(s[0] % 64 == 63 && s[1] == 0)
  {
    hide Representable, FieldsFit, WriteBasic, WriteMessage, ReadBasic, ReadMessage, Uint32, Uint32Bytes;
    var h, rest := ReadHeader(s).value, ReadHeader(s).rest;
    var s1, s2 := ReadBasic(s).rest, ReadMessage(NO_MESSAGE.(formatId := h.basic.formatId), ReadBasic(s).rest).rest;
    RewriteMessage(h.basic.formatId, s1);
    if h.message.timestamp == EXTENDED {
      Uint32Rewrite(s2[..4]);
      assert s2 == s2[..4] + s2[4..];
    }
    assert WriteHeader(h) + rest == WriteBasic(h.basic) + s1;
    RewriteBasic(s);
  }

  lemma RewriteBasic(s: seq<byte>)
    requires ReadBasic(s).Got?
    ensures WriteBasic(ReadBasic(s).value) + ReadBasic(s).rest == s <==> !(s[0] % 64 == 63 && s[1] == 0)
  {
    hide Uint32;
    if s[0] % 64 == 63 {
      RewriteThreeBytes(s);
    } else if s[0] % 64 == 0 {
      RewriteTwoBytes(s);
    } else {
      assert Uint32([s[0] % 64]) == s[0] % 64 by { OneByte(s[0] % 64); }
    }
  }

  lemma OneByte(b: byte)
    ensures Uint32([b]) == b
  {
  }

  lemma RewriteTwoBytes(s: seq<byte>)
    requires |s| >= 2 && s[0] % 64 == 0
    ensures WriteBasic(BasicHeader(s[0] / 64, Uint32(s[1..2]) + 64)) + s[2..] == s
  {
    hide Uint32;
    assert s[1..2] == [s[1]];
    OneByte(s[1]);
  }

  lemma RewriteThreeBytes(s: seq<byte>)
    requires |s| >= 3 && s[0] % 64 == 63
    ensures WriteBasic(BasicHeader(s[0] / 64, Uint32(s[1..3]) + 64)) + s[3..] == s <==> s[1] != 0
  {
    hide Uint32;
    var id := Uint32(s[1..3]);
    Uint16Rewrite(s[1..3]);
    assert id == s[1] as int * 0x100 + s[2] by { TwoBytes(s[1..3]); }
    if s[1] != 0 {
      assert WriteBasic(BasicHeader(s[0] / 64, id + 64)) == [s[0]] + s[1..3];
    } else {
      assert |WriteBasic(BasicHeader(s[0] / 64, id + 64)) + s[3..]| != |s|;
    }
  }

  lemma TwoBytes(b: seq<byte>)
    requires |b| == 2
    ensures Uint32(b) == b[0] as int * 0x100 + b[1]
  {
  }

  lemma RewriteFields(s: seq<byte>)
    requires |s| >= 3
    ensures Uint24Bytes(Uint32(s[..3])) == s[..3]
    ensures |s| >= 7 ==> s[..3] + Uint24Bytes(Uint32(s[3..6])) + [s[6]] == s[..7]
    ensures |s| >= 11 ==> s[..7] + LittleEndianUint32Bytes(LittleEndianUint32(s[7..11])) == s[..11]
  {
    Uint24Rewrite(s[..3]);
    if |s| >= 7 { Uint24Rewrite(s[3..6]); }
    if |s| >= 11 { LittleEndianRewrite(s[7..11]); }
  }

  lemma RewriteMessage(format: byte, s: seq<byte>)
    requires ReadMessage(NO_MESSAGE.(formatId := format), s).Got?
    ensures var p := ReadMessage(NO_MESSAGE.(formatId := format), s); WriteMessage(p.value) + p.rest == s
  {
    if format <= 2 {
      RewriteFields(s);
    }
  }

  /** A successful read does not depend on what follows the header. */
  lemma ReadHeaderExtends(s: seq<byte>, more: seq<byte>)
    requires ReadHeader(s).Got?
    ensures ReadHeader(s + more) == Got(ReadHeader(s).value, ReadHeader(s).rest + more)
  {
    hide ReadBasic, ReadMessage, Uint32;
    ReadBasicExtends(s, more);
    var basic, s1 := ReadBasic(s).value, ReadBasic(s).rest;
    var m := NO_MESSAGE.(formatId := basic.formatId);
    ReadMessageExtends(m, s1, more);
    var s2 := ReadMessage(m, s1).rest;
    if ReadMessage(m, s1).value.timestamp == EXTENDED {
      assert (s2 + more)[..4] == s2[..4] && (s2 + more)[4..] == s2[4..] + more;
    }
  }

  lemma ReadBasicExtends(s: seq<byte>, more: seq<byte>)
    requires ReadBasic(s).Got?
    ensures ReadBasic(s + more) == Got(ReadBasic(s).value, ReadBasic(s).rest + more)
  {
    hide Uint32;
    var t := s + more;
    assert t[0] == s[0] && t[1..] == s[1..] + more;
    if |s| >= 2 { assert t[1..2] == s[1..2] && t[2..] == s[2..] + more; }
    if |s| >= 3 { assert t[1..3] == s[1..3] && t[3..] == s[3..] + more; }
  }

  lemma ReadMessageExtends(m: MessageHeader, s: seq<byte>, more: seq<byte>)
    requires ReadMessage(m, s).Got?
    ensures ReadMessage(m, s + more) == Got(ReadMessage(m, s).value, ReadMessage(m, s).rest + more)
  {
    hide Uint32, LittleEndianUint32;
    var t := s + more;
    if m.formatId <= 2 { assert t[..3] == s[..3]; }
    if m.formatId <= 1 { assert t[3..6] == s[3..6]; }
    match m.formatId
    case 0 => assert t[7..11] == s[7..11] && t[11..] == s[11..] + more;
    case 1 => assert t[7..] == s[7..] + more;
    case 2 => assert t[3..] == s[3..] + more;
    case 3 =>
  }
}

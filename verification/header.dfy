/** The heap object behind a *chunk.Header: its component structs are embedded by value,
    and Read fills them in one after the other (chunk/header.go and the files of its parts). */
module Headers {
  import opened Bytes
  import opened Wire

  /** The fields of the buffer are those of the input. */
  lemma SlicesOfZero(s: seq<byte>)
    requires |s| >= 11
    ensures s[..11][..3] == s[..3] && s[..11][3..6] == s[3..6] && s[..11][6] == s[6] && s[..11][7..] == s[7..11]
  {
  }

  lemma SlicesOfOne(s: seq<byte>)
    requires |s| >= 7
    ensures s[..7][..3] == s[..3] && s[..7][3..6] == s[3..6] && s[..7][6] == s[6]
  {
  }

  class HeaderRef {
    var basic: BasicHeader
    var message: MessageHeader
    var extended: uint32

    function Value(): Header
      reads this
    {
      Header(basic, message, extended)
    }

    constructor (h: Header)
      ensures Value() == h
    {
      basic, message, extended := h.basic, h.message, h.extended;
    }

    method ReadBasicHeader(src: Source) returns (err: Option<Error>)
      modifies this`basic, src
      ensures match Wire.ReadBasic(old(src.data))
              case Got(b, rest) => err == None && basic == b && src.data == rest
              case _ => err == Some(EndOfInput) && src.data == []
    {
      var b := src.ReadByte();
      if b.None? {
        return Some(EndOfInput);
      }
      basic := basic.(formatId := b.value / 64);
      if b.value % 64 == 63 {
        var tail := src.ReadBytes(2);
        if tail.None? {
          return Some(EndOfInput);
        }
        assert tail.value == old(src.data)[1..3];
        basic := basic.(streamId := Uint32(tail.value) + 64);
      } else if b.value % 64 == 0 {
        var tail := src.ReadBytes(1);
        if tail.None? {
          return Some(EndOfInput);
        }
        assert tail.value == old(src.data)[1..2];
        basic := basic.(streamId := Uint32(tail.value) + 64);
      } else {
        basic := basic.(streamId := Uint32([b.value % 64]));
      }
      err := None;
    }

    method ReadMessageHeader(src: Source) returns (err: Option<Error>)
      modifies this`message, src
      ensures match Wire.ReadMessage(old(message), old(src.data))
              case Got(m, rest) => err == None && message == m && src.data == rest
              case Short => err == Some(EndOfInput) && src.data == []
              case UnknownFormat => err == Some(UnknownFormatId) && src.data == old(src.data)
    {
      hide Uint32, LittleEndianUint32;
      match message.formatId
      case 0 =>
        var buf := src.ReadBytes(11);
        if buf.None? {
          return Some(EndOfInput);
        }
        var b := buf.value;
        SlicesOfZero(old(src.data));
        message := message.(timestamp := Uint32(b[..3]), timestampDelta := false, length := Uint32(b[3..6]),
          typeId := b[6], streamId := LittleEndianUint32(b[7..]));
        err := None;
      case 1 =>
        var buf := src.ReadBytes(7);
        if buf.None? {
          return Some(EndOfInput);
        }
        var b := buf.value;
        SlicesOfOne(old(src.data));
        message := message.(timestamp := Uint32(b[..3]), timestampDelta := true, length := Uint32(b[3..6]),
          typeId := b[6]);
        err := None;
      case 2 =>
        var buf := src.ReadBytes(3);
        if buf.None? {
          return Some(EndOfInput);
        }
        message := message.(timestamp := Uint32(buf.value), timestampDelta := true);
        err := None;
      case 3 =>
        err := None;
      case _ =>
        err := Some(UnknownFormatId);
    }

    method ReadExtendedTimestamp(src: Source) returns (err: Option<Error>)
      modifies this`extended, src
      ensures |old(src.data)| >= 4 ==>
                err == None && extended == Uint32(old(src.data)[..4]) && src.data == old(src.data)[4..]
      ensures |old(src.data)| < 4 ==> err == Some(EndOfInput) && src.data == [] && extended == old(extended)
    {
      var buf := src.ReadBytes(4);
      if buf.None? {
        return Some(EndOfInput);
      }
      extended := Uint32(buf.value);
      err := None;
    }

    /** On success the object holds exactly what ReadHeaderInto decodes and the source is
        left at the first byte after the header; on failure the source has been drained,
        unless the format is unknown. */
    method Read(src: Source) returns (err: Option<Error>)
      modifies this, src
      ensures match ReadHeaderInto(old(Value()), old(src.data))
              case Got(h, rest) => err == None && Value() == h && src.data == rest
              case Short => err == Some(EndOfInput) && src.data == []
              case UnknownFormat => err == Some(UnknownFormatId)
    {
      err := ReadBasicHeader(src);
      if err.Some? {
        return;
      }
      message := message.(formatId := basic.formatId);
      err := ReadMessageHeader(src);
      if err.Some? {
        return;
      }
      if message.timestamp == EXTENDED {
        err := ReadExtendedTimestamp(src);
      }
    }

    method WriteBasicHeader(w: Sink)
      modifies w
      ensures w.data == old(w.data) + Wire.WriteBasic(basic)
    {
      var buf: seq<byte> := [basic.formatId % 4 * 64];
      if basic.streamId < 64 {
        buf := buf[0 := buf[0] + basic.streamId];
      } else if basic.streamId < 320 {
        buf := buf + [basic.streamId - 64];
      } else {
        buf := buf[0 := buf[0] + 63];
        buf := buf + Uint16Bytes((basic.streamId - 64) % 0x1_0000);
      }
      w.Write(buf);
    }

    method WriteMessageHeader(w: Sink)
      modifies w
      ensures w.data == old(w.data) + Wire.WriteMessage(message)
    {
      var buf := new Sink();
      match message.formatId {
        case 0 =>
          buf.Write(Uint24Bytes(message.timestamp));
          buf.Write(Uint24Bytes(message.length));
          buf.Write([message.typeId]);
          buf.Write(LittleEndianUint32Bytes(message.streamId));
        case 1 =>
          buf.Write(Uint24Bytes(message.timestamp));
          buf.Write(Uint24Bytes(message.length));
          buf.Write([message.typeId]);
        case 2 =>
          buf.Write(Uint24Bytes(message.timestamp));
        case _ =>
      }
      w.Write(buf.data);
    }

    method Write(w: Sink)
      modifies w
      ensures w.data == old(w.data) + WriteHeader(Value())
    {
      hide WriteBasic, WriteMessage;
      WriteBasicHeader(w);
      WriteMessageHeader(w);
      if message.timestamp == EXTENDED {
        w.Write(Uint32Bytes(extended));
      }
    }
  }
}

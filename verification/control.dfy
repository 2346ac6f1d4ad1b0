/** Control messages (the control package): their bodies, the chunker and the parser. */
module Controls {
  import opened Bytes
  import opened Wire
  import opened Headers
  import opened Builders

  datatype Control =
    | SetChunkSize(chunkSize: uint32)
    | AbortMessage(chunkStreamId: uint32)
    | Acknowledgement(sequenceNumber: uint32)
    | UserEvent(eventType: uint16, body: seq<byte>)
    | WindowAckSize(windowAckSize: uint32)
    | SetPeerBandwidth(ackWindowSize: uint32, limitType: byte)
  {
    function TypeId(): byte {
      match this
      case SetChunkSize(_) => 1
      case AbortMessage(_) => 2
      case Acknowledgement(_) => 3
      case UserEvent(_, _) => 4
      case WindowAckSize(_) => 5
      case SetPeerBandwidth(_, _) => 6
    }

    /** The body on the wire. A chunk size is cut down to 24 bits before it is written. */
    function Body(): seq<byte> {
      match this
      case SetChunkSize(n) => Uint32Bytes(Min(n, 0xffffff))
      case AbortMessage(n) => Uint32Bytes(n)
      case Acknowledgement(n) => Uint32Bytes(n)
      case UserEvent(t, body) => Uint16Bytes(t) + body
      case WindowAckSize(n) => Uint32Bytes(n)
      case SetPeerBandwidth(n, limit) => Uint32Bytes(n) + [limit]
    }

    method Write(w: Sink)
      modifies w
      ensures w.data == old(w.data) + Body()
    {
      hide Uint32Bytes, Uint16Bytes;
      match this
      case SetChunkSize(n) => w.Write(Uint32Bytes(if n > 0xffffff then 0xffffff else n));
      case AbortMessage(n) => w.Write(Uint32Bytes(n));
      case Acknowledgement(n) => w.Write(Uint32Bytes(n));
      case UserEvent(t, body) =>
        w.Write(Uint16Bytes(t));
        w.Write(body);
      case WindowAckSize(n) => w.Write(Uint32Bytes(n));
      case SetPeerBandwidth(n, limit) =>
        w.Write(Uint32Bytes(n));
        w.Write([limit]);
    }
  }

  /** The concrete types behind the Control interface, which the source tells apart by
      reflection. */
  datatype Kind =
    | SetChunkSizeKind | AbortMessageKind | AcknowledgementKind
    | UserEventKind | WindowAckSizeKind | SetPeerBandwidthKind

  function KindTypeId(k: Kind): byte {
    match k
    case SetChunkSizeKind => 1
    case AbortMessageKind => 2
    case AcknowledgementKind => 3
    case UserEventKind => 4
    case WindowAckSizeKind => 5
    case SetPeerBandwidthKind => 6
  }

  /** The width of the fixed fields of a body. */
  function Width(k: Kind): nat {
    if k.UserEventKind? then 2 else if k.SetPeerBandwidthKind? then 5 else 4
  }

  /** What a new control of the kind reads from `data`. Only an event reads to the end. */
  function ReadBody(k: Kind, data: seq<byte>): Option<Control> {
    if |data| < Width(k) then None
    else
      match k
      case SetChunkSizeKind => Some(SetChunkSize(Uint32(data[..4])))
      case AbortMessageKind => Some(AbortMessage(Uint32(data[..4])))
      case AcknowledgementKind => Some(Acknowledgement(Uint32(data[..4])))
      case UserEventKind => Some(UserEvent(Uint16(data[..2]), data[2..]))
      case WindowAckSizeKind => Some(WindowAckSize(Uint32(data[..4])))
      case SetPeerBandwidthKind => Some(SetPeerBandwidth(Uint32(data[..4]), data[4]))
  }

  const CONTROL_CHUNK_STREAM: uint32 := 2
  const CONTROL_MESSAGE_STREAM: uint32 := 0

  /** The chunk that carries a control message. */
  function ChunkOf(c: Control): Chunk {
    Chunk(Header(BasicHeader(0, CONTROL_CHUNK_STREAM),
                 MessageHeader(0, 0, false, |c.Body()| % 0x1_0000_0000, c.TypeId(), CONTROL_MESSAGE_STREAM), 0),
          c.Body())
  }

  method ChunkControl(c: Control) returns (chunk: ChunkRef)
    ensures fresh(chunk.header) && chunk.Value() == ChunkOf(c)
  {
    var data := new Sink();
    c.Write(data);
    var header := new HeaderRef(Header(
      BasicHeader(0, CONTROL_CHUNK_STREAM),
      MessageHeader(0, 0, false, |data.data| % 0x1_0000_0000, c.TypeId(), CONTROL_MESSAGE_STREAM), 0));
    assert [] + c.Body() == c.Body();
    chunk := ChunkRef(header, data.data);
  }

  // ----- parsing -----

  datatype ParseResult = Parsed(control: Control) | UnknownControlType(id: byte) | ReadFailed

  function KindFor(id: byte): Option<Kind> {
    match id
    case 1 => Some(SetChunkSizeKind)
    case 2 => Some(AbortMessageKind)
    case 3 => Some(AcknowledgementKind)
    case 4 => Some(UserEventKind)
    case 5 => Some(WindowAckSizeKind)
    case 6 => Some(SetPeerBandwidthKind)
    case _ => None
  }

  function ParseChunk(c: Chunk): ParseResult {
    match KindFor(c.TypeId())
    case None => UnknownControlType(c.TypeId())
    case Some(k) =>
      match ReadBody(k, c.data)
      case None => ReadFailed
      case Some(control) => Parsed(control)
  }

  class DefaultParser {
    var controls: map<byte, Kind>

    ghost predicate Valid()
      reads this
    {
      forall id: byte :: if id in controls then KindFor(id) == Some(controls[id]) else KindFor(id) == None
    }

    constructor ()
      ensures Valid()
    {
      controls := map[];
      new;
      var kinds := [SetChunkSizeKind, AbortMessageKind, AcknowledgementKind,
                    UserEventKind, WindowAckSizeKind, SetPeerBandwidthKind];
      assert forall k :: 0 <= k < |kinds| ==> KindTypeId(kinds[k]) == k + 1 && KindFor(k + 1) == Some(kinds[k]);
      for i := 0 to |kinds|
        invariant forall id: byte :: id in controls <==> 1 <= id <= i
        invariant forall id: byte :: id in controls ==> KindFor(id) == Some(controls[id])
      {
        controls := controls[KindTypeId(kinds[i]) := kinds[i]];
      }
    }

    method TypeFor(id: byte) returns (k: Option<Kind>)
      requires Valid()
      ensures k == KindFor(id)
    {
      k := if id in controls then Some(controls[id]) else None;
    }

    method Parse(chunk: ChunkRef) returns (r: ParseResult)
      requires Valid()
      ensures r == ParseChunk(chunk.Value())
    {
      hide Uint32, Uint16;
      var id := chunk.header.message.typeId;
      var t := TypeFor(id);
      if t.None? {
        return UnknownControlType(id);
      }
      var src := new Source(chunk.data);
      var c := ReadControl(t.value, src);
      r := if c.None? then ReadFailed else Parsed(c.value);
    }
  }

  method ReadControl(k: Kind, src: Source) returns (c: Option<Control>)
    modifies src
    ensures c == ReadBody(k, old(src.data))
    ensures src.data == if c.None? || k.UserEventKind? then [] else old(src.data)[Width(k)..]
  {
    hide Uint32, Uint16;
    match k {
      case UserEventKind =>
        var t := src.ReadBytes(2);
        if t.None? {
          return None;
        }
        ghost var rest := src.data;
        var body := src.ReadBytes(|src.data|);
        assert rest[..|rest|] == rest;
        c := Some(UserEvent(Uint16(t.value), body.value));
      case SetPeerBandwidthKind =>
        var buf := src.ReadBytes(5);
        if buf.None? {
          return None;
        }
        assert buf.value[..4] == old(src.data)[..4];
        c := Some(SetPeerBandwidth(Uint32(buf.value[..4]), buf.value[4]));
      case _ =>
        var buf := src.ReadBytes(4);
        if buf.None? {
          return None;
        }
        var n := Uint32(buf.value);
        c := match k
             case SetChunkSizeKind => Some(SetChunkSize(n))
             case AbortMessageKind => Some(AbortMessage(n))
             case AcknowledgementKind => Some(Acknowledgement(n))
             case _ => Some(WindowAckSize(n));
    }
  }

  // ----- control messages number by number and byte by byte -----

  function Digits(n: uint32): seq<byte> {
    [n / 16777216, n / 65536 % 256, n / 256 % 256, n % 256]
  }

  function Number(data: seq<byte>): uint32
    requires |data| >= 4
  {
    data[0] as int * 16777216 + data[1] as int * 65536 + data[2] as int * 256 + data[3] as int
  }

  /** A control message travels on chunk stream 2 and message stream 0, with a complete header
      of time zero; its type id and its body are these. */
  lemma ChunkLayout(c: Control)
    ensures var chunk := ChunkOf(c);
            && chunk.header.basic == BasicHeader(0, 2) && chunk.header.extended == 0
            && chunk.header.message == MessageHeader(0, 0, false, |chunk.data| % 4294967296, chunk.TypeId(), 0)
            && match c
               case SetChunkSize(n) =>
                 chunk.TypeId() as int == 1 && chunk.data == Digits(if n > 16777215 then 16777215 else n)
               case AbortMessage(n) => chunk.TypeId() as int == 2 && chunk.data == Digits(n)
               case Acknowledgement(n) => chunk.TypeId() as int == 3 && chunk.data == Digits(n)
               case UserEvent(t, body) => chunk.TypeId() as int == 4 && chunk.data == [t / 256, t % 256] + body
               case WindowAckSize(n) => chunk.TypeId() as int == 5 && chunk.data == Digits(n)
               case SetPeerBandwidth(n, limit) => chunk.TypeId() as int == 6 && chunk.data == Digits(n) + [limit]
  {
  }

  /** What the parser makes of any data under each type id. */
  function Says(id: int, data: seq<byte>): ParseResult
    requires 0 <= id < 256
  {
    if id < 1 || id > 6 then UnknownControlType(id)
    else if |data| < (if id == 4 then 2 else if id == 6 then 5 else 4) then ReadFailed
    else if id == 1 then Parsed(SetChunkSize(Number(data)))
    else if id == 2 then Parsed(AbortMessage(Number(data)))
    else if id == 3 then Parsed(Acknowledgement(Number(data)))
    else if id == 4 then Parsed(UserEvent(data[0] as int * 256 + data[1] as int, data[2..]))
    else if id == 5 then Parsed(WindowAckSize(Number(data)))
    else Parsed(SetPeerBandwidth(Number(data), data[4]))
  }

  lemma ParseLayout(chunk: Chunk)
    ensures ParseChunk(chunk) == Says(chunk.TypeId(), chunk.data)
  {
  }

  // ----- round trips -----

  /** What survives of a control message: a chunk size beyond 24 bits does not. */
  function Clamped(c: Control): Control {
    if c.SetChunkSize? then SetChunkSize(Min(c.chunkSize, 0xffffff)) else c
  }

  lemma ParseAfterChunk(c: Control)
    ensures ParseChunk(ChunkOf(c)) == Parsed(Clamped(c))
    ensures ParseChunk(ChunkOf(c)) == Parsed(c) <==> !(c.SetChunkSize? && c.chunkSize > 0xffffff)
  {
    var body := c.Body();
    match c
    case UserEvent(t, b) =>
      Uint16RoundTrip(t);
      assert body[..2] == Uint16Bytes(t) && body[2..] == b;
    case SetPeerBandwidth(n, limit) =>
      Uint32RoundTrip(n);
      assert body[..4] == Uint32Bytes(n);
    case SetChunkSize(n) =>
      Uint32RoundTrip(Min(n, 0xffffff));
      assert body[..4] == body;
    case AbortMessage(n) =>
      Uint32RoundTrip(n);
      assert body[..4] == body;
    case Acknowledgement(n) =>
      Uint32RoundTrip(n);
      assert body[..4] == body;
    case WindowAckSize(n) =>
      Uint32RoundTrip(n);
      assert body[..4] == body;
  }

  /** The other way round: what was parsed goes back to the type id it came with and to the
      start of the data (to all of it, for an event), if and only if it is not a chunk size
      beyond 24 bits. */
  lemma ChunkAfterParse(chunk: Chunk, c: Control)
    requires ParseChunk(chunk) == Parsed(c)
    ensures c.TypeId() == chunk.TypeId()
    ensures c.Body() <= chunk.data <==> !(c.SetChunkSize? && c.chunkSize > 0xffffff)
    ensures c.UserEvent? ==> c.Body() == chunk.data
  {
    if c.UserEvent? {
      EventAfterParse(chunk, c);
    } else {
      FixedAfterParse(chunk, c);
    }
  }

  lemma EventAfterParse(chunk: Chunk, c: Control)
    requires ParseChunk(chunk) == Parsed(c) && c.UserEvent?
    ensures c.TypeId() == chunk.TypeId() && c.Body() == chunk.data
  {
    hide Uint16, Uint16Bytes;
    assert Uint16Bytes(Uint16(chunk.data[..2])) == chunk.data[..2] by { RewriteTwo(chunk.data[..2]); }
    assert chunk.data == chunk.data[..2] + chunk.data[2..];
  }

  lemma RewriteTwo(b: seq<byte>)
    requires |b| == 2
    ensures Uint16Bytes(Uint16(b)) == b
  {
  }

  lemma FixedAfterParse(chunk: Chunk, c: Control)
    requires ParseChunk(chunk) == Parsed(c) && !c.UserEvent?
    ensures c.TypeId() == chunk.TypeId()
    ensures c.Body() <= chunk.data <==> !(c.SetChunkSize? && c.chunkSize > 0xffffff)
  {
    hide Uint32, Uint32Bytes;
    var data := chunk.data;
    Uint32Rewrite(data[..4]);
    match c
    case SetChunkSize(n) =>
      assert Uint32Bytes(n) == data[..4];
      if n > 0xffffff {
        BigSizesDiffer(n);
      }
    case SetPeerBandwidth(n, limit) => assert data[..5] == data[..4] + [data[4]];
    case AbortMessage(_) => assert c.Body() == data[..4];
    case Acknowledgement(_) => assert c.Body() == data[..4];
    case WindowAckSize(_) => assert c.Body() == data[..4];
    case UserEvent(_, _) =>
  }

  lemma BigSizesDiffer(n: uint32)
    requires n > 0xffffff
    ensures |Uint32Bytes(n)| == |Uint32Bytes(0xffffff)| == 4 && Uint32Bytes(n) != Uint32Bytes(0xffffff)
  {
    assert Uint32Bytes(n)[0] > 0 && Uint32Bytes(0xffffff)[0] == 0;
  }
}

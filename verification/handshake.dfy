/** The handshake (the handshake package): the three sequences, each a read and a write, and
    the loop that runs them. */
module Handshakes {
  import opened Bytes

  const PAYLOAD: nat := 1528
  const PACKET: nat := 1536
  const SUPPORTED_VERSION: byte := 3

  datatype Failure = NoMoreInput | UnsupportedVersion(version: byte) | MismatchedChallenge

  /** The value of an AckPacket. */
  datatype Packet = Packet(time1: uint32, time2: uint32, payload: seq<byte>) {
    predicate Valid() { |payload| == PAYLOAD }
    function Encode(): seq<byte> { Uint32Bytes(time1) + Uint32Bytes(time2) + payload }
  }

  function DecodePacket(s: seq<byte>): Packet
    requires |s| >= PACKET
  {
    Packet(BigEndian32(s), BigEndian32(s[4..]), s[8..PACKET])
  }

  /** A packet byte by byte: two times, the most significant byte first, and the payload. */
  lemma PacketLayout(s: seq<byte>)
    requires |s| >= 1536
    ensures var p := DecodePacket(s);
            && p.time1 as int == s[0] as int * 16777216 + s[1] as int * 65536 + s[2] as int * 256 + s[3] as int
            && p.time2 as int == s[4] as int * 16777216 + s[5] as int * 65536 + s[6] as int * 256 + s[7] as int
            && |p.payload| == 1528 && forall k :: 0 <= k < 1528 ==> p.payload[k] == s[8 + k]
  {
  }

  lemma PacketRoundTrip(p: Packet, rest: seq<byte>)
    requires p.Valid()
    ensures |p.Encode()| == PACKET && DecodePacket(p.Encode() + rest) == p
  {
    var s := p.Encode() + rest;
    Uint32RoundTrip(p.time1);
    Uint32RoundTrip(p.time2);
    assert s[8..PACKET] == p.payload;
  }

  class AckPacket {
    var time1: uint32
    var time2: uint32
    /** A fixed-size array, filled in place. */
    const payload: array<byte>

    ghost predicate Valid() {
      payload.Length == PAYLOAD
    }

    function Value(): Packet
      reads this, payload
    {
      Packet(time1, time2, payload[..])
    }

    constructor ()
      ensures Valid() && fresh(payload) && Value() == Packet(0, 0, seq(PAYLOAD, _ => 0))
    {
      time1, time2 := 0, 0;
      payload := new byte[PAYLOAD](_ => 0);
    }

    method Read(src: Source) returns (err: Option<Failure>)
      requires Valid()
      modifies this, payload, src
      ensures |old(src.data)| >= PACKET ==>
                err == None && Value() == DecodePacket(old(src.data)) && src.data == old(src.data)[PACKET..]
      ensures |old(src.data)| < PACKET ==> err == Some(NoMoreInput) && src.data == []
    {
      ghost var input := src.data;
      var t := src.ReadBytes(4);
      if t.None? {
        return Some(NoMoreInput);
      }
      time1 := BigEndian32(t.value);
      t := src.ReadBytes(4);
      if t.None? {
        return Some(NoMoreInput);
      }
      time2 := BigEndian32(t.value);
      var p := src.ReadBytes(PAYLOAD);
      if p.None? {
        return Some(NoMoreInput);
      }
      forall k | 0 <= k < PAYLOAD {
        payload[k] := p.value[k];
      }
      assert payload[..] == p.value == input[8..PACKET];
      err := None;
    }

    method Write(w: Sink)
      requires Valid()
      modifies w
      ensures w.data == old(w.data) + Value().Encode()
    {
      w.Write(Uint32Bytes(time1));
      w.Write(Uint32Bytes(time2));
      w.Write(payload[..]);
    }
  }

  /** The sequences, each with the packets it holds. */
  datatype Sequence =
    | VersionSequence(supported: byte)
    | ClientAckSequence(c1: AckPacket, s1: AckPacket)
    | ServerAckSequence(s1: AckPacket)

  /** How many sequences are still to run. */
  function Rank(current: Option<Sequence>): nat {
    if current.None? then 0
    else if current.value.ServerAckSequence? then 1
    else if current.value.ClientAckSequence? then 2
    else 3
  }

  // ----- what a handshake does, by what is still to come -----

  datatype Stage = AtVersion(supported: byte) | AtClientAck(s1: Packet) | AtServerAck(s1: Packet) | Done

  datatype Result = Result(failure: Option<Failure>, output: seq<byte>, rest: seq<byte>)

  function StageRank(stage: Stage): nat {
    match stage
    case AtVersion(_) => 3
    case AtClientAck(_) => 2
    case AtServerAck(_) => 1
    case Done => 0
  }

  /** S2 repeats the first time and the payload of C1. */
  function Echo(c1: Packet): Packet {
    Packet(c1.time1, 0, c1.payload)
  }

  /** One sequence: what it reads decides whether it fails; if not, it writes and names its
      successor. */
  datatype StageResult =
    | Fails(failure: Failure, rest: seq<byte>)
    | Passes(next: Stage, output: seq<byte>, rest: seq<byte>)

  function RunStage(stage: Stage, input: seq<byte>, challenge: seq<byte>): (r: StageResult)
    requires stage != Done
    ensures r.Passes? ==> StageRank(r.next) < StageRank(stage)
  {
    match stage
    case AtVersion(v) =>
      if |input| < 1 then Fails(NoMoreInput, [])
      else if input[0] != v then Fails(UnsupportedVersion(input[0]), input[1..])
      else Passes(AtClientAck(Packet(0, 0, challenge)), [v], input[1..])
    case AtClientAck(s1) =>
      if |input| < PACKET then Fails(NoMoreInput, [])
      else Passes(AtServerAck(s1), s1.Encode() + Echo(DecodePacket(input)).Encode(), input[PACKET..])
    case AtServerAck(s1) =>
      if |input| < PACKET then Fails(NoMoreInput, [])
      else if DecodePacket(input).payload != s1.payload then Fails(MismatchedChallenge, input[PACKET..])
      else Passes(Done, [], input[PACKET..])
  }

  function Shake(stage: Stage, input: seq<byte>, challenge: seq<byte>): Result
    decreases StageRank(stage)
  {
    if stage == Done then Result(None, [], input)
    else
      match RunStage(stage, input, challenge)
      case Fails(failure, rest) => Result(Some(failure), [], rest)
      case Passes(next, output, rest) =>
        var r := Shake(next, rest, challenge);
        r.(output := output + r.output)
  }

  /** S0, S1 and S2 as bytes: S1 has zero times and the challenge; S2 has the time and the
      payload of C1, byte by byte, and a zero second time. */
  function Reply(input: seq<byte>, challenge: seq<byte>): seq<byte>
    requires |input| >= 1537
  {
    [3] + ([0, 0, 0, 0, 0, 0, 0, 0] + challenge) + (input[1..5] + [0, 0, 0, 0] + input[9..1537])
  }

  lemma AcksAsBytes(input: seq<byte>, challenge: seq<byte>)
    requires |input| >= 1 + PACKET
    ensures Reply(input, challenge)
         == [SUPPORTED_VERSION] + (Packet(0, 0, challenge).Encode() + Echo(DecodePacket(input[1..])).Encode())
  {
    hide Uint32Bytes, BigEndian32, Uint32;
    var c := input[1..];
    assert Uint32Bytes(0) == [0, 0, 0, 0] by { ZeroBytes(); }
    assert Uint32Bytes(BigEndian32(c)) == input[1..5] by {
      assert c[..4] == input[1..5];
      RewriteFirst(c);
    }
    assert c[8..PACKET] == input[9..1 + PACKET];
  }

  lemma ZeroBytes()
    ensures Uint32Bytes(0) == [0, 0, 0, 0]
  {
  }

  lemma RewriteFirst(s: seq<byte>)
    requires |s| >= 4
    ensures Uint32Bytes(BigEndian32(s)) == s[..4]
  {
    Uint32Rewrite(s[..4]);
  }

  /** How a handshake ends, what it has written and what it leaves unread, by the bytes that
      the client sends: version 3, C1, and C2 with the challenge. */
  function Ending(input: seq<byte>, challenge: seq<byte>): Result {
    if input == [] then Result(Some(NoMoreInput), [], [])
    else if input[0] as int != 3 then Result(Some(UnsupportedVersion(input[0])), [], input[1..])
    else if |input| < 1537 then Result(Some(NoMoreInput), [3], [])
    else if |input| < 3073 then Result(Some(NoMoreInput), Reply(input, challenge), [])
    else if input[1545..3073] != challenge then
      Result(Some(MismatchedChallenge), Reply(input, challenge), input[3073..])
    else Result(None, Reply(input, challenge), input[3073..])
  }

  /** The handshake ends like that on every input. It succeeds exactly on those that have 3073
      bytes, begin with 3 and end, so far, in the challenge; it then has consumed exactly these
      bytes, so that the next one is the first of the chunk stream, and has written as many. */
  lemma HandshakeCharacterised(input: seq<byte>, challenge: seq<byte>)
    requires |challenge| == 1528
    ensures var r := Shake(AtVersion(SUPPORTED_VERSION), input, challenge);
            && r == Ending(input, challenge)
            && (r.failure == None <==> |input| >= 3073 && input[0] as int == 3 && input[1545..3073] == challenge)
            && (r.failure == None ==> |r.output| == 3073)
  {
    hide Uint32Bytes, BigEndian32;
    if |input| >= 1 && input[0] == SUPPORTED_VERSION {
      ShakeAfterVersion(input[1..], challenge);
      var r := Shake(AtClientAck(Packet(0, 0, challenge)), input[1..], challenge);
      if |input| >= 1 + PACKET {
        AcksAsBytes(input, challenge);
      } else {
        assert [SUPPORTED_VERSION] + r.output == [3];
      }
      if |input| >= 1 + 2 * PACKET {
        assert input[1..][PACKET + 8..2 * PACKET] == input[1545..3073];
        assert input[1..][2 * PACKET..] == input[3073..];
      }
    }
  }

  lemma ShakeAfterVersion(input: seq<byte>, challenge: seq<byte>)
    requires |challenge| == PAYLOAD
    ensures var r := Shake(AtClientAck(Packet(0, 0, challenge)), input, challenge);
            if |input| < PACKET then r == Result(Some(NoMoreInput), [], [])
            else
              && r.output == Packet(0, 0, challenge).Encode() + Echo(DecodePacket(input)).Encode()
              && |r.output| == 2 * PACKET
              && (if |input| < 2 * PACKET then r.failure == Some(NoMoreInput) && r.rest == []
                  else
                    && r.rest == input[2 * PACKET..]
                    && r.failure == if input[PACKET + 8..2 * PACKET] == challenge then None
                                    else Some(MismatchedChallenge))
  {
    hide Uint32Bytes, BigEndian32;
    if |input| >= PACKET {
      var s1, rest := Packet(0, 0, challenge), input[PACKET..];
      var r := Shake(AtServerAck(s1), rest, challenge);
      assert Shake(Done, if |rest| >= PACKET then rest[PACKET..] else [], challenge).output == [];
      assert r.output == [];
      PacketRoundTrip(s1, []);
      PacketRoundTrip(Echo(DecodePacket(input)), []);
      var body := s1.Encode() + Echo(DecodePacket(input)).Encode();
      assert body + [] == body;
      if |rest| >= PACKET {
        assert rest[PACKET..] == input[2 * PACKET..];
        assert rest[8..PACKET] == input[PACKET + 8..2 * PACKET];
      }
    }
  }

  /** Whatever goes wrong (too little input, the version, the challenge), what has been written
      is a beginning of the full reply: nothing before the version was accepted, S0 until C1 has
      come, and all of it from then on. Its S2 depends on C1 only, so `more` supplies the part
      of C1 that the input may lack. */
  lemma FailureWritesPrefix(input: seq<byte>, more: seq<byte>, challenge: seq<byte>)
    requires |challenge| == PAYLOAD && |input + more| >= 1 + PACKET
    ensures var output := Shake(AtVersion(SUPPORTED_VERSION), input, challenge).output;
            && |Reply(input + more, challenge)| == 3073
            && output <= Reply(input + more, challenge)
            && |output| == if input == [] || input[0] as int != 3 then 0
                           else if |input| < 1 + PACKET then 1 else 3073
  {
    hide Uint32Bytes, BigEndian32;
    if |input| >= 1 {
      assert (input + more)[0] == input[0];
      assert (input + more)[1..] == input[1..] + more;
      ShakeAfterVersion(input[1..], challenge);
      if |input| >= 1 + PACKET {
        SamePacket(input[1..], more);
        AcksAsBytes(input + more, challenge);
      }
    }
  }

  lemma SamePacket(s: seq<byte>, more: seq<byte>)
    requires |s| >= PACKET
    ensures DecodePacket(s + more) == DecodePacket(s)
  {
    assert (s + more)[8..PACKET] == s[8..PACKET];
  }

  class Handshaker {
    const src: Source
    const dest: Sink
    var current: Option<Sequence>

    /** The packet that the next read would overwrite. */
    ghost function Footprint(): set<object>
      reads this
    {
      if current.Some? && current.value.ClientAckSequence? then {current.value.c1, current.value.c1.payload} else {}
    }

    ghost predicate Valid()
      reads this
    {
      current.Some? ==>
        match current.value
        case VersionSequence(_) => true
        case ClientAckSequence(c1, s1) => c1.Valid() && s1.Valid() && c1 != s1 && c1.payload != s1.payload
        case ServerAckSequence(s1) => s1.Valid()
    }

    ghost function Abs(): Stage
      reads this
      reads if current.Some? && !current.value.VersionSequence? then {current.value.s1, current.value.s1.payload} else {}
    {
      match current
      case None => Done
      case Some(VersionSequence(v)) => AtVersion(v)
      case Some(ClientAckSequence(_, s1)) => AtClientAck(s1.Value())
      case Some(ServerAckSequence(s1)) => AtServerAck(s1.Value())
    }

    constructor (src: Source, dest: Sink)
      ensures this.src == src && this.dest == dest && Valid() && Footprint() == {}
      ensures Abs() == AtVersion(3)
    {
      this.src, this.dest := src, dest;
      current := Some(VersionSequence(SUPPORTED_VERSION));
    }

    method ReadVersion(supported: byte) returns (err: Option<Failure>)
      modifies src
      ensures old(src.data) == [] ==> err == Some(NoMoreInput) && src.data == []
      ensures old(src.data) != [] ==>
                && src.data == old(src.data)[1..]
                && err == if old(src.data)[0] == supported then None else Some(UnsupportedVersion(old(src.data)[0]))
    {
      var b := src.ReadByte();
      if b.None? {
        return Some(NoMoreInput);
      }
      if b.value != supported {
        return Some(UnsupportedVersion(b.value));
      }
      err := None;
    }

    method WriteAcks(c1: AckPacket, s1: AckPacket)
      requires c1.Valid() && s1.Valid()
      modifies dest
      ensures dest.data == old(dest.data) + (s1.Value().Encode() + Echo(c1.Value()).Encode())
    {
      hide Uint32Bytes;
      s1.Write(dest);
      var s2 := new AckPacket();
      s2.time1 := c1.time1;
      forall k | 0 <= k < PAYLOAD {
        s2.payload[k] := c1.payload[k];
      }
      assert s2.payload[..] == c1.payload[..];
      s2.Write(dest);
    }

    method ReadAndCompare(s1: AckPacket) returns (err: Option<Failure>)
      requires s1.Valid()
      modifies src
      ensures |old(src.data)| < PACKET ==> err == Some(NoMoreInput) && src.data == []
      ensures |old(src.data)| >= PACKET ==>
                && src.data == old(src.data)[PACKET..]
                && err == if DecodePacket(old(src.data)).payload == s1.payload[..] then None
                          else Some(MismatchedChallenge)
    {
      var c2 := new AckPacket();
      err := c2.Read(src);
      if err.Some? {
        return;
      }
      if s1.payload[..] != c2.payload[..] {
        return Some(MismatchedChallenge);
      }
    }

    /** The current sequence reads, writes and hands over to its successor. `challenge` is
        what the random source fills a new S1 with. */
    method RunCurrent(challenge: seq<byte>) returns (failure: Option<Failure>)
      requires Valid() && current.Some? && |challenge| == PAYLOAD
      modifies this, src, dest, Footprint()
      ensures Valid() && (forall o :: o in Footprint() ==> fresh(o) || o in old(Footprint()))
      ensures match RunStage(old(Abs()), old(src.data), challenge)
              case Fails(f, rest) =>
                failure == Some(f) && src.data == rest && dest.data == old(dest.data)
              case Passes(next, output, rest) =>
                && failure == None && Abs() == next && Rank(current) < old(Rank(current))
                && src.data == rest && dest.data == old(dest.data) + output
    {
      hide Uint32Bytes, BigEndian32;
      match current.value {
        case VersionSequence(v) =>
          failure := ReadVersion(v);
          if failure.Some? {
            return;
          }
          dest.Write([v]);
          var c1 := new AckPacket();
          var s1 := new AckPacket();
          forall k | 0 <= k < PAYLOAD {
            s1.payload[k] := challenge[k];
          }
          assert s1.payload[..] == challenge;
          current := Some(ClientAckSequence(c1, s1));
        case ClientAckSequence(c1, s1) =>
          failure := c1.Read(src);
          if failure.Some? {
            return;
          }
          WriteAcks(c1, s1);
          current := Some(ServerAckSequence(s1));
        case ServerAckSequence(s1) =>
          failure := ReadAndCompare(s1);
          if failure.Some? {
            return;
          }
          assert dest.data + [] == dest.data;
          current := None;
      }
      failure := None;
    }

    /** Run the sequences that are left, each reading and then writing, up to the first
        error. */
    method Handshake(challenge: seq<byte>) returns (failure: Option<Failure>)
      requires Valid() && |challenge| == PAYLOAD
      modifies this, src, dest, Footprint()
      ensures var r := Shake(old(Abs()), old(src.data), challenge);
              failure == r.failure && dest.data == old(dest.data) + r.output && src.data == r.rest
      ensures failure == None ==> current == None
    {
      hide RunStage;
      ghost var written: seq<byte> := [];
      ghost var stage, input := Abs(), src.data;
      while current.Some?
        invariant Valid() && (forall o :: o in Footprint() ==> fresh(o) || o in old(Footprint()))
        invariant dest.data == old(dest.data) + written
        invariant var r := Shake(Abs(), src.data, challenge);
                  Shake(stage, input, challenge) == r.(output := written + r.output)
        decreases Rank(current)
      {
        ghost var r := RunStage(Abs(), src.data, challenge);
        ghost var stage1, input1 := Abs(), src.data;
        failure := RunCurrent(challenge);
        if failure.Some? {
          assert written + [] == written;
          return;
        }
        ghost var later := Shake(Abs(), src.data, challenge);
        assert written + (r.output + later.output) == (written + r.output) + later.output;
        written := written + r.output;
      }
      assert written + [] == written;
      failure := None;
    }
  }
}

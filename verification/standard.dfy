/** Where the code and section 5.3.1 of the RTMP specification part ways, and exactly when they
    agree: the basic header (section 5.3.1.1), and the extended timestamp of continuation
    chunks (section 5.3.1.3). */
module Standard {
  import opened Bytes
  import opened Wire
  import opened Normalizers
  import opened Builders
  import opened Readers
  import opened ReaderRuns
  import opened Writers
  import opened Multiplexing
  import opened Lockstep

  // ----- the basic header of section 5.3.1.1 -----

  /** The headers that the standard can encode: ids 0 and 1 are its markers. */
  predicate Encodable(h: BasicHeader) {
    h.formatId <= 3 && 2 <= h.streamId <= 65599
  }

  /** The shortest form; the three-byte form has marker 1 and its low byte first. */
  function WriteStandardBasic(h: BasicHeader): seq<byte>
    requires Encodable(h)
  {
    if h.streamId < 64 then [h.formatId * 64 + h.streamId]
    else if h.streamId < 320 then [h.formatId * 64, h.streamId - 64]
    else [h.formatId * 64 + 1, (h.streamId - 64) % 0x100, (h.streamId - 64) / 0x100]
  }

  function ReadStandardBasic(s: seq<byte>): Parsed<BasicHeader> {
    if |s| < 1 then Short
    else if s[0] % 64 == 0 then
      if |s| < 2 then Short else Got(BasicHeader(s[0] / 64, s[1] as int + 64), s[2..])
    else if s[0] % 64 == 1 then
      if |s| < 3 then Short else Got(BasicHeader(s[0] / 64, s[2] as int * 0x100 + s[1] + 64), s[3..])
    else
      Got(BasicHeader(s[0] / 64, s[0] % 64), s[1..])
  }

  lemma StandardBasicRoundTrip(h: BasicHeader, rest: seq<byte>)
    requires Encodable(h)
    ensures ReadStandardBasic(WriteStandardBasic(h) + rest) == Got(h, rest)
  {
    var s := WriteStandardBasic(h) + rest;
    Marker(h.formatId, if h.streamId < 64 then h.streamId else if h.streamId < 320 then 0 else 1);
    assert s[|WriteStandardBasic(h)|..] == rest;
  }

  /** The code writes what the standard says, and a standard reader understands it, exactly
      for the ids below 320; the code understands what the standard says exactly for those
      but 63, which it takes for its marker. */
  lemma BasicHeaderIsStandardIff(h: BasicHeader, rest: seq<byte>)
    requires Encodable(h)
    ensures WriteBasic(h) == WriteStandardBasic(h) <==> h.streamId < 320
    ensures ReadStandardBasic(WriteBasic(h) + rest) == Got(h, rest) <==> h.streamId < 320
    ensures ReadBasic(WriteStandardBasic(h) + rest) == Got(h, rest) <==> h.streamId < 320 && h.streamId != 63
  {
    if h.streamId < 320 {
      StandardBasicRoundTrip(h, rest);
      if h.streamId == 63 {
        Marker(h.formatId, 63);
      } else {
        BasicRoundTrip(h, rest);
      }
    } else {
      LongFormsDiffer(h, rest);
    }
  }

  lemma LongFormsDiffer(h: BasicHeader, rest: seq<byte>)
    requires Encodable(h) && h.streamId >= 320
    ensures WriteBasic(h) != WriteStandardBasic(h)
    ensures ReadStandardBasic(WriteBasic(h) + rest) != Got(h, rest)
    ensures ReadBasic(WriteStandardBasic(h) + rest) != Got(h, rest)
  {
    Marker(h.formatId, 63);
    Marker(h.formatId, 1);
    var ours, theirs := WriteBasic(h) + rest, WriteStandardBasic(h) + rest;
    assert ours[0] % 64 == 63 && theirs[0] % 64 == 1;
    assert ReadStandardBasic(ours).value.streamId == 63;
    assert ReadBasic(theirs).value.streamId == 1;
  }

  /** The two readers agree on an input if and only if its first byte is no marker for a
      three-byte form, the standard's or the code's. */
  lemma ReadersAgreeIff(s: seq<byte>)
    ensures ReadBasic(s) == ReadStandardBasic(s) <==> s == [] || (s[0] % 64 != 1 && s[0] % 64 != 63)
  {
    if |s| >= 2 {
      assert s[1..2] == [s[1]];
    }
  }

  // ----- the extended timestamp of section 5.3.1.3 -----

  /** A continuation header that repeats the extended timestamp of its message. */
  function Repeating(h: Header): seq<byte> {
    WriteHeader(Next(h.basic.streamId).Head()) + if h.message.timestamp == EXTENDED then Uint32Bytes(h.extended) else []
  }

  lemma ContinuationBytes(id: uint32)
    ensures WriteHeader(Next(id).Head()) == WriteBasic(BasicHeader(3, id))
  {
  }

  /** DefaultWriter writes like that if and only if there is no continuation header, or it
      need not repeat anything and its stream id fits in one byte. */
  lemma WriterRepeatsIff(c: Chunk, size: nat)
    requires Canonical(c.header) && size >= 1
    ensures WriteChunk(c, size) == WriteSeparated(c, Repeating(c.header), size)
       <==> |c.data| <= size || (c.header.message.timestamp != EXTENDED && c.StreamId() <= 62)
  {
    hide WriteHeader, Fragments;
    var id := c.StreamId();
    ContinuationBytes(id);
    var one, other := [Continuation(id)], Repeating(c.header);
    if |c.data| <= size {
      FragmentsSplit(one, c.data, size);
      FragmentsSplit(other, c.data, size);
    } else if c.header.message.timestamp != EXTENDED && id <= 62 {
      ContinuationIsHeader(id);
      assert other == one + [] == one;
    } else {
      assert |one| < |other| by { SeparatorIsLong(c.header); }
      LongerSeparator(one, other, c.data, size);
    }
  }

  lemma SeparatorIsLong(h: Header)
    requires Canonical(h) && (h.message.timestamp == EXTENDED || h.basic.streamId > 62)
    ensures |Repeating(h)| > 1
  {
    ContinuationBytes(h.basic.streamId);
  }

  lemma {:induction false} LongerSeparator(one: seq<byte>, other: seq<byte>, data: seq<byte>, size: nat)
    requires size >= 1 && |one| < |other|
    ensures |Fragments(one, data, size)| <= |Fragments(other, data, size)|
    ensures size < |data| ==> |Fragments(one, data, size)| < |Fragments(other, data, size)|
    decreases |data|
  {
    if size < |data| {
      LongerSeparator(one, other, data[size..], size);
    }
  }

  lemma RunOnce(st: State, input: seq<byte>)
    requires Step(st, input).Advanced?
    ensures var p := Step(st, input);
            Chunks(Run(st, input).events) == Sent(p.event) + Chunks(Run(p.st, p.rest).events)
  {
    hide Step;
    var p := Step(st, input);
    StepShrinks(st, input);
    assert ([p.event] + Run(p.st, p.rest).events)[1..] == Run(p.st, p.rest).events;
  }

  /** As long as a message is under construction, whatever is delivered on its stream next
      begins with the payload that it already has. */
  lemma {:induction false} HeldIsPrefix(st: State, input: seq<byte>, id: uint32)
    requires Valid(st) && id in st.builders && st.builders[id].header.message.typeId != SET_CHUNK_SIZE
    ensures var sent := On(Chunks(Run(st, input).events), id);
            sent != [] ==> Concat(st.builders[id].payloads) <= sent[0].data
    decreases |input|
  {
    hide Step, Fill, Concat, Extend;
    StepShrinks(st, input);
    var p := Step(st, input);
    if p.Advanced? {
      StepKeepsValid(st, input);
      StepShape(st, input);
      FillKeepsBasic(st.memory, p.event.wire);
      RunOnce(st, input);
      OnConcat(Sent(p.event), Chunks(Run(p.st, p.rest).events), id);
      if p.event.StreamId() == id {
        ExtendData(st.builders[id], p.event.body);
      }
      if p.event.outcome.Emitted? {
        OnOne(p.event.outcome.chunk, id);
      } else {
        assert On([], id) == [];
      }
      if id in p.st.builders {
        HeldIsPrefix(p.st, p.rest, id);
      }
    }
  }

  lemma ExtendData(b: Partial, body: seq<byte>)
    ensures Concat(Extend(b, body).payloads) == Concat(b.payloads) + body && Extend(b, body).header == b.header
  {
    ConcatPush(b.payloads, body);
  }

  lemma FragmentIsTaken(st: State, input: seq<byte>)
    requires Valid(st) && ReadHeader(input).Got? && ReadHeader(input).value.basic.streamId in st.builders
    requires var b := st.builders[ReadHeader(input).value.basic.streamId];
             b.header.message.typeId != SET_CHUNK_SIZE && Min(b.left, st.readSize) <= |ReadHeader(input).rest|
    ensures Step(st, input).Advanced?
  {
    hide ReadHeader, Fill, Concat, Finish;
    FillKeepsBasic(st.memory, ReadHeader(input).value);
  }

  /** A message of which some payload has come, and a fragment that goes on with another byte
      than the message does. */
  lemma WrongByte(st: State, input: seq<byte>, c: Chunk, sent: nat)
    requires Valid(st) && c.TypeId() != SET_CHUNK_SIZE && sent < |c.data|
    requires c.StreamId() in st.builders && Holds(st.builders[c.StreamId()], Transit(c, sent))
    requires ReadHeader(input).Got? && ReadHeader(input).value.basic.streamId == c.StreamId()
    requires var body := ReadHeader(input).rest;
             1 <= Min(|c.data| - sent, st.readSize) <= |body| && body[0] != c.data[sent]
    ensures Chunks(Run(st, input).events) != [c]
  {
    hide Step, Run, ReadHeader, Fill, Concat, Extend;
    var id := c.StreamId();
    var b, body, p := st.builders[id], ReadHeader(input).rest, Step(st, input);
    FillKeepsBasic(st.memory, ReadHeader(input).value);
    FragmentIsTaken(st, input);
    StepShape(st, input);
    StepKeepsValid(st, input);
    StepTiles(st, input);
    ExtendData(b, p.event.body);
    var b1 := Extend(b, p.event.body);
    assert p.event.body[0] == body[0];
    assert Concat(b1.payloads)[sent] == body[0];
    RunOnce(st, input);
    if p.event.Completes() {
      assert Sent(p.event) == [Chunk(c.header, Concat(b1.payloads))];
    } else {
      HeldIsPrefix(p.st, p.rest, id);
      OnOne(c, id);
    }
  }

  function Filler(h: Header): byte {
    if Uint32Bytes(h.extended)[0] == 0 then 1 else 0
  }

  /** The reader takes the repeated timestamp for payload. */
  lemma TimestampTakenForPayload(h: Header, n: nat, size: nat)
    requires Canonical(h) && h.message.length == n && h.message.typeId != SET_CHUNK_SIZE
    requires 1 <= size < n && h.message.timestamp == EXTENDED
    ensures var c := Chunk(h, seq(n, _ => Filler(h)));
            Chunks(Run(Fresh(size), WriteSeparated(c, Repeating(h), size)).events) != [c]
  {
    hide Step, Canonical, WriteHeader, Fragments, Concat, WriteSeparated, Run;
    var c, id := Chunk(h, seq(n, _ => Filler(h))), h.basic.streamId;
    SearchNothing(h);
    var st, tail := FirstFragment(c, Repeating(h), size);
    var stamp := Uint32Bytes(h.extended);
    var after := stamp + Fragments(Repeating(h), c.data[size..], size);
    assert tail == WriteHeader(Next(id).Head()) + after;
    HeadOfContinuation(h);
    HeaderRoundTrip(Next(id).Head(), after);
    FragmentsAreLong(Repeating(h), c.data[size..], size);
    WrongByte(st, tail, c, size);
  }

  lemma {:induction false} FragmentsAreLong(separator: seq<byte>, data: seq<byte>, size: nat)
    requires size >= 1
    ensures |Fragments(separator, data, size)| >= |data|
    decreases |data|
  {
    if size < |data| {
      FragmentsAreLong(separator, data[size..], size);
    }
  }

  lemma HeadOfContinuation(h: Header)
    requires Canonical(h)
    ensures Canonical(Next(h.basic.streamId).Head())
  {
  }

  /** Fragments whose continuation headers repeat the extended timestamp, as section 5.3.1.3
      wants it, get through with every payload if and only if there is only one of them or
      there is no extended timestamp to repeat. */
  lemma RepeatedTimestampIff(h: Header, n: nat, size: nat)
    requires Canonical(h) && h.message.length == n && h.message.typeId != SET_CHUNK_SIZE
    requires size >= 1
    ensures (forall data: seq<byte> :: |data| == n ==>
               Chunks(Run(Fresh(size), WriteSeparated(Chunk(h, data), Repeating(h), size)).events) == [Chunk(h, data)])
       <==> n <= size || h.message.timestamp != EXTENDED
  {
    hide Run, WriteSeparated, Canonical, Search, WriteHeader;
    SearchNothing(h);
    if n <= size || h.message.timestamp != EXTENDED {
      forall data: seq<byte> | |data| == n
        ensures Chunks(Run(Fresh(size), WriteSeparated(Chunk(h, data), Repeating(h), size)).events) == [Chunk(h, data)]
      {
        var head := WriteHeader(Next(h.basic.streamId).Head());
        assert head + [] == head;
        OneSeparatedChunkArrives(Chunk(h, data), Repeating(h), size);
      }
    } else {
      TimestampTakenForPayload(h, n, size);
      var data := seq(n, _ => Filler(h));
      assert |data| == n;
    }
  }
}

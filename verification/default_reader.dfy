/** The reader as the source has it: an object that consumes its source, mutates its table
    of builders and its read size, and shares headers by reference. */
module DefaultReaders {
  import opened Bytes
  import opened Wire
  import opened Headers
  import opened Normalizers
  import opened Builders
  import opened Readers

  datatype Status = Goes | Failed | Panics

  class DefaultReader {
    const src: Source
    const normalizer: DefaultNormalizer
    var builders: map<uint32, Builder>
    var readSize: nat
    /** Everything sent over the chunks and the errs channel. */
    var chunks: seq<ChunkRef>
    var errs: seq<Error>
    /** Every header that the normaliser, a builder or a sent chunk refers to, with the value
        it keeps from then on; and the values behind `builders` and `chunks`. */
    ghost var headers: map<HeaderRef, Header>
    ghost var table: map<uint32, Partial>
    ghost var sent: seq<Chunk>

    ghost predicate Valid()
      reads this`builders, this`chunks, this`headers, this`table, this`sent, normalizer, headers.Keys, builders.Values
    {
      HeadersKept() && NormalizerKnown() && TableMatches() && SentMatches()
    }

    ghost predicate HeadersKept()
      reads this`headers, headers.Keys
    {
      forall h :: h in headers ==> h.Value() == headers[h]
    }

    ghost predicate NormalizerKnown()
      reads this`headers, normalizer
    {
      && normalizer.memory.headers.Keys == normalizer.headers.Keys
      && (if normalizer.last == null then normalizer.memory.last == None
          else normalizer.last in headers && normalizer.memory.last == Some(headers[normalizer.last]))
      && (forall id :: id in normalizer.headers ==>
            normalizer.headers[id] in headers && normalizer.memory.headers[id] == headers[normalizer.headers[id]])
    }

    ghost predicate TableMatches()
      reads this`headers, this`table, this`builders, builders.Values
    {
      && table.Keys == builders.Keys
      && (forall id :: id in builders ==> Matches(builders[id], table[id]) && table[id].header.basic.streamId == id)
    }

    ghost predicate Matches(b: Builder, p: Partial)
      reads this`headers, b
    {
      b.header in headers && p == Partial(headers[b.header], b.payloads, b.left)
    }

    ghost predicate SentMatches()
      reads this`headers, this`chunks, this`sent
    {
      && |sent| == |chunks|
      && forall k :: 0 <= k < |chunks| ==>
           chunks[k].header in headers && sent[k] == Chunk(headers[chunks[k].header], chunks[k].data)
    }

    ghost function Abs(): State
      reads this`table, this`readSize, normalizer
    {
      State(normalizer.memory, table, readSize)
    }

    lemma MatchesMeans(b: Builder, p: Partial)
      ensures Matches(b, p) <==> b.header in headers && p == Partial(headers[b.header], b.payloads, b.left)
    {
    }

    /** Headers known before are still known, with the same value. */
    ghost predicate Grown(before: map<HeaderRef, Header>)
      reads this`headers
    {
      forall h :: h in before ==> h in headers && headers[h] == before[h]
    }

    constructor (src: Source, readSize: nat)
      ensures Valid() && this.src == src && fresh(normalizer) && errs == []
      ensures builders == map[] && Abs() == Fresh(readSize) && sent == []
    {
      this.src, this.readSize := src, readSize;
      normalizer := new DefaultNormalizer();
      builders, chunks, errs, headers := map[], [], [], map[];
      table, sent := map[], [];
    }

    method BuilderOf(header: HeaderRef) returns (b: Builder)
      requires Valid() && header in headers
      modifies this`builders, this`table
      ensures Valid() && (b in old(builders.Values) || fresh(b))
      ensures builders == old(builders)[header.basic.streamId := b]
      ensures b.left == table[header.basic.streamId].left
      ensures table == old(table)[header.basic.streamId := BuilderFor(old(Abs()), header.Value())]
    {
      hide NormalizerKnown, SentMatches, Matches;
      var id := header.basic.streamId;
      if id !in builders {
        var added := new Builder(header);
        builders := builders[id := added];
      } else {
        MatchesMeans(builders[id], table[id]);
      }
      b := builders[id];
      table := table[id := b.Abs()];
      MatchesMeans(b, table[id]);
    }

    method RemoveBuilder(streamId: uint32)
      requires Valid()
      modifies this`builders, this`table
      ensures Valid() && builders == old(builders) - {streamId} && table == old(table) - {streamId}
    {
      hide NormalizerKnown, HeadersKept, SentMatches, Matches;
      builders := builders - {streamId};
      table := table - {streamId};
    }

    /** True iff the chunk was a Set Chunk Size message. Reading a size off fewer than four
        bytes panics. */
    method UpdateChunkSize(c: ChunkRef) returns (r: Option<bool>)
      modifies this`readSize
      ensures c.Value().TypeId() != SET_CHUNK_SIZE ==> r == Some(false) && readSize == old(readSize)
      ensures c.Value().TypeId() == SET_CHUNK_SIZE && |c.data| < 4 ==> r == None && readSize == old(readSize)
      ensures c.Value().TypeId() == SET_CHUNK_SIZE && |c.data| >= 4 ==>
                r == Some(true) && readSize == BigEndian32(c.data)
    {
      if c.header.message.typeId != SET_CHUNK_SIZE {
        return Some(false);
      }
      if |c.data| < 4 {
        return None;
      }
      readSize := BigEndian32(c.data);
      return Some(true);
    }

    ghost method Know(h: HeaderRef)
      requires h !in headers && HeadersKept() && TableMatches() && SentMatches()
      modifies this`headers
      ensures HeadersKept() && TableMatches() && SentMatches() && headers == old(headers)[h := h.Value()]
    {
      headers := headers[h := h.Value()];
    }

    /** Normalise a header that is new to the reader; from here on it keeps its value. */
    method Admit(header: HeaderRef)
      requires Valid() && header !in headers
      modifies this`headers, header`message, normalizer
      ensures Valid() && Grown(old(headers)) && header in headers
      ensures header.Value() == Fill(old(normalizer.memory), old(header.Value()))
      ensures normalizer.memory == Store(old(normalizer.memory), header.Value())
    {
      hide Fill, TableMatches, SentMatches, StoreAt, Store;
      ghost var before := normalizer.headers;
      assert header !in before.Values;
      var same := normalizer.Normalize(header);
      normalizer.OnlyEntry(header, before);
      StoreAtOne(old(normalizer.memory), header.Value());
      Know(header);
    }

    /** Read the next header and complete it. No header that was sent or stored before is
        written to, only the new one. */
    method NextHeader() returns (header: HeaderRef, err: Option<Error>)
      requires Valid()
      modifies this`errs, this`headers, src, normalizer
      ensures Valid() && Grown(old(headers))
      ensures match ReadHeader(old(src.data))
              case Got(wire, body) =>
                && err == None && header in headers && src.data == body && errs == old(errs)
                && header.Value() == Fill(old(normalizer.memory), wire)
                && normalizer.memory == Store(old(normalizer.memory), header.Value())
              case _ =>
                && err == Some(EndOfInput) && src.data == [] && errs == old(errs) + [EndOfInput]
                && normalizer.memory == old(normalizer.memory)
    {
      hide Fill, Store, ReadHeaderInto, NormalizerKnown, TableMatches, SentMatches;
      assert ReadHeader(src.data) != UnknownFormat by { ReadIsCanonical(src.data); }
      header := new HeaderRef(NEW_HEADER);
      err := header.Read(src);
      if err.Some? {
        errs := errs + [err.value];
        return;
      }
      Admit(header);
    }

    /** A change to the builder of stream `id` alone, with its value brought up to date. */
    twostate lemma OneBuilderChanged(id: uint32)
      requires old(TableMatches()) && id in builders && unchanged(this`builders, this`headers)
      requires builders[id].header == old(builders[id].header)
      requires forall other :: other in builders && builders[other] != builders[id] ==> unchanged(builders[other])
      requires builders[id].header in headers
      requires var b := builders[id];
               table == old(table)[id := Partial(headers[b.header], b.payloads, b.left)]
      ensures TableMatches()
    {
    }

    /** The builder of stream `id` reads `n` bytes. */
    method ReadPayload(id: uint32, n: nat) returns (err: Option<Error>)
      requires Valid() && id in builders
      modifies this`table, src, builders[id]
      ensures Valid()
      ensures n > |old(src.data)| ==> err == Some(EndOfInput) && src.data == [] && table == old(table)
      ensures n <= |old(src.data)| ==>
                && src.data == old(src.data)[n..]
                && table == old(table)[id := Extend(old(table)[id], old(src.data)[..n])]
                && builders[id].left == table[id].left
                && err == if old(table)[id].left < n then Some(TooManyBytes) else None
    {
      hide Extend, NormalizerKnown, SentMatches, TableMatches, Matches;
      ReadyToRead(id);
      var read;
      read, err := builders[id].Read(src, n);
      table := table[id := builders[id].Abs()];
      OneBuilderChanged(id);
    }

    lemma ReadyToRead(id: uint32)
      requires Valid() && id in builders
      ensures id in table && builders[id].header in headers && table[id] == builders[id].Abs()
      ensures headers[builders[id].header] == builders[id].header.Value()
    {
    }

    /** The message on stream `id` is complete: consume it or send it, and drop its builder. */
    method Complete(id: uint32) returns (panics: bool)
      requires Valid() && id in builders
      modifies this`builders, this`table, this`readSize, this`chunks, this`sent
      ensures Valid()
      ensures var c := Chunk(old(table)[id].header, Concat(old(table)[id].payloads));
              if c.TypeId() != SET_CHUNK_SIZE then
                && !panics && sent == old(sent) + [c] && readSize == old(readSize)
                && builders == old(builders) - {id} && table == old(table) - {id}
              else if |c.data| < 4 then
                && panics && sent == old(sent) && readSize == old(readSize)
                && builders == old(builders) && table == old(table)
              else
                && !panics && sent == old(sent) && readSize == BigEndian32(c.data)
                && builders == old(builders) - {id} && table == old(table) - {id}
    {
      hide Concat, BigEndian32, NormalizerKnown, Matches;
      MatchesMeans(builders[id], table[id]);
      var chunk := builders[id].Build();
      var resized := UpdateChunkSize(chunk);
      if resized.None? {
        return true;
      }
      if !resized.value {
        chunks := chunks + [chunk];
        sent := sent + [chunk.Value()];
      }
      RemoveBuilder(id);
      return false;
    }

    method CheckComplete(id: uint32) returns (status: Status)
      requires Valid() && id in builders && id in table && table[id].left >= 0 && builders[id].left == table[id].left
      modifies this`builders, this`table, this`readSize, this`chunks, this`sent
      ensures Valid() && builders.Values <= old(builders.Values)
      ensures var b := old(table)[id];
              if b.left == 0 && b.header.message.typeId == SET_CHUNK_SIZE && |Concat(b.payloads)| < 4 then
                status == Panics && Abs() == old(Abs()) && sent == old(sent)
              else
                var (st, outcome) := Finish(old(Abs()), id, b);
                && status == Goes && Abs() == st && outcome != Overfull
                && sent == old(sent) + if outcome.Emitted? then [outcome.chunk] else []
    {
      hide Valid, Concat, BigEndian32;
      var left := builders[id].BytesLeft();
      if left == 0 {
        var panics := Complete(id);
        if panics {
          return Panics;
        }
      } else {
        assert table[id := table[id]] == table;
      }
      status := Goes;
    }

    /** The object went through what the value model says. */
    twostate predicate Did(status: Status, p: Progress)
      reads this, src, normalizer
    {
      match p
      case Advanced(st, event, rest) =>
        && status == Goes && Abs() == st && src.data == rest
        && sent == old(sent) + Sent(event)
        && errs == old(errs) + if event.outcome == Overfull then [TooManyBytes] else []
      case Starved(st) =>
        && status == Failed && Abs() == st && src.data == []
        && sent == old(sent) && errs == old(errs) + [EndOfInput]
      case Panicked(st) =>
        && status == Panics && Abs() == st
        && sent == old(sent) && errs == old(errs)
    }

    /** The part of an iteration after its header. */
    method TakePayload(header: HeaderRef, ghost wire: Header, ghost headerLength: nat) returns (status: Status)
      requires Valid() && header in headers
      modifies this`builders, this`table, this`readSize, this`chunks, this`sent, this`errs, src, builders.Values
      ensures Valid() && fresh(builders.Values - old(builders.Values))
      ensures Did(status, Receive(old(Abs()), header.Value(), wire, headerLength, old(src.data)))
    {
      hide Valid, BuilderFor, Receive;
      var builder := BuilderOf(header);
      ReceiveAgain(old(Abs()), header.Value(), wire, headerLength, src.data);
      status := GoOn(header, builder, wire, headerLength);
    }

    /** The builder is there: read what it may take, and see whether it is complete. */
    method GoOn(header: HeaderRef, builder: Builder, ghost wire: Header, ghost headerLength: nat)
      returns (status: Status)
      requires Valid() && header in headers && header.basic.streamId in builders
      requires builder == builders[header.basic.streamId] && builder.left == table[header.basic.streamId].left
      modifies this`builders, this`table, this`readSize, this`chunks, this`sent, this`errs, src, builders.Values
      ensures Valid() && builders.Values <= old(builders.Values)
      ensures Did(status, Receive(old(Abs()), header.Value(), wire, headerLength, old(src.data)))
    {
      hide Valid, Concat, BigEndian32, Finish, Extend, Receive;
      var id := header.basic.streamId;
      ReadyToRead(id);
      assert table[id := table[id]] == table;
      ReceiveStarts(Abs(), header.Value(), wire, headerLength, src.data);
      var left := builder.BytesLeft();
      var n := Min(left, readSize);
      if n < 0 {
        return Panics;
      }
      var err := ReadPayload(id, n);
      if err.Some? {
        errs := errs + [err.value];
        return if err.value == EndOfInput then Failed else Goes;
      }
      ReceiveTakes(old(Abs()), header.Value(), wire, headerLength, old(src.data), table[id]);
      status := CheckComplete(id);
    }

    method Iterate() returns (status: Status)
      requires Valid()
      modifies this, src, normalizer, builders.Values
      ensures Valid() && Grown(old(headers)) && fresh(builders.Values - old(builders.Values))
      ensures Did(status, Step(old(Abs()), old(src.data)))
    {
      hide Valid, Receive, ReadHeader, Fill, Store;
      ghost var input := src.data;
      ReadIsCanonical(input);
      var header, err := NextHeader();
      if err.Some? {
        return Failed;
      }
      status := TakePayload(header, ReadHeader(input).value, |input| - |src.data|);
    }

    /** The receive loop, up to the first read error. After it the source is drained, so the
        further rounds of the source's endless loop would change nothing and deliver no chunk;
        each only reports the end of the input once more. */
    method Recv() returns (panicked: bool)
      requires Valid()
      modifies this, src, normalizer, builders.Values
      ensures Valid() && Grown(old(headers))
      ensures var t := Run(old(Abs()), old(src.data));
              && panicked == t.panicked && Abs() == t.final
              && sent == old(sent) + Chunks(t.events)
              && (!panicked ==> src.data == [] && errs == old(errs) + [EndOfInput])
    {
      hide Valid, Step, Sent, Chunks;
      ghost var st, input, events := Abs(), src.data, [];
      PrependTwice([], [], Run(st, input));
      NoChunks();
      while true
        invariant Valid() && Grown(old(headers)) && fresh(builders.Values - old(builders.Values))
        invariant Run(st, input) == Prepend(events, Run(Abs(), src.data))
        invariant sent == old(sent) + Chunks(events) && errs == old(errs)
        decreases |src.data|
      {
        ghost var st1, input1 := Abs(), src.data;
        NeverTooManyBytes(st1, input1);
        var status := Iterate();
        match status
        case Goes =>
          ghost var e := Step(st1, input1).event;
          PrependTwice(events, [e], Run(Abs(), src.data));
          ChunksConcat(events, [e]);
          ChunksOne(e);
          events := events + [e];
        case Failed =>
          assert events + [] == events;
          return false;
        case Panics =>
          assert events + [] == events;
          return true;
      }
    }
  }

  lemma NoChunks()
    ensures Chunks([]) == []
  {
  }

  /** Why stopping at the first read error loses no chunk. */
  lemma DrainedReaderIdles(st: State)
    ensures Step(st, []) == Starved(st)
  {
  }

  lemma ChunksOne(e: Event)
    ensures Chunks([e]) == Sent(e)
  {
    assert [e][1..] == [];
  }
}

/** Control messages across all layers: chunker, writer, reader, parser. */
module ControlWire {
  import opened Bytes
  import opened Wire
  import opened Readers
  import opened ReaderRuns
  import opened Writers
  import opened Lockstep
  import opened Controls

  lemma ControlIsWritable(c: Control, size: nat)
    requires size >= 1 && |c.Body()| <= 0xffffff
    ensures Writable([], ChunkOf(c), size)
  {
    if c.SetChunkSize? {
      ResizeIsWritable([], c.chunkSize, size);
    }
  }

  lemma EmittedHaveTheirLength(size: nat, input: seq<byte>)
    ensures forall c :: c in Chunks(Run(Fresh(size), input).events) ==> |c.data| <= 0xffffff
  {
    RunKeepsValid(Fresh(size), input);
    EmittedAreShort(Fresh(size), input);
    var events := Run(Fresh(size), input).events;
    forall c | c in Chunks(events) ensures |c.data| <= 0xffffff {
      var e := ChunkComesFromEvent(events, c);
    }
  }

  lemma {:induction false} ChunkComesFromEvent(events: seq<Event>, c: Chunk) returns (e: Event)
    requires c in Chunks(events)
    ensures e in events && e.outcome == Emitted(c)
  {
    if c in Sent(events[0]) {
      e := events[0];
    } else {
      e := ChunkComesFromEvent(events[1..], c);
    }
  }

  /** A control message other than Set Chunk Size arrives as the chunk it was sent in, and
      parses to itself, at every write size: if and only if its body is shorter than 2^24
      bytes. */
  lemma ControlEndToEnd(c: Control, size: nat)
    requires size >= 1 && !c.SetChunkSize?
    ensures var sent := Chunks(Run(Fresh(size), WriteChunk(ChunkOf(c), size)).events);
            && (sent == [ChunkOf(c)] <==> |c.Body()| < 0x100_0000)
            && (|c.Body()| < 0x100_0000 ==> |sent| == 1 && ParseChunk(sent[0]) == Parsed(c))
  {
    hide Run, WriteChunk, Writable, ChunkOf;
    if |c.Body()| < 0x100_0000 {
      ControlIsWritable(c, size);
      OneChunkArrives(ChunkOf(c), size);
      ParseAfterChunk(c);
      TypeIdOfChunk(c);
    } else {
      EmittedHaveTheirLength(size, WriteChunk(ChunkOf(c), size));
      DataOfChunk(c);
    }
  }

  lemma TypeIdOfChunk(c: Control)
    ensures ChunkOf(c).TypeId() == c.TypeId()
  {
  }

  lemma DataOfChunk(c: Control)
    ensures ChunkOf(c).data == c.Body()
  {
  }

  /** A Set Chunk Size message is never delivered; it leaves the reader with the size it
      carries, cut down to 24 bits. */
  lemma SetChunkSizeEndToEnd(n: uint32, size: nat)
    requires size >= 1
    ensures var t := Run(Fresh(size), WriteChunk(ChunkOf(SetChunkSize(n)), size));
            !t.panicked && t.rest == [] && Chunks(t.events) == [] && t.st.readSize == Min(n, 0xffffff)
  {
    ResizeIsWritable([], n, size);
    OneChunkArrives(ChunkOf(SetChunkSize(n)), size);
  }
}

/** The writer against the reader: what one writes the other reads, over whole runs in which
    the chunk size changes, and exactly when a single message survives. */
module Lockstep {
  import opened Bytes
  import opened Wire
  import opened Normalizers
  import opened Builders
  import opened Readers
  import opened ReaderRuns
  import opened Writers
  import opened Multiplexing
  import opened Controls

  // ----- the writer's output is a schedule -----

  /** The fragments after the first, `left` bytes being still unsent. */
  function Rest(id: uint32, left: nat, size: nat): seq<Frame>
    requires size >= 1 || left == 0
  {
    if left == 0 then [] else [Next(id)] + Rest(id, left - Min(left, size), size)
  }

  function FramesOf(c: Chunk, size: nat): seq<Frame>
    requires size >= 1 || c.data == []
  {
    [First(c.header, c.data)] + Rest(c.StreamId(), |c.data| - Min(|c.data|, size), size)
  }

  /** The message that a chunk with a header of any type stands for, after the headers that
      were written before it. */
  function Meaning(history: seq<Header>, c: Chunk): Chunk {
    Chunk(Search(history, c.header), c.data)
  }

  /** What can be put through with this separator: the header makes sense and the separator,
      if there has to be one, is the type 3 header of the stream. */
  predicate Sendable(history: seq<Header>, c: Chunk, separator: seq<byte>, size: nat) {
    && Canonical(c.header) && WellFormed(Meaning(history, c))
    && (size >= 1 || c.data == [])
    && (|c.data| <= size || separator == WriteHeader(Next(c.StreamId()).Head()))
  }

  /** What DefaultWriter can put through: its separator is a header only of small ids. */
  predicate Writable(history: seq<Header>, c: Chunk, size: nat) {
    && Canonical(c.header) && WellFormed(Meaning(history, c))
    && (size >= 1 || c.data == [])
    && (|c.data| <= size || c.StreamId() <= 62)
  }

  function SizeAfterChunk(c: Chunk, size: nat): nat {
    if c.TypeId() == SET_CHUNK_SIZE && |c.data| >= 4 then BigEndian32(c.data) else size
  }

  lemma ContinuationIsHeader(id: uint32)
    requires 1 <= id <= 62
    ensures WriteHeader(Next(id).Head()) == [Continuation(id)]
  {
    assert WriteBasic(BasicHeader(3, id)) + [] + [] == WriteBasic(BasicHeader(3, id));
  }

  lemma WritableIsSendable(history: seq<Header>, c: Chunk, size: nat)
    requires Writable(history, c, size)
    ensures Sendable(history, c, [Continuation(c.StreamId())], size)
  {
    if |c.data| > size {
      ContinuationIsHeader(c.StreamId());
    }
  }

  lemma FragmentsSplit(separator: seq<byte>, data: seq<byte>, size: nat)
    requires size >= 1 || data == []
    ensures var n := Min(|data|, size);
            Fragments(separator, data, size)
            == data[..n] + if n == |data| then [] else separator + Fragments(separator, data[n..], size)
  {
  }

  /** Everything there is to say about one schedule. */
  ghost predicate Yields(s: Sender, frames: seq<Frame>, bytes: seq<byte>, pending: map<uint32, Transit>, size: nat,
                         completed: seq<Chunk>) {
    && Sound(s) && Schedule(s, frames)
    && WireBytes(s, frames) == bytes
    && End(s, frames).pending == pending && End(s, frames).size == size
    && Completed(s, frames) == completed
  }

  lemma YieldsNothing(s: Sender)
    requires Sound(s)
    ensures Yields(s, [], [], s.pending, s.size, [])
  {
  }

  lemma YieldsOneMore(s: Sender, f: Frame, frames: seq<Frame>, bytes: seq<byte>, pending: map<uint32, Transit>,
                      size: nat, completed: seq<Chunk>)
    requires Sound(s) && Admissible(s, f) && Yields(After(s, f), frames, bytes, pending, size, completed)
    ensures Yields(s, [f] + frames, FrameBytes(s, f) + bytes, pending, size, Finished(s, f) + completed)
  {
    hide Finished, FrameBytes, After, Admissible, Sound;
    assert ([f] + frames)[1..] == frames;
  }

  /** A fragment of `n` bytes that leaves something to send, and one that does not. */
  lemma FragmentEffect(s: Sender, f: Frame)
    requires Sound(s) && Admissible(s, f)
    ensures var p, s1 := Current(s, f), After(s, f);
            var n := Min(|p.chunk.data| - p.sent, s.size);
            && FrameBytes(s, f) == WriteHeader(f.Head()) + p.chunk.data[p.sent..][..n]
            && (if p.sent + n < |p.chunk.data| then
                  && s1.pending == s.pending[f.Id() := Transit(p.chunk, p.sent + n)] && s1.size == s.size
                  && Finished(s, f) == []
                else
                  && s1.pending == s.pending - {f.Id()} && s1.size == SizeAfterChunk(p.chunk, s.size)
                  && Finished(s, f) == [p.chunk])
  {
    hide Search, Canonical, Representable, WriteHeader, BigEndian32;
    SearchKeepsBasic(s.history, f.Head());
    var p := Current(s, f);
    assert p.chunk.data[p.sent..][..Reached(s, f) - p.sent] == p.chunk.data[p.sent..Reached(s, f)];
  }

  lemma {:induction false} RestIsSchedule(s: Sender, id: uint32)
    requires Sound(s) && id in s.pending && s.size >= 1
    ensures var p, separator := s.pending[id], WriteHeader(Next(id).Head());
            Yields(s, Rest(id, |p.chunk.data| - p.sent, s.size),
                   separator + Fragments(separator, p.chunk.data[p.sent..], s.size),
                   s.pending - {id}, SizeAfterChunk(p.chunk, s.size), [p.chunk])
    decreases |s.pending[id].chunk.data| - s.pending[id].sent
  {
    hide Yields, WriteHeader, Fragments, After, FrameBytes, Finished, SizeAfterChunk;
    var p, f := s.pending[id], Next(id);
    var head := WriteHeader(f.Head());
    var left := p.chunk.data[p.sent..];
    var n := Min(|left|, s.size);
    FragmentEffect(s, f);
    FragmentsSplit(head, left, s.size);
    var s1 := After(s, f);
    if n < |left| {
      RestIsSchedule(s1, id);
      assert left[n..] == p.chunk.data[p.sent + n..];
      assert s1.pending - {id} == s.pending - {id};
      YieldsOneMore(s, f, Rest(id, |left| - n, s.size), head + Fragments(head, left[n..], s.size),
                    s.pending - {id}, SizeAfterChunk(p.chunk, s.size), [p.chunk]);
      assert [] + [p.chunk] == [p.chunk];
      assert (head + left[..n]) + (head + Fragments(head, left[n..], s.size))
          == head + (left[..n] + (head + Fragments(head, left[n..], s.size)));
    } else {
      YieldsNothing(s1);
      YieldsOneMore(s, f, [], [], s1.pending, s1.size, []);
      assert [p.chunk] + [] == [p.chunk] && [f] + [] == [f];
      assert (head + left[..n]) + [] == head + (left[..n] + []);
    }
  }

  /** A chunk that fits one fragment. */
  lemma WholeIsSchedule(s: Sender, c: Chunk, separator: seq<byte>)
    requires Sound(s) && c.StreamId() !in s.pending && Sendable(s.history, c, separator, s.size) && |c.data| <= s.size
    ensures var m := Meaning(s.history, c);
            Yields(s, FramesOf(c, s.size), WriteSeparated(c, separator, s.size),
                   s.pending, SizeAfterChunk(m, s.size), [m])
  {
    hide Yields, WriteHeader, Fragments, After, FrameBytes, Finished, SizeAfterChunk, Canonical, Search;
    var f, m := First(c.header, c.data), Meaning(s.history, c);
    SearchKeepsBasic(s.history, c.header);
    assert Current(s, f) == Transit(m, 0);
    FragmentEffect(s, f);
    FragmentsSplit(separator, c.data, s.size);
    assert c.data[0..] == c.data == c.data[..|c.data|];
    var s1 := After(s, f);
    YieldsNothing(s1);
    assert s.pending - {c.StreamId()} == s.pending;
    YieldsOneMore(s, f, [], [], s1.pending, s1.size, []);
    assert [m] + [] == [m] && [f] + [] == [f];
    assert c.data + [] == c.data;
    assert (WriteHeader(c.header) + c.data) + [] == WriteHeader(c.header) + c.data;
  }

  /** The bytes of one separated chunk are the bytes of a schedule that begins and ends with
      nothing more in flight than before. */
  lemma WriterIsSchedule(s: Sender, c: Chunk, separator: seq<byte>)
    requires Sound(s) && c.StreamId() !in s.pending && Sendable(s.history, c, separator, s.size)
    ensures var m := Meaning(s.history, c);
            Yields(s, FramesOf(c, s.size), WriteSeparated(c, separator, s.size),
                   s.pending, SizeAfterChunk(m, s.size), [m])
  {
    hide Yields, WriteHeader, Fragments, After, FrameBytes, Finished, SizeAfterChunk, Canonical, Search;
    if |c.data| <= s.size {
      WholeIsSchedule(s, c, separator);
      return;
    }
    var f, id, m, n := First(c.header, c.data), c.StreamId(), Meaning(s.history, c), s.size;
    SearchKeepsBasic(s.history, c.header);
    assert Current(s, f) == Transit(m, 0);
    FragmentEffect(s, f);
    FragmentsSplit(separator, c.data, n);
    assert c.data[0..] == c.data;
    var s1 := After(s, f);
    RestIsSchedule(s1, id);
    assert s1.pending - {id} == s.pending;
    var more := separator + Fragments(separator, c.data[n..], n);
    YieldsOneMore(s, f, Rest(id, |c.data| - n, n), more, s.pending, SizeAfterChunk(m, n), [m]);
    assert [] + [m] == [m];
    assert (WriteHeader(c.header) + c.data[..n]) + more == WriteHeader(c.header) + (c.data[..n] + more);
  }

  // ----- what the headers in between do to compressed headers: nothing -----

  function Heads(frames: seq<Frame>): seq<Header> {
    if frames == [] then [] else [frames[0].Head()] + Heads(frames[1..])
  }

  lemma {:induction false} HistoryGrows(s: Sender, frames: seq<Frame>)
    requires Schedule(s, frames)
    ensures End(s, frames).history == s.history + Heads(frames)
    decreases |frames|
  {
    hide Finished, Admissible, Sound, Reached;
    if frames != [] {
      HistoryGrows(After(s, frames[0]), frames[1..]);
    } else {
      assert s.history + [] == s.history;
    }
  }

  /** Two histories after which every header means the same. */
  ghost predicate SameMeaning(a: seq<Header>, b: seq<Header>) {
    forall h :: Search(a, h) == Search(b, h)
  }

  lemma SameTwice(a: seq<Header>, b: seq<Header>, c: seq<Header>)
    requires SameMeaning(a, b) && SameMeaning(b, c)
    ensures SameMeaning(a, c)
  {
  }

  lemma SearchPush(history: seq<Header>, last: Header, h: Header)
    ensures Search(history + [last], h) ==
            if h.basic.formatId == 1 || h.basic.formatId == 2 then
              var before := Search(history, last).message;
              Header(h.basic,
                     MessageHeader(h.message.formatId, h.message.timestamp, h.message.timestampDelta,
                                   if h.basic.formatId == 1 then h.message.length else before.length,
                                   h.message.typeId, before.streamId),
                     h.extended)
            else if h.basic.formatId == 3 && last.basic.streamId == h.basic.streamId then
              Header(h.basic, Search(history, last).message, h.extended)
            else Search(history, h)
  {
    var all := history + [last];
    assert all[..|history|] == history;
    if h.basic.formatId == 3 {
      var o := Origin(history, h.basic.streamId);
      if o.Some? {
        assert all[..o.value] == history[..o.value];
      }
    }
  }

  lemma SamePush(a: seq<Header>, b: seq<Header>, h: Header)
    requires SameMeaning(a, b)
    ensures SameMeaning(a + [h], b + [h])
  {
    hide Search;
    forall g ensures Search(a + [h], g) == Search(b + [h], g) {
      SearchPush(a, h, g);
      SearchPush(b, h, g);
    }
  }

  lemma RepeatMeansNothing(history: seq<Header>, id: uint32)
    requires history != [] && history[|history| - 1].basic.streamId == id
    ensures SameMeaning(history + [Next(id).Head()], history)
  {
    hide Search;
    var before, last, head := history[..|history| - 1], history[|history| - 1], Next(id).Head();
    assert before + [last] == history;
    forall h ensures Search(history + [head], h) == Search(history, h) {
      SearchPush(history, head, h);
      SearchPush(before, last, h);
      SearchPush(before, last, head);
    }
  }

  /** Type 3 headers after a header of the same stream change the meaning of no header. */
  lemma {:induction false} RepeatsMeanNothing(history: seq<Header>, id: uint32, left: nat, size: nat)
    requires history != [] && history[|history| - 1].basic.streamId == id && (size >= 1 || left == 0)
    ensures SameMeaning(history + Heads(Rest(id, left, size)), history)
    decreases left
  {
    hide Search, SameMeaning, Heads, Rest;
    HeadsOfRest(id, left, size);
    if left == 0 {
      assert history + [] == history;
      SameItself(history);
    } else {
      var head, more := Next(id).Head(), left - Min(left, size);
      var rest := Heads(Rest(id, more, size));
      RepeatMeansNothing(history, id);
      RepeatsMeanNothing(history + [head], id, more, size);
      SameTwice((history + [head]) + rest, history + [head], history);
      assert history + ([head] + rest) == (history + [head]) + rest;
    }
  }

  lemma HeadsOfRest(id: uint32, left: nat, size: nat)
    requires size >= 1 || left == 0
    ensures Heads(Rest(id, left, size))
         == if left == 0 then [] else [Next(id).Head()] + Heads(Rest(id, left - Min(left, size), size))
  {
    if left > 0 {
      assert Rest(id, left, size)[1..] == Rest(id, left - Min(left, size), size);
    }
  }

  lemma SameItself(history: seq<Header>)
    ensures SameMeaning(history, history)
  {
  }

  lemma FramesMeanOneHeader(history: seq<Header>, c: Chunk, size: nat)
    requires size >= 1 || c.data == []
    ensures SameMeaning(history + Heads(FramesOf(c, size)), history + [c.header])
  {
    hide Search, SameMeaning;
    var frames, left := FramesOf(c, size), |c.data| - Min(|c.data|, size);
    assert frames[1..] == Rest(c.StreamId(), left, size);
    RepeatsMeanNothing(history + [c.header], c.StreamId(), left, size);
    assert history + ([c.header] + Heads(frames[1..])) == (history + [c.header]) + Heads(frames[1..]);
  }

  /** A written chunk, whatever follows it, is a run that delivers its meaning (or consumes
      it) and leaves the reader with no message in progress and with the size in force. */
  lemma ChunkIsRun(s: Sender, st: State, c: Chunk, separator: seq<byte>, tail: seq<byte>)
    returns (events: seq<Event>, s1: Sender, st1: State)
    requires s.pending == map[] && Linked(s, st) && Sendable(s.history, c, separator, s.size)
    ensures Run(st, WriteSeparated(c, separator, s.size) + tail) == Prepend(events, Run(st1, tail))
    ensures Linked(s1, st1) && s1.pending == map[] && s1.size == SizeAfterChunk(Meaning(s.history, c), s.size)
    ensures SameMeaning(s1.history, s.history + [c.header])
    ensures Chunks(events) == Deliverable([Meaning(s.history, c)])
  {
    hide Linked, Canonical, WellFormed, WriteSeparated, SizeAfterChunk, Deliverable, Run, Search, WriteHeader;
    hide SameMeaning, Heads, FramesOf;
    WriterIsSchedule(s, c, separator);
    var frames := FramesOf(c, s.size);
    events, st1 := ScheduleIsRun(s, st, frames, tail);
    s1 := End(s, frames);
    HistoryGrows(s, frames);
    FramesMeanOneHeader(s.history, c, s.size);
  }

  // ----- runs in which the chunk size changes -----

  /** Write a chunk; or write a Set Chunk Size message and then set the write size. */
  datatype Op = Send(chunk: Chunk) | Resize(n: uint32)

  function Written(op: Op): Chunk {
    match op
    case Send(c) => c
    case Resize(n) => ChunkOf(SetChunkSize(n))
  }

  /** The write size after the operation. */
  function NewSize(op: Op, size: nat): nat {
    match op
    case Send(_) => size
    case Resize(n) => Min(n, 0xffffff)
  }

  predicate Legal(history: seq<Header>, op: Op, size: nat) {
    match op
    case Send(c) => Writable(history, c, size) && Meaning(history, c).TypeId() != SET_CHUNK_SIZE
    case Resize(n) => n >= 1 && size >= 1
  }

  /** Every operation is legal after those before it. `history` is made of the headers that
      were handed to the writer, with no continuation headers in it. */
  predicate AllLegal(history: seq<Header>, ops: seq<Op>, size: nat)
    decreases |ops|
  {
    ops != [] ==>
      && Legal(history, ops[0], size)
      && AllLegal(history + [Written(ops[0]).header], ops[1..], NewSize(ops[0], size))
  }

  function WriteAll(history: seq<Header>, ops: seq<Op>, size: nat): seq<byte>
    requires AllLegal(history, ops, size)
    decreases |ops|
  {
    if ops == [] then []
    else
      WriteChunk(Written(ops[0]), size)
      + WriteAll(history + [Written(ops[0]).header], ops[1..], NewSize(ops[0], size))
  }

  /** The headers handed to the writer. */
  function Handed(ops: seq<Op>): seq<Header> {
    if ops == [] then [] else [Written(ops[0]).header] + Handed(ops[1..])
  }

  lemma {:induction false} LegalPush(history: seq<Header>, ops: seq<Op>, op: Op, size: nat)
    requires AllLegal(history, ops, size)
    ensures AllLegal(history, ops + [op], size) <==> Legal(history + Handed(ops), op, SizeAfter(ops, size))
    decreases |ops|
  {
    hide Legal, Written, NewSize;
    var all := ops + [op];
    if ops == [] {
      assert all[0] == op && all[1..] == [] && history + [] == history;
    } else {
      var history1 := history + [Written(ops[0]).header];
      assert all[0] == ops[0] && all[1..] == ops[1..] + [op];
      LegalPush(history1, ops[1..], op, NewSize(ops[0], size));
      assert history1 + Handed(ops[1..]) == history + Handed(ops);
    }
  }

  /** Which runs of the writer are meant: the size can be changed to any but zero, by a message
      that can itself be cut up; and a chunk can be sent, other than of type 1, if its header
      can be written and means a message of the right length, if the size in force is not zero
      or there is nothing to cut up, and if one fragment suffices or the id is at most 62. */
  lemma LegalGrowsIff(ops: seq<Op>, op: Op, size: nat)
    requires AllLegal([], ops, size)
    ensures AllLegal([], ops + [op], size) <==>
              var now := SizeAfter(ops, size);
              match op
              case Resize(n) => n != 0 && now != 0
              case Send(c) =>
                var m := Search(Handed(ops), c.header).message;
                && Canonical(c.header) && |c.data| == m.length && m.typeId as int != 1
                && (now != 0 || c.data == [])
                && (|c.data| <= now || c.header.basic.streamId <= 62)
  {
    hide Search, Canonical, AllLegal, Handed, SizeAfter;
    LegalPush([], ops, op, size);
    assert [] + Handed(ops) == Handed(ops);
  }

  function SizeAfter(ops: seq<Op>, size: nat): nat {
    if ops == [] then size else SizeAfter(ops[1..], NewSize(ops[0], size))
  }

  /** The chunks that were sent, with their headers decompressed. */
  function Sends(history: seq<Header>, ops: seq<Op>): seq<Chunk>
    decreases |ops|
  {
    if ops == [] then []
    else
      (if ops[0].Send? then [Meaning(history, ops[0].chunk)] else [])
      + Sends(history + [Written(ops[0]).header], ops[1..])
  }

  lemma ResizeIsWritable(history: seq<Header>, n: uint32, size: nat)
    requires size >= 1
    ensures var c := ChunkOf(SetChunkSize(n));
            && Writable(history, c, size) && Meaning(history, c) == c
            && c.TypeId() == SET_CHUNK_SIZE && SizeAfterChunk(c, size) == Min(n, 0xffffff)
  {
    hide BigEndian32, Uint32Bytes, Search;
    ResizeData(n);
    SearchKeepsBasic(history, ChunkOf(SetChunkSize(n)).header);
  }

  lemma ResizeData(n: uint32)
    ensures var data := ChunkOf(SetChunkSize(n)).data;
            |data| == 4 && BigEndian32(data) == Min(n, 0xffffff)
  {
    Uint32RoundTrip(Min(n, 0xffffff));
  }

  lemma OpEffect(history: seq<Header>, op: Op, size: nat)
    requires Legal(history, op, size)
    ensures var m := Meaning(history, Written(op));
            && Writable(history, Written(op), size) && SizeAfterChunk(m, size) == NewSize(op, size)
            && Deliverable([m]) == if op.Send? then [Meaning(history, op.chunk)] else []
  {
    hide Search;
    if op.Resize? {
      ResizeIsWritable(history, op.n, size);
    }
    var m := Meaning(history, Written(op));
    assert [m][1..] == [];
  }

  lemma {:induction false} OpsAreRun(s: Sender, st: State, history: seq<Header>, ops: seq<Op>)
    requires s.pending == map[] && Linked(s, st)
    requires SameMeaning(s.history, history) && AllLegal(history, ops, s.size)
    ensures var t := Run(st, WriteAll(history, ops, s.size));
            && !t.panicked && t.rest == []
            && Chunks(t.events) == Sends(history, ops)
            && t.st.readSize == SizeAfter(ops, s.size) && t.st.builders == map[]
    decreases |ops|
  {
    hide WriteChunk, Deliverable, Written, NewSize, Legal, SizeAfterChunk, Step;
    hide SameMeaning, Meaning, Sendable, Writable;
    if ops == [] {
      NothingLeft(st);
    } else {
      var op, rest := ops[0], ops[1..];
      var c := Written(op);
      OpEffect(history, op, s.size);
      SameIsWritable(s.history, history, c, s.size);
      var history1 := history + [c.header];
      var tail := WriteAll(history1, rest, NewSize(op, s.size));
      var separator := [Continuation(c.StreamId())];
      assert WriteChunk(c, s.size) == WriteSeparated(c, separator, s.size) by { WrittenSeparated(c, s.size); }
      WritableIsSendable(s.history, c, s.size);
      var events, s1, st1 := ChunkIsRun(s, st, c, separator, tail);
      SamePush(s.history, history, c.header);
      SameTwice(s1.history, s.history + [c.header], history1);
      OpsAreRun(s1, st1, history1, rest);
      ChunksConcat(events, Run(st1, tail).events);
    }
  }

  lemma SameIsWritable(a: seq<Header>, b: seq<Header>, c: Chunk, size: nat)
    requires SameMeaning(a, b) && Writable(b, c, size)
    ensures Writable(a, c, size) && Meaning(a, c) == Meaning(b, c)
  {
  }

  lemma WrittenSeparated(c: Chunk, size: nat)
    requires size >= 1 || c.data == []
    ensures WriteChunk(c, size) == WriteSeparated(c, [Continuation(c.StreamId())], size)
  {
  }

  /** Lockstep. Starting from equal sizes, the reader takes in everything that was written
      and delivers exactly the chunks that were sent, in order, without the Set Chunk Size
      messages; after them its read size is the writer's write size, and no message is left
      half-read. A chunk may have a compressed header: it is delivered with the header that
      a search through the headers handed to the writer before finds, however the messages
      in between were cut into fragments. Being about all sequences of operations, this
      holds after each of them. */
  lemma WriterReaderLockstep(ops: seq<Op>, size: nat)
    requires AllLegal([], ops, size)
    ensures var t := Run(Fresh(size), WriteAll([], ops, size));
            && !t.panicked && t.rest == []
            && Chunks(t.events) == Sends([], ops)
            && t.st.readSize == SizeAfter(ops, size) && t.st.builders == map[]
  {
    OpsAreRun(NewSender(size), Fresh(size), [], ops);
  }

  /** Complete headers are delivered as they are. */
  lemma {:induction false} CompleteSends(history: seq<Header>, ops: seq<Op>)
    requires forall op :: op in ops && op.Send? ==> op.chunk.header.basic.formatId == 0
    ensures Sends(history, ops) == SentChunks(ops)
    decreases |ops|
  {
    if ops != [] {
      assert ops[0] in ops;
      SearchKeepsBasic(history, Written(ops[0]).header);
      CompleteSends(history + [Written(ops[0]).header], ops[1..]);
    }
  }

  function SentChunks(ops: seq<Op>): seq<Chunk> {
    if ops == [] then []
    else (if ops[0].Send? then [ops[0].chunk] else []) + SentChunks(ops[1..])
  }

  lemma SearchNothing(h: Header)
    ensures Search([], h) == h
  {
  }

  lemma OneSeparatedChunkArrives(c: Chunk, separator: seq<byte>, size: nat)
    requires Sendable([], c, separator, size)
    ensures var t := Run(Fresh(size), WriteSeparated(c, separator, size));
            && !t.panicked && t.rest == []
            && Chunks(t.events) == (if c.TypeId() == SET_CHUNK_SIZE then [] else [c])
            && t.st.readSize == SizeAfterChunk(c, size) && t.st.builders == map[]
  {
    hide WriteSeparated, Canonical, WellFormed, SizeAfterChunk, Step, Search;
    SearchNothing(c.header);
    var bytes := WriteSeparated(c, separator, size);
    var events, s1, st1 := ChunkIsRun(NewSender(size), Fresh(size), c, separator, []);
    assert bytes + [] == bytes && events + [] == events;
    NothingLeft(st1);
    assert [c][1..] == [];
  }

  lemma OneChunkArrives(c: Chunk, size: nat)
    requires Writable([], c, size)
    ensures var t := Run(Fresh(size), WriteChunk(c, size));
            && !t.panicked && t.rest == []
            && Chunks(t.events) == (if c.TypeId() == SET_CHUNK_SIZE then [] else [c])
            && t.st.readSize == SizeAfterChunk(c, size) && t.st.builders == map[]
  {
    hide Run, Writable, Sendable, WriteSeparated, SizeAfterChunk;
    WritableIsSendable([], c, size);
    OneSeparatedChunkArrives(c, [Continuation(c.StreamId())], size);
  }

  // ----- exactly which messages survive -----

  /** A continuation header for a stream that the reader has not heard of delivers an empty
      chunk on that stream. */
  lemma StrayHeader(st: State, input: seq<byte>)
    requires ReadHeader(input).Got?
    requires var h := ReadHeader(input).value;
             && h.basic.formatId == 3 && h.message.length == 0 && h.message.typeId == 0
             && h.basic.streamId !in st.memory.headers && h.basic.streamId !in st.builders
    ensures var sent := Chunks(Run(st, input).events);
            sent != [] && sent[0].StreamId() == ReadHeader(input).value.basic.streamId
  {
    hide ReadHeader;
    var h, rest := ReadHeader(input).value, ReadHeader(input).rest;
    assert Fill(st.memory, h) == h;
    assert rest[..0] == [] && [] + [rest[..0]] == [[]];
    ConcatPush([], []);
    var p := Step(st, input);
    assert p.Advanced? && p.event.outcome == Emitted(Chunk(h, []));
    StepShrinks(st, input);
    var t := Run(p.st, p.rest);
    assert ([p.event] + t.events)[1..] == t.events;
  }

  /** A payload byte with which a misread continuation header cannot happen to name the
      stream `id` itself. */
  function Witness(id: uint32): byte {
    if id == 575 then 2 else 1
  }

  /** The continuation byte of a stream above 63 is read as a header of another stream, if
      the input suffices for a header at all. */
  lemma ContinuationMisread(id: uint32, rest: seq<byte>)
    requires 64 <= id <= 65599 && rest != [] && rest[0] == Witness(id)
    requires |rest| >= 2 ==> rest[1] == Witness(id) || rest[1] == Continuation(id)
    ensures var r := ReadHeader([Continuation(id)] + rest);
            r.Got? ==>
              && r.value.basic.formatId == 3 && r.value.basic.streamId != id
              && r.value.message.length == 0 && r.value.message.typeId == 0
  {
    var s := [Continuation(id)] + rest;
    if id % 64 == 0 {
      assert s[1..2] == [Witness(id)];
    } else if id % 64 == 63 && |rest| >= 2 {
      assert s[1..3] == [rest[0], rest[1]];
    }
  }

  /** The first fragment of a message that does not fit, as the reader sees it. */
  lemma FirstFragment(c: Chunk, separator: seq<byte>, size: nat)
    returns (st: State, tail: seq<byte>)
    requires Canonical(c.header) && WellFormed(c) && 1 <= size < |c.data|
    ensures tail == separator + Fragments(separator, c.data[size..], size)
    ensures Chunks(Run(Fresh(size), WriteSeparated(c, separator, size)).events) == Chunks(Run(st, tail).events)
    ensures st.memory.headers.Keys == {c.StreamId()} && st.builders.Keys == {c.StreamId()}
    ensures Holds(st.builders[c.StreamId()], Transit(c, size)) && st.readSize == size
  {
    hide Canonical, WriteHeader, Fragments, ReadHeader, Step, Search;
    SearchNothing(c.header);
    var s, f := NewSender(size), First(c.header, c.data);
    tail := separator + Fragments(separator, c.data[size..], size);
    FragmentsSplit(separator, c.data, size);
    assert FrameBytes(s, f) == WriteHeader(c.header) + c.data[..size];
    assert FrameBytes(s, f) + tail == WriteSeparated(c, separator, size);
    FrameIsStep(s, Fresh(size), f, tail);
    var p := Step(Fresh(size), WriteSeparated(c, separator, size));
    st := p.st;
    var t := Run(st, tail);
    assert p.event.outcome == Incomplete;
    assert ([p.event] + t.events)[1..] == t.events && [] + Chunks(t.events) == Chunks(t.events);
    RememberOne(c.header);
    assert After(s, f).history == [c.header];
  }

  lemma RememberOne(h: Header)
    ensures Remember([h]).headers.Keys == {h.basic.streamId}
  {
    assert [h][..0] == [];
  }

  lemma LongMessageLost(h: Header, n: nat, size: nat)
    requires Canonical(h) && h.message.length == n && h.message.typeId != SET_CHUNK_SIZE
    requires 1 <= size < n && h.basic.streamId >= 64
    ensures var c := Chunk(h, seq(n, _ => Witness(h.basic.streamId)));
            Chunks(Run(Fresh(size), WriteChunk(c, size)).events) != [c]
  {
    hide ReadHeader, Run, Step, WriteSeparated, Fragments, Canonical, Holds;
    var id := h.basic.streamId;
    var c := Chunk(h, seq(n, _ => Witness(id)));
    var separator := [Continuation(id)];
    var st, tail := FirstFragment(c, separator, size);
    FragmentsSplit(separator, c.data[size..], size);
    var rest := Fragments(separator, c.data[size..], size);
    assert id <= 65599 by { IdFits(h); }
    ContinuationMisread(id, rest);
    if ReadHeader(tail).Got? {
      StrayHeader(st, tail);
    } else {
      ShortHeaderStops(st, tail);
    }
  }

  lemma IdFits(h: Header)
    requires Canonical(h)
    ensures h.basic.streamId <= 65599 && h.basic.streamId != 63
  {
  }

  lemma ShortHeaderStops(st: State, input: seq<byte>)
    requires !ReadHeader(input).Got?
    ensures Chunks(Run(st, input).events) == []
  {
    hide ReadHeader;
  }

  /** A header of a given length gets through with every payload if and only if the message
      fits one fragment or the stream id fits the one-byte continuation header. */
  lemma WriterRoundTripIff(h: Header, n: nat, size: nat)
    requires Canonical(h) && h.message.length == n && h.message.typeId != SET_CHUNK_SIZE
    requires size >= 1
    ensures (forall data: seq<byte> :: |data| == n ==>
               Chunks(Run(Fresh(size), WriteChunk(Chunk(h, data), size)).events) == [Chunk(h, data)])
       <==> n <= size || h.basic.streamId <= 62
  {
    hide Run, WriteChunk, Canonical, Search;
    SearchNothing(h);
    if n <= size || h.basic.streamId <= 62 {
      forall data: seq<byte> | |data| == n
        ensures Chunks(Run(Fresh(size), WriteChunk(Chunk(h, data), size)).events) == [Chunk(h, data)]
      {
        OneChunkArrives(Chunk(h, data), size);
      }
    } else {
      IdFits(h);
      LongMessageLost(h, n, size);
      var data := seq(n, _ => Witness(h.basic.streamId));
      assert |data| == n;
    }
  }
}

/** The demultiplexing state machine of chunk/default_reader.go, as a function on values,
    and what holds of its runs over arbitrary bytes. */
module Readers {
  import opened Bytes
  import opened Wire
  import opened Normalizers
  import opened Builders

  datatype State = State(memory: Memory, builders: map<uint32, Partial>, readSize: nat)

  datatype Outcome =
    | Incomplete
    | Emitted(chunk: Chunk)   // sent over the chunks channel
    | Resized(chunk: Chunk)   // a Set Chunk Size message, consumed by the reader itself
    | Overfull                // ErrTooManyBytes

  /** One completed iteration of Recv: the header as read, its size on the wire, the
      payload bytes that followed, and what became of them. */
  datatype Event = Event(wire: Header, headerLength: nat, body: seq<byte>, outcome: Outcome) {
    function StreamId(): uint32 { wire.basic.streamId }
    predicate Completes() { outcome.Emitted? || outcome.Resized? }
  }

  /** An iteration either completes, or hits the end of the input, or panics. The last two
      still carry the state that the iteration leaves behind. */
  datatype Progress =
    | Advanced(st: State, event: Event, rest: seq<byte>)
    | Starved(st: State)
    | Panicked(st: State)

  const SET_CHUNK_SIZE: byte := 1

  function Fresh(readSize: nat): State {
    State(EMPTY, map[], readSize)
  }

  function BuilderFor(st: State, h: Header): Partial {
    if h.basic.streamId in st.builders then st.builders[h.basic.streamId] else Start(h)
  }

  /** The rest of an iteration, once builder `b` of stream `id` has its new payload. */
  function Finish(st: State, id: uint32, b: Partial): (State, Outcome)
    requires b.left == 0 && b.header.message.typeId == SET_CHUNK_SIZE ==> |Concat(b.payloads)| >= 4
  {
    var c := Chunk(b.header, Concat(b.payloads));
    if b.left < 0 then (st.(builders := st.builders[id := b]), Overfull)
    else if b.left > 0 then (st.(builders := st.builders[id := b]), Incomplete)
    else if c.TypeId() == SET_CHUNK_SIZE then
      (State(st.memory, st.builders - {id}, BigEndian32(c.data)), Resized(c))
    else (st.(builders := st.builders - {id}), Emitted(c))
  }

  /** Finishing overwrites or removes the entry of stream `id`, whatever it was. */
  lemma FinishReplaces(st: State, id: uint32, b: Partial, stale: Partial)
    requires b.left == 0 && b.header.message.typeId == SET_CHUNK_SIZE ==> |Concat(b.payloads)| >= 4
    ensures Finish(st.(builders := st.builders[id := stale]), id, b) == Finish(st, id, b)
  {
    assert st.builders[id := stale] - {id} == st.builders - {id};
    assert st.builders[id := stale][id := b] == st.builders[id := b];
  }

  /** The second half of an iteration: header `wire` has been read and normalised to `h`,
      and `body` is what follows it. */
  function Receive(st: State, h: Header, wire: Header, headerLength: nat, body: seq<byte>): (r: Progress)
    ensures r.Advanced? ==> |r.rest| <= |body|
  {
    var id := h.basic.streamId;
    var b := BuilderFor(st, h);
    var st1 := st.(builders := st.builders[id := b]);
    var n := Min(b.left, st.readSize);
    if n < 0 then Panicked(st1)
    else if n > |body| then Starved(st1)
    else
      var b1 := Extend(b, body[..n]);
      if b1.left == 0 && b1.header.message.typeId == SET_CHUNK_SIZE && |Concat(b1.payloads)| < 4 then
        Panicked(st1.(builders := st1.builders[id := b1]))
      else
        var (st2, outcome) := Finish(st1, id, b1);
        Advanced(st2, Event(wire, headerLength, body[..n], outcome), body[n..])
  }

  /** The same by cases: a fragment that cannot be taken, and one that is. */
  lemma ReceiveStarts(st: State, h: Header, wire: Header, headerLength: nat, body: seq<byte>)
    ensures var b := BuilderFor(st, h);
            var st1, n := st.(builders := st.builders[h.basic.streamId := b]), Min(b.left, st.readSize);
            && (n < 0 ==> Receive(st, h, wire, headerLength, body) == Panicked(st1))
            && (0 <= n && n > |body| ==> Receive(st, h, wire, headerLength, body) == Starved(st1))
  {
    hide BuilderFor, Extend, Finish;
  }

  lemma ReceiveAgain(st: State, h: Header, wire: Header, headerLength: nat, body: seq<byte>)
    ensures Receive(st.(builders := st.builders[h.basic.streamId := BuilderFor(st, h)]), h, wire, headerLength, body)
         == Receive(st, h, wire, headerLength, body)
  {
    hide Extend, Finish;
    var id, b := h.basic.streamId, BuilderFor(st, h);
    assert st.builders[id := b][id := b] == st.builders[id := b];
  }

  lemma ReceiveTakes(st: State, h: Header, wire: Header, headerLength: nat, body: seq<byte>, b: Partial)
    requires var b0 := BuilderFor(st, h);
             var n := Min(b0.left, st.readSize);
             0 <= n <= |body| && b == Extend(b0, body[..n])
    ensures b.left >= 0
    ensures var id, n := h.basic.streamId, Min(BuilderFor(st, h).left, st.readSize);
            var st1 := st.(builders := st.builders[id := b]);
            var short := b.left == 0 && b.header.message.typeId == SET_CHUNK_SIZE && |Concat(b.payloads)| < 4;
            && (short ==> Receive(st, h, wire, headerLength, body) == Panicked(st1))
            && (!short ==>
                  var (st2, outcome) := Finish(st1, id, b);
                  Receive(st, h, wire, headerLength, body)
                  == Advanced(st2, Event(wire, headerLength, body[..n], outcome), body[n..]))
  {
    hide Concat, Finish, BuilderFor;
    var id, b0 := h.basic.streamId, BuilderFor(st, h);
    if !(b.left == 0 && b.header.message.typeId == SET_CHUNK_SIZE && |Concat(b.payloads)| < 4) {
      FinishReplaces(st, id, b, b0);
      FinishReplaces(st, id, b, b);
    }
    assert st.builders[id := b0][id := b] == st.builders[id := b];
  }

  /** One iteration of Recv on the unread bytes `input`. */
  function Step(st: State, input: seq<byte>): (r: Progress)
    ensures r.Advanced? ==> |r.rest| < |input|
  {
    match ReadHeader(input)
    case Got(wire, body) =>
      ReadIsCanonical(input);
      var h := Fill(st.memory, wire);
      Receive(st.(memory := Store(st.memory, h)), h, wire, |input| - |body|, body)
    case _ => Starved(st)
  }

  /** A run up to the first iteration that does not complete: the events, the state and the
      unread bytes before that iteration, and the state it leaves behind. */
  datatype Trace = Trace(events: seq<Event>, st: State, rest: seq<byte>, panicked: bool, final: State)

  function Prepend(events: seq<Event>, t: Trace): Trace {
    t.(events := events + t.events)
  }

  lemma PrependTwice(a: seq<Event>, b: seq<Event>, t: Trace)
    ensures Prepend(a, Prepend(b, t)) == Prepend(a + b, t)
    ensures Prepend([], t) == t
  {
    assert a + (b + t.events) == (a + b) + t.events;
    assert [] + t.events == t.events;
  }

  function Run(st: State, input: seq<byte>): Trace
    decreases |input|
  {
    match Step(st, input)
    case Advanced(st1, event, rest) =>
      Prepend([event], Run(st1, rest))
    case Starved(st1) => Trace([], st, input, false, st1)
    case Panicked(st1) => Trace([], st, input, true, st1)
  }

  /** What a completed iteration sends over the chunks channel, and what a run sends. */
  function Sent(e: Event): seq<Chunk> {
    if e.outcome.Emitted? then [e.outcome.chunk] else []
  }

  function Chunks(events: seq<Event>): seq<Chunk> {
    if events == [] then [] else Sent(events[0]) + Chunks(events[1..])
  }

  lemma {:induction false} ChunksConcat(a: seq<Event>, b: seq<Event>)
    ensures Chunks(a + b) == Chunks(a) + Chunks(b)
  {
    hide Sent;
    if a == [] {
      assert a + b == b;
    } else {
      var c := a + b;
      assert c[0] == a[0] && c[1..] == a[1..] + b;
      ChunksConcat(a[1..], b);
      assert Sent(a[0]) + (Chunks(a[1..]) + Chunks(b)) == (Sent(a[0]) + Chunks(a[1..])) + Chunks(b);
    }
  }

  /** Recv asks a builder for no more than the bytes it misses, in whatever state it is. */
  lemma NeverTooManyBytes(st: State, input: seq<byte>)
    ensures Step(st, input).Advanced? ==> Step(st, input).event.outcome != Overfull
  {
    hide Fill, ReadHeader, Concat, BigEndian32;
  }

  // ----- invariant -----

  predicate ValidPartial(b: Partial) {
    && 0 < b.left
    && |Concat(b.payloads)| + b.left == b.header.message.length
  }

  /** Between iterations every message in the table misses at least one byte, and the bytes
      it has and the bytes it misses add up to the length that its first header announced. */
  predicate Valid(st: State) {
    forall id :: id in st.builders ==>
      ValidPartial(st.builders[id]) && st.builders[id].header.basic.streamId == id
  }

  /** A chunk has exactly the announced length, and type 1 is never delivered. */
  predicate GoodEvent(e: Event) {
    match e.outcome
    case Incomplete => true
    case Emitted(c) =>
      |c.data| == c.header.message.length && c.TypeId() != SET_CHUNK_SIZE && c.StreamId() == e.StreamId()
    case Resized(c) => |c.data| == c.header.message.length && c.TypeId() == SET_CHUNK_SIZE && |c.data| >= 4
    case Overfull => false
  }

  lemma StepKeepsValid(st: State, input: seq<byte>)
    requires Valid(st)
    ensures Step(st, input).Advanced? ==> Valid(Step(st, input).st) && GoodEvent(Step(st, input).event)
  {
    hide Fill, ReadHeader, BigEndian32;
    var p := Step(st, input);
    if p.Advanced? {
      var wire, body := ReadHeader(input).value, ReadHeader(input).rest;
      var h := Fill(st.memory, wire);
      FillKeepsBasic(st.memory, wire);
      var b := BuilderFor(st, h);
      ConcatPush(b.payloads, body[..Min(b.left, st.readSize)]);
    }
  }

  lemma FillKeepsBasic(m: Memory, h: Header)
    ensures Fill(m, h).basic == h.basic
  {
  }

  lemma {:induction false} RunKeepsValid(st: State, input: seq<byte>)
    requires Valid(st)
    ensures Valid(Run(st, input).st)
    ensures forall e :: e in Run(st, input).events ==> GoodEvent(e)
    decreases |input|
  {
    StepKeepsValid(st, input);
    var p := Step(st, input);
    if p.Advanced? {
      RunKeepsValid(p.st, p.rest);
    }
  }
}

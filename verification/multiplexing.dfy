/** Any interleaving of message fragments, and the theorem that the reader undoes it. A
    schedule is written by a sender that may switch between chunk streams after every
    fragment. It says nothing about how a particular writer orders its fragments. */
module Multiplexing {
  import opened Bytes
  import opened Wire
  import opened Normalizers
  import opened Builders
  import opened Readers
  import opened ReaderRuns

  /** Begin a message with a header of any type, or go on with the one in progress. */
  datatype Frame = First(header: Header, data: seq<byte>) | Next(id: uint32) {
    function Id(): uint32 {
      if First? then header.basic.streamId else id
    }

    function Head(): Header {
      if First? then header else Header(BasicHeader(3, id), NO_MESSAGE.(formatId := 3), 0)
    }
  }

  /** A message of which `sent` bytes are on the wire. */
  datatype Transit = Transit(chunk: Chunk, sent: nat)

  datatype Sender = Sender(history: seq<Header>, pending: map<uint32, Transit>, size: nat)

  /** The message that a compressed header stands for, after the headers sent before it. */
  function Meant(s: Sender, f: Frame): Chunk
    requires f.First?
  {
    Chunk(Search(s.history, f.header), f.data)
  }

  predicate WellFormed(c: Chunk) {
    |c.data| == c.header.message.length && (c.TypeId() == SET_CHUNK_SIZE ==> |c.data| >= 4)
  }

  predicate Admissible(s: Sender, f: Frame) {
    match f
    case First(h, data) => Canonical(h) && f.Id() !in s.pending && WellFormed(Meant(s, f))
    case Next(id) => id in s.pending
  }

  function Current(s: Sender, f: Frame): Transit
    requires Admissible(s, f)
  {
    if f.First? then Transit(Meant(s, f), 0) else s.pending[f.id]
  }

  predicate Sound(s: Sender) {
    forall id :: id in s.pending ==>
      var p := s.pending[id];
      && Representable(BasicHeader(3, id))
      && p.chunk.StreamId() == id && WellFormed(p.chunk) && p.sent < |p.chunk.data|
  }

  /** How far the message has come when this fragment is out. A fragment is as long as the
      size in force and the rest of the message allow. */
  function Reached(s: Sender, f: Frame): (r: nat)
    requires Sound(s) && Admissible(s, f)
    ensures Current(s, f).sent <= r <= |Current(s, f).chunk.data|
  {
    var p := Current(s, f);
    p.sent + Min(|p.chunk.data| - p.sent, s.size)
  }

  function FrameBytes(s: Sender, f: Frame): seq<byte>
    requires Sound(s) && Admissible(s, f)
  {
    var p := Current(s, f);
    WriteHeader(f.Head()) + p.chunk.data[p.sent..Reached(s, f)]
  }

  /** The message that this fragment completes, if it does. */
  function Finished(s: Sender, f: Frame): seq<Chunk>
    requires Sound(s) && Admissible(s, f)
  {
    var c := Current(s, f).chunk;
    if Reached(s, f) == |c.data| then [c] else []
  }

  function After(s: Sender, f: Frame): (s1: Sender)
    requires Sound(s) && Admissible(s, f)
    ensures Sound(s1)
  {
    var c := Current(s, f).chunk;
    var history := s.history + [f.Head()];
    SearchKeepsBasic(s.history, f.Head());
    if Reached(s, f) < |c.data| then
      Sender(history, s.pending[f.Id() := Transit(c, Reached(s, f))], s.size)
    else
      Sender(history, s.pending - {f.Id()}, if c.TypeId() == SET_CHUNK_SIZE then BigEndian32(c.data) else s.size)
  }

  // ----- whole schedules -----

  ghost predicate Schedule(s: Sender, frames: seq<Frame>)
    decreases |frames|
  {
    frames != [] ==>
      Sound(s) && Admissible(s, frames[0]) && Schedule(After(s, frames[0]), frames[1..])
  }

  function WireBytes(s: Sender, frames: seq<Frame>): seq<byte>
    requires Schedule(s, frames)
    decreases |frames|
  {
    if frames == [] then [] else FrameBytes(s, frames[0]) + WireBytes(After(s, frames[0]), frames[1..])
  }

  function End(s: Sender, frames: seq<Frame>): Sender
    requires Schedule(s, frames)
    decreases |frames|
  {
    if frames == [] then s else End(After(s, frames[0]), frames[1..])
  }

  /** The messages in the order in which the schedule completes them. */
  function Completed(s: Sender, frames: seq<Frame>): seq<Chunk>
    requires Schedule(s, frames)
    decreases |frames|
  {
    if frames == [] then [] else Finished(s, frames[0]) + Completed(After(s, frames[0]), frames[1..])
  }

  /** The messages that the schedule begins on one stream, in order. */
  function Begun(s: Sender, frames: seq<Frame>, id: uint32): seq<Chunk>
    requires Schedule(s, frames)
    decreases |frames|
  {
    if frames == [] then []
    else
      (if frames[0].First? && frames[0].Id() == id then [Meant(s, frames[0])] else [])
      + Begun(After(s, frames[0]), frames[1..], id)
  }

  /** The same for messages whose first header is complete: no need to know the sender. */
  function Messages(frames: seq<Frame>, id: uint32): seq<Chunk> {
    if frames == [] then []
    else
      (if frames[0].First? && frames[0].Id() == id then [Chunk(frames[0].header, frames[0].data)] else [])
      + Messages(frames[1..], id)
  }

  function InFlight(s: Sender, id: uint32): seq<Chunk> {
    if id in s.pending then [s.pending[id].chunk] else []
  }

  // ----- selections -----

  function On(chunks: seq<Chunk>, id: uint32): seq<Chunk> {
    if chunks == [] then []
    else (if chunks[0].StreamId() == id then [chunks[0]] else []) + On(chunks[1..], id)
  }

  /** All but the Set Chunk Size messages, which the reader consumes. */
  function Deliverable(chunks: seq<Chunk>): seq<Chunk> {
    if chunks == [] then []
    else (if chunks[0].TypeId() != SET_CHUNK_SIZE then [chunks[0]] else []) + Deliverable(chunks[1..])
  }

  lemma {:induction false} OnConcat(a: seq<Chunk>, b: seq<Chunk>, id: uint32)
    ensures On(a + b, id) == On(a, id) + On(b, id)
  {
    if a == [] {
      assert a + b == b;
    } else {
      var c := a + b;
      assert c[0] == a[0] && c[1..] == a[1..] + b;
      OnConcat(a[1..], b, id);
      var first := if a[0].StreamId() == id then [a[0]] else [];
      assert first + (On(a[1..], id) + On(b, id)) == (first + On(a[1..], id)) + On(b, id);
    }
  }

  lemma {:induction false} DeliverableConcat(a: seq<Chunk>, b: seq<Chunk>)
    ensures Deliverable(a + b) == Deliverable(a) + Deliverable(b)
  {
    if a == [] {
      assert a + b == b;
    } else {
      var c := a + b;
      assert c[0] == a[0] && c[1..] == a[1..] + b;
      DeliverableConcat(a[1..], b);
      var first := if a[0].TypeId() != SET_CHUNK_SIZE then [a[0]] else [];
      assert first + (Deliverable(a[1..]) + Deliverable(b)) == (first + Deliverable(a[1..])) + Deliverable(b);
    }
  }

  lemma {:induction false} OnDeliverable(chunks: seq<Chunk>, id: uint32)
    ensures On(Deliverable(chunks), id) == Deliverable(On(chunks, id))
  {
    if chunks != [] {
      var first, rest := chunks[..1], chunks[1..];
      assert chunks == first + rest;
      OnDeliverable(rest, id);
      DeliverableConcat(first, rest);
      OnConcat(first, rest, id);
      OnConcat(Deliverable(first), Deliverable(rest), id);
      DeliverableConcat(On(first, id), On(rest, id));
      assert first[1..] == [] && first == [first[0]];
      assert [first[0]][1..] == [];
    }
  }

  // ----- the reader undoes the schedule -----

  predicate Holds(b: Partial, p: Transit) {
    && b.header == p.chunk.header
    && p.sent <= |p.chunk.data|
    && Concat(b.payloads) == p.chunk.data[..p.sent]
    && b.left == |p.chunk.data| - p.sent
  }

  predicate Mirrors(builders: map<uint32, Partial>, pending: map<uint32, Transit>) {
    && builders.Keys == pending.Keys
    && forall id :: id in pending ==> Holds(builders[id], pending[id])
  }

  lemma MirrorsUpdate(builders: map<uint32, Partial>, pending: map<uint32, Transit>, id: uint32, b: Partial, p: Transit)
    requires Mirrors(builders, pending)
    ensures Holds(b, p) ==> Mirrors(builders[id := b], pending[id := p])
    ensures Mirrors(builders - {id}, pending - {id})
  {
    hide Holds;
  }

  /** The reader's state mirrors the sender's. */
  predicate Linked(s: Sender, st: State) {
    && st.memory == Remember(s.history)
    && st.readSize == s.size
    && Mirrors(st.builders, s.pending)
  }

  function OutcomeOf(chunks: seq<Chunk>): Outcome
    requires |chunks| <= 1
  {
    if chunks == [] then Incomplete
    else if chunks[0].TypeId() == SET_CHUNK_SIZE then Resized(chunks[0])
    else Emitted(chunks[0])
  }

  /** The builder that takes a fragment mirrors the message that the fragment belongs to. */
  lemma BuilderHolds(s: Sender, st: State, f: Frame)
    requires Sound(s) && Linked(s, st) && Admissible(s, f)
    ensures Holds(BuilderFor(st, Fill(st.memory, f.Head())), Current(s, f))
  {
    hide Search, Fill, Remember, Canonical, Representable;
    NormalizerRefinesSearch(s.history, f.Head());
    SearchKeepsBasic(s.history, f.Head());
    if f.First? {
      var data := Current(s, f).chunk.data;
      assert data[..0] == [];
    }
  }

  lemma HoldsMore(b: Partial, p: Transit, reached: nat)
    requires Holds(b, p) && p.sent <= reached <= |p.chunk.data|
    ensures var b1 := Extend(b, p.chunk.data[p.sent..reached]);
            && Holds(b1, Transit(p.chunk, reached))
            && (reached == |p.chunk.data| ==> Concat(b1.payloads) == p.chunk.data)
  {
    hide Concat;
    ConcatPush(b.payloads, p.chunk.data[p.sent..reached]);
    assert p.chunk.data[..p.sent] + p.chunk.data[p.sent..reached] == p.chunk.data[..reached];
    assert p.chunk.data[..|p.chunk.data|] == p.chunk.data;
  }

  /** The builder after the fragment mirrors the message after the fragment. */
  lemma HoldsAfter(s: Sender, st: State, f: Frame)
    requires Sound(s) && Linked(s, st) && Admissible(s, f)
    ensures var p := Current(s, f);
            var b := BuilderFor(st, Fill(st.memory, f.Head()));
            var body := p.chunk.data[p.sent..Reached(s, f)];
            && Min(b.left, st.readSize) == |body|
            && Holds(Extend(b, body), Transit(p.chunk, Reached(s, f)))
            && (Extend(b, body).left > 0 <==> Reached(s, f) < |p.chunk.data|)
            && Extend(b, body).header == p.chunk.header
            && (Reached(s, f) == |p.chunk.data| ==> Concat(Extend(b, body).payloads) == p.chunk.data)
  {
    hide Search, Fill, Remember, Canonical, Representable, Concat, BuilderFor, Admissible, Mirrors;
    BuilderHolds(s, st, f);
    HoldsMore(BuilderFor(st, Fill(st.memory, f.Head())), Current(s, f), Reached(s, f));
  }

  lemma HeadIsCanonical(s: Sender, f: Frame)
    requires Sound(s) && Admissible(s, f)
    ensures Canonical(f.Head())
  {
  }

  /** Event `e` is the one that fragment `f` causes. */
  predicate CausedBy(s: Sender, f: Frame, e: Event)
    requires Sound(s) && Admissible(s, f)
  {
    e.wire == f.Head() && e.body == Current(s, f).chunk.data[Current(s, f).sent..Reached(s, f)]
  }

  lemma FrameAdvances(s: Sender, st: State, f: Frame, tail: seq<byte>)
    requires Sound(s) && Linked(s, st) && Admissible(s, f)
    ensures var p := Step(st, FrameBytes(s, f) + tail);
            && p.Advanced? && p.rest == tail && CausedBy(s, f, p.event)
  {
    hide Search, Fill, Remember, Canonical, Representable, ReadHeader, WriteHeader, BigEndian32, Concat, Finish;
    var h := f.Head();
    var p := Current(s, f);
    var body := p.chunk.data[p.sent..Reached(s, f)];
    HeadIsCanonical(s, f);
    HeaderRoundTrip(h, body + tail);
    assert WriteHeader(h) + (body + tail) == FrameBytes(s, f) + tail;
    assert (body + tail)[..|body|] == body && (body + tail)[|body|..] == tail;
    HoldsAfter(s, st, f);
    FillKeepsBasic(st.memory, h);
  }

  lemma MemoryStaysLinked(s: Sender, st: State, f: Frame)
    requires Sound(s) && Linked(s, st) && Admissible(s, f)
    ensures Store(st.memory, Fill(st.memory, f.Head())) == Remember(After(s, f).history)
  {
    hide Search, Fill, Remember, Store, Canonical, Representable, Holds;
    NormalizerRefinesSearch(s.history, f.Head());
    RememberPush(s.history, f.Head());
  }

  lemma OutcomeIsFinished(s: Sender, st: State, f: Frame, st1: State, e: Event)
    requires Sound(s) && Linked(s, st) && Admissible(s, f) && Shape(st, st1, e) && CausedBy(s, f, e)
    ensures e.outcome == OutcomeOf(Finished(s, f))
    ensures e.Completes() <==> Reached(s, f) == |Current(s, f).chunk.data|
    ensures st1.readSize == After(s, f).size
  {
    hide Search, Fill, Remember, Store, Canonical, Representable, BigEndian32, Concat, BuilderFor, Extend, Linked;
    HoldsAfter(s, st, f);
    assert st.readSize == s.size by { LinkedSize(s, st); }
  }

  lemma LinkedSize(s: Sender, st: State)
    requires Linked(s, st)
    ensures st.readSize == s.size
  {
  }

  lemma TableStaysLinked(s: Sender, st: State, f: Frame, st1: State, e: Event)
    requires Sound(s) && Linked(s, st) && Admissible(s, f) && Shape(st, st1, e) && CausedBy(s, f, e)
    ensures Mirrors(st1.builders, After(s, f).pending)
  {
    OutcomeIsFinished(s, st, f, st1, e);
    HoldsAfter(s, st, f);
    hide Search, Fill, Remember, Store, Canonical, Representable, BigEndian32, Concat;
    hide BuilderFor, Extend, Holds, Finished, Mirrors, MessageOf;
    SearchKeepsBasic(s.history, f.Head());
    var b := Extend(BuilderFor(st, Fill(st.memory, e.wire)), e.body);
    MirrorsUpdate(st.builders, s.pending, f.Id(), b, Transit(Current(s, f).chunk, Reached(s, f)));
  }

  /** One fragment, whatever follows it, is one iteration of the reader. */
  lemma FrameIsStep(s: Sender, st: State, f: Frame, tail: seq<byte>)
    requires Sound(s) && Linked(s, st) && Admissible(s, f)
    ensures var p := Step(st, FrameBytes(s, f) + tail);
            && p.Advanced? && p.rest == tail
            && Linked(After(s, f), p.st)
            && p.event.outcome == OutcomeOf(Finished(s, f))
  {
    hide Search, Fill, Remember, Store, Step, FrameBytes, Holds, Finished, After, Admissible, Sound, Concat;
    FrameAdvances(s, st, f, tail);
    StepShape(st, FrameBytes(s, f) + tail);
    var p := Step(st, FrameBytes(s, f) + tail);
    MemoryStaysLinked(s, st, f);
    OutcomeIsFinished(s, st, f, p.st, p.event);
    TableStaysLinked(s, st, f, p.st, p.event);
  }

  /** A whole schedule is one run of the reader: as many iterations as fragments, and the
      completed messages in the order of completion, without the consumed ones. */
  lemma {:induction false} ScheduleIsRun(s: Sender, st: State, frames: seq<Frame>, tail: seq<byte>)
    returns (events: seq<Event>, st1: State)
    requires Sound(s) && Linked(s, st) && Schedule(s, frames)
    ensures Run(st, WireBytes(s, frames) + tail) == Prepend(events, Run(st1, tail))
    ensures Linked(End(s, frames), st1) && |events| == |frames|
    ensures Chunks(events) == Deliverable(Completed(s, frames))
    decreases |frames|
  {
    hide Linked, Step, Finished, FrameBytes, After, Admissible, Sound;
    if frames == [] {
      events, st1 := [], st;
      PrependTwice([], [], Run(st, tail));
      assert WireBytes(s, frames) + tail == tail;
    } else {
      var f, s1 := frames[0], After(s, frames[0]);
      var more := WireBytes(s1, frames[1..]) + tail;
      FrameIsStep(s, st, f, more);
      var p := Step(st, FrameBytes(s, f) + more);
      assert FrameBytes(s, f) + more == WireBytes(s, frames) + tail;
      var events1;
      events1, st1 := ScheduleIsRun(s1, p.st, frames[1..], tail);
      events := [p.event] + events1;
      PrependTwice([p.event], events1, Run(st1, tail));
      assert events[1..] == events1;
      DeliverableConcat(Finished(s, f), Completed(s1, frames[1..]));
      SentIsDeliverable(s, f, p.event);
    }
  }

  lemma SentIsDeliverable(s: Sender, f: Frame, e: Event)
    requires Sound(s) && Admissible(s, f) && e.outcome == OutcomeOf(Finished(s, f))
    ensures Sent(e) == Deliverable(Finished(s, f))
  {
    hide Search, Reached;
    var c := Finished(s, f);
    if c != [] {
      assert c[1..] == [];
    }
  }

  lemma OnOne(c: Chunk, id: uint32)
    ensures On([c], id) == if c.StreamId() == id then [c] else []
    ensures On([], id) == []
  {
    assert [c][1..] == [];
  }

  lemma OneFrame(s: Sender, f: Frame, id: uint32)
    requires Sound(s) && Admissible(s, f)
    ensures On(Finished(s, f), id) + InFlight(After(s, f), id)
         == InFlight(s, id) + if f.First? && f.Id() == id then [Meant(s, f)] else []
  {
    hide Search, Reached, Canonical, Representable, BigEndian32, On;
    SearchKeepsBasic(s.history, f.Head());
    var c := Current(s, f).chunk;
    assert c.StreamId() == f.Id();
    OnOne(c, id);
    if f.Id() != id {
      assert InFlight(After(s, f), id) == InFlight(s, id);
      assert [] + InFlight(s, id) == InFlight(s, id) + [];
    } else if Finished(s, f) == [] {
      assert InFlight(After(s, f), id) == [c];
      assert [] + [c] == [c] && [c] + [] == [c];
    } else {
      assert InFlight(After(s, f), id) == [];
      assert [] + [c] == [c] && [c] + [] == [c];
    }
  }

  lemma Regroup<T>(a: seq<T>, b: seq<T>, end: seq<T>, middle: seq<T>, later: seq<T>, start: seq<T>, now: seq<T>)
    requires b + end == middle + later && a + middle == start + now
    ensures (a + b) + end == start + (now + later)
  {
    assert (a + b) + end == a + (b + end);
    assert a + (middle + later) == (a + middle) + later;
    assert (start + now) + later == start + (now + later);
  }

  /** No stream loses, repeats or reorders a message: what is completed on it, and then the
      one still in flight, are what was in flight, and then what was begun. */
  lemma {:induction false} StreamOrder(s: Sender, frames: seq<Frame>, id: uint32)
    requires Sound(s) && Schedule(s, frames)
    ensures On(Completed(s, frames), id) + InFlight(End(s, frames), id)
         == InFlight(s, id) + Begun(s, frames, id)
    decreases |frames|
  {
    hide Finished, After, Admissible, Sound, InFlight, Meant;
    if frames != [] {
      var f, rest, s1 := frames[0], frames[1..], After(s, frames[0]);
      StreamOrder(s1, rest, id);
      OneFrame(s, f, id);
      OnConcat(Finished(s, f), Completed(s1, rest), id);
      Regroup(On(Finished(s, f), id), On(Completed(s1, rest), id), InFlight(End(s1, rest), id),
              InFlight(s1, id), Begun(s1, rest, id),
              InFlight(s, id), if f.First? && f.Id() == id then [Meant(s, f)] else []);
    } else {
      assert [] + InFlight(s, id) == InFlight(s, id) + [];
    }
  }

  function NewSender(size: nat): Sender {
    Sender([], map[], size)
  }

  /** Demultiplexing. The reader consumes the whole schedule without an error, delivers the
      completed messages in the order of completion and, on every chunk stream, exactly the
      messages begun there, in order, with their headers decompressed and their data
      reassembled, except for the one still in flight at the end. Set Chunk Size messages
      are consumed; the size they set is in force for every fragment that follows. */
  lemma Demultiplexing(size: nat, frames: seq<Frame>)
    requires Schedule(NewSender(size), frames)
    ensures var s := NewSender(size);
            var t := Run(Fresh(size), WireBytes(s, frames));
            && !t.panicked && t.rest == []
            && Chunks(t.events) == Deliverable(Completed(s, frames))
            && (forall id :: On(Chunks(t.events), id) + Deliverable(InFlight(End(s, frames), id))
                          == Deliverable(Begun(s, frames, id)))
            && t.st.readSize == End(s, frames).size
  {
    hide Step, Begun, InFlight;
    var s := NewSender(size);
    var bytes := WireBytes(s, frames);
    var events, st1 := ScheduleIsRun(s, Fresh(size), frames, []);
    assert bytes + [] == bytes;
    NothingLeft(st1);
    assert events + [] == events;
    forall id
      ensures On(Chunks(events), id) + Deliverable(InFlight(End(s, frames), id)) == Deliverable(Begun(s, frames, id))
    {
      StreamOrder(s, frames, id);
      OnDeliverable(Completed(s, frames), id);
      DeliverableConcat(On(Completed(s, frames), id), InFlight(End(s, frames), id));
      assert InFlight(s, id) + Begun(s, frames, id) == Begun(s, frames, id) by { NothingInFlight(s, id); }
    }
  }

  lemma NothingInFlight(s: Sender, id: uint32)
    requires s.pending == map[]
    ensures InFlight(s, id) == []
  {
  }

  lemma NothingLeft(st: State)
    ensures Run(st, []) == Trace([], st, [], false, st)
  {
  }

  lemma {:induction false} SchedulePush(s: Sender, frames: seq<Frame>, f: Frame)
    requires Schedule(s, frames) && Sound(s)
    ensures Sound(End(s, frames)) && (Schedule(s, frames + [f]) <==> Admissible(End(s, frames), f))
    decreases |frames|
  {
    hide Sound, Admissible, After;
    var all := frames + [f];
    if frames == [] {
      assert all[0] == f && all[1..] == [];
    } else {
      assert all[0] == frames[0] && all[1..] == frames[1..] + [f];
      SchedulePush(After(s, frames[0]), frames[1..], f);
    }
  }

  /** Which interleavings are schedules: whatever was sent so far, a message can begin on every
      stream on which all messages begun are completed, under any header that can be written
      and that means a message of the right length (and of at least four bytes, if it is of
      type 1); and a message can be gone on with on every other stream. */
  lemma ScheduleGrowsIff(size: nat, frames: seq<Frame>, f: Frame)
    requires Schedule(NewSender(size), frames)
    ensures var s := NewSender(size);
            var idle := On(Completed(s, frames), f.Id()) == Begun(s, frames, f.Id());
            Schedule(s, frames + [f]) <==>
              match f
              case Next(_) => !idle
              case First(h, data) =>
                var m := Search(End(s, frames).history, h).message;
                && idle && Canonical(h) && |data| == m.length
                && (m.typeId as int == 1 ==> |data| >= 4)
  {
    hide Search, Canonical, Completed, Begun, End, Schedule, On;
    var s := NewSender(size);
    SchedulePush(s, frames, f);
    StreamOrder(s, frames, f.Id());
    NothingInFlight(s, f.Id());
    var done, flying := On(Completed(s, frames), f.Id()), InFlight(End(s, frames), f.Id());
    assert [] + Begun(s, frames, f.Id()) == Begun(s, frames, f.Id());
    assert flying == [] ==> done + flying == done;
    assert |done + flying| == |done| + |flying|;
  }

  ghost predicate AllComplete(frames: seq<Frame>) {
    forall f :: f in frames && f.First? ==> f.header.basic.formatId == 0
  }

  lemma {:induction false} BegunAreMessages(s: Sender, frames: seq<Frame>, id: uint32)
    requires Sound(s) && Schedule(s, frames) && AllComplete(frames)
    ensures Begun(s, frames, id) == Messages(frames, id)
    decreases |frames|
  {
    hide Finished, After, Admissible, Sound;
    if frames != [] {
      assert frames[0] in frames;
      assert AllComplete(frames[1..]);
      BegunAreMessages(After(s, frames[0]), frames[1..], id);
    }
  }

  /** With complete first headers and every message finished, each stream delivers the very
      chunks that were put on it, whatever the interleaving. */
  lemma DemultiplexingOfCompleteHeaders(size: nat, frames: seq<Frame>)
    requires Schedule(NewSender(size), frames) && AllComplete(frames)
    requires End(NewSender(size), frames).pending == map[]
    ensures var t := Run(Fresh(size), WireBytes(NewSender(size), frames));
            forall id :: On(Chunks(t.events), id) == Deliverable(Messages(frames, id))
  {
    hide Run, Messages, Begun;
    var s := NewSender(size);
    Demultiplexing(size, frames);
    var t := Run(Fresh(size), WireBytes(s, frames));
    forall id ensures On(Chunks(t.events), id) == Deliverable(Messages(frames, id)) {
      BegunAreMessages(s, frames, id);
      NothingInFlight(End(s, frames), id);
      assert On(Chunks(t.events), id) + [] == On(Chunks(t.events), id);
    }
  }
}

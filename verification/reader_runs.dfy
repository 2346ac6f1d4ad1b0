/** Whole runs of the reader over arbitrary bytes: composition, conservation, and a
    specification of every event in terms of the events before it, without any state. */
module ReaderRuns {
  import opened Bytes
  import opened Wire
  import opened Normalizers
  import opened Builders
  import opened Readers

  // ----- more input never changes what was already decided -----

  lemma StepExtends(st: State, p: seq<byte>, q: seq<byte>)
    ensures var r := Step(st, p);
            && (r.Advanced? ==> Step(st, p + q) == r.(rest := r.rest + q))
            && (r.Panicked? ==> Step(st, p + q) == r)
  {
    hide ReadHeader, Fill, Finish, Extend;
    if ReadHeader(p).Got? {
      ReadHeaderExtends(p, q);
      var body := ReadHeader(p).rest;
      var b := BuilderFor(st, Fill(st.memory, ReadHeader(p).value));
      var n := Min(b.left, st.readSize);
      if 0 <= n <= |body| {
        assert (body + q)[..n] == body[..n] && (body + q)[n..] == body[n..] + q;
      }
    }
  }

  /** A run on a longer input does the same things and then goes on from where the shorter
      run stopped. */
  lemma {:induction false} RunExtends(st: State, p: seq<byte>, q: seq<byte>)
    ensures var t := Run(st, p);
            && (t.panicked ==> Run(st, p + q) == t.(rest := t.rest + q))
            && (!t.panicked ==> Run(st, p + q) == Prepend(t.events, Run(t.st, t.rest + q)))
    decreases |p|
  {
    hide Step, Prepend;
    StepExtends(st, p, q);
    var r := Step(st, p);
    match r
    case Advanced(st1, event, rest) =>
      StepShrinks(st, p);
      RunExtends(st1, rest, q);
      var t := Run(st1, rest);
      PrependFields([event], t);
      PrependFields([event], t.(rest := t.rest + q));
      if !t.panicked {
        PrependTwice([event], t.events, Run(t.st, t.rest + q));
      }
    case Starved(_) =>
      PrependTwice([], [], Run(st, p + q));
    case Panicked(_) =>
  }

  lemma PrependFields(events: seq<Event>, t: Trace)
    ensures Prepend(events, t) == Trace(events + t.events, t.st, t.rest, t.panicked, t.final)
  {
  }

  lemma StepShrinks(st: State, input: seq<byte>)
    ensures Step(st, input).Advanced? ==> |Step(st, input).rest| < |input|
  {
  }

  /** No chunk is emitted early: what a prefix of the stream yields is a prefix of what
      the stream yields. */
  lemma PrefixSafety(st: State, p: seq<byte>, q: seq<byte>)
    ensures Chunks(Run(st, p).events) <= Chunks(Run(st, p + q).events)
  {
    RunExtends(st, p, q);
    var t := Run(st, p);
    if !t.panicked {
      ChunksConcat(t.events, Run(t.st, t.rest + q).events);
    }
  }

  /** Decoding composes at every fragment boundary. */
  lemma RunComposes(st: State, p: seq<byte>, q: seq<byte>)
    requires Run(st, p).rest == [] && !Run(st, p).panicked
    ensures Run(st, p + q) == Prepend(Run(st, p).events, Run(Run(st, p).st, q))
  {
    RunExtends(st, p, q);
    assert [] + q == q;
  }

  // ----- bytes -----

  function Size(events: seq<Event>): nat {
    if events == [] then 0 else events[0].headerLength + |events[0].body| + Size(events[1..])
  }

  /** The events tile the input from its start: header `k` is what the bytes at its place
      decode to, its payload follows at once, and the next event follows that. */
  predicate Tiles(input: seq<byte>, events: seq<Event>) {
    if events == [] then true
    else
      var e := events[0];
      && 1 <= e.headerLength <= 18
      && e.headerLength + |e.body| <= |input|
      && ReadHeader(input) == Got(e.wire, input[e.headerLength..])
      && e.body == input[e.headerLength..][..|e.body|]
      && Tiles(input[e.headerLength + |e.body|..], events[1..])
  }

  lemma StepTiles(st: State, input: seq<byte>)
    ensures var p := Step(st, input);
            p.Advanced? ==>
              var e := p.event;
              && 1 <= e.headerLength <= 18
              && e.headerLength + |e.body| <= |input|
              && ReadHeader(input) == Got(e.wire, input[e.headerLength..])
              && e.body == input[e.headerLength..][..|e.body|]
              && p.rest == input[e.headerLength + |e.body|..]
  {
    hide ReadHeader, Fill, Finish, Canonical;
    var p := Step(st, input);
    if p.Advanced? {
      ReadIsCanonical(input);
    }
  }

  lemma {:induction false} RunTiles(st: State, input: seq<byte>)
    ensures var t := Run(st, input);
            && Tiles(input, t.events)
            && Size(t.events) + |t.rest| == |input|
            && t.rest == input[Size(t.events)..]
    decreases |input|
  {
    hide Step, ReadHeader;
    StepTiles(st, input);
    var p := Step(st, input);
    if p.Advanced? {
      RunTiles(p.st, p.rest);
      var t := Run(p.st, p.rest);
      assert ([p.event] + t.events)[1..] == t.events;
    }
  }

  function HeaderBytes(events: seq<Event>): nat {
    if events == [] then 0 else events[0].headerLength + HeaderBytes(events[1..])
  }

  /** The payload of messages that were completed, whether delivered or consumed. */
  function CompletedBytes(events: seq<Event>): nat {
    if events == [] then 0
    else (if events[0].Completes() then |events[0].outcome.chunk.data| else 0) + CompletedBytes(events[1..])
  }

  /** The payload waiting in the table of builders. */
  ghost function PendingBytes(builders: map<uint32, Partial>): nat {
    if builders == map[] then 0
    else
      var id :| id in builders;
      |Concat(builders[id].payloads)| + PendingBytes(builders - {id})
  }

  lemma {:induction false} PendingSplit(builders: map<uint32, Partial>, id: uint32)
    requires id in builders
    ensures PendingBytes(builders) == |Concat(builders[id].payloads)| + PendingBytes(builders - {id})
    decreases |builders|
  {
    var k :| k in builders && PendingBytes(builders) == |Concat(builders[k].payloads)| + PendingBytes(builders - {k});
    if k != id {
      PendingSplit(builders - {k}, id);
      PendingSplit(builders - {id}, k);
      assert builders - {k} - {id} == builders - {id} - {k};
    }
  }

  lemma PendingUpdate(builders: map<uint32, Partial>, id: uint32, b: Partial)
    ensures PendingBytes(builders[id := b]) == |Concat(b.payloads)| + PendingBytes(builders - {id})
  {
    PendingSplit(builders[id := b], id);
    assert builders[id := b] - {id} == builders - {id};
  }

  lemma PendingBuilder(builders: map<uint32, Partial>, id: uint32, b: Partial)
    requires if id in builders then b == builders[id] else b.payloads == []
    ensures PendingBytes(builders) == |Concat(b.payloads)| + PendingBytes(builders - {id})
  {
    if id in builders {
      PendingSplit(builders, id);
    } else {
      assert builders - {id} == builders;
    }
  }

  lemma StepConserves(st: State, input: seq<byte>)
    ensures var p := Step(st, input);
            p.Advanced? ==>
              PendingBytes(st.builders) + |p.event.body|
              == CompletedBytes([p.event]) + PendingBytes(p.st.builders)
  {
    hide ReadHeader, Fill, BigEndian32, PendingBytes, Concat;
    var p := Step(st, input);
    if p.Advanced? {
      var wire, body := ReadHeader(input).value, ReadHeader(input).rest;
      var id := wire.basic.streamId;
      FillKeepsBasic(st.memory, wire);
      var b := BuilderFor(st, Fill(st.memory, wire));
      var b1 := Extend(b, p.event.body);
      ConcatPush(b.payloads, p.event.body);
      PendingBuilder(st.builders, id, b);
      var table := st.builders[id := b];
      PendingUpdate(table, id, b1);
      assert table - {id} == st.builders - {id};
      assert [p.event][1..] == [];
    }
  }

  /** Every byte of the completed iterations is a header byte, or payload of a completed
      message, or still waits in a builder; a message that was already under construction
      when the run began brings its own bytes in. */
  lemma {:induction false} Conservation(st: State, input: seq<byte>)
    ensures var t := Run(st, input);
            |input| - |t.rest| + PendingBytes(st.builders)
            == HeaderBytes(t.events) + CompletedBytes(t.events) + PendingBytes(t.st.builders)
    decreases |input|
  {
    hide Step;
    StepConserves(st, input);
    StepTiles(st, input);
    var p := Step(st, input);
    if p.Advanced? {
      Conservation(p.st, p.rest);
      var t := Run(p.st, p.rest);
      assert ([p.event] + t.events)[1..] == t.events;
    }
  }

  // ----- type id 1, and no other, sets the read size -----

  /** What an iteration makes of a message that it completes, by the number of its type id. */
  predicate TypedEvent(e: Event) {
    && e.outcome != Overfull
    && (e.Completes() ==> (e.outcome.Resized? <==> e.outcome.chunk.header.message.typeId as int == 1))
  }

  /** The size after event `e`, byte by byte, `before` having been in force. */
  function SizeOnceCompleted(e: Event, before: int): int {
    if e.Completes() && e.outcome.chunk.header.message.typeId as int == 1 && |e.outcome.chunk.data| >= 4 then
      var data := e.outcome.chunk.data;
      data[0] as int * 16777216 + data[1] as int * 65536 + data[2] as int * 256 + data[3] as int
    else before
  }

  function SizeOnceAllCompleted(events: seq<Event>, before: int): int {
    if events == [] then before else SizeOnceAllCompleted(events[1..], SizeOnceCompleted(events[0], before))
  }

  lemma StepResizesByTypeOne(st: State, input: seq<byte>)
    ensures var p := Step(st, input);
            p.Advanced? ==> TypedEvent(p.event) && p.st.readSize == SizeOnceCompleted(p.event, st.readSize)
  {
    hide Fill, ReadHeader, Concat;
  }

  /** Over every run from any state: a completed message is consumed if and only if its type id
      is 1, none of those is delivered, and the read size changes with those only, to the
      number that their first four bytes spell. */
  lemma {:induction false} TypeOneResizes(st: State, input: seq<byte>)
    ensures var t := Run(st, input);
            && (forall e :: e in t.events ==> TypedEvent(e))
            && (forall c :: c in Chunks(t.events) ==> c.header.message.typeId as int != 1)
            && t.st.readSize == SizeOnceAllCompleted(t.events, st.readSize)
    decreases |input|
  {
    hide Step, SizeOnceCompleted;
    StepShrinks(st, input);
    StepResizesByTypeOne(st, input);
    var p := Step(st, input);
    if p.Advanced? {
      TypeOneResizes(p.st, p.rest);
      var t := Run(p.st, p.rest);
      assert ([p.event] + t.events)[1..] == t.events;
    }
  }

  // ----- what every event is, given the events before it -----

  function Wires(events: seq<Event>): seq<Header> {
    seq(|events|, i requires 0 <= i < |events| => events[i].wire)
  }

  /** The read size in force after some events: the value that the last Set Chunk Size
      message carried or, before the first one, the initial size. */
  function SizeInForce(initial: nat, events: seq<Event>): nat {
    if events == [] then initial
    else
      var last := events[|events| - 1].outcome;
      if last.Resized? && |last.chunk.data| >= 4 then BigEndian32(last.chunk.data)
      else SizeInForce(initial, events[..|events| - 1])
  }

  /** The event that began the message now in progress on stream `id`, if there is one:
      the first event on the stream after the last one that completed a message there. */
  function Opening(events: seq<Event>, id: uint32): (o: Option<nat>)
    ensures o.Some? ==> o.value < |events|
  {
    if events == [] then None
    else
      var last := |events| - 1;
      if events[last].StreamId() != id then Opening(events[..last], id)
      else if events[last].Completes() then None
      else if Opening(events[..last], id).Some? then Opening(events[..last], id)
      else Some(last)
  }

  /** The payloads that arrived on stream `id`, in order. */
  function BodiesOn(events: seq<Event>, id: uint32): seq<byte> {
    if events == [] then []
    else
      var last := |events| - 1;
      BodiesOn(events[..last], id) + if events[last].StreamId() == id then events[last].body else []
  }

  /** The message on stream `id` whose first fragment is event `j`, as far as it has come. */
  function MessageSince(events: seq<Event>, j: nat, id: uint32): Chunk
    requires j < |events|
  {
    Chunk(Search(Wires(events[..j]), events[j].wire), BodiesOn(events[j..], id))
  }

  /** The message that event `e`, coming after `past`, is a fragment of. */
  function MessageOf(past: seq<Event>, e: Event): Chunk {
    var o := Opening(past, e.StreamId());
    MessageSince(past + [e], if o.Some? then o.value else |past|, e.StreamId())
  }

  /** Event `e` is the right one after `past`: its payload is as long as the read size in
      force and the missing bytes allow, and it completes its message exactly when no byte
      is missing any more. */
  predicate Right(initial: nat, past: seq<Event>, e: Event) {
    var m := MessageOf(past, e);
    var missing := m.header.message.length - (|m.data| - |e.body|);
    && |e.body| == Min(missing, SizeInForce(initial, past))
    && (e.outcome.Resized? ==> |m.data| >= 4)
    && e.outcome == if |m.data| < m.header.message.length then Incomplete
                    else if m.TypeId() == SET_CHUNK_SIZE then Resized(m)
                    else Emitted(m)
  }

  /** Every event is the right one after `past` and the events before it. */
  predicate AllRight(initial: nat, past: seq<Event>, events: seq<Event>)
    decreases |events|
  {
    events != [] ==>
      Right(initial, past, events[0]) && AllRight(initial, past + [events[0]], events[1..])
  }

  /** The state of the reader is determined by the events so far. */
  predicate Reflects(initial: nat, st: State, past: seq<Event>) {
    && st.memory == Remember(Wires(past))
    && st.readSize == SizeInForce(initial, past)
    && (forall id :: id in st.builders <==> Opening(past, id).Some?)
    && (forall id :: id in st.builders ==> InProgress(st.builders[id], past, id))
  }

  predicate InProgress(b: Partial, past: seq<Event>, id: uint32) {
    && Opening(past, id).Some?
    && Chunk(b.header, Concat(b.payloads)) == MessageSince(past, Opening(past, id).value, id)
    && ValidPartial(b)
  }

  /** No message is in progress on stream `id`: its last event, if any, completed one. */
  predicate Idle(events: seq<Event>, id: uint32) {
    forall k :: 0 <= k < |events| && events[k].StreamId() == id && !events[k].Completes() ==>
      exists l :: k < l < |events| && events[l].StreamId() == id && events[l].Completes()
  }

  /** Event `j` begins a message on stream `id` that no later event completes. */
  predicate Begins(events: seq<Event>, j: int, id: uint32) {
    && 0 <= j < |events| && events[j].StreamId() == id
    && (forall k :: j <= k < |events| && events[k].StreamId() == id ==> !events[k].Completes())
    && Idle(events[..j], id)
  }

  lemma {:induction false} OpeningIsFirstFragment(events: seq<Event>, id: uint32)
    ensures Opening(events, id).None? <==> Idle(events, id)
    ensures Opening(events, id).Some? ==> Begins(events, Opening(events, id).value, id)
  {
    if events != [] {
      var last := |events| - 1;
      var before := events[..last];
      OpeningIsFirstFragment(before, id);
      if Opening(events, id).Some? {
        var j := Opening(events, id).value;
        assert events[..j] == before[..j];
        NotIdle(events, j, id);
      } else {
        IdlePush(events, id);
      }
    }
  }

  lemma NotIdle(events: seq<Event>, j: nat, id: uint32)
    requires j < |events| && events[j].StreamId() == id
    requires forall k :: j <= k < |events| && events[k].StreamId() == id ==> !events[k].Completes()
    ensures !Idle(events, id)
  {
  }

  lemma IdlePush(events: seq<Event>, id: uint32)
    requires events != []
    requires var last := events[|events| - 1];
             if last.StreamId() == id then last.Completes() else Idle(events[..|events| - 1], id)
    ensures Idle(events, id)
  {
    var last := |events| - 1;
    if events[last].StreamId() != id {
      forall k | 0 <= k < |events| && events[k].StreamId() == id && !events[k].Completes()
        ensures exists l :: k < l < |events| && events[l].StreamId() == id && events[l].Completes()
      {
        var before := events[..last];
        assert before[k].StreamId() == id;
        var l :| k < l < last && before[l].StreamId() == id && before[l].Completes();
        assert events[l].StreamId() == id;
      }
    }
  }

  lemma MessagePush(past: seq<Event>, e: Event, j: nat, id: uint32)
    requires j <= |past|
    requires j == |past| ==> e.StreamId() == id
    ensures MessageSince(past + [e], j, id) ==
            if j == |past| then Chunk(Search(Wires(past), e.wire), e.body)
            else
              var m := MessageSince(past, j, id);
              m.(data := m.data + if e.StreamId() == id then e.body else [])
  {
    var events := past + [e];
    assert events[..j] == past[..j];
    var tail := events[j..];
    assert tail[..|tail| - 1] == past[j..];
    assert past[..|past|] == past;
    assert BodiesOn([], id) + e.body == e.body;
  }

  lemma OpeningPush(initial: nat, past: seq<Event>, e: Event, id: uint32)
    ensures Opening(past + [e], id) ==
            if e.StreamId() != id then Opening(past, id)
            else if e.Completes() then None
            else if Opening(past, id).Some? then Opening(past, id)
            else Some(|past|)
    ensures SizeInForce(initial, past + [e]) ==
            if e.outcome.Resized? && |e.outcome.chunk.data| >= 4 then BigEndian32(e.outcome.chunk.data)
            else SizeInForce(initial, past)
    ensures Wires(past + [e]) == Wires(past) + [e.wire]
  {
    assert (past + [e])[..|past|] == past;
  }

  /** A message in progress on another stream is not touched by an event. */
  lemma OthersStay(st: State, past: seq<Event>, e: Event, id: uint32)
    requires id in st.builders && InProgress(st.builders[id], past, id) && e.StreamId() != id
    ensures InProgress(st.builders[id], past + [e], id)
  {
    hide Search, Opening, BodiesOn;
    OpeningPush(0, past, e, id);
    MessagePush(past, e, Opening(past, id).value, id);
    var m := MessageSince(past, Opening(past, id).value, id);
    assert m.data + [] == m.data;
  }

  /** The builder that takes the payload holds the message that the event belongs to. */
  lemma BuilderHoldsMessage(initial: nat, st: State, past: seq<Event>, e: Event, b: Partial)
    requires Reflects(initial, st, past)
    requires b == BuilderFor(st, Fill(st.memory, e.wire))
    ensures var b1 := Extend(b, e.body); Chunk(b1.header, Concat(b1.payloads)) == MessageOf(past, e)
    ensures |Concat(b.payloads)| + b.left == b.header.message.length
  {
    hide Search, Opening, BodiesOn, Fill;
    var id := e.StreamId();
    FillKeepsBasic(st.memory, e.wire);
    NormalizerRefinesSearch(Wires(past), e.wire);
    ConcatPush(b.payloads, e.body);
    var o := Opening(past, id);
    MessagePush(past, e, if o.Some? then o.value else |past|, id);
    if o.None? {
      assert b == Start(Search(Wires(past), e.wire));
      assert [] + e.body == e.body;
    }
  }

  /** What an iteration does to the table, the memory and the read size. */
  predicate Shape(st: State, st1: State, e: Event) {
    var h := Fill(st.memory, e.wire);
    var b := BuilderFor(st, h);
    var b1 := Extend(b, e.body);
    var m := Chunk(b1.header, Concat(b1.payloads));
    && |e.body| == Min(b.left, st.readSize)
    && st1.memory == Store(st.memory, h)
    && st1.builders == (if e.Completes() then st.builders - {e.StreamId()} else st.builders[e.StreamId() := b1])
    && (e.outcome.Resized? ==> |m.data| >= 4)
    && st1.readSize == (if e.outcome.Resized? && |m.data| >= 4 then BigEndian32(m.data) else st.readSize)
    && e.outcome == if b1.left > 0 then Incomplete
                    else if m.TypeId() == SET_CHUNK_SIZE then Resized(m)
                    else Emitted(m)
  }

  lemma StepShape(st: State, input: seq<byte>)
    ensures var p := Step(st, input); p.Advanced? ==> Shape(st, p.st, p.event)
  {
    hide Fill, ReadHeader, BigEndian32, Concat;
    var p := Step(st, input);
    if p.Advanced? {
      FillKeepsBasic(st.memory, p.event.wire);
      var id := p.event.StreamId();
      var b := BuilderFor(st, Fill(st.memory, p.event.wire));
      var table := st.builders[id := b];
      assert table - {id} == st.builders - {id};
      assert table[id := Extend(b, p.event.body)] == st.builders[id := Extend(b, p.event.body)];
    }
  }

  lemma EventIsRight(initial: nat, st: State, past: seq<Event>, input: seq<byte>)
    requires Reflects(initial, st, past)
    ensures var p := Step(st, input);
            p.Advanced? ==> Right(initial, past, p.event)
  {
    hide Step, Fill, MessageOf, BigEndian32, SizeInForce, InProgress;
    var p := Step(st, input);
    if p.Advanced? {
      StepShape(st, input);
      var b := BuilderFor(st, Fill(st.memory, p.event.wire));
      BuilderHoldsMessage(initial, st, past, p.event, b);
      ConcatPush(b.payloads, p.event.body);
    }
  }

  lemma StateReflects(initial: nat, st: State, past: seq<Event>, input: seq<byte>)
    requires Reflects(initial, st, past)
    ensures var p := Step(st, input);
            p.Advanced? ==> Reflects(initial, p.st, past + [p.event])
  {
    hide Step, Search, Opening, Fill, MessageOf, BigEndian32, InProgress, Wires, Remember, SizeInForce, Store;
    var p := Step(st, input);
    if p.Advanced? {
      var e := p.event;
      StepShape(st, input);
      NormalizerRefinesSearch(Wires(past), e.wire);
      RememberPush(Wires(past), e.wire);
      OpeningPush(initial, past, e, e.StreamId());
      forall id ensures id in p.st.builders <==> Opening(past + [e], id).Some? {
        OpeningPush(initial, past, e, id);
      }
      forall id | id in p.st.builders ensures InProgress(p.st.builders[id], past + [e], id) {
        if id != e.StreamId() {
          OthersStay(st, past, e, id);
        } else {
          var b := BuilderFor(st, Fill(st.memory, e.wire));
          BuilderHoldsMessage(initial, st, past, e, b);
          ConcatPush(b.payloads, e.body);
          StillInProgress(past, e, Extend(b, e.body));
        }
      }
    }
  }

  lemma StillInProgress(past: seq<Event>, e: Event, b: Partial)
    requires !e.Completes() && ValidPartial(b)
    requires Chunk(b.header, Concat(b.payloads)) == MessageOf(past, e)
    ensures InProgress(b, past + [e], e.StreamId())
  {
    hide Search, Opening, BodiesOn;
    OpeningPush(0, past, e, e.StreamId());
  }

  lemma {:induction false} RunIsRight(initial: nat, st: State, past: seq<Event>, input: seq<byte>)
    requires Reflects(initial, st, past)
    ensures var t := Run(st, input);
            AllRight(initial, past, t.events) && Reflects(initial, t.st, past + t.events)
    decreases |input|
  {
    hide Right, Reflects, Step;
    StepShrinks(st, input);
    EventIsRight(initial, st, past, input);
    StateReflects(initial, st, past, input);
    var p := Step(st, input);
    if p.Advanced? {
      RunIsRight(initial, p.st, past + [p.event], p.rest);
      var t := Run(p.st, p.rest);
      assert ([p.event] + t.events)[1..] == t.events;
      assert past + ([p.event] + t.events) == (past + [p.event]) + t.events;
    } else {
      assert past + [] == past;
    }
  }

  lemma BuilderForgets(st: State, h: Header, m: Memory)
    ensures BuilderFor(st.(memory := m), h) == BuilderFor(st, h)
  {
  }

  /** The right event at the start of the input is the one that the iteration produces. */
  lemma StepIsForced(initial: nat, st: State, past: seq<Event>, input: seq<byte>, e: Event)
    requires Reflects(initial, st, past) && Right(initial, past, e) && Tiles(input, [e])
    ensures var p := Step(st, input);
            p.Advanced? && p.event == e && p.rest == input[e.headerLength + |e.body|..]
  {
    hide MessageOf, BigEndian32, SizeInForce, InProgress, ReadHeader, Fill, Concat, BuilderFor, Receive;
    FillKeepsBasic(st.memory, e.wire);
    var h := Fill(st.memory, e.wire);
    var b := BuilderFor(st, h);
    assert BuilderFor(st.(memory := Store(st.memory, h)), h) == b by { BuilderForgets(st, h, Store(st.memory, h)); }
    BuilderHoldsMessage(initial, st, past, e, b);
    ConcatPush(b.payloads, e.body);
    ReceiveTakes(st.(memory := Store(st.memory, h)), h, e.wire, e.headerLength, input[e.headerLength..],
                 Extend(b, e.body));
  }

  lemma {:induction false} RunIsForced(initial: nat, st: State, past: seq<Event>, input: seq<byte>, events: seq<Event>)
    requires Reflects(initial, st, past) && Tiles(input, events) && AllRight(initial, past, events)
    ensures events <= Run(st, input).events
    decreases |events|
  {
    hide Right, Reflects, Step, ReadHeader;
    if events != [] {
      assert Tiles(input, [events[0]]);
      StepIsForced(initial, st, past, input, events[0]);
      StateReflects(initial, st, past, input);
      var p := Step(st, input);
      RunIsForced(initial, p.st, past + [p.event], p.rest, events[1..]);
      assert events == [p.event] + events[1..];
    }
  }

  lemma {:induction false} PrefixIsRight(initial: nat, past: seq<Event>, input: seq<byte>, events: seq<Event>, k: nat)
    requires k <= |events| && Tiles(input, events) && AllRight(initial, past, events)
    ensures Tiles(input, events[..k]) && AllRight(initial, past, events[..k])
    decreases k
  {
    hide Right, ReadHeader;
    if k > 0 {
      var e := events[0];
      PrefixIsRight(initial, past + [e], input[e.headerLength + |e.body|..], events[1..], k - 1);
      assert events[..k][0] == e && events[..k][1..] == events[1..][..k - 1];
    }
  }

  /** The reader as a whole: for every byte string, the events it goes through are the only
      ones that tile the input from its start and that are each the right one after those
      before it. */
  lemma ReaderSpecification(initial: nat, input: seq<byte>, events: seq<Event>)
    ensures events <= Run(Fresh(initial), input).events
       <==> Tiles(input, events) && AllRight(initial, [], events)
  {
    hide Tiles, AllRight, Run;
    var st := Fresh(initial);
    FreshReflects(initial);
    RunTiles(st, input);
    RunIsRight(initial, st, [], input);
    var all := Run(st, input).events;
    if events <= all {
      PrefixIsRight(initial, [], input, all, |events|);
      assert events == all[..|events|];
    }
    if Tiles(input, events) && AllRight(initial, [], events) {
      RunIsForced(initial, st, [], input, events);
    }
  }

  lemma FreshReflects(initial: nat)
    ensures Reflects(initial, Fresh(initial), [])
  {
  }

  /** The state between iterations is what the events so far say. In particular the read
      size is always the one that the last Set Chunk Size message carried. */
  lemma StateFromEvents(initial: nat, input: seq<byte>)
    ensures var t := Run(Fresh(initial), input);
            Reflects(initial, t.st, t.events) && t.st.readSize == SizeInForce(initial, t.events)
  {
    FreshReflects(initial);
    RunIsRight(initial, Fresh(initial), [], input);
    var t := Run(Fresh(initial), input);
    assert [] + t.events == t.events;
  }

  /** The one way for an iteration to panic: it completes a Set Chunk Size message shorter than
      four bytes. */
  lemma PanicsIffShortResize(st: State, input: seq<byte>)
    requires Valid(st)
    ensures Step(st, input).Panicked? <==>
            && ReadHeader(input).Got?
            && var b := BuilderFor(st, Fill(st.memory, ReadHeader(input).value));
            && b.left <= st.readSize && b.left <= |ReadHeader(input).rest|
            && b.header.message.typeId == SET_CHUNK_SIZE && b.header.message.length < 4
  {
    hide Fill, ReadHeader;
    if ReadHeader(input).Got? {
      var wire, body := ReadHeader(input).value, ReadHeader(input).rest;
      FillKeepsBasic(st.memory, wire);
      var b := BuilderFor(st, Fill(st.memory, wire));
      if 0 <= b.left <= |body| {
        ConcatPush(b.payloads, body[..b.left]);
      }
    }
  }

  /** A run stops at an iteration that does not complete. */
  lemma {:induction false} RunStops(st: State, input: seq<byte>)
    ensures var t := Run(st, input);
            !Step(t.st, t.rest).Advanced? && (t.panicked <==> Step(t.st, t.rest).Panicked?)
    decreases |input|
  {
    hide Step;
    StepShrinks(st, input);
    var p := Step(st, input);
    if p.Advanced? {
      RunStops(p.st, p.rest);
    }
  }

  /** What comes next in the input, after the events `past`, is a fragment with which a Set
      Chunk Size message of fewer than four bytes would be complete. */
  predicate CompletesShortResize(initial: nat, past: seq<Event>, input: seq<byte>) {
    && ReadHeader(input).Got?
    && var m := MessageOf(past, Event(ReadHeader(input).value, 0, [], Incomplete));
    && var missing := m.header.message.length - |m.data|;
    && m.TypeId() == SET_CHUNK_SIZE && m.header.message.length < 4
    && missing <= SizeInForce(initial, past) && missing <= |ReadHeader(input).rest|
  }

  /** For every input, a reader ends in a panic if and only if what follows the events of its
      run completes a Set Chunk Size message shorter than four bytes. */
  lemma PanicsIffShortMessage(initial: nat, input: seq<byte>)
    ensures var t := Run(Fresh(initial), input);
            t.panicked <==> CompletesShortResize(initial, t.events, t.rest)
  {
    hide Run, Step, ReadHeader, MessageOf, SizeInForce, Fill;
    var t := Run(Fresh(initial), input);
    RunStops(Fresh(initial), input);
    RunKeepsValid(Fresh(initial), input);
    StateFromEvents(initial, input);
    PanicsIffShortResize(t.st, t.rest);
    if ReadHeader(t.rest).Got? {
      var e := Event(ReadHeader(t.rest).value, 0, [], Incomplete);
      var b := BuilderFor(t.st, Fill(t.st.memory, e.wire));
      BuilderHoldsMessage(initial, t.st, t.events, e, b);
      ConcatPush(b.payloads, e.body);
    }
  }

  /** And it does happen, on whatever stream: such a message with a complete header that fits
      one fragment makes a new reader panic. */
  lemma ShortResizePanics(id: uint32, data: seq<byte>, initial: nat)
    requires Representable(BasicHeader(0, id)) && |data| < 4 && |data| <= initial
    ensures var h := Header(BasicHeader(0, id), MessageHeader(0, 0, false, |data|, SET_CHUNK_SIZE, 0), 0);
            Run(Fresh(initial), WriteHeader(h) + data).panicked
  {
    hide WriteHeader, ReadHeader;
    var h := Header(BasicHeader(0, id), MessageHeader(0, 0, false, |data|, SET_CHUNK_SIZE, 0), 0);
    HeaderRoundTrip(h, data);
    PanicsIffShortResize(Fresh(initial), WriteHeader(h) + data);
  }

  // ----- the wire cannot announce more than 24 bits of length -----

  predicate ShortHeader(h: Header) {
    h.message.length <= 0xffffff
  }

  predicate OnlyShort(st: State) {
    && (st.memory.last.Some? ==> ShortHeader(st.memory.last.value))
    && (forall id :: id in st.memory.headers ==> ShortHeader(st.memory.headers[id]))
    && (forall id :: id in st.builders ==> ShortHeader(st.builders[id].header))
  }

  lemma StepKeepsShort(st: State, input: seq<byte>)
    requires OnlyShort(st)
    ensures var p := Step(st, input);
            p.Advanced? ==> OnlyShort(p.st) && (p.event.Completes() ==> ShortHeader(p.event.outcome.chunk.header))
  {
    hide ReadHeader, Canonical, Fill, Concat, BigEndian32, ShortHeader;
    if ReadHeader(input).Got? {
      ReadIsCanonical(input);
      FillKeepsShort(st, ReadHeader(input).value);
    }
  }

  lemma FillKeepsShort(st: State, h: Header)
    requires OnlyShort(st) && Canonical(h)
    ensures ShortHeader(Fill(st.memory, h))
  {
  }

  lemma {:induction false} EmittedAreShort(st: State, input: seq<byte>)
    requires OnlyShort(st)
    ensures forall c :: c in Chunks(Run(st, input).events) ==> ShortHeader(c.header)
    decreases |input|
  {
    hide Step, ShortHeader, OnlyShort;
    StepKeepsShort(st, input);
    StepShrinks(st, input);
    var p := Step(st, input);
    if p.Advanced? {
      EmittedAreShort(p.st, p.rest);
      var t := Run(p.st, p.rest);
      assert ([p.event] + t.events)[1..] == t.events;
    }
  }
}

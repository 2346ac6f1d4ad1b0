/** Fan-out and fan-in as a step relation (Parser.Recv of chunk/parser.go and the forwarder
    goroutines and AwaitClose of chunk/multi_stream.go). The channels are unbuffered, so a
    chunk between two channels is in the hands of exactly one goroutine: the parser, or the
    forwarder of its stream. Every interleaving of the goroutines is a list of actions. */
module Routing {
  import opened Bytes
  import opened Wire
  import opened Multiplexing

  /** A stream of the table, and what was received from it without a forwarder. */
  datatype StreamState = StreamState(closed: bool, taken: seq<Chunk>)

  /** A live forwarder goroutine, with the chunk it has received and not yet sent. */
  datatype Forwarder = Forwarder(multi: nat, held: Option<Chunk>)

  /** A multi stream: the count of its wait group, what came out of its channel, whether it is
      closed, and where the callers of AwaitClose are: asleep in the wait, on a positive count;
      woken, because the count came down to zero, but not yet running again; or past the wait
      and about to close the channel. */
  datatype Multi = Multi(count: nat, out: seq<Chunk>, asleep: nat, woken: nat, passed: nat, closed: bool) {
    function Closers(): nat { passed + if closed then 1 else 0 }
    function Callers(): nat { asleep + woken + Closers() }
    predicate Late() { passed > 0 || closed }

    /** A forwarder is done: the last one wakes all callers. */
    function Done(): Multi {
      if count <= 1 then this.(count := 0, asleep := 0, woken := woken + asleep) else this.(count := count - 1)
    }

    /** A caller of AwaitClose: there is nothing to wait for if the count is zero. */
    function Called(): Multi {
      if count == 0 then this.(passed := passed + 1) else this.(asleep := asleep + 1)
    }
  }

  datatype State = State(
    emitted: seq<Chunk>,                // everything the reader has handed over
    running: bool,                      // the parser's receive loop
    held: Option<Chunk>,                // the chunk it is about to send
    streams: map<uint32, StreamState>,
    feeds: map<uint32, nat>,            // the multi stream that a stream was appended to
    forwarders: map<uint32, Forwarder>, // the live ones, by the stream they range over
    multis: seq<Multi>)

  datatype Action =
    | RequestOne(id: uint32)            // Parser.Stream(id)
    | RequestMany(ids: set<uint32>)     // Parser.Stream of several new, distinct ids
    | NewMulti                          // NewMultiStream
    | Append(id: uint32, m: nat)        // MultiStream.Append of a stream from the table
    | Receive(chunk: Chunk)             // reader to parser
    | SendToForwarder                   // parser to the forwarder of the chunk's stream
    | SendDirect                        // parser to a receiver of the stream itself
    | Forward(id: uint32)               // forwarder to the receiver of the multi stream
    | Exit(id: uint32)                  // a forwarder sees its stream closed, and is done
    | CloseParser
    | Await(m: nat)                     // AwaitClose is called
    | Release(m: nat)                   // the wait of a woken caller returns
    | CloseOut(m: nat)                  // that caller closes the channel

  const INIT := State([], true, None, map[], map[], map[], [])
  const NEW_STREAM := StreamState(false, [])

  predicate Enabled(s: State, a: Action) {
    match a
    case RequestOne(_) => true
    case RequestMany(ids) => |ids| >= 2 && forall id :: id in ids ==> id !in s.streams
    case NewMulti => true
    case Append(id, m) => id in s.streams && id !in s.feeds && m < |s.multis|
    case Receive(_) => s.running && s.held == None
    case SendToForwarder =>
      && s.held.Some? && s.held.value.StreamId() in s.forwarders
      && s.forwarders[s.held.value.StreamId()].held == None
    case SendDirect =>
      s.held.Some? && s.held.value.StreamId() in s.streams && s.held.value.StreamId() !in s.feeds
    case Forward(id) =>
      && id in s.forwarders && s.forwarders[id].held.Some?
      && s.forwarders[id].multi < |s.multis| && !s.multis[s.forwarders[id].multi].closed
    case Exit(id) =>
      && id in s.forwarders && s.forwarders[id].held == None && id in s.streams && s.streams[id].closed
      && s.forwarders[id].multi < |s.multis| && s.multis[s.forwarders[id].multi].count > 0
    case CloseParser => s.running && s.held == None
    case Await(m) => m < |s.multis|
    case Release(m) => m < |s.multis| && s.multis[m].woken > 0 && s.multis[m].count == 0
    case CloseOut(m) => m < |s.multis| && s.multis[m].passed > 0 && !s.multis[m].closed
  }

  function NewMultiOf(count: nat): Multi {
    Multi(count, [], 0, 0, 0, false)
  }

  function Same<T>(ids: set<uint32>, x: T): map<uint32, T> {
    map id | id in ids :: x
  }

  function Close(streams: map<uint32, StreamState>): map<uint32, StreamState> {
    map id | id in streams :: streams[id].(closed := true)
  }

  function WithStream(s: State, id: uint32): State {
    if id in s.streams then s else s.(streams := s.streams[id := NEW_STREAM])
  }

  function WithMulti(s: State, m: nat, x: Multi): State
    requires m < |s.multis|
  {
    s.(multis := s.multis[m := x])
  }

  function Apply(s: State, a: Action): State
    requires Enabled(s, a)
  {
    match a
    case RequestOne(id) => WithStream(s, id)
    case RequestMany(ids) =>
      var m := |s.multis|;
      s.(streams := s.streams + Same(ids, NEW_STREAM),
         feeds := s.feeds + Same(ids, m),
         forwarders := s.forwarders + Same(ids, Forwarder(m, None)),
         multis := s.multis + [NewMultiOf(|ids|)])
    case NewMulti => s.(multis := s.multis + [NewMultiOf(0)])
    case Append(id, m) =>
      WithMulti(s, m, s.multis[m].(count := s.multis[m].count + 1))
      .(feeds := s.feeds[id := m], forwarders := s.forwarders[id := Forwarder(m, None)])
    case Receive(c) =>
      WithStream(s, c.StreamId()).(emitted := s.emitted + [c], held := Some(c))
    case SendToForwarder =>
      var id := s.held.value.StreamId();
      s.(held := None, forwarders := s.forwarders[id := s.forwarders[id].(held := s.held)])
    case SendDirect =>
      var id := s.held.value.StreamId();
      s.(held := None, streams := s.streams[id := s.streams[id].(taken := s.streams[id].taken + [s.held.value])])
    case Forward(id) =>
      var f := s.forwarders[id];
      WithMulti(s, f.multi, s.multis[f.multi].(out := s.multis[f.multi].out + [f.held.value]))
      .(forwarders := s.forwarders[id := f.(held := None)])
    case Exit(id) =>
      var m := s.forwarders[id].multi;
      WithMulti(s, m, s.multis[m].Done()).(forwarders := s.forwarders - {id})
    case CloseParser =>
      s.(running := false, streams := Close(s.streams))
    case Await(m) => WithMulti(s, m, s.multis[m].Called())
    case Release(m) =>
      WithMulti(s, m, s.multis[m].(woken := s.multis[m].woken - 1, passed := s.multis[m].passed + 1))
    case CloseOut(m) => WithMulti(s, m, s.multis[m].(passed := s.multis[m].passed - 1, closed := true))
  }

  ghost predicate Possible(s: State, actions: seq<Action>)
    decreases |actions|
  {
    actions != [] ==> Enabled(s, actions[0]) && Possible(Apply(s, actions[0]), actions[1..])
  }

  function Perform(s: State, actions: seq<Action>): State
    requires Possible(s, actions)
    decreases |actions|
  {
    if actions == [] then s else Perform(Apply(s, actions[0]), actions[1..])
  }

  // ----- what an action does to each table -----

  lemma FeedsAfter(s: State, a: Action)
    requires Enabled(s, a)
    ensures Apply(s, a).feeds ==
            match a {
              case Append(id, m) => s.feeds[id := m]
              case RequestMany(ids) => s.feeds + Same(ids, |s.multis|)
              case _ => s.feeds
            }
  {
    hide Same, Close;
  }

  lemma StreamsAfter(s: State, a: Action)
    requires Enabled(s, a)
    ensures Apply(s, a).running == (s.running && !a.CloseParser?)
    ensures Apply(s, a).streams ==
            match a {
              case RequestOne(id) => WithStream(s, id).streams
              case RequestMany(ids) => s.streams + Same(ids, NEW_STREAM)
              case Receive(c) => WithStream(s, c.StreamId()).streams
              case SendDirect =>
                var id := s.held.value.StreamId();
                s.streams[id := s.streams[id].(taken := s.streams[id].taken + [s.held.value])]
              case CloseParser => Close(s.streams)
              case _ => s.streams
            }
  {
    hide Same, Close;
  }

  lemma HeldAfter(s: State, a: Action)
    requires Enabled(s, a)
    ensures Apply(s, a).held ==
            match a {
              case Receive(c) => Some(c)
              case SendToForwarder => None
              case SendDirect => None
              case _ => s.held
            }
    ensures Apply(s, a).emitted == if a.Receive? then s.emitted + [a.chunk] else s.emitted
  {
    hide Same, Close;
  }

  lemma ForwardersAfter(s: State, a: Action)
    requires Enabled(s, a)
    ensures Apply(s, a).forwarders ==
            match a {
              case Append(id, m) => s.forwarders[id := Forwarder(m, None)]
              case RequestMany(ids) => s.forwarders + Same(ids, Forwarder(|s.multis|, None))
              case SendToForwarder =>
                var id := s.held.value.StreamId();
                s.forwarders[id := s.forwarders[id].(held := s.held)]
              case Forward(id) => s.forwarders[id := s.forwarders[id].(held := None)]
              case Exit(id) => s.forwarders - {id}
              case _ => s.forwarders
            }
  {
    hide Same, Close;
  }

  lemma MultisAfter(s: State, a: Action)
    requires Enabled(s, a)
    ensures |Apply(s, a).multis| == |s.multis| + if a.NewMulti? || a.RequestMany? then 1 else 0
    ensures a.NewMulti? ==> Apply(s, a).multis[|s.multis|] == NewMultiOf(0)
    ensures a.RequestMany? ==> Apply(s, a).multis[|s.multis|] == NewMultiOf(|a.ids|)
  {
    hide Same, Close;
  }

  lemma MultiAfter(s: State, a: Action, m: nat)
    requires Enabled(s, a) && m < |s.multis|
    ensures m < |Apply(s, a).multis|
    ensures var x := s.multis[m];
            Apply(s, a).multis[m] ==
            match a {
              case Append(_, k) => if k == m then x.(count := x.count + 1) else x
              case Forward(id) =>
                if s.forwarders[id].multi == m then x.(out := x.out + [s.forwarders[id].held.value]) else x
              case Exit(id) => if s.forwarders[id].multi == m then x.Done() else x
              case Await(k) => if k == m then x.Called() else x
              case Release(k) => if k == m then x.(woken := x.woken - 1, passed := x.passed + 1) else x
              case CloseOut(k) => if k == m then x.(passed := x.passed - 1, closed := true) else x
              case _ => x
            }
  {
    hide Same, Close;
  }

  // ----- no loss, no duplication, order kept -----

  function Taken(s: State, id: uint32): seq<Chunk> {
    if id in s.streams then s.streams[id].taken else []
  }

  function CameOut(s: State, id: uint32): seq<Chunk> {
    if id in s.feeds && s.feeds[id] < |s.multis| then On(s.multis[s.feeds[id]].out, id) else []
  }

  function InForwarder(s: State, id: uint32): seq<Chunk> {
    if id in s.forwarders && s.forwarders[id].held.Some? then [s.forwarders[id].held.value] else []
  }

  function InParser(s: State, id: uint32): seq<Chunk> {
    if s.held.Some? && s.held.value.StreamId() == id then [s.held.value] else []
  }

  /** What the reader emitted on a stream is what was taken from the stream directly (before
      it was appended anywhere), then what came out of its multi stream, then at most one
      chunk in its forwarder, then at most one in the parser. */
  predicate Conserved(s: State, id: uint32) {
    On(s.emitted, id) == Taken(s, id) + CameOut(s, id) + InForwarder(s, id) + InParser(s, id)
  }

  /** The tables fit together. */
  predicate Consistent(s: State) {
    && s.feeds.Keys <= s.streams.Keys
    && (forall id :: id in s.feeds ==> s.feeds[id] < |s.multis|)
    && ForwardersFit(s)
    && (s.held.Some? ==> s.running && s.held.value.StreamId() in s.streams)
    && (forall m :: 0 <= m < |s.multis| ==> Owned(s, m))
  }

  predicate ForwardersFit(s: State) {
    forall id :: id in s.forwarders ==>
      && id in s.feeds && s.forwarders[id].multi == s.feeds[id]
      && (s.forwarders[id].held.Some? ==> s.forwarders[id].held.value.StreamId() == id)
  }

  /** What came out of a multi stream came from the streams appended to it. */
  predicate Owned(s: State, m: nat)
    requires m < |s.multis|
  {
    forall c :: c in s.multis[m].out ==> c.StreamId() in s.feeds && s.feeds[c.StreamId()] == m
  }

  lemma OnPush(chunks: seq<Chunk>, c: Chunk, id: uint32)
    ensures On(chunks + [c], id) == On(chunks, id) + if c.StreamId() == id then [c] else []
  {
    OnConcat(chunks, [c], id);
    OnOne(c, id);
  }

  lemma {:induction false} NothingOn(chunks: seq<Chunk>, id: uint32)
    requires forall c :: c in chunks ==> c.StreamId() != id
    ensures On(chunks, id) == []
  {
    if chunks != [] {
      NothingOn(chunks[1..], id);
    }
  }

  lemma StaysOwned(s: State, a: Action, m: nat)
    requires Consistent(s) && Enabled(s, a) && m < |Apply(s, a).multis|
    ensures Owned(Apply(s, a), m)
  {
    hide On, Apply;
    FeedsAfter(s, a);
    MultisAfter(s, a);
    if m < |s.multis| {
      MultiAfter(s, a, m);
      assert Owned(s, m);
    }
  }

  lemma ForwardersStayFit(s: State, a: Action)
    requires Consistent(s) && Enabled(s, a)
    ensures ForwardersFit(Apply(s, a))
  {
    hide On, Owned, Apply;
    FeedsAfter(s, a);
    ForwardersAfter(s, a);
  }

  lemma StaysConsistent(s: State, a: Action)
    requires Consistent(s) && Enabled(s, a)
    ensures Consistent(Apply(s, a))
  {
    hide On, Owned, Apply, ForwardersFit;
    FeedsAfter(s, a);
    StreamsAfter(s, a);
    HeldAfter(s, a);
    MultisAfter(s, a);
    ForwardersStayFit(s, a);
    forall m | 0 <= m < |Apply(s, a).multis| ensures Owned(Apply(s, a), m) {
      StaysOwned(s, a, m);
    }
  }

  /** The four parts of a stream's history after an action. */
  predicate Parts(s: State, id: uint32, taken: seq<Chunk>, out: seq<Chunk>, forwarded: seq<Chunk>, parsed: seq<Chunk>) {
    Taken(s, id) == taken && CameOut(s, id) == out && InForwarder(s, id) == forwarded && InParser(s, id) == parsed
  }

  lemma ReceiveKeeps(s: State, c: Chunk, id: uint32)
    requires Consistent(s) && Enabled(s, Receive(c)) && Conserved(s, id)
    ensures Conserved(Apply(s, Receive(c)), id)
  {
    hide On;
    var t := Apply(s, Receive(c));
    OnPush(s.emitted, c, id);
    assert Parts(t, id, Taken(s, id), CameOut(s, id), InForwarder(s, id), InParser(t, id));
    assert InParser(s, id) == [];
  }

  lemma SendKeeps(s: State, a: Action, id: uint32)
    requires Consistent(s) && Enabled(s, a) && Conserved(s, id) && (a.SendToForwarder? || a.SendDirect?)
    ensures Conserved(Apply(s, a), id)
  {
    hide On;
    var t := Apply(s, a);
    var taken, out, forwarded := Taken(s, id), CameOut(s, id), InForwarder(s, id);
    var c := s.held.value;
    assert InParser(t, id) == [];
    if c.StreamId() != id {
      assert Parts(t, id, taken, out, forwarded, []) && InParser(s, id) == [];
    } else if a.SendToForwarder? {
      assert Parts(t, id, taken, out, [c], []) && forwarded == [];
      assert taken + out + [] + [c] == taken + out + [c] + [];
    } else {
      assert Parts(t, id, taken + [c], [], [], []) && out == [] && forwarded == [];
      assert taken + [] + [] + [c] == (taken + [c]) + [] + [] + [];
    }
  }

  lemma ForwardKeeps(s: State, k: uint32, id: uint32)
    requires Consistent(s) && Enabled(s, Forward(k)) && Conserved(s, id)
    ensures Conserved(Apply(s, Forward(k)), id)
  {
    hide On;
    var t := Apply(s, Forward(k));
    var taken, out, forwarded, parsed := Taken(s, id), CameOut(s, id), InForwarder(s, id), InParser(s, id);
    var f := s.forwarders[k];
    OnPush(s.multis[f.multi].out, f.held.value, id);
    if k == id {
      assert Parts(t, id, taken, out + forwarded, [], parsed);
      assert taken + (out + forwarded) + [] + parsed == taken + out + forwarded + parsed;
    } else {
      assert out + [] == out;
      assert Parts(t, id, taken, out, forwarded, parsed);
    }
  }

  lemma AppendKeeps(s: State, a: Action, id: uint32)
    requires Consistent(s) && Enabled(s, a) && Conserved(s, id) && (a.Append? || a.RequestMany?)
    ensures Conserved(Apply(s, a), id)
  {
    hide On, Apply;
    FeedsAfter(s, a);
    StreamsAfter(s, a);
    HeldAfter(s, a);
    ForwardersAfter(s, a);
    MultisAfter(s, a);
    if id in s.feeds { MultiAfter(s, a, s.feeds[id]); }
    if a.Append? { MultiAfter(s, a, a.m); }
    var t := Apply(s, a);
    assert CameOut(t, id) == CameOut(s, id) by {
      if a.Append? && a.id == id {
        assert Owned(s, a.m);
        NothingOn(s.multis[a.m].out, id);
      } else if a.RequestMany? && id in a.ids {
        NothingOn([], id);
      }
    }
    assert Parts(t, id, Taken(s, id), CameOut(s, id), InForwarder(s, id), InParser(s, id));
  }

  lemma StaysConserved(s: State, a: Action, id: uint32)
    requires Consistent(s) && Enabled(s, a) && Conserved(s, id)
    ensures Conserved(Apply(s, a), id)
  {
    hide On, Conserved;
    match a
    case Receive(c) => ReceiveKeeps(s, c, id);
    case SendToForwarder => SendKeeps(s, a, id);
    case SendDirect => SendKeeps(s, a, id);
    case Forward(k) => ForwardKeeps(s, k, id);
    case Append(_, _) => AppendKeeps(s, a, id);
    case RequestMany(_) => AppendKeeps(s, a, id);
    case _ => OthersKeep(s, a, id);
  }

  lemma OthersKeep(s: State, a: Action, id: uint32)
    requires Consistent(s) && Enabled(s, a) && Conserved(s, id)
    requires !(a.Receive? || a.SendToForwarder? || a.SendDirect? || a.Forward? || a.Append? || a.RequestMany?)
    ensures Conserved(Apply(s, a), id)
  {
    hide On, Owned, Apply;
    FeedsAfter(s, a);
    StreamsAfter(s, a);
    HeldAfter(s, a);
    ForwardersAfter(s, a);
    if id in s.feeds {
      MultiAfter(s, a, s.feeds[id]);
    }
    assert Parts(Apply(s, a), id, Taken(s, id), CameOut(s, id), InForwarder(s, id), InParser(s, id));
  }

  // ----- the wait group and the close of a multi stream -----

  function Feeding(s: State, m: nat): set<uint32> {
    set id | id in s.forwarders && s.forwarders[id].multi == m
  }

  /** The count of the wait group is the number of live forwarders, and nobody sleeps on a
      count of zero. */
  predicate Counted(s: State) {
    forall m :: 0 <= m < |s.multis| ==> CountedAt(s, m)
  }

  predicate CountedAt(s: State, m: nat)
    requires m < |s.multis|
  {
    s.multis[m].count == |Feeding(s, m)| && (s.multis[m].asleep > 0 ==> s.multis[m].count > 0)
  }

  lemma FeedingAfter(s: State, a: Action, m: nat)
    requires Consistent(s) && Enabled(s, a) && m < |s.multis|
    ensures Feeding(Apply(s, a), m) ==
            match a {
              case Append(id, k) => Feeding(s, m) + if k == m then {id} else {}
              case Exit(id) => Feeding(s, m) - {id}
              case _ => Feeding(s, m)
            }
  {
    hide On, Owned;
    hide Apply;
    ForwardersAfter(s, a);
  }

  lemma StaysCountedAt(s: State, a: Action, m: nat)
    requires m < |s.multis| && Consistent(s) && CountedAt(s, m) && Enabled(s, a)
    ensures CountedAt(Apply(s, a), m)
  {
    hide On, Owned, Feeding, Apply;
    MultiAfter(s, a, m);
    FeedingAfter(s, a, m);
    assert a.Exit? ==> (s.forwarders[a.id].multi == m <==> a.id in Feeding(s, m)) by { FeedingMeans(s, m); }
    assert a.Append? ==> a.id !in Feeding(s, m) by { FeedingMeans(s, m); }
  }

  lemma FeedingMeans(s: State, m: nat)
    ensures forall id :: id in Feeding(s, m) <==> id in s.forwarders && s.forwarders[id].multi == m
  {
  }

  lemma FedIsCounted(s: State, id: uint32)
    requires Consistent(s) && Counted(s) && id in s.forwarders
    ensures s.multis[s.forwarders[id].multi].count > 0
  {
    hide Owned;
    assert CountedAt(s, s.forwarders[id].multi);
    assert id in Feeding(s, s.forwarders[id].multi);
  }

  lemma NewIsCounted(s: State, a: Action, m: nat)
    requires Consistent(s) && Enabled(s, a) && m == |s.multis| < |Apply(s, a).multis|
    ensures CountedAt(Apply(s, a), m)
  {
    hide On, Owned, Apply;
    ForwardersAfter(s, a);
    MultisAfter(s, a);
    assert Feeding(Apply(s, a), m) == if a.RequestMany? then a.ids else {};
  }

  /** A stream without a live forwarder, once appended, is closed and its forwarder gone; and
      closed streams mean that the parser has stopped. */
  predicate Drained(s: State) {
    && (forall id :: id in s.feeds && id !in s.forwarders && id in s.streams ==> s.streams[id].closed)
    && (forall id :: id in s.streams && s.streams[id].closed ==> !s.running)
  }

  lemma StaysDrained(s: State, a: Action)
    requires Consistent(s) && Drained(s) && Enabled(s, a)
    ensures Consistent(Apply(s, a)) && Drained(Apply(s, a))
  {
    hide On, Owned, Apply;
    StaysConsistent(s, a);
    FeedsAfter(s, a);
    StreamsAfter(s, a);
    HeldAfter(s, a);
    ForwardersAfter(s, a);
  }

  ghost predicate Invariant(s: State) {
    Consistent(s) && Counted(s) && Drained(s) && forall id :: Conserved(s, id)
  }

  lemma StaysInvariant(s: State, a: Action)
    requires Invariant(s) && Enabled(s, a)
    ensures Invariant(Apply(s, a))
  {
    hide Conserved, CountedAt, Consistent, Drained;
    StaysDrained(s, a);
    forall m | 0 <= m < |Apply(s, a).multis| ensures CountedAt(Apply(s, a), m) {
      if m < |s.multis| {
        StaysCountedAt(s, a, m);
      } else {
        assert m == |s.multis|;
        NewIsCounted(s, a, m);
      }
    }
    forall id ensures Conserved(Apply(s, a), id) {
      StaysConserved(s, a, id);
    }
  }

  lemma {:induction false} AlwaysInvariant(s: State, actions: seq<Action>)
    requires Invariant(s) && Possible(s, actions)
    ensures Invariant(Perform(s, actions))
    decreases |actions|
  {
    hide Invariant, Enabled, Apply;
    if actions != [] {
      StaysInvariant(s, actions[0]);
      AlwaysInvariant(Apply(s, actions[0]), actions[1..]);
    }
  }

  lemma InitIsInvariant()
    ensures Invariant(INIT)
  {
  }

  /** Routing. In every reachable state, for every chunk stream, nothing that the reader
      emitted is lost, duplicated or reordered, and the wait group of every multi stream
      counts exactly its live forwarders. */
  lemma RoutingIsSafe(actions: seq<Action>)
    requires Possible(INIT, actions)
    ensures var s := Perform(INIT, actions);
            && (forall id :: Conserved(s, id))
            && (forall m :: 0 <= m < |s.multis| ==> CountedAt(s, m))
  {
    hide Conserved, CountedAt;
    InitIsInvariant();
    AlwaysInvariant(INIT, actions);
  }

  // ----- what can be asked for, by what was asked for before -----

  /** The action brings stream `id` into being, if it does not exist. */
  predicate Touches(a: Action, id: uint32) {
    (a.RequestOne? && a.id == id) || (a.RequestMany? && id in a.ids) || (a.Receive? && a.chunk.StreamId() == id)
  }

  /** The action gives stream `id` to a multi stream. */
  predicate Joins(a: Action, id: uint32) {
    (a.Append? && a.id == id) || (a.RequestMany? && id in a.ids)
  }

  /** The number of multi streams that the actions make. */
  function Multis(actions: seq<Action>): nat {
    if actions == [] then 0
    else (if actions[0].NewMulti? || actions[0].RequestMany? then 1 else 0) + Multis(actions[1..])
  }

  lemma TablesAfter(s: State, a: Action, id: uint32)
    requires Enabled(s, a)
    ensures var t := Apply(s, a);
            && (id in t.streams <==> id in s.streams || Touches(a, id))
            && (id in t.feeds <==> id in s.feeds || Joins(a, id))
            && (t.running <==> s.running && !a.CloseParser?)
            && |t.multis| == |s.multis| + Multis([a])
  {
    hide Apply;
    FeedsAfter(s, a);
    StreamsAfter(s, a);
    MultisAfter(s, a);
    assert [a][1..] == [];
  }

  lemma {:induction false} TablesFromActions(s: State, actions: seq<Action>, id: uint32)
    requires Possible(s, actions)
    ensures var t := Perform(s, actions);
            && (id in t.streams <==> id in s.streams || exists a :: a in actions && Touches(a, id))
            && (id in t.feeds <==> id in s.feeds || exists a :: a in actions && Joins(a, id))
            && (t.running <==> s.running && CloseParser !in actions)
            && |t.multis| == |s.multis| + Multis(actions)
    decreases |actions|
  {
    hide Enabled, Apply, Touches, Joins;
    if actions != [] {
      var first, rest := actions[0], actions[1..];
      TablesAfter(s, first, id);
      TablesFromActions(Apply(s, first), rest, id);
      assert forall a :: a in actions <==> a == first || a in rest;
      assert [first][0] == first && [first][1..] == [];
    }
  }

  /** What a caller can do, from every reachable state: one stream can always be requested, and
      a multi stream always be made; several streams can be requested at once exactly when
      none of them was requested or received on before; a stream can be appended exactly when
      it exists and was not given to a multi stream; and AwaitClose can be called at any time. */
  lemma RequestsPossibleIff(actions: seq<Action>, id: uint32, ids: set<uint32>, m: nat)
    requires Possible(INIT, actions)
    ensures var s := Perform(INIT, actions);
            && Enabled(s, RequestOne(id)) && Enabled(s, NewMulti)
            && (Enabled(s, RequestMany(ids)) <==>
                  |ids| >= 2 && forall a, k :: a in actions && k in ids ==> !Touches(a, k))
            && (Enabled(s, Append(id, m)) <==>
                  && (exists a :: a in actions && Touches(a, id)) && (forall a :: a in actions ==> !Joins(a, id))
                  && m < Multis(actions))
            && (Enabled(s, Await(m)) <==> m < Multis(actions))
  {
    hide Apply, Touches, Joins;
    TablesFromActions(INIT, actions, id);
    forall k | k in ids ensures k in Perform(INIT, actions).streams <==> exists a :: a in actions && Touches(a, k) {
      TablesFromActions(INIT, actions, k);
    }
  }

  /** What the parser can do, from every reachable state: it receives and stops when it is
      running and idle; what it has received it can hand on whenever the forwarder is free or
      there never was one, so it never waits for a forwarder that is gone. */
  lemma ParserStepsIff(actions: seq<Action>, c: Chunk)
    requires Possible(INIT, actions)
    ensures var s := Perform(INIT, actions);
            && (Enabled(s, Receive(c)) <==> CloseParser !in actions && s.held == None)
            && (Enabled(s, CloseParser) <==> CloseParser !in actions && s.held == None)
            && (Enabled(s, SendDirect) <==>
                  s.held.Some? && forall a :: a in actions ==> !Joins(a, s.held.value.StreamId()))
            && (Enabled(s, SendToForwarder) <==>
                  && s.held.Some? && InForwarder(s, s.held.value.StreamId()) == []
                  && exists a :: a in actions && Joins(a, s.held.value.StreamId()))
  {
    hide Possible, Perform, Apply, Joins, Touches, On, Owned, Conserved, CountedAt;
    var s := Perform(INIT, actions);
    InitIsInvariant();
    AlwaysInvariant(INIT, actions);
    TablesFromActions(INIT, actions, if s.held.Some? then s.held.value.StreamId() else 0);
  }

  /** And a forwarder can always hand on what it has, unless the channel is closed, and come to
      its end when its stream is closed and nothing is left. */
  lemma ForwarderStepsIff(actions: seq<Action>, id: uint32)
    requires Possible(INIT, actions)
    ensures var s := Perform(INIT, actions);
            && (Enabled(s, Forward(id)) <==>
                  && InForwarder(s, id) != [] && id in s.feeds
                  && s.feeds[id] < |s.multis| && !s.multis[s.feeds[id]].closed)
            && (Enabled(s, Exit(id)) <==>
                  id in s.forwarders && InForwarder(s, id) == [] && id in s.streams && s.streams[id].closed)
  {
    hide Possible, Perform, Apply, On, Owned, Conserved, CountedAt;
    var s := Perform(INIT, actions);
    InitIsInvariant();
    AlwaysInvariant(INIT, actions);
    if id in s.forwarders {
      FedIsCounted(s, id);
    }
  }

  /** A stream is closed by the parser when it stops, if it exists by then, and stays so. */
  lemma ClosedAfter(s: State, a: Action, id: uint32)
    requires Enabled(s, a)
    ensures var t := Apply(s, a);
            (id in t.streams && t.streams[id].closed)
            <==> id in s.streams && (s.streams[id].closed || a.CloseParser?)
  {
    hide Apply;
    StreamsAfter(s, a);
  }

  /** While the parser runs and is idle, a chunk on a stream of an open multi stream can be
      brought to the receiver, after the one that its forwarder may hold. */
  lemma DeliveryPossible(actions: seq<Action>, c: Chunk) returns (more: seq<Action>)
    requires Possible(INIT, actions) && CloseParser !in actions && Perform(INIT, actions).held == None
    requires c.StreamId() in Perform(INIT, actions).feeds
    requires var s := Perform(INIT, actions);
             s.feeds[c.StreamId()] < |s.multis| && !s.multis[s.feeds[c.StreamId()]].closed
    ensures Possible(Perform(INIT, actions), more)
    ensures var s, t := Perform(INIT, actions), Perform(Perform(INIT, actions), more);
            var m := s.feeds[c.StreamId()];
            m < |t.multis| && t.multis[m].out == s.multis[m].out + InForwarder(s, c.StreamId()) + [c]
  {
    hide On, Owned, Conserved, Possible, Perform;
    var s, id := Perform(INIT, actions), c.StreamId();
    InitIsInvariant();
    AlwaysInvariant(INIT, actions);
    TablesFromActions(INIT, actions, id);
    if s.forwarders[id].held.Some? {
      var t := Apply(s, Forward(id));
      more := [Forward(id)] + [Receive(c), SendToForwarder, Forward(id)];
      IdleDelivers(t, c);
      FirstThen(s, Forward(id), [Receive(c), SendToForwarder, Forward(id)]);
    } else {
      more := [Receive(c), SendToForwarder, Forward(id)];
      IdleDelivers(s, c);
    }
  }

  lemma FirstThen(s: State, a: Action, rest: seq<Action>)
    requires Enabled(s, a) && Possible(Apply(s, a), rest)
    ensures Possible(s, [a] + rest) && Perform(s, [a] + rest) == Perform(Apply(s, a), rest)
  {
    assert ([a] + rest)[1..] == rest;
  }

  lemma IdleDelivers(s: State, c: Chunk)
    requires s.running && s.held == None && c.StreamId() in s.streams
    requires c.StreamId() in s.forwarders && s.forwarders[c.StreamId()].held == None
    requires s.forwarders[c.StreamId()].multi < |s.multis| && !s.multis[s.forwarders[c.StreamId()].multi].closed
    ensures var actions := [Receive(c), SendToForwarder, Forward(c.StreamId())];
            var m := s.forwarders[c.StreamId()].multi;
            && Possible(s, actions) && m < |Perform(s, actions).multis|
            && Perform(s, actions).multis[m].out == s.multis[m].out + [c]
  {
    var id := c.StreamId();
    var t := Apply(s, Receive(c));
    var u := Apply(t, SendToForwarder);
    var v := Apply(u, Forward(id));
    hide Apply, Enabled;
    Nothing(v);
    FirstThen(u, Forward(id), []);
    assert [Forward(id)] + [] == [Forward(id)];
    FirstThen(t, SendToForwarder, [Forward(id)]);
    assert [SendToForwarder] + [Forward(id)] == [SendToForwarder, Forward(id)];
    FirstThen(s, Receive(c), [SendToForwarder, Forward(id)]);
    assert [Receive(c)] + [SendToForwarder, Forward(id)] == [Receive(c), SendToForwarder, Forward(id)];
  }

  lemma Nothing(s: State)
    ensures Possible(s, []) && Perform(s, []) == s
  {
  }

  /** Streams requested together: a chunk on any of them can be brought to the receiver of
      the new multi stream, as the first that it gets. */
  lemma RequestedIsDelivered(actions: seq<Action>, ids: set<uint32>, c: Chunk)
    requires Possible(INIT, actions) && CloseParser !in actions && Perform(INIT, actions).held == None
    requires |ids| >= 2 && c.StreamId() in ids && forall a, k :: a in actions && k in ids ==> !Touches(a, k)
    ensures var s := Perform(INIT, actions);
            && Enabled(s, RequestMany(ids))
            && var more := [Receive(c), SendToForwarder, Forward(c.StreamId())];
            && var t := Apply(s, RequestMany(ids));
            && Possible(t, more)
            && Multis(actions) < |Perform(t, more).multis| && Perform(t, more).multis[Multis(actions)].out == [c]
  {
    hide Possible, Perform, Touches;
    var s := Perform(INIT, actions);
    RequestsPossibleIff(actions, c.StreamId(), ids, 0);
    TablesFromActions(INIT, actions, c.StreamId());
    IdleDelivers(Apply(s, RequestMany(ids)), c);
    assert [] + [c] == [c];
  }

  /** A chunk on a stream that was not given to a multi stream can be brought to whoever
      receives from the stream itself. */
  lemma DirectDeliveryPossible(actions: seq<Action>, c: Chunk)
    requires Possible(INIT, actions) && CloseParser !in actions && Perform(INIT, actions).held == None
    requires forall a :: a in actions ==> !Joins(a, c.StreamId())
    ensures var s, more := Perform(INIT, actions), [Receive(c), SendDirect];
            && Possible(s, more)
            && Taken(Perform(s, more), c.StreamId()) == Taken(s, c.StreamId()) + [c]
  {
    hide Possible, Perform, Joins;
    var s := Perform(INIT, actions);
    TablesFromActions(INIT, actions, c.StreamId());
    var t := Apply(s, Receive(c));
    var u := Apply(t, SendDirect);
    Nothing(u);
    FirstThen(t, SendDirect, []);
    assert [SendDirect] + [] == [SendDirect];
    FirstThen(s, Receive(c), [SendDirect]);
    assert [Receive(c)] + [SendDirect] == [Receive(c), SendDirect];
  }

  /** A caller of AwaitClose who finds no live forwarder does not wait: the channel can be
      closed at once. */
  lemma NothingToAwait(actions: seq<Action>, m: nat)
    requires Possible(INIT, actions) && m < Multis(actions)
    requires var s := Perform(INIT, actions);
             && (forall id :: id in s.forwarders ==> s.forwarders[id].multi != m)
             && m < |s.multis| && !s.multis[m].closed
    ensures var s := Perform(INIT, actions);
            && Possible(s, [Await(m), CloseOut(m)])
            && m < |Perform(s, [Await(m), CloseOut(m)]).multis|
            && Perform(s, [Await(m), CloseOut(m)]).multis[m].closed
  {
    hide Possible, Perform, On, Owned, Conserved;
    var s := Perform(INIT, actions);
    InitIsInvariant();
    AlwaysInvariant(INIT, actions);
    assert CountedAt(s, m) && Feeding(s, m) == {};
    var t := Apply(s, Await(m));
    var u := Apply(t, CloseOut(m));
    Nothing(u);
    FirstThen(t, CloseOut(m), []);
    assert [CloseOut(m)] + [] == [CloseOut(m)];
    FirstThen(s, Await(m), [CloseOut(m)]);
    assert [Await(m)] + [CloseOut(m)] == [Await(m), CloseOut(m)];
  }

  // ----- streams that were requested together -----

  predicate NeverAppended(actions: seq<Action>, id: uint32) {
    forall a :: a in actions && a.Append? ==> a.id != id
  }

  lemma {:induction false} OnlyForwarded(s: State, actions: seq<Action>, id: uint32)
    requires Consistent(s) && Possible(s, actions) && NeverAppended(actions, id)
    requires id in s.feeds ==> Taken(s, id) == []
    ensures id in Perform(s, actions).feeds ==> Taken(Perform(s, actions), id) == []
    decreases |actions|
  {
    hide Consistent, Enabled, Apply;
    if actions != [] {
      StaysConsistent(s, actions[0]);
      StaysForwarded(s, actions[0], id);
      assert NeverAppended(actions[1..], id);
      OnlyForwarded(Apply(s, actions[0]), actions[1..], id);
    }
  }

  lemma StaysForwarded(s: State, a: Action, id: uint32)
    requires Consistent(s) && Enabled(s, a) && (a.Append? ==> a.id != id)
    requires id in s.feeds ==> Taken(s, id) == []
    ensures id in Apply(s, a).feeds ==> Taken(Apply(s, a), id) == []
  {
    hide On, Owned;
  }

  /** Fan-in. A stream that got its multi stream when it was requested: what the reader
      emitted on it is what came out of the multi stream for it, and then the chunks in
      flight, at most one in its forwarder and then at most one in the parser. */
  lemma FanIn(actions: seq<Action>, id: uint32)
    requires Possible(INIT, actions) && NeverAppended(actions, id)
    requires id in Perform(INIT, actions).feeds
    ensures var s := Perform(INIT, actions);
            && s.feeds[id] < |s.multis|
            && On(s.emitted, id) == On(s.multis[s.feeds[id]].out, id) + InForwarder(s, id) + InParser(s, id)
  {
    hide On, Owned;
    InitIsInvariant();
    AlwaysInvariant(INIT, actions);
    OnlyForwarded(INIT, actions, id);
    var s := Perform(INIT, actions);
    assert Conserved(s, id);
    assert [] + CameOut(s, id) == CameOut(s, id);
  }
}

/** Closing a multi stream, on the step relation of Routing: which actions of a caller can lead
    to a panic, and when the channel can still be closed. */
module Closing {
  import opened Bytes
  import opened Wire
  import opened Multiplexing
  import opened Routing

  // ----- what a careful caller is safe from -----

  /** A send on a closed channel: a forwarder holds a chunk for a closed multi stream. */
  predicate SendsOnClosed(s: State) {
    exists id :: id in s.forwarders && s.forwarders[id].held.Some?
      && s.forwarders[id].multi < |s.multis| && s.multis[s.forwarders[id].multi].closed
  }

  /** A close of a closed channel: a second caller of AwaitClose is past its wait. */
  predicate ClosesTwice(s: State) {
    exists m :: 0 <= m < |s.multis| && s.multis[m].closed && s.multis[m].passed > 0
  }

  /** A wait group used again before the wait has returned, which sync.WaitGroup answers with a
      panic: a caller was woken, and finds a count that is not zero. */
  predicate ReusesGroup(s: State) {
    exists m :: 0 <= m < |s.multis| && s.multis[m].woken > 0 && s.multis[m].count > 0
  }

  predicate Panics(s: State) {
    SendsOnClosed(s) || ClosesTwice(s) || ReusesGroup(s)
  }

  /** The wait of a multi stream never returns: one of its streams is open, although the
      parser has stopped, because it was requested after that. */
  predicate Stuck(s: State, m: nat) {
    !s.running && exists id :: id in Feeding(s, m) && id in s.streams && !s.streams[id].closed
  }

  /** What a careful caller does not do: append a stream when a caller of AwaitClose has been
      woken and has not returned, or has returned and the parser still runs; and call
      AwaitClose again, unless its wait cannot return. */
  predicate Dangerous(s: State, a: Action)
    requires Enabled(s, a)
  {
    match a
    case Append(_, m) => s.multis[m].woken > 0 || (s.running && s.multis[m].Late())
    case Await(m) => s.multis[m].Callers() > 0 && !Stuck(s, m)
    case _ => false
  }

  ghost predicate Punctual(s: State, actions: seq<Action>)
    requires Possible(s, actions)
    decreases |actions|
  {
    actions != [] ==> !Dangerous(s, actions[0]) && Punctual(Apply(s, actions[0]), actions[1..])
  }

  /** A prompt caller appends nothing at all once the count has been zero since AwaitClose was
      called. */
  predicate Timely(s: State, a: Action)
    requires Enabled(s, a)
  {
    a.Append? ==> !s.multis[a.m].Late() && s.multis[a.m].woken == 0
  }

  ghost predicate Prompt(s: State, actions: seq<Action>)
    requires Possible(s, actions)
    decreases |actions|
  {
    actions != [] ==> Timely(s, actions[0]) && Prompt(Apply(s, actions[0]), actions[1..])
  }

  /** No wait has returned before the last forwarder was done. */
  predicate Over(s: State) {
    forall m :: 0 <= m < |s.multis| && s.multis[m].Late() ==> s.multis[m].count == 0
  }

  lemma StaysOver(s: State, a: Action)
    requires Over(s) && Enabled(s, a) && Timely(s, a)
    ensures Over(Apply(s, a))
  {
  }

  /** The forwarders of a multi stream whose wait has returned have nothing to send, and will
      get nothing. */
  predicate Quiet(s: State) {
    forall id :: id in s.forwarders ==>
      var f := s.forwarders[id];
      f.multi < |s.multis| && s.multis[f.multi].Late() ==> f.held == None && !s.running
  }

  predicate AwaitedOnce(s: State, m: nat)
    requires m < |s.multis|
  {
    && (s.multis[m].woken > 0 ==> s.multis[m].count == 0)
    && (s.multis[m].Callers() <= 1 || (s.multis[m].Closers() <= 1 && Stuck(s, m)))
  }

  predicate Singly(s: State) {
    forall m :: 0 <= m < |s.multis| ==> AwaitedOnce(s, m)
  }

  ghost predicate Safe(s: State) {
    Invariant(s) && Quiet(s) && Singly(s)
  }

  lemma StaysQuiet(s: State, a: Action)
    requires Consistent(s) && Counted(s) && Quiet(s) && Enabled(s, a) && !Dangerous(s, a)
    ensures Quiet(Apply(s, a))
  {
    hide On, Owned, Stuck, Apply, CountedAt;
    StreamsAfter(s, a);
    ForwardersAfter(s, a);
    MultisAfter(s, a);
    var t := Apply(s, a);
    forall id | id in t.forwarders && t.forwarders[id].multi < |t.multis| && t.multis[t.forwarders[id].multi].Late()
      ensures t.forwarders[id].held == None && !t.running
    {
      var m := t.forwarders[id].multi;
      if m < |s.multis| {
        MultiAfter(s, a, m);
        if id in s.forwarders { FedIsCounted(s, id); }
      }
    }
  }

  lemma StaysStuck(s: State, a: Action, m: nat)
    requires Consistent(s) && Enabled(s, a) && m < |s.multis| && Stuck(s, m)
    ensures Stuck(Apply(s, a), m)
  {
    hide On, Owned, Apply;
    StreamsAfter(s, a);
    ForwardersAfter(s, a);
    var id :| id in Feeding(s, m) && id in s.streams && !s.streams[id].closed;
    assert id in Feeding(Apply(s, a), m);
  }

  lemma StaysAwaitedOnce(s: State, a: Action, m: nat)
    requires Consistent(s) && Counted(s) && m < |s.multis| && AwaitedOnce(s, m) && Enabled(s, a) && !Dangerous(s, a)
    ensures AwaitedOnce(Apply(s, a), m)
  {
    hide On, Owned, Stuck, Apply;
    MultiAfter(s, a, m);
    if Stuck(s, m) {
      StaysStuck(s, a, m);
      assert CountedAt(s, m);
      StuckIsFed(s, m);
    }
  }

  lemma StuckIsFed(s: State, m: nat)
    requires Stuck(s, m)
    ensures Feeding(s, m) != {}
  {
  }

  lemma StaysSafe(s: State, a: Action)
    requires Safe(s) && Enabled(s, a) && !Dangerous(s, a)
    ensures Safe(Apply(s, a))
  {
    hide Quiet, AwaitedOnce, Consistent, Drained, Conserved, CountedAt, Dangerous;
    StaysInvariant(s, a);
    StaysQuiet(s, a);
    forall m | 0 <= m < |Apply(s, a).multis| ensures AwaitedOnce(Apply(s, a), m) {
      if m < |s.multis| {
        StaysAwaitedOnce(s, a, m);
      } else {
        NewIsAwaitedOnce(s, a, m);
      }
    }
  }

  lemma NewIsAwaitedOnce(s: State, a: Action, m: nat)
    requires Enabled(s, a) && |s.multis| <= m < |Apply(s, a).multis|
    ensures AwaitedOnce(Apply(s, a), m)
  {
  }

  lemma SafeDoesNotPanic(s: State)
    requires Safe(s)
    ensures !Panics(s)
  {
    hide Conserved, Stuck;
    forall m | 0 <= m < |s.multis|
      ensures !(s.multis[m].closed && s.multis[m].passed > 0)
      ensures !(s.multis[m].woken > 0 && s.multis[m].count > 0)
    {
      assert AwaitedOnce(s, m);
    }
  }

  lemma {:induction false} AlwaysSafe(s: State, actions: seq<Action>)
    requires Safe(s) && Possible(s, actions) && Punctual(s, actions)
    ensures Safe(Perform(s, actions))
    decreases |actions|
  {
    hide Safe, Apply, Enabled, Dangerous;
    if actions != [] {
      StaysSafe(s, actions[0]);
      AlwaysSafe(Apply(s, actions[0]), actions[1..]);
    }
  }

  lemma {:induction false} AlwaysOver(s: State, actions: seq<Action>)
    requires Over(s) && Possible(s, actions) && Prompt(s, actions)
    ensures Over(Perform(s, actions))
    decreases |actions|
  {
    hide Over, Apply, Enabled, Timely;
    if actions != [] {
      StaysOver(s, actions[0]);
      AlwaysOver(Apply(s, actions[0]), actions[1..]);
    }
  }

  lemma InitIsSafe()
    ensures Safe(INIT) && Over(INIT)
  {
  }

  /** Safe close. A careful caller never sees a panic; and when the channel of a multi stream
      is closed, the parser has stopped, and everything that was emitted on its streams has
      come out. If the caller is prompt as well, it then has no forwarder left, and each of its
      streams is closed. */
  lemma SafeClose(actions: seq<Action>)
    requires Possible(INIT, actions) && Punctual(INIT, actions)
    ensures var s := Perform(INIT, actions);
            && !Panics(s)
            && forall id :: id in s.feeds && s.feeds[id] < |s.multis| && s.multis[s.feeds[id]].closed ==>
                 && !s.running && InForwarder(s, id) == []
                 && On(s.emitted, id) == Taken(s, id) + On(s.multis[s.feeds[id]].out, id)
                 && (Prompt(INIT, actions) ==> id !in s.forwarders && id in s.streams && s.streams[id].closed)
  {
    hide On, Owned, Panics, Possible, Punctual, Prompt, Perform, Singly;
    InitIsSafe();
    AlwaysSafe(INIT, actions);
    var s := Perform(INIT, actions);
    SafeDoesNotPanic(s);
    if Prompt(INIT, actions) {
      AlwaysOver(INIT, actions);
      forall id | id in s.forwarders ensures !s.multis[s.feeds[id]].closed {
        FedIsCounted(s, id);
      }
    }
    forall id | id in s.feeds && s.feeds[id] < |s.multis| && s.multis[s.feeds[id]].closed
      ensures !s.running && InForwarder(s, id) == []
      ensures On(s.emitted, id) == Taken(s, id) + On(s.multis[s.feeds[id]].out, id)
      ensures id !in s.forwarders ==> s.streams[id].closed
    {
      assert Conserved(s, id);
      assert InForwarder(s, id) == [] && InParser(s, id) == [];
    }
  }

  // ----- exactly when a caller is not safe -----

  /** A careful caller and some interleaving lead from one state to the other. */
  ghost predicate Reaches(s: State, t: State) {
    exists more :: Possible(s, more) && Punctual(s, more) && Perform(s, more) == t
  }

  lemma ReachesItself(s: State)
    ensures Reaches(s, s)
  {
    assert Possible(s, []) && Punctual(s, []) && Perform(s, []) == s;
  }

  lemma ReachesThen(s: State, a: Action, t: State)
    requires Enabled(s, a) && !Dangerous(s, a) && Reaches(Apply(s, a), t)
    ensures Reaches(s, t)
  {
    hide Enabled, Dangerous, Apply;
    var next := Apply(s, a);
    var more :| Possible(next, more) && Punctual(next, more) && Perform(next, more) == t;
    var all := [a] + more;
    assert all[0] == a && all[1..] == more;
    assert Possible(s, all) && Punctual(s, all) && Perform(s, all) == t;
  }

  lemma ReachesNext(s: State, a: Action)
    requires Enabled(s, a) && !Dangerous(s, a)
    ensures Reaches(s, Apply(s, a))
  {
    ReachesItself(Apply(s, a));
    ReachesThen(s, a, Apply(s, a));
  }

  lemma ReachesOn(s: State, t: State, u: State)
    requires Reaches(s, t) && Reaches(t, u)
    ensures Reaches(s, u)
  {
    var more :| Possible(s, more) && Punctual(s, more) && Perform(s, more) == t;
    ReachesAlong(s, more, u);
  }

  lemma {:induction false} ReachesAlong(s: State, more: seq<Action>, u: State)
    requires Possible(s, more) && Punctual(s, more) && Reaches(Perform(s, more), u)
    ensures Reaches(s, u)
    decreases |more|
  {
    hide Enabled, Dangerous, Apply, Reaches;
    if more != [] {
      ReachesAlong(Apply(s, more[0]), more[1..], u);
      ReachesThen(s, more[0], u);
    }
  }

  /** Some interleaving panics, although from here on the caller is careful. */
  ghost predicate CanPanic(s: State) {
    exists t :: Reaches(s, t) && Panics(t)
  }

  lemma PanicsNow(s: State)
    requires Panics(s)
    ensures CanPanic(s)
  {
    ReachesItself(s);
  }

  lemma PanicsLater(s: State, a: Action)
    requires Enabled(s, a) && !Dangerous(s, a) && CanPanic(Apply(s, a))
    ensures CanPanic(s)
  {
    hide Enabled, Dangerous, Apply, Panics, Reaches;
    var t :| Reaches(Apply(s, a), t) && Panics(t);
    ReachesThen(s, a, t);
  }

  lemma PanicsThere(s: State, t: State)
    requires Reaches(s, t) && CanPanic(t)
    ensures CanPanic(s)
  {
    hide Panics, Reaches;
    var u :| Reaches(t, u) && Panics(u);
    ReachesOn(s, t, u);
  }

  /** A chunk in the forwarder of a multi stream whose wait has returned. */
  lemma SendingPanics(s: State, id: uint32)
    requires id in s.forwarders && s.forwarders[id].held.Some?
    requires s.forwarders[id].multi < |s.multis| && s.multis[s.forwarders[id].multi].Late()
    ensures CanPanic(s)
  {
    hide CanPanic;
    var m := s.forwarders[id].multi;
    if s.multis[m].closed {
      PanicsNow(s);
    } else {
      PanicsNow(Apply(s, CloseOut(m)));
      PanicsLater(s, CloseOut(m));
    }
  }

  lemma HandingOverPanics(s: State, id: uint32)
    requires id in s.forwarders && s.forwarders[id].held == None
    requires s.forwarders[id].multi < |s.multis| && s.multis[s.forwarders[id].multi].Late()
    requires s.held.Some? && s.held.value.StreamId() == id
    ensures CanPanic(s)
  {
    hide CanPanic;
    SendingPanics(Apply(s, SendToForwarder), id);
    PanicsLater(s, SendToForwarder);
  }

  /** Nothing but the chunks in flight differs. */
  predicate Alike(s: State, t: State) {
    && t.running == s.running && t.feeds == s.feeds && t.streams.Keys == s.streams.Keys
    && (forall id :: id in s.streams ==> t.streams[id].closed == s.streams[id].closed)
    && t.forwarders.Keys == s.forwarders.Keys
    && (forall id :: id in s.forwarders ==> t.forwarders[id].multi == s.forwarders[id].multi)
    && |t.multis| == |s.multis|
    && (forall m :: 0 <= m < |s.multis| ==> t.multis[m] == s.multis[m].(out := t.multis[m].out))
  }

  /** The forwarder of an open stream gets rid of its chunk, or there is a panic. */
  lemma FreeForwarder(s: State, id: uint32) returns (t: State)
    requires Invariant(s) && id in s.forwarders && !Panics(s)
    ensures Reaches(s, t)
    ensures Invariant(t) && t.held == s.held && Alike(s, t)
    ensures t.forwarders == s.forwarders[id := s.forwarders[id].(held := None)]
  {
    hide Reaches, Conserved, CountedAt, Owned;
    t := s;
    ReachesItself(s);
    if s.forwarders[id].held.Some? {
      StaysInvariant(s, Forward(id));
      t := Apply(s, Forward(id));
      ReachesNext(s, Forward(id));
    }
  }

  /** The parser gets rid of its chunk. */
  lemma FreeParser(s: State) returns (t: State)
    requires Invariant(s) && s.held.Some? && !Panics(s)
    ensures Reaches(s, t)
    ensures Invariant(t) && t.held == None && Alike(s, t)
    ensures forall id :: id in s.forwarders && id != s.held.value.StreamId() ==> t.forwarders[id] == s.forwarders[id]
  {
    hide Reaches, Conserved, CountedAt, Owned, Panics;
    var id := s.held.value.StreamId();
    if id in s.feeds {
      var u := FreeForwarder(s, id);
      StaysInvariant(u, SendToForwarder);
      t := Apply(u, SendToForwarder);
      ReachesNext(u, SendToForwarder);
      ReachesOn(s, u, t);
    } else {
      StaysInvariant(s, SendDirect);
      t := Apply(s, SendDirect);
      ReachesNext(s, SendDirect);
    }
  }

  /** A live forwarder of a multi stream whose wait has returned, with the parser running. */
  lemma ForwarderPanics(s: State, id: uint32)
    requires Invariant(s) && s.running && id in s.forwarders
    requires s.forwarders[id].multi < |s.multis| && s.multis[s.forwarders[id].multi].Late()
    ensures CanPanic(s)
    decreases s.held.Some?
  {
    hide CanPanic, Conserved, CountedAt, Owned, Panics;
    if Panics(s) {
      PanicsNow(s);
    } else if s.forwarders[id].held.Some? {
      SendingPanics(s, id);
    } else if s.held == None {
      var c := Chunk(Header(BasicHeader(0, id), NO_MESSAGE, 0), []);
      HandingOverPanics(Apply(s, Receive(c)), id);
      PanicsLater(s, Receive(c));
    } else if s.held.value.StreamId() == id {
      HandingOverPanics(s, id);
    } else {
      var t := FreeParser(s);
      ForwarderPanics(t, id);
      PanicsThere(s, t);
    }
  }

  lemma {:induction false} SecondClosePanics(s: State, m: nat)
    requires m < |s.multis| && s.multis[m].count == 0 && s.multis[m].asleep == 0 && s.multis[m].Callers() >= 2
    ensures CanPanic(s)
    decreases s.multis[m].woken
  {
    hide CanPanic, SendsOnClosed, ReusesGroup;
    if s.multis[m].woken > 0 {
      SecondClosePanics(Apply(s, Release(m)), m);
      PanicsLater(s, Release(m));
    } else if s.multis[m].closed {
      PanicsNow(s);
    } else {
      var t := Apply(s, CloseOut(m));
      assert t.multis[m].closed && t.multis[m].passed > 0;
      PanicsNow(t);
      PanicsLater(s, CloseOut(m));
    }
  }

  /** With the parser stopped and the streams of `m` closed, its forwarders come to their
      end one after the other, or there is a panic. */
  lemma {:induction false} Drain(s: State, m: nat) returns (t: State)
    requires Invariant(s) && !s.running && m < |s.multis| && !Stuck(s, m)
    ensures Reaches(s, t)
    ensures Panics(t) || (Invariant(t) && m < |t.multis| && Feeding(t, m) == {})
    ensures m < |t.multis| && t.multis[m].Callers() == s.multis[m].Callers()
    decreases |Feeding(s, m)|
  {
    hide Reaches, Invariant, Stuck, Apply, Panics;
    t := s;
    ReachesItself(s);
    if !Panics(s) && Feeding(s, m) != {} {
      var id :| id in Feeding(s, m);
      var u := ExitOne(s, m, id);
      t := Drain(u, m);
      ReachesOn(s, u, t);
    }
  }

  lemma AlikeFeeds(s: State, t: State, m: nat)
    requires Alike(s, t) && m < |s.multis|
    ensures Feeding(t, m) == Feeding(s, m) && (Stuck(t, m) <==> Stuck(s, m))
    ensures t.multis[m].Callers() == s.multis[m].Callers()
  {
  }

  /** One forwarder gets rid of its chunk and comes to its end. */
  lemma ExitOne(s: State, m: nat, id: uint32) returns (t: State)
    requires Invariant(s) && !s.running && m < |s.multis| && !Stuck(s, m) && !Panics(s) && id in Feeding(s, m)
    ensures Reaches(s, t) && Invariant(t) && !t.running && m < |t.multis| && !Stuck(t, m)
    ensures Feeding(t, m) == Feeding(s, m) - {id} && t.multis[m].Callers() == s.multis[m].Callers()
  {
    hide Reaches, Panics, Conserved, Counted, Owned, Alike, Feeding;
    FeedingMeans(s, m);
    var u := FreeForwarder(s, id);
    AlikeFeeds(s, u, m);
    assert u.running == s.running && id in u.streams && u.streams[id].closed by { ClosedStays(s, u, m, id); }
    ExitEnabled(u, id);
    t := Apply(u, Exit(id));
    StaysInvariant(u, Exit(id));
    ReachesNext(u, Exit(id));
    ReachesOn(s, u, t);
    hide Apply;
    FeedingAfter(u, Exit(id), m);
    MultiAfter(u, Exit(id), m);
    StreamsAfter(u, Exit(id));
  }

  lemma ClosedStays(s: State, u: State, m: nat, id: uint32)
    requires Alike(s, u) && Consistent(s) && !s.running && !Stuck(s, m) && id in Feeding(s, m)
    ensures u.running == s.running && id in u.streams && u.streams[id].closed
  {
    hide Owned;
  }

  lemma ExitEnabled(s: State, id: uint32)
    requires Consistent(s) && Counted(s) && id in s.forwarders && s.forwarders[id].held == None
    requires s.streams[id].closed
    ensures Enabled(s, Exit(id))
  {
    hide Owned;
    FedIsCounted(s, id);
  }

  /** The parser stops, after it has got rid of its chunk, or there is a panic. */
  lemma Stop(s: State, m: nat) returns (t: State)
    requires Invariant(s) && m < |s.multis| && !Stuck(s, m)
    ensures Reaches(s, t) && m < |t.multis| && t.multis[m].Callers() == s.multis[m].Callers()
    ensures Panics(t) || (Invariant(t) && !t.running && !Stuck(t, m))
  {
    hide Reaches, Conserved, CountedAt, Owned, Panics;
    t := s;
    ReachesItself(s);
    if s.running && !Panics(s) {
      if s.held.Some? {
        t := FreeParser(s);
      }
      if !Panics(t) {
        StaysInvariant(t, CloseParser);
        ReachesNext(t, CloseParser);
        ReachesOn(s, t, Apply(t, CloseParser));
        t := Apply(t, CloseParser);
      }
    }
  }

  lemma AwaitingPanics(s: State, m: nat)
    requires Invariant(s) && m < |s.multis| && s.multis[m].Callers() >= 2 && !Stuck(s, m)
    ensures CanPanic(s)
  {
    hide CanPanic, Reaches, Conserved, Owned, Panics, Stuck;
    var t := Stop(s, m);
    if Panics(t) {
      PanicsNow(t);
    } else {
      var u := Drain(t, m);
      if Panics(u) {
        PanicsNow(u);
      } else {
        assert CountedAt(u, m);
        SecondClosePanics(u, m);
      }
      PanicsThere(t, u);
    }
    PanicsThere(s, t);
  }

  /** After a careful run, whatever is done next, a panic can follow if and only if that was
      one of the dangerous actions. */
  lemma PanicsIff(actions: seq<Action>, a: Action)
    requires Possible(INIT, actions) && Punctual(INIT, actions) && Enabled(Perform(INIT, actions), a)
    ensures var s := Perform(INIT, actions);
            CanPanic(Apply(s, a)) <==> Dangerous(s, a)
  {
    hide Possible, Punctual, Perform, Panics, Conserved, Owned, CountedAt, CanPanic, Quiet, AwaitedOnce;
    InitIsSafe();
    AlwaysSafe(INIT, actions);
    var s := Perform(INIT, actions);
    var t := Apply(s, a);
    if Dangerous(s, a) {
      StaysInvariant(s, a);
      if a.Append? {
        if s.multis[a.m].woken > 0 {
          ReusePanics(t, a.m);
        } else {
          ForwarderPanics(t, a.id);
        }
      } else {
        AwaitingPanics(t, a.m);
      }
    } else {
      StaysSafe(s, a);
      SafeCannotPanic(t);
    }
  }

  lemma ReusePanics(s: State, m: nat)
    requires m < |s.multis| && s.multis[m].woken > 0 && s.multis[m].count > 0
    ensures CanPanic(s)
  {
    hide CanPanic;
    PanicsNow(s);
  }

  lemma SafeCannotPanic(s: State)
    requires Safe(s)
    ensures !CanPanic(s)
  {
    hide Safe, Panics;
    forall t | Reaches(s, t) ensures !Panics(t) {
      var more :| Possible(s, more) && Punctual(s, more) && Perform(s, more) == t;
      AlwaysSafe(s, more);
      SafeDoesNotPanic(t);
    }
  }

  // ----- exactly when it is still possible -----

  ghost predicate CanClose(s: State, m: nat) {
    exists t :: Reaches(s, t) && m < |t.multis| && t.multis[m].closed
  }

  lemma ClosesThere(s: State, t: State, m: nat)
    requires Reaches(s, t) && CanClose(t, m)
    ensures CanClose(s, m)
  {
    hide Reaches;
    var u :| Reaches(t, u) && m < |u.multis| && u.multis[m].closed;
    ReachesOn(s, t, u);
  }

  lemma ClosesLater(s: State, a: Action, m: nat)
    requires Enabled(s, a) && !Dangerous(s, a) && CanClose(Apply(s, a), m)
    ensures CanClose(s, m)
  {
    hide Reaches, CanClose, Enabled, Dangerous;
    ReachesNext(s, a);
    ClosesThere(s, Apply(s, a), m);
  }

  /** Without forwarders, a caller who waits, or else a new one, gets to close the channel. */
  lemma DrainedCloses(s: State, m: nat)
    requires m < |s.multis| && s.multis[m].count == 0 && s.multis[m].asleep == 0
    ensures CanClose(s, m)
    decreases !s.multis[m].closed, if s.multis[m].Callers() == 0 then 2 else if s.multis[m].passed == 0 then 1 else 0
  {
    ReachesItself(s);
    if !s.multis[m].closed {
      hide Reaches, CanClose;
      var a := if s.multis[m].Callers() == 0 then Await(m)
               else if s.multis[m].passed == 0 then Release(m)
               else CloseOut(m);
      DrainedCloses(Apply(s, a), m);
      ClosesLater(s, a, m);
    }
  }

  /** After a careful run, the channel of a multi stream can still be closed if and only if it
      is not stuck (the parser has stopped, and a stream that it draws from was requested only
      after that), or a wait for it has returned already. */
  lemma CanCloseIff(actions: seq<Action>, m: nat)
    requires Possible(INIT, actions) && Punctual(INIT, actions) && m < Multis(actions)
    ensures var s := Perform(INIT, actions);
            m < |s.multis| && (CanClose(s, m) <==> !Stuck(s, m) || s.multis[m].Late())
  {
    hide Possible, Punctual, Perform, Panics, Conserved, Owned, CanClose, Reaches, Quiet, Singly, Stuck;
    var s := Perform(INIT, actions);
    InitIsSafe();
    AlwaysSafe(INIT, actions);
    TablesFromActions(INIT, actions, 0);
    if s.multis[m].Late() {
      LateCloses(s, m);
    } else if Stuck(s, m) {
      StuckCannotClose(s, m);
    } else {
      var t := Stop(s, m);
      SafeThere(s, t);
      var u := Drain(t, m);
      SafeThere(t, u);
      assert CountedAt(u, m);
      DrainedCloses(u, m);
      ClosesThere(t, u, m);
      ClosesThere(s, t, m);
    }
  }

  lemma SafeThere(s: State, t: State)
    requires Safe(s) && Reaches(s, t)
    ensures Safe(t) && !Panics(t)
  {
    hide Safe, Panics;
    var more :| Possible(s, more) && Punctual(s, more) && Perform(s, more) == t;
    AlwaysSafe(s, more);
    SafeDoesNotPanic(t);
  }

  lemma LateCloses(s: State, m: nat)
    requires m < |s.multis| && s.multis[m].Late()
    ensures CanClose(s, m)
  {
    ReachesItself(s);
    if !s.multis[m].closed {
      hide Reaches;
      ReachesNext(s, CloseOut(m));
    }
  }

  lemma StuckCannotClose(s: State, m: nat)
    requires Safe(s) && m < |s.multis| && Stuck(s, m) && !s.multis[m].Late()
    ensures !CanClose(s, m)
  {
    hide Safe, Stuck;
    forall t | Reaches(s, t) ensures m < |t.multis| && !t.multis[m].closed {
      var more :| Possible(s, more) && Punctual(s, more) && Perform(s, more) == t;
      AlwaysStuck(s, more, m);
    }
  }

  lemma StaysWaiting(s: State, a: Action, m: nat)
    requires Safe(s) && m < |s.multis| && Stuck(s, m) && !s.multis[m].Late() && Enabled(s, a)
    ensures m < |Apply(s, a).multis| && Stuck(Apply(s, a), m) && !Apply(s, a).multis[m].Late()
  {
    hide Conserved, Owned, Quiet, Stuck, Apply;
    StaysStuck(s, a, m);
    MultiAfter(s, a, m);
    StuckIsFed(s, m);
    assert CountedAt(s, m);
  }

  lemma {:induction false} AlwaysStuck(s: State, actions: seq<Action>, m: nat)
    requires Safe(s) && m < |s.multis| && Stuck(s, m) && !s.multis[m].Late()
    requires Possible(s, actions) && Punctual(s, actions)
    ensures var t := Perform(s, actions); m < |t.multis| && !t.multis[m].Late()
    decreases |actions|
  {
    hide Safe, Stuck, Enabled, Apply, Dangerous;
    if actions != [] {
      StaysSafe(s, actions[0]);
      StaysWaiting(s, actions[0], m);
      AlwaysStuck(Apply(s, actions[0]), actions[1..], m);
    }
  }

  // ----- the dangers are real -----

  predicate Goes(s: State, a: Action, t: State) {
    Enabled(s, a) && !Dangerous(s, a) && Apply(s, a) == t
  }

  /** A careful run from the start, and where it leads. */
  ghost predicate Leads(actions: seq<Action>, s: State) {
    Possible(INIT, actions) && Punctual(INIT, actions) && Perform(INIT, actions) == s
  }

  lemma LeadsOn(actions: seq<Action>, s: State, a: Action, t: State)
    requires Leads(actions, s) && Goes(s, a, t)
    ensures Leads(actions + [a], t)
  {
    OneMore(INIT, actions, a);
  }

  lemma {:induction false} OneMore(s: State, actions: seq<Action>, a: Action)
    requires Possible(s, actions) && Punctual(s, actions)
    requires Enabled(Perform(s, actions), a) && !Dangerous(Perform(s, actions), a)
    ensures Possible(s, actions + [a]) && Punctual(s, actions + [a])
    ensures Perform(s, actions + [a]) == Apply(Perform(s, actions), a)
    decreases |actions|
  {
    hide Enabled, Dangerous, Apply;
    var all := actions + [a];
    if actions == [] {
      assert all[0] == a && all[1..] == [];
    } else {
      assert all[0] == actions[0] && all[1..] == actions[1..] + [a];
      OneMore(Apply(s, actions[0]), actions[1..], a);
    }
  }

  lemma RequestGoes(s: State, id: uint32)
    ensures Goes(s, RequestOne(id), WithStream(s, id))
  {
  }

  lemma NewMultiGoes(s: State)
    ensures Goes(s, NewMulti, s.(multis := s.multis + [NewMultiOf(0)]))
  {
  }

  lemma AppendGoes(s: State, id: uint32, m: nat)
    requires id in s.streams && id !in s.feeds && m < |s.multis| && s.multis[m].Callers() == 0
    ensures Goes(s, Append(id, m), Appended(s, id, m))
  {
  }

  function Appended(s: State, id: uint32, m: nat): State
    requires m < |s.multis|
  {
    var x := s.multis[m];
    WithMulti(s, m, x.(count := x.count + 1))
    .(feeds := s.feeds[id := m], forwarders := s.forwarders[id := Forwarder(m, None)])
  }

  lemma AwaitGoes(s: State, m: nat)
    requires m < |s.multis| && s.multis[m].Callers() == 0
    ensures Goes(s, Await(m), WithMulti(s, m, s.multis[m].Called()))
  {
  }

  lemma CloseGoes(s: State)
    requires s.running && s.held == None
    ensures Goes(s, CloseParser, s.(running := false, streams := Close(s.streams)))
  {
  }

  lemma ExitGoes(s: State, id: uint32, m: nat)
    requires m < |s.multis| && s.multis[m].count > 0
    requires id in s.forwarders && s.forwarders[id] == Forwarder(m, None) && id in s.streams && s.streams[id].closed
    ensures Goes(s, Exit(id), WithMulti(s, m, s.multis[m].Done()).(forwarders := s.forwarders - {id}))
  {
  }

  lemma AppendIsDangerous(s: State, id: uint32, m: nat)
    requires id in s.streams && id !in s.feeds && m < |s.multis|
    requires s.multis[m].woken > 0 || (s.running && s.multis[m].Late())
    ensures Enabled(s, Append(id, m)) && Dangerous(s, Append(id, m))
  {
  }

  /** The dangers are real. After the wait for an empty multi stream has returned, a stream
      can be appended to it, and AwaitClose can be called again. */
  lemma DangersExist(id: uint32) returns (actions: seq<Action>)
    ensures Possible(INIT, actions) && Punctual(INIT, actions)
    ensures var s := Perform(INIT, actions);
            && Enabled(s, Append(id, 0)) && CanPanic(Apply(s, Append(id, 0)))
            && Enabled(s, Await(0)) && CanPanic(Apply(s, Await(0)))
  {
    hide CanPanic, Goes, Apply;
    var s := WithStream(INIT, id);
    RequestGoes(INIT, id);
    LeadsOn([], INIT, RequestOne(id), s);
    var t := s.(multis := s.multis + [NewMultiOf(0)]);
    NewMultiGoes(s);
    LeadsOn([] + [RequestOne(id)], s, NewMulti, t);
    var u := WithMulti(t, 0, t.multis[0].Called());
    AwaitGoes(t, 0);
    actions := [] + [RequestOne(id)] + [NewMulti] + [Await(0)];
    LeadsOn([] + [RequestOne(id)] + [NewMulti], t, Await(0), u);
    AppendIsDangerous(u, id, 0);
    PanicsIff(actions, Append(id, 0));
    PanicsIff(actions, Await(0));
  }

  /** Two streams requested, and an empty multi stream. */
  lemma RequestedLeads(id: uint32, other: uint32) returns (actions: seq<Action>, s: State)
    requires id != other
    ensures Leads(actions, s)
    ensures s == State([], true, None, map[id := NEW_STREAM, other := NEW_STREAM], map[], map[], [NewMultiOf(0)])
  {
    hide Goes, Leads;
    var one := State([], true, None, map[id := NEW_STREAM], map[], map[], []);
    var two := one.(streams := map[id := NEW_STREAM, other := NEW_STREAM]);
    s := two.(multis := [NewMultiOf(0)]);
    actions := [] + [RequestOne(id)] + [RequestOne(other)] + [NewMulti];
    NothingLeads();
    RequestGoes(INIT, id);
    LeadsOn([], INIT, RequestOne(id), one);
    RequestGoes(one, other);
    LeadsOn([] + [RequestOne(id)], one, RequestOne(other), two);
    NewMultiGoes(two);
    assert two.multis + [NewMultiOf(0)] == s.multis;
    LeadsOn([] + [RequestOne(id)] + [RequestOne(other)], two, NewMulti, s);
  }

  /** Then one of them appended, and a caller of AwaitClose asleep. */
  lemma AsleepLeads(id: uint32, other: uint32) returns (actions: seq<Action>, s: State)
    requires id != other
    ensures Leads(actions, s) && s.running && s.held == None
    ensures s.streams == map[id := NEW_STREAM, other := NEW_STREAM] && s.feeds == map[id := 0]
    ensures s.forwarders == map[id := Forwarder(0, None)] && s.multis == [Multi(1, [], 1, 0, 0, false)]
  {
    hide Goes, Leads;
    actions, s := RequestedLeads(id, other);
    AppendGoes(s, id, 0);
    LeadsOn(actions, s, Append(id, 0), Appended(s, id, 0));
    actions, s := actions + [Append(id, 0)], Appended(s, id, 0);
    AwaitGoes(s, 0);
    LeadsOn(actions, s, Await(0), WithMulti(s, 0, s.multis[0].Called()));
    actions, s := actions + [Await(0)], WithMulti(s, 0, s.multis[0].Called());
  }

  lemma NothingLeads()
    ensures Leads([], INIT)
  {
  }

  /** And when the last forwarder has woken a caller of AwaitClose, a stream can be appended
      before the caller runs again, although the parser has stopped. */
  lemma ReuseExists(id: uint32, other: uint32) returns (actions: seq<Action>)
    requires id != other
    ensures Possible(INIT, actions) && Punctual(INIT, actions)
    ensures var s := Perform(INIT, actions);
            !s.running && Enabled(s, Append(other, 0)) && CanPanic(Apply(s, Append(other, 0)))
  {
    hide CanPanic, Goes, Apply;
    var s;
    actions, s := AsleepLeads(id, other);
    var t := s.(running := false, streams := Close(s.streams));
    CloseGoes(s);
    LeadsOn(actions, s, CloseParser, t);
    var u := WithMulti(t, 0, t.multis[0].Done()).(forwarders := t.forwarders - {id});
    ExitGoes(t, id, 0);
    LeadsOn(actions + [CloseParser], t, Exit(id), u);
    actions := actions + [CloseParser] + [Exit(id)];
    AppendIsDangerous(u, other, 0);
    PanicsIff(actions, Append(other, 0));
  }
}

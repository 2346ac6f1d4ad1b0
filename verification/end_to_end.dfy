/** From the wire to the receiver of a multi stream: demultiplexing and routing together. */
module EndToEnd {
  import opened Bytes
  import opened Wire
  import opened Readers
  import opened Multiplexing
  import opened Routing

  lemma OnPrefix(a: seq<Chunk>, b: seq<Chunk>, id: uint32)
    requires a <= b
    ensures On(a, id) <= On(b, id)
  {
    OnConcat(a, b[|a|..], id);
    assert a + b[|a|..] == b;
  }

  /** Let a schedule of fragments be on the wire, and let the reader's chunks travel through
      the parser and the forwarders under any interleaving. What has come out of a multi
      stream for one of its streams, with the chunks still in flight, is at every moment a
      beginning of the messages that the schedule put on that stream; and when the reader
      has handed over everything, only a message that was never finished is missing. */
  lemma WireToMultiStream(size: nat, frames: seq<Frame>, actions: seq<Action>, id: uint32)
    requires Schedule(NewSender(size), frames)
    requires Possible(INIT, actions) && NeverAppended(actions, id) && id in Perform(INIT, actions).feeds
    requires Perform(INIT, actions).emitted <= Chunks(Run(Fresh(size), WireBytes(NewSender(size), frames)).events)
    ensures var sender, s := NewSender(size), Perform(INIT, actions);
            && s.feeds[id] < |s.multis|
            && var got := On(s.multis[s.feeds[id]].out, id) + InForwarder(s, id) + InParser(s, id);
            && got <= Deliverable(Begun(sender, frames, id))
            && (s.emitted == Chunks(Run(Fresh(size), WireBytes(sender, frames)).events) ==>
                  got + Deliverable(InFlight(End(sender, frames), id)) == Deliverable(Begun(sender, frames, id)))
  {
    hide Run, Perform, Begun, InFlight, On, Deliverable;
    Demultiplexing(size, frames);
    FanIn(actions, id);
    OnPrefix(Perform(INIT, actions).emitted, Chunks(Run(Fresh(size), WireBytes(NewSender(size), frames)).events), id);
  }
}

/** The stream table of chunk/parser.go and the streams it hands out. */
module Streams {
  import opened Bytes

  /** A chunk stream: an id for life, and a channel that is not part of this module. */
  class Stream {
    const id: uint32

    constructor (id: uint32)
      ensures this.id == id
    {
      this.id := id;
    }
  }

  /** The streams that a MultiStream draws from, and the count of its wait group. */
  class MultiStream {
    var sources: seq<Stream>
    var count: nat

    constructor ()
      ensures sources == [] && count == 0
    {
      sources, count := [], 0;
    }

    /** One forwarder is counted and started for each appended stream. */
    method Append(others: seq<Stream>)
      modifies this
      ensures sources == old(sources) + others && count == old(count) + |others|
    {
      count := count + |others|;
      for k := 0 to |others|
        invariant sources == old(sources) + others[..k] && count == old(count) + |others|
      {
        assert others[..k + 1] == others[..k] + [others[k]];
        sources := sources + [others[k]];
      }
      assert others[..|others|] == others;
    }
  }

  datatype Answer =
    | Single(stream: Stream)
    | Multiple(multi: MultiStream)
    | NoIds
    | AlreadyExists(id: uint32)

  predicate Distinct(ids: seq<uint32>) {
    forall i, j :: 0 <= i < j < |ids| ==> ids[i] != ids[j]
  }

  predicate AllNew(streams: map<uint32, Stream>, ids: seq<uint32>) {
    forall k :: 0 <= k < |ids| ==> ids[k] !in streams
  }

  /** `id` exists, and the ids requested before it do not. */
  predicate FirstExisting(streams: map<uint32, Stream>, ids: seq<uint32>, id: uint32) {
    id in streams && exists k :: 0 <= k < |ids| && ids[k] == id && AllNew(streams, ids[..k])
  }

  /** Source `k` is the stream of the table for its id if and only if no later id of the
      request is the same. */
  predicate Feeds(streams: map<uint32, Stream>, sources: seq<Stream>, ids: seq<uint32>) {
    |sources| == |ids| &&
    forall k :: 0 <= k < |ids| ==>
      && sources[k].id == ids[k] && ids[k] in streams
      && (streams[ids[k]] == sources[k] <==> ids[k] !in ids[k + 1..])
  }

  lemma FeedsNone(streams: map<uint32, Stream>)
    ensures Feeds(streams, [], [])
  {
  }

  lemma FeedsOneMore(streams: map<uint32, Stream>, sources: seq<Stream>, ids: seq<uint32>, s: Stream)
    requires Feeds(streams, sources, ids) && s !in sources
    ensures Feeds(streams[s.id := s], sources + [s], ids + [s.id])
  {
    var ids1 := ids + [s.id];
    forall k | 0 <= k < |ids1|
      ensures streams[s.id := s][ids1[k]] == (sources + [s])[k] <==> ids1[k] !in ids1[k + 1..]
    {
      if k < |ids| {
        assert ids1[k + 1..] == ids[k + 1..] + [s.id];
      }
    }
  }

  /** All sources are the streams of the table if and only if no id is repeated. */
  lemma FeedsAllIffDistinct(streams: map<uint32, Stream>, sources: seq<Stream>, ids: seq<uint32>)
    requires Feeds(streams, sources, ids)
    ensures (forall k :: 0 <= k < |ids| ==> streams[ids[k]] == sources[k]) <==> Distinct(ids)
  {
    if Distinct(ids) {
      forall k | 0 <= k < |ids| ensures streams[ids[k]] == sources[k] {
      }
    } else {
      var i, j :| 0 <= i < j < |ids| && ids[i] == ids[j];
      assert ids[i + 1..][j - i - 1] == ids[i];
    }
  }

  class Parser {
    var streams: map<uint32, Stream>

    predicate Valid()
      reads this
    {
      forall id :: id in streams ==> streams[id].id == id
    }

    /** What the table held before, it still holds: an allocated id keeps its stream object. */
    twostate predicate Grown()
      reads this
    {
      forall id :: id in old(streams) ==> id in streams && streams[id] == old(streams)[id]
    }

    /** What an answer says about the table as it is now. */
    predicate Stands(ids: seq<uint32>, answer: Answer)
      reads this, if answer.Multiple? then {answer.multi} else {}
    {
      match answer
      case Single(stream) => ids == [stream.id] && stream.id in streams && streams[stream.id] == stream
      case Multiple(multi) => |ids| >= 2 && Feeds(streams, multi.sources, ids)
      case NoIds => ids == []
      case AlreadyExists(id) => |ids| >= 2 && id in ids && id in streams
    }

    constructor ()
      ensures Valid() && streams == map[]
    {
      streams := map[];
    }

    /** A request for one stream never fails and gives the stream of that id, old or new. A
        request for several fails, changing nothing, exactly when one of them exists, and
        names the first that does. Otherwise it allocates a stream for each, and the multi
        stream draws from the stream of the table for an id, and from orphans for the earlier
        occurrences of the same id. */
    method GetStream(ids: seq<uint32>) returns (r: Answer)
      requires Valid()
      modifies this
      ensures Valid() && Grown()
      ensures ids == [] ==> r == NoIds && streams == old(streams)
      ensures |ids| == 1 ==>
                && ids[0] in streams && r == Single(streams[ids[0]])
                && streams == old(streams)[ids[0] := streams[ids[0]]]
                && (ids[0] in old(streams) || fresh(streams[ids[0]]))
      ensures |ids| >= 2 && !AllNew(old(streams), ids) ==>
                && streams == old(streams)
                && r.AlreadyExists? && FirstExisting(old(streams), ids, r.id)
      ensures |ids| >= 2 && AllNew(old(streams), ids) ==>
                && r.Multiple? && fresh(r.multi) && r.multi.count == |r.multi.sources| == |ids|
                && (forall id :: id in streams <==> id in old(streams) || id in ids)
                && Feeds(streams, r.multi.sources, ids)
    {
      if |ids| == 0 {
        return NoIds;
      }
      if |ids| == 1 {
        var id := ids[0];
        if id !in streams {
          var added := new Stream(id);
          streams := streams[id := added];
        }
        return Single(streams[id]);
      }
      for i := 0 to |ids|
        invariant streams == old(streams)
        invariant AllNew(streams, ids[..i])
      {
        if ids[i] in streams {
          assert FirstExisting(streams, ids, ids[i]) by {
            assert ids[i] in streams && AllNew(streams, ids[..i]);
          }
          assert !AllNew(streams, ids);
          return AlreadyExists(ids[i]);
        }
      }
      assert ids[..|ids|] == ids;
      var multi := Allocate(ids);
      r := Multiple(multi);
    }

    /** Any sequence of requests. In the end every id that was ever allocated, before or
        during the sequence, still has the stream that was given out for it first, and every
        multi stream still draws from the streams of the table. */
    method GetStreams(requests: seq<seq<uint32>>) returns (answers: seq<Answer>)
      requires Valid()
      modifies this
      ensures Valid() && Grown() && |answers| == |requests|
      ensures forall i :: 0 <= i < |requests| ==> Stands(requests[i], answers[i])
      ensures forall i :: 0 <= i < |answers| && answers[i].Multiple? ==> fresh(answers[i].multi)
    {
      answers := [];
      for i := 0 to |requests|
        invariant Valid() && Grown() && |answers| == i
        invariant forall k :: 0 <= k < i ==> Stands(requests[k], answers[k])
        invariant forall k :: 0 <= k < i && answers[k].Multiple? ==> fresh(answers[k].multi)
      {
        ghost var before := streams;
        var answer := GetStream(requests[i]);
        forall k | 0 <= k < i ensures Stands(requests[k], answers[k]) {
          assert forall id :: id in before ==> id in streams && streams[id] == before[id];
        }
        answers := answers + [answer];
      }
    }

    method Allocate(ids: seq<uint32>) returns (multi: MultiStream)
      requires Valid() && AllNew(streams, ids)
      modifies this
      ensures Valid() && Grown() && fresh(multi)
      ensures multi.count == |multi.sources| == |ids|
      ensures forall id :: id in streams <==> id in old(streams) || id in ids
      ensures Feeds(streams, multi.sources, ids)
    {
      hide Feeds;
      multi := new MultiStream();
      FeedsNone(streams);
      assert ids[..0] == [];
      for i := 0 to |ids|
        invariant fresh(multi) && Valid() && Grown()
        invariant multi.count == |multi.sources| == i
        invariant forall id :: id in streams <==> id in old(streams) || id in ids[..i]
        invariant Feeds(streams, multi.sources, ids[..i])
      {
        var stream := new Stream(ids[i]);
        assert stream !in multi.sources;
        FeedsOneMore(streams, multi.sources, ids[..i], stream);
        streams := streams[ids[i] := stream];
        multi.Append([stream]);
        assert ids[..i + 1] == ids[..i] + [ids[i]];
      }
      assert ids[..|ids|] == ids;
    }
  }
}

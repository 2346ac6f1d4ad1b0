/** Header decompression with history (chunk/default_normalizer.go). */
module Normalizers {
  import opened Bytes
  import opened Wire
  import opened Headers

  /** The two memories: the last header of any stream, and the last header of each stream. */
  datatype Memory = Memory(last: Option<Header>, headers: map<uint32, Header>)

  const EMPTY := Memory(None, map[])

  function FillPartial(last: Header, h: Header): Header {
    if h.basic.formatId == 1 then
      h.(message := h.message.(streamId := last.message.streamId))
    else if h.basic.formatId == 2 then
      h.(message := h.message.(streamId := last.message.streamId, length := last.message.length))
    else h
  }

  function FillEmpty(last: Header, h: Header): Header {
    if h.basic.formatId != 3 then h else h.(message := last.message)
  }

  function Fill(m: Memory, h: Header): Header {
    var h1 := if m.last.Some? then FillPartial(m.last.value, h) else h;
    if h.basic.streamId in m.headers then FillEmpty(m.headers[h.basic.streamId], h1) else h1
  }

  function Store(m: Memory, h: Header): Memory {
    Memory(Some(h), m.headers[h.basic.streamId := h])
  }

  /** A header that repeats itself is not the worse for having been half filled in. */
  lemma FillItself(last: Header, h: Header)
    ensures FillEmpty(FillPartial(last, h), FillPartial(last, h)) == FillEmpty(h, FillPartial(last, h))
  {
  }

  /** Storing a header that several entries refer to. */
  function StoreAt(m: Memory, ids: set<uint32>, h: Header): Memory {
    Memory(Some(h), map id | id in m.headers.Keys + ids :: if id in ids then h else m.headers[id])
  }

  lemma StoreAtOne(m: Memory, h: Header)
    ensures StoreAt(m, {h.basic.streamId}, h) == Store(m, h)
  {
  }

  // ----- the same thing without any memory: a search through the headers read so far -----

  /** The header that a type 3 header on stream `id` repeats: the most recent one that is
      not itself of type 3 or, should there be none, the first one. */
  function Origin(history: seq<Header>, id: uint32): (o: Option<nat>)
    ensures o.Some? ==> o.value < |history|
  {
    if history == [] then None
    else
      var last := |history| - 1;
      var before := Origin(history[..last], id);
      if history[last].basic.streamId != id then before
      else if history[last].basic.formatId == 3 && before.Some? then before
      else Some(last)
  }

  /** A header completed by looking back: types 1 and 2 take the message stream id, and type
      2 also the length, from the header before on whatever stream, completed in turn; type
      3 takes the whole message header of the header it repeats. */
  function Search(history: seq<Header>, h: Header): Header
    decreases |history|
  {
    if (h.basic.formatId == 1 || h.basic.formatId == 2) && history != [] then
      var before := Search(history[..|history| - 1], history[|history| - 1]).message;
      Header(h.basic,
             MessageHeader(h.message.formatId, h.message.timestamp, h.message.timestampDelta,
                           if h.basic.formatId == 1 then h.message.length else before.length,
                           h.message.typeId, before.streamId),
             h.extended)
    else if h.basic.formatId == 3 && Origin(history, h.basic.streamId).Some? then
      var j := Origin(history, h.basic.streamId).value;
      Header(h.basic, Search(history[..j], history[j]).message, h.extended)
    else h
  }

  predicate SentOn(h: Header, id: uint32) {
    h.basic.streamId == id
  }

  predicate Repeats(h: Header) {
    h.basic.formatId == 3
  }

  lemma {:induction false} OriginIsMostRecent(history: seq<Header>, id: uint32)
    ensures Origin(history, id).None? <==> forall k :: 0 <= k < |history| ==> !SentOn(history[k], id)
    ensures Origin(history, id).Some? ==>
              var j := Origin(history, id).value;
              && SentOn(history[j], id)
              && (forall k :: j < k < |history| && SentOn(history[k], id) ==> Repeats(history[k]))
              && (Repeats(history[j]) ==> forall k :: 0 <= k < j ==> !SentOn(history[k], id))
  {
    if history != [] {
      var before := history[..|history| - 1];
      OriginIsMostRecent(before, id);
      assert forall k :: 0 <= k < |before| ==> history[k] == before[k];
    }
  }

  /** The memories after normalising a sequence of raw headers, in order. */
  function Remember(history: seq<Header>): Memory {
    if history == [] then EMPTY
    else
      var m := Remember(history[..|history| - 1]);
      Store(m, Fill(m, history[|history| - 1]))
  }

  /** What the two memories hold, in terms of the history alone. */
  predicate Recalls(m: Memory, history: seq<Header>) {
    && (m.last == if history == [] then None
                  else Some(Search(history[..|history| - 1], history[|history| - 1])))
    && (forall id :: id in m.headers <==> Origin(history, id).Some?)
    && (forall id :: id in m.headers ==>
          var j := Origin(history, id).value;
          m.headers[id].message == Search(history[..j], history[j]).message)
  }

  /** The normaliser refines the search, for every history and every next header. */
  lemma {:induction false} NormalizerRefinesSearch(history: seq<Header>, h: Header)
    ensures Recalls(Remember(history), history)
    ensures Fill(Remember(history), h) == Search(history, h)
  {
    if history != [] {
      var before, last := history[..|history| - 1], history[|history| - 1];
      NormalizerRefinesSearch(before, last);
      var m := Remember(history);
      forall id | id in m.headers
        ensures var j := Origin(history, id).value;
                m.headers[id].message == Search(history[..j], history[j]).message
      {
        var j := Origin(history, id).value;
        if j < |before| {
          assert history[..j] == before[..j];
        }
      }
    }
  }

  /** A type 3 header takes over the whole message header of the most recent header on its
      chunk stream that was not of type 3. */
  lemma TypeThreeRepeatsMostRecent(history: seq<Header>, j: nat, h: Header)
    requires Repeats(h) && j < |history| && SentOn(history[j], h.basic.streamId) && !Repeats(history[j])
    requires forall k :: j < k < |history| && SentOn(history[k], h.basic.streamId) ==> Repeats(history[k])
    ensures Fill(Remember(history), h) == h.(message := Search(history[..j], history[j]).message)
  {
    NormalizerRefinesSearch(history, h);
    OriginIsMostRecent(history, h.basic.streamId);
  }

  /** Types 1 and 2 take the message stream id, and type 2 also the length and nothing else, from
      the completed header before, on whatever stream; type 0 takes nothing. */
  lemma TypesOneAndTwoFollowLast(history: seq<Header>, last: Header, h: Header)
    ensures var before, filled := Fill(Remember(history), last).message, Fill(Remember(history + [last]), h);
            && (h.basic.formatId as int == 0 ==> filled == h)
            && (h.basic.formatId as int == 1 ==> filled == h.(message := h.message.(streamId := before.streamId)))
            && (h.basic.formatId as int == 2 ==>
                  filled == h.(message := h.message.(streamId := before.streamId, length := before.length)))
  {
    assert (history + [last])[..|history|] == history;
  }

  lemma {:induction false} RememberPush(history: seq<Header>, h: Header)
    ensures Remember(history + [h]) == Store(Remember(history), Search(history, h))
  {
    assert (history + [h])[..|history|] == history;
    NormalizerRefinesSearch(history, h);
  }

  /** Only type 3 headers look at their own stream, and types 0 and above 3 at nothing. */
  lemma SearchKeepsBasic(history: seq<Header>, h: Header)
    ensures Search(history, h).basic == h.basic && Search(history, h).extended == h.extended
    ensures h.basic.formatId == 0 ==> Search(history, h) == h
  {
  }

  class DefaultNormalizer {
    var last: HeaderRef?
    var headers: map<uint32, HeaderRef>

    /** The values behind `last` and `headers`. */
    ghost var memory: Memory

    ghost predicate Valid()
      reads this, last, headers.Values
    {
      && memory.last == (if last == null then None else Some(last.Value()))
      && memory.headers.Keys == headers.Keys
      && forall id :: id in headers ==> headers[id].Value() == memory.headers[id]
    }

    /** The entries that refer to `h`. */
    ghost function Entries(h: HeaderRef): set<uint32>
      reads this
    {
      set id | id in headers && headers[id] == h
    }

    lemma OnlyEntry(h: HeaderRef, before: map<uint32, HeaderRef>)
      requires h !in before.Values && headers == before[h.basic.streamId := h]
      ensures Entries(h) == {h.basic.streamId}
    {
    }

    constructor ()
      ensures Valid() && last == null && headers == map[] && memory == EMPTY
    {
      last, headers, memory := null, map[], EMPTY;
    }

    /** No header other than `h` is written to. An `h` that was stored before, and
        that the caller has moved to another chunk stream since, changes in its old entry too. */
    method Normalize(h: HeaderRef) returns (r: HeaderRef)
      requires Valid()
      modifies this, h`message
      ensures Valid() && r == h && last == h && headers == old(headers)[h.basic.streamId := h]
      ensures h.Value() == Fill(old(memory), old(h.Value()))
      ensures memory == StoreAt(old(memory), Entries(h), h.Value())
    {
      hide FillPartial, FillEmpty, Store, StoreAt, Entries;
      var lastSameStream: HeaderRef? := if h.basic.streamId in headers then headers[h.basic.streamId] else null;
      if last != null {
        FillItself(last.Value(), h.Value());
        FillPartialHeader(last, h);
      }
      if lastSameStream != null {
        FillEmptyHeader(lastSameStream, h);
      }
      last := h;
      headers := headers[h.basic.streamId := h];
      Note(h);
      r := h;
    }

    /** Bring the values up to date after a change of `h` alone. */
    ghost method Note(h: HeaderRef)
      requires last == h && h.basic.streamId in headers && headers[h.basic.streamId] == h
      requires headers.Keys == memory.headers.Keys + {h.basic.streamId}
      requires forall id :: id in headers && headers[id] != h ==> headers[id].Value() == memory.headers[id]
      modifies this`memory
      ensures Valid() && memory == StoreAt(old(memory), Entries(h), h.Value())
    {
      memory := StoreAt(memory, Entries(h), h.Value());
    }

    method FillPartialHeader(last: HeaderRef, h: HeaderRef)
      modifies h`message
      ensures h.Value() == FillPartial(old(last.Value()), old(h.Value()))
    {
      var format := h.basic.formatId;
      if format != 1 && format != 2 {
        return;
      }
      h.message := h.message.(streamId := last.message.streamId);
      if format == 2 {
        h.message := h.message.(length := last.message.length);
      }
    }

    method FillEmptyHeader(last: HeaderRef, h: HeaderRef)
      modifies h`message
      ensures h.Value() == FillEmpty(old(last.Value()), old(h.Value()))
    {
      if h.basic.formatId != 3 {
        return;
      }
      h.message := last.message;
    }
  }
}

/** Cutting a message into fragments (chunk/default_writer.go). */
module Writers {
  import opened Bytes
  import opened Wire
  import opened Builders

  /** The one byte between two fragments: format 3, and the low six bits of the stream id. */
  function Continuation(id: uint32): byte {
    192 + id % 64
  }

  /** The payload with a separator after every fragment but the last. With a fragment size of
      zero and something to write, the source's loop would never end. */
  function Fragments(separator: seq<byte>, data: seq<byte>, size: nat): seq<byte>
    requires size >= 1 || data == []
    decreases |data|
  {
    if data == [] then []
    else if |data| <= size then data
    else data[..size] + separator + Fragments(separator, data[size..], size)
  }

  function WriteSeparated(c: Chunk, separator: seq<byte>, size: nat): seq<byte>
    requires size >= 1 || c.data == []
  {
    WriteHeader(c.header) + Fragments(separator, c.data, size)
  }

  /** What DefaultWriter writes. */
  function WriteChunk(c: Chunk, size: nat): seq<byte>
    requires size >= 1 || c.data == []
  {
    WriteSeparated(c, [Continuation(c.StreamId())], size)
  }

  // ----- what the fragments are -----

  /** The payload pieces with a separator between any two neighbours. */
  function Join(pieces: seq<seq<byte>>, separator: seq<byte>): seq<byte> {
    if pieces == [] then []
    else if |pieces| == 1 then pieces[0]
    else pieces[0] + separator + Join(pieces[1..], separator)
  }

  /** All pieces but the last are full, and the last is neither empty nor too long. */
  predicate WellCut(pieces: seq<seq<byte>>, size: nat) {
    && (forall k :: 0 <= k < |pieces| - 1 ==> |pieces[k]| == size)
    && (pieces != [] ==> 1 <= |pieces[|pieces| - 1]| <= size)
  }

  lemma {:induction false} JoinLength(pieces: seq<seq<byte>>, separator: seq<byte>)
    ensures |Join(pieces, separator)| == |Concat(pieces)| + if pieces == [] then 0 else (|pieces| - 1) * |separator|
  {
    if pieces != [] {
      ConcatCons(pieces[0], pieces[1..]);
      assert pieces == [pieces[0]] + pieces[1..];
      JoinLength(pieces[1..], separator);
      if |pieces| > 1 {
        assert (|pieces| - 1) * |separator| == |separator| + (|pieces| - 2) * |separator|;
      }
    }
  }

  /** The number of pieces is the payload length divided by the size, rounded up. */
  lemma {:induction false} PieceCount(pieces: seq<seq<byte>>, size: nat)
    requires WellCut(pieces, size) && pieces != []
    ensures (|pieces| - 1) * size < |Concat(pieces)| <= |pieces| * size
  {
    ConcatCons(pieces[0], pieces[1..]);
    assert pieces == [pieces[0]] + pieces[1..];
    if |pieces| > 1 {
      var rest := pieces[1..];
      assert forall k :: 0 <= k < |rest| ==> rest[k] == pieces[k + 1];
      PieceCount(rest, size);
      assert (|pieces| - 1) * size == (|rest| - 1) * size + size;
      assert |pieces| * size == |rest| * size + size;
    }
  }

  /** The output is the data cut into well-cut pieces and joined by the separators; it is
      longer than the data by one separator for every piece but the first. */
  lemma {:induction false} Fragmentation(separator: seq<byte>, data: seq<byte>, size: nat)
    returns (pieces: seq<seq<byte>>)
    requires size >= 1
    ensures WellCut(pieces, size) && Concat(pieces) == data
    ensures Fragments(separator, data, size) == Join(pieces, separator)
    ensures data == [] <==> pieces == []
    ensures data != [] ==> (|pieces| - 1) * size < |data| <= |pieces| * size
    ensures |Fragments(separator, data, size)| == |data| + if data == [] then 0 else (|pieces| - 1) * |separator|
    decreases |data|
  {
    if data == [] {
      pieces := [];
    } else if |data| <= size {
      pieces := [data];
      ConcatCons(data, []);
      assert pieces == [data] + [];
    } else {
      var rest := Fragmentation(separator, data[size..], size);
      pieces := [data[..size]] + rest;
      ConcatCons(data[..size], rest);
      assert pieces[1..] == rest;
      assert data == data[..size] + data[size..];
    }
    if data != [] {
      PieceCount(pieces, size);
      JoinLength(pieces, separator);
    }
  }

  /** All that DefaultWriter writes for a chunk: the header, and the pieces with one byte between
      any two, whose two high bits are set and whose others are the low six of the stream id. */
  lemma WriterOutput(c: Chunk, size: nat) returns (pieces: seq<seq<byte>>)
    requires size >= 1
    ensures WellCut(pieces, size) && Concat(pieces) == c.data
    ensures WriteChunk(c, size) == WriteHeader(c.header) + Join(pieces, [128 + 64 + c.header.basic.streamId % 64])
    ensures c.data != [] ==> (|pieces| - 1) * size < |c.data| <= |pieces| * size
    ensures |WriteChunk(c, size)|
         == |WriteHeader(c.header)| + |c.data| + if c.data == [] then 0 else |pieces| - 1
  {
    hide WriteHeader, Fragments, Join, WellCut;
    pieces := Fragmentation([Continuation(c.StreamId())], c.data, size);
  }

  /** What is left of the payload after some iterations of the loop. */
  function LeftAfter(data: seq<byte>, size: nat, iterations: nat): seq<byte>
    decreases iterations
  {
    if iterations == 0 then data else LeftAfter(data[Min(|data|, size)..], size, iterations - 1)
  }

  lemma {:induction false} LeftLength(data: seq<byte>, size: nat, iterations: nat)
    ensures size == 0 ==> LeftAfter(data, size, iterations) == data
    ensures size >= 1 && iterations >= |data| ==> LeftAfter(data, size, iterations) == []
    decreases iterations
  {
    if iterations > 0 {
      LeftLength(data[Min(|data|, size)..], size, iterations - 1);
    }
  }

  /** The loop comes to an end if and only if the size is positive or there is no payload. */
  lemma LoopEndsIff(data: seq<byte>, size: nat)
    ensures (exists iterations: nat :: LeftAfter(data, size, iterations) == []) <==> size >= 1 || data == []
  {
    if size >= 1 {
      LeftLength(data, size, |data|);
    } else {
      forall iterations: nat ensures LeftAfter(data, size, iterations) == data {
        LeftLength(data, size, iterations);
      }
      assert data == [] ==> LeftAfter(data, size, 0) == [];
    }
  }

  class DefaultWriter {
    const dest: Sink
    var writeSize: nat

    constructor (dest: Sink, writeSize: nat)
      ensures this.dest == dest && this.writeSize == writeSize
    {
      this.dest, this.writeSize := dest, writeSize;
    }

    method SetWriteSize(writeSize: nat)
      modifies this
      ensures this.writeSize == writeSize
    {
      this.writeSize := writeSize;
    }

    method Write(c: ChunkRef)
      requires writeSize >= 1 || c.data == []
      modifies dest
      ensures dest.data == old(dest.data) + WriteChunk(c.Value(), writeSize)
    {
      hide WriteHeader, Fragments;
      ghost var separator, total := [Continuation(c.header.basic.streamId)], WriteChunk(c.Value(), writeSize);
      var payload := new Source(c.data);
      var out := new Sink();
      c.header.Write(out);
      while |payload.data| > 0
        invariant writeSize >= 1 || payload.data == []
        invariant dest.data == old(dest.data)
        invariant out.data + Fragments(separator, payload.data, writeSize) == total
        decreases |payload.data|
      {
        FragmentsStep(separator, payload.data, writeSize, out.data);
        var part := payload.ReadBytes(Min(|payload.data|, writeSize));
        out.Write(part.value);
        if |payload.data| > 0 {
          out.Write([192 + c.header.basic.streamId % 64]);
        }
      }
      FragmentsEnd(separator, writeSize, out.data);
      dest.Write(out.data);
    }
  }

  lemma FragmentsStep(separator: seq<byte>, data: seq<byte>, size: nat, out: seq<byte>)
    requires size >= 1 && data != []
    ensures var n := Min(|data|, size);
            && (n < |data| ==>
                  ((out + data[..n]) + separator) + Fragments(separator, data[n..], size)
                  == out + Fragments(separator, data, size))
            && (n == |data| ==>
                  (out + data[..n]) + Fragments(separator, data[n..], size) == out + Fragments(separator, data, size))
  {
  }

  lemma FragmentsEnd(separator: seq<byte>, size: nat, out: seq<byte>)
    ensures out + Fragments(separator, [], size) == out
  {
  }
}

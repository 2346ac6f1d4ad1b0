/** Reassembly of one message (chunk/builder.go). */
module Builders {
  import opened Bytes
  import opened Wire
  import opened Headers

  /** A message under construction: the header it started with, the payloads so far, and
      the number of bytes still missing. */
  datatype Partial = Partial(header: Header, payloads: seq<seq<byte>>, left: int)

  function Start(h: Header): Partial {
    Partial(h, [], h.message.length)
  }

  function Extend(b: Partial, slice: seq<byte>): Partial {
    b.(payloads := b.payloads + [slice], left := b.left - |slice|)
  }

  function Concat(payloads: seq<seq<byte>>): seq<byte> {
    if payloads == [] then []
    else Concat(payloads[..|payloads| - 1]) + payloads[|payloads| - 1]
  }

  lemma ConcatPush(payloads: seq<seq<byte>>, p: seq<byte>)
    ensures Concat(payloads + [p]) == Concat(payloads) + p
  {
    assert (payloads + [p])[..|payloads|] == payloads;
  }

  lemma {:induction false} ConcatCons(p: seq<byte>, payloads: seq<seq<byte>>)
    ensures Concat([p] + payloads) == p + Concat(payloads)
  {
    var all, last := [p] + payloads, |payloads| - 1;
    if payloads == [] {
      assert all[..0] == [];
    } else {
      ConcatCons(p, payloads[..last]);
      assert all[..|payloads|] == [p] + payloads[..last];
      assert (p + Concat(payloads[..last])) + payloads[last] == p + (Concat(payloads[..last]) + payloads[last]);
    }
  }

  /** The object behind a *chunk.Chunk. */
  datatype ChunkRef = ChunkRef(header: HeaderRef, data: seq<byte>) {
    function Value(): Chunk
      reads header
    {
      Chunk(header.Value(), data)
    }
  }

  class Builder {
    const header: HeaderRef
    var payloads: seq<seq<byte>>
    var left: int

    ghost function Abs(): Partial
      reads this, header
    {
      Partial(header.Value(), payloads, left)
    }

    constructor (h: HeaderRef)
      ensures header == h && Abs() == Start(h.Value())
    {
      header, payloads, left := h, [], h.message.length;
    }

    method Build() returns (c: ChunkRef)
      ensures c == ChunkRef(header, Concat(payloads))
    {
      var payload: seq<byte> := [];
      for i := 0 to |payloads|
        invariant payload == Concat(payloads[..i])
      {
        ConcatPush(payloads[..i], payloads[i]);
        assert payloads[..i + 1] == payloads[..i] + [payloads[i]];
        payload := payload + payloads[i];
      }
      assert payloads[..|payloads|] == payloads;
      c := ChunkRef(header, payload);
    }

    /** A slice that is too long is kept all the same; only the error reports it. */
    method Append(slice: seq<byte>) returns (n: nat, err: Option<Error>)
      modifies this
      ensures n == |slice| && Abs() == Extend(old(Abs()), slice)
      ensures err == if old(left) < |slice| then Some(TooManyBytes) else None
    {
      payloads := payloads + [slice];
      left := left - |slice|;
      if left < 0 {
        return |slice|, Some(TooManyBytes);
      }
      return |slice|, None;
    }

    method Read(src: Source, n: nat) returns (read: nat, err: Option<Error>)
      modifies this, src
      ensures n > |old(src.data)| ==>
                err == Some(EndOfInput) && read == |old(src.data)| && src.data == [] && Abs() == old(Abs())
      ensures n <= |old(src.data)| ==>
                && read == n && src.data == old(src.data)[n..] && Abs() == Extend(old(Abs()), old(src.data)[..n])
                && err == if old(left) < n then Some(TooManyBytes) else None
    {
      var available := |src.data|;
      var buf := src.ReadBytes(n);
      if buf.None? {
        return available, Some(EndOfInput);
      }
      read, err := Append(buf.value);
    }

    method AddLeft(delta: int)
      modifies this`left
      ensures left == old(left) + delta
    {
      left := left + delta;
    }

    method BytesLeft() returns (n: int)
      ensures n == left
    {
      n := left;
    }
  }
}

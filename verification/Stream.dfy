/** A byte stream that arrives in pieces of any size, io.ReadFull on it, and writes that fail after some bytes. */
module Streams {
  import opened Common

  type Byte = b: int | 0 <= b < 256

  function Flat<T>(chunks: seq<seq<T>>): (r: seq<T>) {
    if chunks == [] then [] else chunks[0] + Flat(chunks[1..])
  }

  /** A connection's read side: each read takes bytes from the first piece that has arrived. */
  class Stream<T> {
    var chunks: seq<seq<T>>

    constructor (chunks: seq<seq<T>>)
      ensures this.chunks == chunks
    {
      this.chunks := chunks;
    }

    /** Everything still to come, however it is cut into pieces. */
    ghost function Rest(): seq<T>
      reads this
    {
      Flat(chunks)
    }

    /** The piece that has arrived; empty only at the end of the stream. */
    method Arrived() returns (piece: seq<T>)
      modifies this
      ensures Rest() == old(Rest())
      ensures piece == [] <==> Rest() == []
      ensures piece != [] ==> chunks != [] && piece == chunks[0] && piece <= Rest()
    {
      while chunks != [] && chunks[0] == []
        invariant Rest() == old(Rest())
        decreases |chunks|
      {
        chunks := chunks[1..];
      }
      piece := if chunks == [] then [] else chunks[0];
    }

    /** Takes the first n elements of the piece that has arrived. */
    method Take(n: nat) returns (data: seq<T>)
      requires chunks != [] && n <= |chunks[0]|
      modifies this
      ensures data == old(chunks[0][..n]) && data + Rest() == old(Rest())
    {
      ghost var was := chunks;
      data := chunks[0][..n];
      chunks := [chunks[0][n..]] + chunks[1..];
      assert was[0] == data + was[0][n..];
      assert chunks[1..] == was[1..];
    }

    /** One Read: some bytes, never more than asked for; none at all only at the end of the stream. */
    method Read(limit: nat) returns (data: seq<T>)
      requires limit > 0
      modifies this
      ensures |data| <= limit
      ensures data + Rest() == old(Rest())
      ensures data == [] ==> old(Rest()) == []
      ensures data == [] || |Rest()| < old(|Rest()|)
    {
      data := Arrived();
      if data != [] {
        data := Take(if |data| <= limit then |data| else limit);
      }
    }

    /** io.ReadFull: exactly `n` elements, or a failure that has consumed the stream. */
    method ReadFull(n: nat) returns (data: Option<seq<T>>)
      modifies this
      ensures data.Some? <==> |old(Rest())| >= n
      ensures data.Some? ==> data.value == old(Rest())[..n] && Rest() == old(Rest())[n..]
      ensures data.None? ==> Rest() == []
    {
      var got: seq<T> := [];
      while |got| < n
        invariant |got| <= n
        invariant got + Rest() == old(Rest())
        decreases n - |got|
      {
        var more := Read(n - |got|);
        if more == [] {
          assert Rest() == [];
          return None;
        }
        got := got + more;
      }
      data := Some(got);
    }
  }

  // ----- The write side of a connection that fails after some bytes

  /** As much of the data as there is room for. */
  function Cut(data: seq<Byte>, room: nat): seq<Byte> {
    if |data| <= room then data else data[..room]
  }

  function RoomAfter(data: seq<Byte>, room: nat): nat {
    if |data| <= room then room - |data| else 0
  }

  lemma CutAppend(a: seq<Byte>, b: seq<Byte>, room: nat)
    ensures Cut(a + b, room) == Cut(a, room) + Cut(b, RoomAfter(a, room))
    ensures RoomAfter(a + b, room) == RoomAfter(b, RoomAfter(a, room))
  {
  }
}

/**
 The bounded replay buffer of a terminal: a queue of chunks with absolute cursors, from which
 whole chunks are evicted at the front. `Ring` is its value, `ByteRing` the object that is updated
 in place, and `Holds` says which suffix of the whole output stream a ring still stores.
 */
module Rings {
  import opened Common

  newtype Byte = b: int | 0 <= b < 256

  type Bytes = seq<Byte>

  datatype Chunk = Chunk(start: nat, bytes: Bytes)

  datatype Ring = Ring(capacity: nat, chunks: seq<Chunk>, head: nat, tail: nat, sealed: bool)

  datatype Slice =
    | Replay(head: nat, tail: nat, bytes: Bytes)
    | Gap(head: nat, tail: nat)

  function Empty(capacity: nat): Ring {
    Ring(capacity, [], 0, 0, false)
  }

  function Flatten(chunks: seq<Chunk>): Bytes {
    if chunks == [] then [] else chunks[0].bytes + Flatten(chunks[1..])
  }

  function BufferedLen(chunks: seq<Chunk>): nat {
    if chunks == [] then 0 else |chunks[0].bytes| + BufferedLen(chunks[1..])
  }

  /** Drops chunks at the front until the buffer fits or one chunk is left. */
  function Evict(r: Ring): Ring
    decreases |r.chunks|
  {
    if BufferedLen(r.chunks) > r.capacity && |r.chunks| > 1 then
      Evict(r.(chunks := r.chunks[1..], head := r.head + |r.chunks[0].bytes|))
    else
      r
  }

  function Push(r: Ring, bytes: Bytes): Ring {
    r.(chunks := r.chunks + [Chunk(r.tail, bytes)], tail := r.tail + |bytes|)
  }

  function Append(r: Ring, bytes: Bytes): Ring {
    var evicted := Evict(Push(r, bytes));
    if r.capacity == 0 then evicted.(chunks := [], head := evicted.tail) else evicted
  }

  function Seal(r: Ring): Ring {
    r.(sealed := true)
  }

  /** What `slice_from` gathers from the chunks that end past `cursor`. */
  function Gather(chunks: seq<Chunk>, cursor: nat): Bytes {
    if chunks == [] then []
    else
      var c := chunks[0];
      var here :=
        if c.start + |c.bytes| <= cursor then []
        else c.bytes[Max(0, cursor - c.start)..];
      here + Gather(chunks[1..], cursor)
  }

  function SliceFrom(r: Ring, cursor: nat): Slice {
    if cursor < r.head then Gap(r.head, r.tail)
    else Replay(r.head, r.tail, Gather(r.chunks, cursor))
  }

  // ---------------------------------------------------------------------------
  // What the ring stores, relative to everything that was ever appended.

  predicate Contiguous(chunks: seq<Chunk>, from: nat) {
    chunks == [] || (chunks[0].start == from && Contiguous(chunks[1..], from + |chunks[0].bytes|))
  }

  ghost predicate Holds(r: Ring, stream: Bytes) {
    && r.tail == |stream|
    && r.head <= r.tail
    && Contiguous(r.chunks, r.head)
    && Flatten(r.chunks) == stream[r.head..]
  }

  lemma {:induction false} FlattenLength(chunks: seq<Chunk>)
    ensures |Flatten(chunks)| == BufferedLen(chunks)
  {
    if chunks != [] {
      FlattenLength(chunks[1..]);
    }
  }

  lemma {:induction false} PushKeepsShape(chunks: seq<Chunk>, from: nat, bytes: Bytes)
    requires Contiguous(chunks, from)
    ensures var more := chunks + [Chunk(from + BufferedLen(chunks), bytes)];
            && Contiguous(more, from)
            && Flatten(more) == Flatten(chunks) + bytes
            && BufferedLen(more) == BufferedLen(chunks) + |bytes|
  {
    var more := chunks + [Chunk(from + BufferedLen(chunks), bytes)];
    if chunks == [] {
      assert more[1..] == [];
    } else {
      PushKeepsShape(chunks[1..], from + |chunks[0].bytes|, bytes);
      assert more[1..] == chunks[1..] + [Chunk(from + BufferedLen(chunks), bytes)];
    }
  }

  lemma PushHolds(r: Ring, stream: Bytes, bytes: Bytes)
    requires Holds(r, stream)
    ensures Holds(Push(r, bytes), stream + bytes)
  {
    FlattenLength(r.chunks);
    PushKeepsShape(r.chunks, r.head, bytes);
    assert (stream + bytes)[r.head..] == stream[r.head..] + bytes;
  }

  lemma {:induction false} EvictHolds(r: Ring, stream: Bytes)
    requires Holds(r, stream)
    ensures Holds(Evict(r), stream)
    ensures Evict(r).capacity == r.capacity && Evict(r).sealed == r.sealed
    ensures r.chunks != [] ==>
              Evict(r).chunks != [] && Evict(r).chunks[|Evict(r).chunks| - 1] == r.chunks[|r.chunks| - 1]
    ensures BufferedLen(Evict(r).chunks) <= r.capacity || |Evict(r).chunks| <= 1
    decreases |r.chunks|
  {
    if BufferedLen(r.chunks) > r.capacity && |r.chunks| > 1 {
      var first := r.chunks[0].bytes;
      FlattenLength(r.chunks);
      assert stream[r.head..][|first|..] == stream[r.head + |first|..];
      assert Flatten(r.chunks)[|first|..] == Flatten(r.chunks[1..]);
      EvictHolds(r.(chunks := r.chunks[1..], head := r.head + |first|), stream);
    }
  }

  /** One append extends the stored suffix and keeps the buffer within its bound. */
  lemma AppendHolds(r: Ring, stream: Bytes, bytes: Bytes)
    requires Holds(r, stream)
    ensures Holds(Append(r, bytes), stream + bytes)
    ensures Append(r, bytes).capacity == r.capacity && Append(r, bytes).sealed == r.sealed
    ensures Append(r, bytes).tail - Append(r, bytes).head <= Max(r.capacity, |bytes|)
  {
    PushHolds(r, stream, bytes);
    var pushed := Push(r, bytes);
    EvictHolds(pushed, stream + bytes);
    var evicted := Evict(pushed);
    FlattenLength(evicted.chunks);
    if |evicted.chunks| == 1 {
      assert evicted.chunks[0] == Chunk(r.tail, bytes);
      assert evicted.chunks[1..] == [];
    }
    assert (stream + bytes)[|stream + bytes|..] == [];
  }

  lemma {:induction false} GatherFrom(chunks: seq<Chunk>, from: nat, cursor: nat)
    requires Contiguous(chunks, from)
    ensures cursor <= from ==> Gather(chunks, cursor) == Flatten(chunks)
    ensures cursor >= from + BufferedLen(chunks) ==> Gather(chunks, cursor) == []
    ensures from <= cursor <= from + BufferedLen(chunks) ==>
              cursor - from <= |Flatten(chunks)| && Gather(chunks, cursor) == Flatten(chunks)[cursor - from..]
  {
    FlattenLength(chunks);
    if chunks != [] {
      var first := chunks[0].bytes;
      var rest := chunks[1..];
      FlattenLength(rest);
      GatherFrom(rest, from + |first|, cursor);
      if from <= cursor <= from + |first| {
        assert (first + Flatten(rest))[cursor - from..] == first[cursor - from..] + Flatten(rest);
      } else if from + |first| < cursor <= from + BufferedLen(chunks) {
        assert (first + Flatten(rest))[cursor - from..] == Flatten(rest)[cursor - from - |first|..];
      }
    }
  }

  lemma GatherStep(chunks: seq<Chunk>, i: nat, cursor: nat, piece: Bytes)
    requires i < |chunks|
    requires var c := chunks[i];
             piece == if cursor < c.start + |c.bytes| then c.bytes[Max(0, cursor - c.start)..] else []
    ensures Gather(chunks[i..], cursor) == piece + Gather(chunks[i + 1..], cursor)
  {
    assert chunks[i..][1..] == chunks[i + 1..];
  }

  lemma CollectStep(chunks: seq<Chunk>, i: nat, cursor: nat, piece: Bytes, out: Bytes)
    requires i < |chunks|
    requires var c := chunks[i];
             piece == if cursor < c.start + |c.bytes| then c.bytes[Max(0, cursor - c.start)..] else []
    ensures (out + piece) + Gather(chunks[i + 1..], cursor) == out + Gather(chunks[i..], cursor)
  {
    GatherStep(chunks, i, cursor, piece);
  }

  /** Joins the bytes at or past the cursor. */
  method Collect(chunks: seq<Chunk>, cursor: nat) returns (out: Bytes)
    ensures out == Gather(chunks, cursor)
  {
    out := [];
    for i := 0 to |chunks|
      invariant out + Gather(chunks[i..], cursor) == Gather(chunks, cursor)
    {
      var c := chunks[i];
      var piece := if cursor < c.start + |c.bytes| then c.bytes[Max(0, cursor - c.start)..] else [];
      CollectStep(chunks, i, cursor, piece, out);
      out := out + piece;
    }
    assert chunks[|chunks|..] == [];
    assert out + [] == out;
  }

  /** A slice is refused exactly below the head; otherwise it is the stream from the cursor on. */
  lemma SliceIsStream(r: Ring, stream: Bytes, cursor: nat)
    requires Holds(r, stream)
    ensures SliceFrom(r, cursor).Gap? <==> cursor < r.head
    ensures cursor >= r.head ==>
              SliceFrom(r, cursor) == Replay(r.head, |stream|, stream[Min(cursor, |stream|)..])
  {
    FlattenLength(r.chunks);
    GatherFrom(r.chunks, r.head, cursor);
    if r.head <= cursor <= r.tail {
      assert stream[r.head..][cursor - r.head..] == stream[cursor..];
    }
  }

  // ---------------------------------------------------------------------------
  // Every sequence of appends.

  function AppendAll(r: Ring, appends: seq<Bytes>): Ring
    decreases |appends|
  {
    if appends == [] then r else AppendAll(Append(r, appends[0]), appends[1..])
  }

  function Concat(appends: seq<Bytes>): Bytes {
    if appends == [] then [] else appends[0] + Concat(appends[1..])
  }

  lemma {:induction false} AppendAllHolds(r: Ring, stream: Bytes, appends: seq<Bytes>)
    requires Holds(r, stream)
    ensures Holds(AppendAll(r, appends), stream + Concat(appends))
    ensures appends != [] ==>
              AppendAll(r, appends).tail - AppendAll(r, appends).head
              <= Max(r.capacity, |appends[|appends| - 1]|)
    decreases |appends|
  {
    if appends == [] {
      assert stream + Concat(appends) == stream;
    } else {
      AppendHolds(r, stream, appends[0]);
      AppendAllHolds(Append(r, appends[0]), stream + appends[0], appends[1..]);
      assert stream + Concat(appends) == stream + appends[0] + Concat(appends[1..]);
    }
  }

  /** After any appends, a fresh ring stores the last bytes of the whole stream, within its bound,
      and answers every cursor from that stream. */
  lemma RingAfterAppends(capacity: nat, appends: seq<Bytes>, cursor: nat)
    ensures var r := AppendAll(Empty(capacity), appends);
            var stream := Concat(appends);
            && r.tail == |stream|
            && r.head <= r.tail
            && Contiguous(r.chunks, r.head)
            && Flatten(r.chunks) == stream[r.head..]
            && (appends != [] ==> r.tail - r.head <= Max(capacity, |appends[|appends| - 1]|))
            && (SliceFrom(r, cursor).Gap? <==> cursor < r.head)
            && (cursor >= r.head ==>
                  SliceFrom(r, cursor) == Replay(r.head, |stream|, stream[Min(cursor, |stream|)..]))
  {
    AppendAllHolds(Empty(capacity), [], appends);
    assert [] + Concat(appends) == Concat(appends);
    SliceIsStream(AppendAll(Empty(capacity), appends), Concat(appends), cursor);
  }

  // ---------------------------------------------------------------------------
  // The object.

  class ByteRing {
    const capacity: nat
    var chunks: seq<Chunk>
    var cursorTail: nat
    var cursorHead: nat
    var sealed: bool
    ghost var stream: Bytes  // everything ever appended

    ghost function Value(): Ring
      reads this
    {
      Ring(capacity, chunks, cursorHead, cursorTail, sealed)
    }

    ghost predicate Valid()
      reads this
    {
      Holds(Value(), stream)
    }

    constructor (capacity: nat)
      ensures Valid() && stream == [] && Value() == Empty(capacity)
    {
      this.capacity := capacity;
      chunks, cursorTail, cursorHead, sealed := [], 0, 0, false;
      stream := [];
    }

    method Window() returns (head: nat, tail: nat)
      requires Valid()
      ensures head <= tail == |stream|
      ensures Flatten(chunks) == stream[head..]
    {
      head, tail := cursorHead, cursorTail;
    }

    method SealRing() returns (tail: nat)
      requires Valid()
      modifies this`sealed
      ensures Valid() && tail == |stream|
      ensures Value() == Seal(old(Value()))
    {
      sealed := true;
      tail := cursorTail;
    }

    method AppendChunk(bytes: Bytes) returns (start: nat, tail: nat)
      requires Valid() && !sealed
      modifies this
      ensures Valid()
      ensures stream == old(stream) + bytes
      ensures Value() == Append(old(Value()), bytes)
      ensures start == |old(stream)| && tail == |stream|
      ensures cursorTail - cursorHead <= Max(capacity, |bytes|)
    {
      AppendHolds(Value(), stream, bytes);
      start := cursorTail;
      cursorTail := cursorTail + |bytes|;
      chunks := chunks + [Chunk(start, bytes)];
      assert Value() == Push(old(Value()), bytes);
      while BufferedLen(chunks) > capacity && |chunks| > 1
        invariant Evict(Value()) == Evict(Push(old(Value()), bytes))
        invariant cursorTail == old(cursorTail) + |bytes|
        invariant sealed == old(sealed) && stream == old(stream)
        decreases |chunks|
      {
        cursorHead := cursorHead + |chunks[0].bytes|;
        chunks := chunks[1..];
      }
      if capacity == 0 {
        chunks := [];
        cursorHead := cursorTail;
      }
      tail := cursorTail;
      stream := stream + bytes;
    }

    method SliceOf(cursor: nat) returns (slice: Slice)
      requires Valid()
      ensures slice == SliceFrom(Value(), cursor)
      ensures slice.Gap? <==> cursor < cursorHead
      ensures slice.Replay? ==> slice.bytes == stream[Min(cursor, |stream|)..]
    {
      SliceIsStream(Value(), stream, cursor);
      if cursor < cursorHead {
        return Gap(cursorHead, cursorTail);
      }
      var out := Collect(chunks, cursor);
      slice := Replay(cursorHead, cursorTail, out);
    }
  }
}

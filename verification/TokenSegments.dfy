/** Logical token ranges cut at storage-chunk boundaries. */
module TokenSegments {
  import opened Division

  type Segment = (nat, nat)

  /** Where the chunk of a position ends. */
  function ChunkEnd(position: nat, size: nat): nat
    requires size > 0
  {
    (position / size + 1) * size
  }

  function Stop(start: nat, end: nat, size: nat): nat
    requires size > 0
  {
    if ChunkEnd(start, size) < end then ChunkEnd(start, size) else end
  }

  lemma ChunkContains(position: nat, size: nat)
    requires size > 0
    ensures (position / size) * size <= position < ChunkEnd(position, size)
    ensures (position / size) * size + size == ChunkEnd(position, size)
    ensures ChunkEnd(position, size) / size == position / size + 1 && ChunkEnd(position, size) % size == 0
  {
    var q := position / size;
    assert position == q * size + position % size;
    assert (q + 1) * size == q * size + size;
    DivUnique(ChunkEnd(position, size), size, q + 1, 0);
  }

  function SegmentsOf(start: nat, end: nat, size: nat): seq<Segment>
    requires size > 0
    decreases end - start
  {
    if start >= end then []
    else
      ChunkContains(start, size);
      [(start, Stop(start, end, size))] + SegmentsOf(Stop(start, end, size), end, size)
  }

  /** Segments follow each other from start to end. */
  ghost predicate Follow(s: seq<Segment>, start: nat, end: nat) {
    if s == [] then start == end
    else s[0].0 == start && s[0].0 < s[0].1 <= end && Follow(s[1..], s[0].1, end)
  }

  /** The segments tile the range. */
  lemma {:induction false} SegmentsTile(start: nat, end: nat, size: nat)
    requires size > 0 && start <= end
    ensures Follow(SegmentsOf(start, end, size), start, end)
    decreases end - start
  {
    if start < end {
      ChunkContains(start, size);
      SegmentsTile(Stop(start, end, size), end, size);
    }
  }

  /** A segment is the whole part of one chunk that lies in the range. */
  predicate WholeChunk(s: Segment, start: nat, end: nat, size: nat)
    requires size > 0
  {
    && start <= s.0 < s.1 <= end && s.1 <= ChunkEnd(s.0, size)
    && (s.0 == start || s.0 % size == 0) && (s.1 == end || s.1 % size == 0)
  }

  lemma {:induction false} SegmentsAreChunks(start: nat, end: nat, size: nat, from: nat)
    requires size > 0 && from <= start && (from == start || start % size == 0)
    ensures forall s :: s in SegmentsOf(start, end, size) ==> WholeChunk(s, from, end, size)
    decreases end - start
  {
    if start < end {
      ChunkContains(start, size);
      var stop := Stop(start, end, size);
      if stop < end { SegmentsAreChunks(stop, end, size, from); }
      var rest := SegmentsOf(stop, end, size);
      assert stop == end ==> rest == [];
      forall s | s in SegmentsOf(start, end, size) ensures WholeChunk(s, from, end, size) {
        if s != (start, stop) { assert s in rest; }
      }
    }
  }

  /** Split a range at the chunk boundaries inside it. */
  method Segments(start: nat, end: nat, size: nat) returns (s: seq<Segment>)
    requires size > 0
    ensures s == SegmentsOf(start, end, size)
    ensures start <= end ==> Follow(s, start, end)
    ensures forall g :: g in s ==> WholeChunk(g, start, end, size)
  {
    s := [];
    var at := start;
    while at < end
      invariant start <= at
      invariant s + SegmentsOf(at, end, size) == SegmentsOf(start, end, size)
      decreases end - at
    {
      ChunkContains(at, size);
      var stop := Stop(at, end, size);
      s := s + [(at, stop)];
      at := stop;
    }
    if start <= end { SegmentsTile(start, end, size); }
    SegmentsAreChunks(start, end, size, start);
  }
}

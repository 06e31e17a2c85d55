/** Hashing paged segments in batches of equal span, against hashing them one by one. */
module PagedTrace {
  import opened Basics
  import opened Division
  import opened Checksums
  import opened TokenSegments

  const MAX_HASH_BYTES := 4 * 1024 * 1024

  /** One component: physical rows of equal width. */
  datatype Plane = Plane(rows: seq<seq<Byte>>, width: nat)

  predicate PlaneOk(plane: Plane) { plane.width > 0 && forall r :: r in plane.rows ==> |r| == plane.width }

  /** How logical positions reach physical rows. */
  datatype Paging = Paging(table: seq<int>, blockMap: Option<seq<int>>, blockSize: nat, factor: nat)

  /** The physical block of a position, or nothing when a lookup is out of range. */
  function Block(g: Paging, position: nat): Option<int>
    requires g.blockSize > 0
  {
    if position / g.blockSize >= |g.table| then None
    else
      var block := g.table[position / g.blockSize];
      if g.blockMap.None? then Some(block)
      else if 0 <= block < |g.blockMap.value| then Some(g.blockMap.value[block]) else None
  }

  function Slot(g: Paging, position: nat): Option<int>
    requires g.blockSize > 0
  {
    match Block(g, position)
    case None => None
    case Some(block) => Some(block * (g.blockSize * g.factor) + position % g.blockSize)
  }

  predicate Mapped(plane: Plane, g: Paging, position: nat)
    requires g.blockSize > 0
  {
    Slot(g, position).Some? && 0 <= Slot(g, position).value < |plane.rows|
  }

  ghost predicate AllMapped(plane: Plane, g: Paging, begin: nat, stop: nat)
    requires g.blockSize > 0
  {
    forall p :: begin <= p < stop ==> Mapped(plane, g, p)
  }

  lemma BytesLength(begin: nat, stop: nat, width: nat)
    requires begin < stop
    ensures (stop - begin) * width == (stop - 1 - begin) * width + width
  {
  }

  /** The bytes of a logical range, position after position. */
  function Bytes(plane: Plane, g: Paging, begin: nat, stop: nat): (b: seq<Byte>)
    requires g.blockSize > 0 && PlaneOk(plane) && AllMapped(plane, g, begin, stop)
    ensures begin <= stop ==> |b| == (stop - begin) * plane.width
  {
    if begin >= stop then []
    else
      assert Mapped(plane, g, stop - 1);
      BytesLength(begin, stop, plane.width);
      Bytes(plane, g, begin, stop - 1) + plane.rows[Slot(g, stop - 1).value]
  }

  lemma {:induction false} BytesSplit(plane: Plane, g: Paging, a: nat, b: nat, c: nat)
    requires g.blockSize > 0 && PlaneOk(plane) && a <= b <= c && AllMapped(plane, g, a, c)
    ensures Bytes(plane, g, a, c) == Bytes(plane, g, a, b) + Bytes(plane, g, b, c)
    decreases c
  {
    if b < c { BytesSplit(plane, g, a, b, c - 1); }
  }

  /** The digest of every segment on its own. */
  function Digests(plane: Plane, g: Paging, s: seq<Segment>): (r: seq<Digest>)
    requires g.blockSize > 0 && PlaneOk(plane)
    requires forall x :: x in s ==> x.0 <= x.1 && AllMapped(plane, g, x.0, x.1) && Short(Bytes(plane, g, x.0, x.1))
    ensures |r| == |s|
  {
    if s == [] then [] else Digests(plane, g, s[..|s| - 1]) + [ContentChecksum(Bytes(plane, g, s[|s| - 1].0, s[|s| - 1].1))]
  }

  /** Rows of a batch: the gathered bytes cut into equal parts. */
  function BatchDigests(raw: seq<Byte>, rows: nat, length: nat): (r: seq<Digest>)
    requires |raw| == rows * length && length < M / 2
    ensures |r| == rows
  {
    if rows == 0 then []
    else
      OneRowLess(rows, length);
      BatchDigests(raw[..|raw| - length], rows - 1, length) + [ContentChecksum(raw[|raw| - length..])]
  }

  lemma OneRowLess(rows: nat, length: nat)
    requires rows > 0
    ensures 0 <= rows * length - length == (rows - 1) * length
  {
    assert (rows - 1) * length == rows * length - length;
    MulNat(rows - 1, length);
  }

  function Span(s: Segment): int {
    var a: int, b: int := s.0, s.1;
    b - a
  }

  /** Segments of one span, each starting where the one before it stops. */
  ghost predicate Even(s: seq<Segment>, span: int) {
    && (forall j {:trigger s[j]} :: 0 <= j < |s| ==> Span(s[j]) == span)
    && (forall i, j :: 0 <= i && j == i + 1 < |s| ==> s[j].0 == s[i].1)
  }

  /** What a batch may hash: mapped segments whose lengths fit the device's 32 bits. */
  ghost predicate Hashable(plane: Plane, g: Paging, s: seq<Segment>)
    requires g.blockSize > 0 && PlaneOk(plane)
  {
    forall x :: x in s ==> HashableOne(plane, g, x)
  }

  ghost predicate HashableOne(plane: Plane, g: Paging, x: Segment)
    requires g.blockSize > 0 && PlaneOk(plane)
  {
    x.0 <= x.1 && AllMapped(plane, g, x.0, x.1) && Short(Bytes(plane, g, x.0, x.1))
  }

  /** Hashing a batch as a matrix gives the digests of its segments, one by one. */
  lemma {:induction false} BatchIsEach(plane: Plane, g: Paging, s: seq<Segment>, span: nat)
    requires g.blockSize > 0 && PlaneOk(plane) && s != [] && Even(s, span) && span * plane.width < M / 2
    requires AllMapped(plane, g, s[0].0, s[|s| - 1].1) && s[0].0 <= s[|s| - 1].0
    ensures Hashable(plane, g, s) && s[0].0 <= s[|s| - 1].1
    ensures |Bytes(plane, g, s[0].0, s[|s| - 1].1)| == |s| * (span * plane.width)
    ensures BatchDigests(Bytes(plane, g, s[0].0, s[|s| - 1].1), |s|, span * plane.width) == Digests(plane, g, s)
    decreases |s|
  {
    hide Mapped, PlaneOk, ContentChecksum, Bytes, Short;
    var n, length := |s|, span * plane.width;
    var last := s[n - 1];
    assert Span(last) == span;
    LastIsHashable(plane, g, last, span);
    if n == 1 {
      OneSegment(plane, g, s, length);
    } else {
      var front := s[..n - 1];
      EvenFront(s, span);
      BatchIsEach(plane, g, front, span);
      BytesSplit(plane, g, s[0].0, last.0, last.1);
      AppendSegment(plane, g, front, last, Bytes(plane, g, s[0].0, last.0), Bytes(plane, g, last.0, last.1), length);
      assert s == front + [last];
    }
  }

  lemma EvenFront(s: seq<Segment>, span: nat)
    requires |s| > 1 && Even(s, span) && s[0].0 <= s[|s| - 1].0
    ensures Even(s[..|s| - 1], span) && s[|s| - 2].1 == s[|s| - 1].0 && s[0].0 <= s[|s| - 2].0
  {
    StartsGrow(s, span, |s| - 2);
  }

  lemma {:induction false} StartsGrow(s: seq<Segment>, span: nat, j: nat)
    requires Even(s, span) && j < |s|
    ensures s[0].0 <= s[j].0
    decreases j
  {
    if j > 0 {
      StartsGrow(s, span, j - 1);
      assert Span(s[j - 1]) == span;
    }
  }

  lemma LastIsHashable(plane: Plane, g: Paging, x: Segment, span: nat)
    requires g.blockSize > 0 && PlaneOk(plane) && Span(x) == span && span * plane.width < M / 2
    requires AllMapped(plane, g, x.0, x.1)
    ensures HashableOne(plane, g, x) && |Bytes(plane, g, x.0, x.1)| == span * plane.width
  {
    hide Mapped, PlaneOk, Bytes;
  }

  lemma OneSegment(plane: Plane, g: Paging, s: seq<Segment>, length: nat)
    requires g.blockSize > 0 && PlaneOk(plane) && |s| == 1 && HashableOne(plane, g, s[0])
    requires |Bytes(plane, g, s[0].0, s[0].1)| == length < M / 2
    ensures BatchDigests(Bytes(plane, g, s[0].0, s[0].1), 1, length) == Digests(plane, g, s)
  {
    hide Mapped, PlaneOk, Bytes, ContentChecksum;
    var raw := Bytes(plane, g, s[0].0, s[0].1);
    assert raw[|raw| - length..] == raw;
  }

  lemma AppendSegment(plane: Plane, g: Paging, front: seq<Segment>, last: Segment, x: seq<Byte>, y: seq<Byte>, length: nat)
    requires g.blockSize > 0 && PlaneOk(plane) && Hashable(plane, g, front) && HashableOne(plane, g, last)
    requires y == Bytes(plane, g, last.0, last.1) && |y| == length < M / 2 && |x| == |front| * length
    requires BatchDigests(x, |front|, length) == Digests(plane, g, front)
    ensures Hashable(plane, g, front + [last]) && |x + y| == (|front| + 1) * length
    ensures BatchDigests(x + y, |front| + 1, length) == Digests(plane, g, front + [last])
  {
    hide Mapped, PlaneOk, Bytes, ContentChecksum;
    OneRowLess(|front| + 1, length);
    assert (x + y)[..|x + y| - length] == x && (x + y)[|x + y| - length..] == y;
    assert (front + [last])[..|front|] == front;
  }

  lemma {:induction false} FollowByIndex(s: seq<Segment>, start: nat, end: nat, i: nat)
    requires Follow(s, start, end) && i < |s|
    ensures s[i].0 < s[i].1 && start <= s[i].0 && s[i].1 <= end
    ensures i + 1 < |s| ==> s[i + 1].0 == s[i].1
    decreases i
  {
    if i > 0 { FollowByIndex(s[1..], s[0].1, end, i - 1); }
  }

  /** Segments of equal span that follow each other make an even batch. */
  lemma EqualSpansAreEven(s: seq<Segment>, start: nat, end: nat, from: nat, till: nat, span: int)
    requires Follow(s, start, end) && from < till <= |s|
    requires forall j :: from <= j < till ==> Span(s[j]) == span
    ensures Even(s[from..till], span) && span >= 0 && s[from].0 <= s[till - 1].0
  {
    var part := s[from..till];
    FollowByIndex(s, start, end, from);
    forall i, j | 0 <= i && j == i + 1 < |part| ensures part[j].0 == part[i].1 { FollowByIndex(s, start, end, from + i); }
    StartsGrow(part, span, |part| - 1);
  }

  lemma NoBytes(plane: Plane, g: Paging, begin: nat)
    requires g.blockSize > 0 && PlaneOk(plane)
    ensures AllMapped(plane, g, begin, begin) && Bytes(plane, g, begin, begin) == []
  {
  }

  /** Gather the rows of a range through the block table; any lookup out of range is an error. */
  method Gather(plane: Plane, g: Paging, begin: nat, stop: nat) returns (raw: Result<seq<Byte>, ()>)
    requires g.blockSize > 0 && PlaneOk(plane)
    ensures raw.Ok? <==> AllMapped(plane, g, begin, stop)
    ensures raw.Ok? ==> raw.value == Bytes(plane, g, begin, stop)
  {
    hide PlaneOk, Bytes, Slot, Mapped;
    var bytes: seq<Byte> := [];
    var position := begin;
    NoBytes(plane, g, begin);
    while position < stop
      invariant begin <= position && AllMapped(plane, g, begin, position) && (begin <= stop ==> position <= stop)
      invariant begin >= stop ==> position == begin
      invariant bytes == Bytes(plane, g, begin, position)
    {
      GatherStep(plane, g, begin, position);
      var slot := Slot(g, position);
      if slot.None? || slot.value < 0 || slot.value >= |plane.rows| { return Err(()); }
      bytes := bytes + plane.rows[slot.value];
      position := position + 1;
    }
    if begin >= stop { NoBytesBack(plane, g, begin, stop); }
    raw := Ok(bytes);
  }

  lemma NoBytesBack(plane: Plane, g: Paging, begin: nat, stop: nat)
    requires g.blockSize > 0 && PlaneOk(plane) && begin >= stop
    ensures AllMapped(plane, g, begin, stop) && Bytes(plane, g, begin, stop) == []
  {
  }

  lemma GatherStep(plane: Plane, g: Paging, begin: nat, position: nat)
    requires g.blockSize > 0 && PlaneOk(plane) && begin <= position && AllMapped(plane, g, begin, position)
    ensures Mapped(plane, g, position) <==> Slot(g, position).Some? && 0 <= Slot(g, position).value < |plane.rows|
    ensures Mapped(plane, g, position) ==> AllMapped(plane, g, begin, position + 1)
    ensures Mapped(plane, g, position) ==>
      Bytes(plane, g, begin, position + 1) == Bytes(plane, g, begin, position) + plane.rows[Slot(g, position).value]
  {
  }

  /** How many segments from the cursor on go into one batch. */
  method NextBatch(pending: seq<Segment>, cursor: nat, maxSegments: nat) returns (stop: nat)
    requires cursor < |pending| && maxSegments > 0
    ensures cursor < stop <= |pending|
    ensures forall j :: cursor <= j < stop ==> Span(pending[j]) == Span(pending[cursor])
  {
    var span := Span(pending[cursor]);
    stop := cursor + 1;
    while stop < |pending| && stop - cursor < maxSegments && Span(pending[stop]) == span
      invariant cursor < stop <= |pending|
      invariant forall j :: cursor <= j < stop ==> Span(pending[j]) == span
    {
      stop := stop + 1;
    }
  }

  /** One batch of one component. */
  method HashBatch(plane: Plane, g: Paging, pending: seq<Segment>, cursor: nat, stop: nat, ghost start: nat, ghost end: nat)
    returns (digests: Result<seq<Digest>, ()>)
    requires g.blockSize > 0 && PlaneOk(plane) && Follow(pending, start, end) && cursor < stop <= |pending|
    requires forall j :: cursor <= j < stop ==> Span(pending[j]) == Span(pending[cursor])
    requires Span(pending[cursor]) * plane.width < M / 2
    ensures digests.Ok? <==> AllMapped(plane, g, pending[cursor].0, pending[stop - 1].1)
    ensures digests.Ok? ==> Hashable(plane, g, pending[cursor..stop]) && digests.value == Digests(plane, g, pending[cursor..stop])
  {
    hide Mapped, ContentChecksum, PlaneOk;
    var begin, last := pending[cursor].0, pending[stop - 1].1;
    var raw := Gather(plane, g, begin, last);
    if raw.Err? { return Err(()); }
    FollowByIndex(pending, start, end, cursor);
    ghost var span := Span(pending[cursor]);
    EqualSpansAreEven(pending, start, end, cursor, stop, span);
    BatchIsEach(plane, g, pending[cursor..stop], span);
    MulNat(Span(pending[cursor]), plane.width);
    var length := Span(pending[cursor]) * plane.width;
    digests := Ok(BatchDigests(raw.value, stop - cursor, length));
  }

  /** The digests of all segments of all components, whatever the batch limit. */
  method Paged(planes: seq<Plane>, g: Paging, start: nat, end: nat, segmentSize: nat)
    returns (r: Result<(seq<seq<Digest>>, seq<Segment>), ()>)
    requires planes != [] && g.blockSize > 0 && segmentSize > 0
    requires forall plane :: plane in planes ==> PlaneOk(plane) && segmentSize * plane.width < M / 2
    ensures r.Ok? <==> forall plane :: plane in planes ==> AllMapped(plane, g, start, end)
    ensures r.Ok? ==> r.value.1 == SegmentsOf(start, end, segmentSize) && |r.value.0| == |planes|
    ensures r.Ok? ==> forall c :: 0 <= c < |planes| ==>
      Hashable(planes[c], g, r.value.1) && r.value.0[c] == Digests(planes[c], g, r.value.1)
  {
    hide Mapped, PlaneOk, Digests, SegmentsOf, WholeChunk;
    var pending := Segments(start, end, segmentSize);
    var width := Widest(planes);
    var maxSegments := if MAX_HASH_BYTES / (segmentSize * width) > 1 then MAX_HASH_BYTES / (segmentSize * width) else 1;
    var rows: seq<seq<Digest>> := seq(|planes|, _ => []);
    var cursor := 0;
    NothingHashed(planes, g, pending);
    while cursor < |pending|
      invariant cursor <= |pending| && |rows| == |planes|
      invariant forall c :: 0 <= c < |planes| ==> Hashed(planes[c], g, pending[..cursor], rows[c])
      decreases |pending| - cursor
    {
      var stop := NextBatch(pending, cursor, maxSegments);
      SegmentsFit(start, end, segmentSize, pending, cursor);
      var more := HashComponents(planes, g, pending, cursor, stop, rows, start, end, segmentSize);
      if more.Err? { return Err(()); }
      rows := more.value;
      cursor := stop;
    }
    assert pending[..|pending|] == pending;
    EverythingMapped(planes, g, pending, start, end, rows);
    r := Ok((rows, pending));
  }

  /** The digests gathered for a component so far. */
  ghost predicate Hashed(plane: Plane, g: Paging, s: seq<Segment>, rows: seq<Digest>)
    requires g.blockSize > 0
  {
    PlaneOk(plane) && Hashable(plane, g, s) && rows == Digests(plane, g, s)
  }

  method Widest(planes: seq<Plane>) returns (width: nat)
    requires planes != [] && forall plane :: plane in planes ==> PlaneOk(plane)
    ensures width > 0 && forall plane :: plane in planes ==> plane.width <= width
  {
    assert planes[0] in planes;
    width := planes[0].width;
    for i := 1 to |planes|
      invariant width > 0 && forall k :: 0 <= k < i ==> planes[k].width <= width
    {
      assert planes[i] in planes;
      if planes[i].width > width { width := planes[i].width; }
    }
  }

  lemma NothingHashed(planes: seq<Plane>, g: Paging, pending: seq<Segment>)
    requires g.blockSize > 0 && forall plane :: plane in planes ==> PlaneOk(plane)
    ensures forall c :: 0 <= c < |planes| ==> Hashed(planes[c], g, pending[..0], [])
  {
    hide PlaneOk;
    forall c | 0 <= c < |planes| ensures Hashed(planes[c], g, pending[..0], []) { assert planes[c] in planes; }
  }

  lemma SegmentsFit(start: nat, end: nat, size: nat, pending: seq<Segment>, cursor: nat)
    requires size > 0 && pending == SegmentsOf(start, end, size) && cursor < |pending|
    ensures start <= end && Follow(pending, start, end) && 0 < Span(pending[cursor]) <= size
  {
    if start <= end { SegmentsTile(start, end, size); }
    FollowByIndex(pending, start, end, cursor);
    SegmentsAreChunks(start, end, size, start);
    assert WholeChunk(pending[cursor], start, end, size);
    ChunkContains(pending[cursor].0, size);
  }

  /** One batch of every component. */
  method HashComponents(planes: seq<Plane>, g: Paging, pending: seq<Segment>, cursor: nat, stop: nat, rows: seq<seq<Digest>>,
                        ghost start: nat, ghost end: nat, ghost size: nat)
    returns (more: Result<seq<seq<Digest>>, ()>)
    requires g.blockSize > 0 && |rows| == |planes| && cursor < stop <= |pending| && Follow(pending, start, end)
    requires forall plane :: plane in planes ==> PlaneOk(plane) && size * plane.width < M / 2
    requires 0 < Span(pending[cursor]) <= size && forall j :: cursor <= j < stop ==> Span(pending[j]) == Span(pending[cursor])
    requires forall c :: 0 <= c < |planes| ==> Hashed(planes[c], g, pending[..cursor], rows[c])
    ensures more.Ok? ==> |more.value| == |planes|
    ensures more.Ok? ==> forall c :: 0 <= c < |planes| ==> Hashed(planes[c], g, pending[..stop], more.value[c])
    ensures more.Err? ==> exists plane :: plane in planes && !AllMapped(plane, g, start, end)
  {
    hide Mapped, PlaneOk, Digests, Hashed;
    var next: seq<seq<Digest>> := [];
    for c := 0 to |planes|
      invariant |next| == c
      invariant forall k :: 0 <= k < c ==> Hashed(planes[k], g, pending[..stop], next[k])
    {
      assert planes[c] in planes;
      MulMonotone(Span(pending[cursor]), size, planes[c].width);
      var digests := HashBatch(planes[c], g, pending, cursor, stop, start, end);
      if digests.Err? {
        UnmappedInside(planes[c], g, pending, cursor, stop, start, end);
        return Err(());
      }
      HashedMore(planes[c], g, pending, cursor, stop, rows[c], digests.value);
      next := next + [rows[c] + digests.value];
    }
    more := Ok(next);
  }

  lemma UnmappedInside(plane: Plane, g: Paging, pending: seq<Segment>, cursor: nat, stop: nat, start: nat, end: nat)
    requires g.blockSize > 0 && cursor < stop <= |pending| && Follow(pending, start, end)
    requires !AllMapped(plane, g, pending[cursor].0, pending[stop - 1].1)
    ensures !AllMapped(plane, g, start, end)
  {
    hide Mapped;
    FollowByIndex(pending, start, end, cursor);
    FollowByIndex(pending, start, end, stop - 1);
  }

  lemma HashedMore(plane: Plane, g: Paging, pending: seq<Segment>, cursor: nat, stop: nat, rows: seq<Digest>, digests: seq<Digest>)
    requires g.blockSize > 0 && cursor < stop <= |pending| && Hashed(plane, g, pending[..cursor], rows)
    requires PlaneOk(plane) && Hashable(plane, g, pending[cursor..stop]) && digests == Digests(plane, g, pending[cursor..stop])
    ensures Hashed(plane, g, pending[..stop], rows + digests)
  {
    hide Mapped, PlaneOk, Digests, HashableOne;
    DigestsConcat(plane, g, pending[..cursor], pending[cursor..stop]);
    assert pending[..stop] == pending[..cursor] + pending[cursor..stop];
  }

  lemma {:induction false} DigestsConcat(plane: Plane, g: Paging, x: seq<Segment>, y: seq<Segment>)
    requires g.blockSize > 0 && PlaneOk(plane) && Hashable(plane, g, x) && Hashable(plane, g, y)
    ensures Hashable(plane, g, x + y) && Digests(plane, g, x + y) == Digests(plane, g, x) + Digests(plane, g, y)
    decreases |y|
  {
    hide Mapped, PlaneOk, ContentChecksum, Bytes, Short;
    if y == [] {
      assert x + y == x;
    } else {
      DigestsConcat(plane, g, x, y[..|y| - 1]);
      assert (x + y)[..|x + y| - 1] == x + y[..|y| - 1];
    }
  }

  lemma EverythingMapped(planes: seq<Plane>, g: Paging, pending: seq<Segment>, start: nat, end: nat, rows: seq<seq<Digest>>)
    requires g.blockSize > 0 && |rows| == |planes| && (start <= end ==> Follow(pending, start, end))
    requires forall c :: 0 <= c < |planes| ==> Hashed(planes[c], g, pending, rows[c])
    ensures forall plane :: plane in planes ==> AllMapped(plane, g, start, end)
  {
    hide Mapped, PlaneOk, Digests;
    forall plane | plane in planes ensures AllMapped(plane, g, start, end) {
      var c :| 0 <= c < |planes| && planes[c] == plane;
      if start <= end { FollowMapped(plane, g, pending, start, end); }
    }
  }

  lemma {:induction false} FollowMapped(plane: Plane, g: Paging, s: seq<Segment>, start: nat, end: nat)
    requires g.blockSize > 0 && PlaneOk(plane) && Follow(s, start, end) && Hashable(plane, g, s)
    ensures AllMapped(plane, g, start, end)
    decreases |s|
  {
    hide Mapped, PlaneOk, Bytes;
    if s != [] {
      assert HashableOne(plane, g, s[0]);
      FollowMapped(plane, g, s[1..], s[0].1, end);
    }
  }
}

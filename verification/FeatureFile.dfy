/** The append-only feature log: observations refer to immutable byte ranges that later
    observations may share. */
module FeatureFile {
  import opened Basics
  import opened Division
  import opened Checksums
  import opened TokenSegments

  const BLOCK_TOKENS := 4096

  /** What identifies an extent for reuse. */
  datatype Key = Key(group: int, layer: int, component: int, kind: string, begin: nat, stop: nat, width: nat)

  datatype Record = Record(group: int, layer: int, component: int, kind: string, start: nat, end: nat, width: nat)

  /** A piece of an observation: tokens [begin, stop) stored at an offset of the payload. */
  datatype Piece = Piece(begin: nat, stop: nat, offset: nat)

  datatype Observation = Observation(record: Record, number: nat, pieces: seq<Piece>)

  datatype WriteError = LengthDisagrees

  /** What a piece reads back. */
  function PieceBytes(payload: seq<Byte>, p: Piece, width: nat): seq<Byte>
    requires Stored(payload, p, width)
  {
    payload[p.offset..p.offset + (p.stop - p.begin) * width]
  }

  predicate Stored(payload: seq<Byte>, p: Piece, width: nat) {
    p.begin <= p.stop && 0 <= (p.stop - p.begin) * width && p.offset + (p.stop - p.begin) * width <= |payload|
  }

  /** What an observation reads back: its pieces in order. */
  function Decoded(payload: seq<Byte>, pieces: seq<Piece>, width: nat): seq<Byte>
    requires forall p :: p in pieces ==> Stored(payload, p, width)
  {
    if pieces == [] then []
    else Decoded(payload, pieces[..|pieces| - 1], width) + PieceBytes(payload, pieces[|pieces| - 1], width)
  }

  /** Appending to the payload changes nothing that was stored. */
  lemma {:induction false} DecodedLater(payload: seq<Byte>, more: seq<Byte>, pieces: seq<Piece>, width: nat)
    requires payload <= more && forall p :: p in pieces ==> Stored(payload, p, width)
    ensures forall p :: p in pieces ==> Stored(more, p, width)
    ensures Decoded(more, pieces, width) == Decoded(payload, pieces, width)
    decreases |pieces|
  {
    if pieces != [] {
      var front, last := pieces[..|pieces| - 1], pieces[|pieces| - 1];
      assert Stored(payload, last, width);
      DecodedLater(payload, more, front, width);
      assert PieceBytes(more, last, width) == PieceBytes(payload, last, width);
    }
  }

  ghost predicate Reads(payload: seq<Byte>, o: Observation, given: seq<Byte>) {
    (forall p :: p in o.pieces ==> Stored(payload, p, o.record.width)) && Decoded(payload, o.pieces, o.record.width) == given
  }

  /** An extent remembered for reuse is in the payload where it says. */
  ghost predicate Kept(payload: seq<Byte>, data: seq<Byte>, offset: nat) {
    offset + |data| <= |payload| && payload[offset..offset + |data|] == data
  }

  function Length(record: Record): int {
    var a: int, b: int := record.start, record.end;
    (b - a) * record.width
  }

  function KeyOf(record: Record, span: Segment): Key {
    Key(record.group, record.layer, record.component, record.kind, span.0, span.1, record.width)
  }

  lemma Inside(record: Record, raw: seq<Byte>, span: Segment)
    requires |raw| == Length(record) && record.start <= span.0 <= span.1 <= record.end
    ensures 0 <= (span.0 - record.start) * record.width <= (span.1 - record.start) * record.width <= |raw|
    ensures (span.1 - record.start) * record.width - (span.0 - record.start) * record.width == (span.1 - span.0) * record.width
  {
    MulNat(span.0 - record.start, record.width);
    MulMonotone(span.0 - record.start, span.1 - record.start, record.width);
    MulMonotone(span.1 - record.start, record.end - record.start, record.width);
    assert (span.1 - record.start) * record.width == (span.0 - record.start) * record.width + (span.1 - span.0) * record.width;
  }

  /** The bytes of one span. */
  function Slice(record: Record, raw: seq<Byte>, span: Segment): (r: seq<Byte>)
    requires |raw| == Length(record) && record.start <= span.0 <= span.1 <= record.end
    ensures |r| == (span.1 - span.0) * record.width
  {
    Inside(record, raw, span);
    raw[(span.0 - record.start) * record.width..(span.1 - record.start) * record.width]
  }

  /** Every extent of an observation is remembered with the same bytes. */
  ghost predicate Unchanged(latest: map<Key, (seq<Byte>, nat)>, record: Record, raw: seq<Byte>)
    requires |raw| == Length(record)
  {
    forall s {:trigger KeyOf(record, s)} :: s in SegmentsOf(record.start, record.end, BLOCK_TOKENS) && record.start <= s.0 <= s.1 <= record.end ==>
      KeyOf(record, s) in latest && latest[KeyOf(record, s)].0 == Slice(record, raw, s)
  }

  ghost predicate AllRead(payload: seq<Byte>, index: seq<Observation>, given: seq<seq<Byte>>) {
    |index| == |given| && forall i :: 0 <= i < |index| ==> index[i].number == i + 1 && Reads(payload, index[i], given[i])
  }

  ghost predicate AllKept(payload: seq<Byte>, latest: map<Key, (seq<Byte>, nat)>) {
    forall k :: k in latest ==> Kept(payload, latest[k].0, latest[k].1)
  }

  /** Appending to the payload keeps every observation and every remembered extent. */
  lemma GrownKeeps(payload: seq<Byte>, more: seq<Byte>, index: seq<Observation>, given: seq<seq<Byte>>, latest: map<Key, (seq<Byte>, nat)>)
    requires payload <= more && AllRead(payload, index, given) && AllKept(payload, latest)
    ensures AllRead(more, index, given) && AllKept(more, latest)
  {
    forall i | 0 <= i < |index| ensures Reads(more, index[i], given[i]) {
      assert Reads(payload, index[i], given[i]);
      DecodedLater(payload, more, index[i].pieces, index[i].record.width);
    }
    forall k | k in latest ensures Kept(more, latest[k].0, latest[k].1) {
      assert Kept(payload, latest[k].0, latest[k].1);
    }
  }

  /** One more piece extends what is read back by its span. */
  lemma PieceExtends(payload: seq<Byte>, pieces: seq<Piece>, record: Record, raw: seq<Byte>, span: Segment, offset: nat)
    requires |raw| == Length(record) && record.start <= span.0 <= span.1 <= record.end
    requires forall p :: p in pieces ==> Stored(payload, p, record.width)
    requires 0 <= (span.0 - record.start) * record.width <= |raw|
    requires Decoded(payload, pieces, record.width) == raw[..(span.0 - record.start) * record.width]
    requires Kept(payload, Slice(record, raw, span), offset)
    ensures forall p :: p in pieces + [Piece(span.0, span.1, offset)] ==> Stored(payload, p, record.width)
    ensures 0 <= (span.1 - record.start) * record.width <= |raw|
    ensures Decoded(payload, pieces + [Piece(span.0, span.1, offset)], record.width) == raw[..(span.1 - record.start) * record.width]
  {
    Inside(record, raw, span);
    var p := Piece(span.0, span.1, offset);
    assert Stored(payload, p, record.width);
    assert (pieces + [p])[..|pieces|] == pieces;
    assert PieceBytes(payload, p, record.width) == Slice(record, raw, span);
  }

  class FeatureFile {
    var payload: seq<Byte>
    var index: seq<Observation>
    var latest: map<Key, (seq<Byte>, nat)>
    var sequence: nat
    ghost var given: seq<seq<Byte>>   // what every observation was given

    ghost predicate Valid()
      reads this
    {
      sequence == |index| && AllRead(payload, index, given) && AllKept(payload, latest)
    }

    constructor ()
      ensures Valid() && payload == [] && index == []
    {
      payload, index, latest, sequence, given := [], [], map[], 0, [];
    }

    /** Find or append one extent. */
    method Extent(key: Key, data: seq<Byte>) returns (offset: nat)
      requires Valid()
      modifies this`payload, this`latest
      ensures Valid() && old(payload) <= payload && Kept(payload, data, offset)
      ensures payload == if key in old(latest) && old(latest)[key].0 == data then old(payload) else old(payload) + data
      ensures latest == if key in old(latest) && old(latest)[key].0 == data then old(latest) else old(latest)[key := (data, offset)]
    {
      if key in latest && latest[key].0 == data {
        offset := latest[key].1;
      } else {
        offset := |payload|;
        GrownKeeps(payload, payload + data, index, given, latest);
        assert Kept(payload + data, data, offset);
        payload := payload + data;
        latest := latest[key := (data, offset)];
      }
    }

    /** Record one observation. From then on, and after every later write, it reads back the bytes
        it was given; the payload only ever grows. */
    method Write(record: Record, raw: seq<Byte>) returns (r: Result<Observation, WriteError>)
      requires Valid()
      modifies this
      ensures Valid() && old(payload) <= payload && old(index) <= index
      ensures r.Err? <==> |raw| != Length(record)
      ensures r.Err? ==> payload == old(payload) && index == old(index) && latest == old(latest)
      ensures r.Ok? ==> index == old(index) + [r.value] && r.value.record == record && given == old(given) + [raw]
      ensures r.Ok? ==> Spans(r.value.pieces) == SegmentsOf(record.start, record.end, BLOCK_TOKENS)
      ensures r.Ok? && Unchanged(old(latest), record, raw) ==> payload == old(payload)
    {
      if |raw| != Length(record) { return Err(LengthDisagrees); }
      var spans := Segments(record.start, record.end, BLOCK_TOKENS);
      var pieces := WritePieces(record, raw, spans);
      sequence := sequence + 1;
      var observation := Observation(record, sequence, pieces);
      index := index + [observation];
      given := given + [raw];
      r := Ok(observation);
    }

    method WritePieces(record: Record, raw: seq<Byte>, spans: seq<Segment>) returns (pieces: seq<Piece>)
      requires Valid() && |raw| == Length(record) && spans == SegmentsOf(record.start, record.end, BLOCK_TOKENS)
      requires record.start <= record.end ==> Follow(spans, record.start, record.end)
      modifies this`payload, this`latest
      ensures Valid() && old(payload) <= payload
      ensures forall p :: p in pieces ==> Stored(payload, p, record.width)
      ensures Decoded(payload, pieces, record.width) == raw && Spans(pieces) == spans
      ensures Unchanged(old(latest), record, raw) ==> payload == old(payload)
    {
      hide AllRead, AllKept, SegmentsOf, Decoded;
      pieces := [];
      NothingDecoded(payload, record, raw);
      if record.start >= record.end {
        NoSpans(record, raw);
        return;
      }
      for i := 0 to |spans|
        invariant Valid() && old(payload) <= payload
        invariant forall p :: p in pieces ==> Stored(payload, p, record.width)
        invariant record.start <= At(spans, i, record.start) <= record.end
        invariant 0 <= (At(spans, i, record.start) - record.start) * record.width <= |raw|
        invariant Decoded(payload, pieces, record.width) == raw[..(At(spans, i, record.start) - record.start) * record.width]
        invariant Spans(pieces) == spans[..i]
        invariant Unchanged(old(latest), record, raw) ==> payload == old(payload) && latest == old(latest)
      {
        SpanAt(spans, record.start, record.end, i);
        assert spans[i] in spans;
        pieces := WritePiece(record, raw, spans[i], pieces);
        assert spans[..i + 1] == spans[..i] + [spans[i]];
      }
      assert spans[..|spans|] == spans;
      SpansEnd(spans, record.start, record.end);
      assert raw[..|raw|] == raw;
    }

    /** Store one span and refer to it. */
    method WritePiece(record: Record, raw: seq<Byte>, span: Segment, before: seq<Piece>) returns (pieces: seq<Piece>)
      requires Valid() && |raw| == Length(record) && record.start <= span.0 <= span.1 <= record.end
      requires forall p :: p in before ==> Stored(payload, p, record.width)
      requires 0 <= (span.0 - record.start) * record.width <= |raw|
      requires Decoded(payload, before, record.width) == raw[..(span.0 - record.start) * record.width]
      modifies this`payload, this`latest
      ensures Valid() && old(payload) <= payload
      ensures forall p :: p in pieces ==> Stored(payload, p, record.width)
      ensures 0 <= (span.1 - record.start) * record.width <= |raw|
      ensures Decoded(payload, pieces, record.width) == raw[..(span.1 - record.start) * record.width]
      ensures Spans(pieces) == Spans(before) + [span]
      ensures KeyOf(record, span) in old(latest) && old(latest)[KeyOf(record, span)].0 == Slice(record, raw, span) ==>
        payload == old(payload) && latest == old(latest)
    {
      hide AllRead, AllKept, Decoded;
      ghost var was := payload;
      var offset := Extent(KeyOf(record, span), Slice(record, raw, span));
      DecodedLater(was, payload, before, record.width);
      PieceExtends(payload, before, record, raw, span, offset);
      pieces := before + [Piece(span.0, span.1, offset)];
    }
  }

  /** The token ranges of an observation's pieces. */
  function Spans(pieces: seq<Piece>): seq<Segment> {
    seq(|pieces|, k requires 0 <= k < |pieces| => (pieces[k].begin, pieces[k].stop))
  }

  /** Where the first i spans stop. */
  function At(spans: seq<Segment>, i: nat, start: nat): nat
    requires i <= |spans|
  {
    if i == 0 then start else spans[i - 1].1
  }

  lemma {:induction false} SpanAt(spans: seq<Segment>, start: nat, end: nat, i: nat)
    requires Follow(spans, start, end) && i < |spans|
    ensures spans[i].0 == At(spans, i, start) && start <= spans[i].0 < spans[i].1 <= end
    decreases i
  {
    if i > 0 { SpanAt(spans[1..], spans[0].1, end, i - 1); }
  }

  lemma {:induction false} SpansEnd(spans: seq<Segment>, start: nat, end: nat)
    requires Follow(spans, start, end)
    ensures At(spans, |spans|, start) == end
    decreases |spans|
  {
    if spans != [] { SpansEnd(spans[1..], spans[0].1, end); }
  }

  lemma NothingDecoded(payload: seq<Byte>, record: Record, raw: seq<Byte>)
    requires |raw| == Length(record)
    ensures Decoded(payload, [], record.width) == [] && 0 <= (record.start - record.start) * record.width <= |raw|
  {
  }

  lemma NoSpans(record: Record, raw: seq<Byte>)
    requires |raw| == Length(record) && record.start >= record.end
    ensures raw == [] && SegmentsOf(record.start, record.end, BLOCK_TOKENS) == []
  {
    MulMonotone(record.end - record.start, 0, record.width);
  }
}

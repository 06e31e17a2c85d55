/** Re-cutting token history into canonical pages: which sources a window selects, when their
    spans are accepted, and what the plane-stacked copy writes. */
module Assembly {
  import opened Basics
  import opened CheckpointTypes
  import opened Coverage

  // ---------------------------------------------------------------- accepted sources

  function Left(w: CheckpointPage, start: int): int { Max(start, w.start) }
  function Right(w: CheckpointPage, end: int): int { Min(end, w.end) }

  predicate Intersects(w: CheckpointPage, start: int, end: int) {
    Left(w, start) < Right(w, end)
  }

  /** Where the next source must begin after the first i of them. */
  function Cut(ws: seq<CheckpointPage>, i: nat, start: int, end: int): int
    requires i <= |ws|
  {
    if i == 0 then start else Right(ws[i - 1], end)
  }

  /** What the coverage loop accepts: each source continues exactly where the previous one stopped. */
  predicate Accepted(ws: seq<CheckpointPage>, start: int, end: int) {
    && Cut(ws, |ws|, start, end) == end
    && forall i {:trigger Cut(ws, i, start, end)} :: 0 <= i < |ws| ==> Left(ws[i], start) == Cut(ws, i, start, end)
  }

  predicate In(w: CheckpointPage, t: int) { w.start <= t < w.end }

  ghost predicate Somewhere(ws: seq<CheckpointPage>, t: int) {
    exists i :: 0 <= i < |ws| && In(ws[i], t)
  }

  /** Every position of the window lies in exactly one source. */
  ghost predicate ExactlyOnce(ws: seq<CheckpointPage>, start: int, end: int) {
    && (forall t :: start <= t < end ==> Somewhere(ws, t))
    && (forall i, j, t :: 0 <= i < j < |ws| && start <= t < end && In(ws[i], t) ==> !In(ws[j], t))
  }

  lemma {:induction false} CutsGrow(ws: seq<CheckpointPage>, i: nat, j: nat, start: int, end: int)
    requires Accepted(ws, start, end) && i <= j <= |ws|
    requires forall k :: 0 <= k < |ws| ==> Intersects(ws[k], start, end)
    ensures i < j ==> Cut(ws, i, start, end) < Cut(ws, j, start, end)
    decreases j
  {
    if i < j {
      assert Left(ws[j - 1], start) == Cut(ws, j - 1, start, end);
      CutsGrow(ws, i, j - 1, start, end);
    }
  }

  lemma {:induction false} FindCut(ws: seq<CheckpointPage>, n: nat, t: int, start: int, end: int) returns (i: nat)
    requires Accepted(ws, start, end) && n <= |ws| && start <= t < Cut(ws, n, start, end)
    ensures i < n && Cut(ws, i, start, end) <= t < Cut(ws, i + 1, start, end)
  {
    if t >= Cut(ws, n - 1, start, end) {
      i := n - 1;
    } else {
      i := FindCut(ws, n - 1, t, start, end);
    }
  }

  /** The sources of a window are accepted exactly when they cover each of its positions once. */
  lemma AcceptedIffExactlyOnce(ws: seq<CheckpointPage>, start: int, end: int)
    requires start < end
    requires forall k :: 0 <= k < |ws| ==> Intersects(ws[k], start, end)
    requires forall i, j :: 0 <= i < j < |ws| ==> ws[i].start <= ws[j].start
    ensures Accepted(ws, start, end) <==> ExactlyOnce(ws, start, end)
  {
    if Accepted(ws, start, end) { AcceptedCoversOnce(ws, start, end); }
    if ExactlyOnce(ws, start, end) { OnceIsAccepted(ws, start, end); }
  }

  lemma AcceptedCoversOnce(ws: seq<CheckpointPage>, start: int, end: int)
    requires Accepted(ws, start, end)
    requires forall k :: 0 <= k < |ws| ==> Intersects(ws[k], start, end)
    ensures ExactlyOnce(ws, start, end)
  {
    forall t | start <= t < end ensures Somewhere(ws, t) {
      var i := FindCut(ws, |ws|, t, start, end);
      assert Left(ws[i], start) == Cut(ws, i, start, end);
      assert In(ws[i], t);
    }
    forall i, j, t | 0 <= i < j < |ws| && start <= t < end && In(ws[i], t)
      ensures !In(ws[j], t)
    {
      CutsGrow(ws, i + 1, j, start, end);
      assert Left(ws[j], start) == Cut(ws, j, start, end);
      assert t < Cut(ws, i + 1, start, end);
    }
  }

  lemma OnceIsAccepted(ws: seq<CheckpointPage>, start: int, end: int)
    requires start < end && ExactlyOnce(ws, start, end)
    requires forall k :: 0 <= k < |ws| ==> Intersects(ws[k], start, end)
    requires forall i, j :: 0 <= i < j < |ws| ==> ws[i].start <= ws[j].start
    ensures Accepted(ws, start, end)
  {
    forall i | 0 <= i < |ws| ensures Left(ws[i], start) == Cut(ws, i, start, end) {
      Continues(ws, i, start, end);
    }
    LastReaches(ws, start, end);
  }

  lemma LastReaches(ws: seq<CheckpointPage>, start: int, end: int)
    requires start < end && ExactlyOnce(ws, start, end)
    requires forall k :: 0 <= k < |ws| ==> Intersects(ws[k], start, end)
    requires forall i, j :: 0 <= i < j < |ws| ==> ws[i].start <= ws[j].start
    ensures Cut(ws, |ws|, start, end) == end
  {
    assert Somewhere(ws, end - 1);
    var last :| 0 <= last < |ws| && In(ws[last], end - 1);
    var n := |ws| - 1;
    if last < n {
      var t := Left(ws[n], start);
      assert Intersects(ws[n], start, end) && Intersects(ws[last], start, end);
      assert In(ws[last], t) && In(ws[n], t);
    }
  }

  lemma Continues(ws: seq<CheckpointPage>, i: nat, start: int, end: int)
    requires start < end && ExactlyOnce(ws, start, end) && i < |ws|
    requires forall k :: 0 <= k < |ws| ==> Intersects(ws[k], start, end)
    requires forall i, j :: 0 <= i < j < |ws| ==> ws[i].start <= ws[j].start
    ensures Left(ws[i], start) == Cut(ws, i, start, end)
  {
    if i == 0 {
      assert Somewhere(ws, start);
      var j :| 0 <= j < |ws| && In(ws[j], start);
    } else {
      var l, r := Left(ws[i], start), Right(ws[i - 1], end);
      assert Intersects(ws[i], start, end) && Intersects(ws[i - 1], start, end);
      if l < r {
        assert In(ws[i - 1], l) && In(ws[i], l);
      } else if r < l {
        assert Somewhere(ws, r);
        var j :| 0 <= j < |ws| && In(ws[j], r);
        if j < i - 1 {
          var t := Left(ws[i - 1], start);
          assert In(ws[j], t) && In(ws[i - 1], t);
        }
      }
    }
  }

  // ---------------------------------------------------------------- selecting sources

  /** The plain overlap filter. */
  function Overlapping(ws: seq<CheckpointPage>, start: int, end: int): seq<CheckpointPage>
  {
    if ws == [] then []
    else (if ws[0].start < end && ws[0].end > start then [ws[0]] else []) + Overlapping(ws[1..], start, end)
  }

  lemma {:induction false} OverlapSlice(ws: seq<CheckpointPage>, lo: nat, hi: nat, start: int, end: int)
    requires lo <= hi <= |ws|
    requires forall k :: 0 <= k < lo ==> ws[k].end <= start
    requires forall k :: lo <= k < hi ==> ws[k].start < end && ws[k].end > start
    requires forall k :: hi <= k < |ws| ==> ws[k].start >= end
    ensures Overlapping(ws, start, end) == ws[lo..hi]
    decreases |ws|
  {
    if ws != [] {
      var rest := ws[1..];
      if lo > 0 {
        OverlapSlice(rest, lo - 1, hi - 1, start, end);
        assert ws[lo..hi] == rest[lo - 1..hi - 1];
      } else if hi > 0 {
        OverlapSlice(rest, 0, hi - 1, start, end);
        assert ws[0..hi] == [ws[0]] + rest[0..hi - 1];
      } else {
        OverlapSlice(rest, 0, 0, start, end);
      }
    }
  }

  function DropEnded(ws: seq<CheckpointPage>, start: int): seq<CheckpointPage>
  {
    if ws == [] || ws[0].end > start then ws else DropEnded(ws[1..], start)
  }

  function TakeStarted(ws: seq<CheckpointPage>, end: int): seq<CheckpointPage>
  {
    if ws == [] || ws[0].start >= end then [] else [ws[0]] + TakeStarted(ws[1..], end)
  }

  /** The stretch a window is served: from the first source that ends after its start to the first
      one behind that starts at or after its end. */
  function Served(ws: seq<CheckpointPage>, start: int, end: int): seq<CheckpointPage> {
    TakeStarted(DropEnded(ws, start), end)
  }

  lemma {:induction false} DropEndedIs(ws: seq<CheckpointPage>, lo: nat, start: int)
    requires lo <= |ws| && forall k :: 0 <= k < lo ==> ws[k].end <= start
    requires lo < |ws| ==> ws[lo].end > start
    ensures DropEnded(ws, start) == ws[lo..]
    decreases lo
  {
    if lo > 0 {
      DropEndedIs(ws[1..], lo - 1, start);
      assert ws[1..][lo - 1..] == ws[lo..];
    }
  }

  lemma {:induction false} TakeStartedIs(ws: seq<CheckpointPage>, n: nat, end: int)
    requires n <= |ws| && forall k :: 0 <= k < n ==> ws[k].start < end
    requires n < |ws| ==> ws[n].start >= end
    ensures TakeStarted(ws, end) == ws[..n]
    decreases n
  {
    if n > 0 {
      TakeStartedIs(ws[1..], n - 1, end);
      assert ws[..n] == [ws[0]] + ws[1..][..n - 1];
    }
  }

  lemma SliceIsServed(ws: seq<CheckpointPage>, lo: nat, hi: nat, start: int, end: int)
    requires lo <= hi <= |ws|
    requires forall k :: 0 <= k < lo ==> ws[k].end <= start
    requires lo < |ws| ==> ws[lo].end > start
    requires forall k :: lo <= k < hi ==> ws[k].start < end
    requires hi < |ws| ==> ws[hi].start >= end
    ensures Served(ws, start, end) == ws[lo..hi]
  {
    DropEndedIs(ws, lo, start);
    TakeStartedIs(ws[lo..], hi - lo, end);
    assert ws[lo..][..hi - lo] == ws[lo..hi];
  }

  /** Sources whose windows only move forward. */
  ghost predicate Advancing(ws: seq<CheckpointPage>) {
    forall i, j :: 0 <= i < j < |ws| ==> ws[i].start <= ws[j].start && ws[i].end <= ws[j].end
  }

  lemma {:induction false} ServedBounds(ws: seq<CheckpointPage>, start: int, end: int) returns (lo: nat, hi: nat)
    ensures lo <= hi <= |ws|
    ensures forall k :: 0 <= k < lo ==> ws[k].end <= start
    ensures lo < |ws| ==> ws[lo].end > start
    ensures forall k :: lo <= k < hi ==> ws[k].start < end
    ensures hi < |ws| ==> ws[hi].start >= end
    ensures Served(ws, start, end) == ws[lo..hi]
  {
    lo := 0;
    while lo < |ws| && ws[lo].end <= start
      invariant lo <= |ws| && forall k :: 0 <= k < lo ==> ws[k].end <= start
    {
      lo := lo + 1;
    }
    hi := lo;
    while hi < |ws| && ws[hi].start < end
      invariant lo <= hi <= |ws| && forall k :: lo <= k < hi ==> ws[k].start < end
    {
      hi := hi + 1;
    }
    SliceIsServed(ws, lo, hi, start, end);
  }

  /** On advancing sources what a window is served is exactly what overlaps it. */
  lemma ServedIsOverlapping(ws: seq<CheckpointPage>, start: int, end: int)
    requires Advancing(ws) && start < end
    ensures Served(ws, start, end) == Overlapping(ws, start, end)
  {
    var lo, hi := ServedBounds(ws, start, end);
    if hi < |ws| { assert forall k :: hi <= k < |ws| ==> ws[k].start >= ws[hi].start; }
    if lo < |ws| { assert forall k :: lo <= k < |ws| ==> ws[k].end >= ws[lo].end; }
    OverlapSlice(ws, lo, hi, start, end);
  }

  /** The closure that serves increasing windows with one forward index. */
  class SourceSelector {
    const sources: seq<Entry>
    var index: nat
    ghost var served: int

    ghost predicate Valid()
      reads this
    {
      index <= |sources| && forall k :: 0 <= k < index ==> sources[k].0.end <= served
    }

    constructor (sources: seq<Entry>, ghost from: int)
      ensures Valid() && this.sources == sources && served == from
    {
      this.sources := sources;
      index := 0;
      served := from;
    }

    /** Two moving ends find what the window is to be served, however many windows came before. */
    method Select(start: int, end: int) returns (chosen: seq<Entry>)
      requires Valid() && served <= start
      modifies this
      ensures Valid() && served == start
      ensures Windows(chosen) == Served(Windows(sources), start, end)
    {
      while index < |sources| && sources[index].0.end <= start
        invariant index <= |sources|
        invariant forall k :: 0 <= k < index ==> sources[k].0.end <= start
      {
        index := index + 1;
      }
      served := start;
      var stop := index;
      while stop < |sources| && sources[stop].0.start < end
        invariant index <= stop <= |sources|
        invariant forall k :: index <= k < stop ==> sources[k].0.start < end
      {
        stop := stop + 1;
      }
      SliceIsServed(Windows(sources), index, stop, start, end);
      chosen := sources[index..stop];
      assert Windows(chosen) == Windows(sources)[index..stop];
    }
  }

  lemma {:induction false} OverlapAppend(x: seq<CheckpointPage>, y: seq<CheckpointPage>, start: int, end: int)
    ensures Overlapping(x + y, start, end) == Overlapping(x, start, end) + Overlapping(y, start, end)
    decreases |x|
  {
    if x == [] {
      assert x + y == y;
    } else {
      OverlapAppend(x[1..], y, start, end);
      assert (x + y)[0] == x[0] && (x + y)[1..] == x[1..] + y;
    }
  }

  lemma {:induction false} OverlapMember(ws: seq<CheckpointPage>, w: CheckpointPage, start: int, end: int)
    ensures w in Overlapping(ws, start, end) <==> w in ws && w.start < end && w.end > start
    decreases |ws|
  {
    if ws != [] {
      OverlapMember(ws[1..], w, start, end);
      assert ws == [ws[0]] + ws[1..];
    }
  }

  /** The filter a canonical page applies to what it is served. */
  method Filter(served: seq<Entry>, start: int, end: int) returns (selected: seq<Entry>)
    ensures Windows(selected) == Overlapping(Windows(served), start, end)
    ensures forall e :: e in selected ==> e in served
  {
    selected := [];
    for i := 0 to |served|
      invariant forall e :: e in selected ==> e in served
      invariant Windows(selected) == Overlapping(Windows(served)[..i], start, end)
    {
      var e := served[i];
      OverlapAppend(Windows(served)[..i], [e.0], start, end);
      assert Windows(served)[..i + 1] == Windows(served)[..i] + [e.0];
      if e.0.start < end && e.0.end > start {
        assert Windows(selected + [e]) == Windows(selected) + [e.0];
        selected := selected + [e];
      }
    }
    assert Windows(served)[..|served|] == Windows(served);
  }

  /** What a canonical page is cut from: the selected sources, behind the loaded prefix page where the
      first window starts before the first of them. */
  function Pieces(selected: seq<CheckpointPage>, start: int, base: int, prefixEnd: int): seq<CheckpointPage> {
    if start == base && selected != [] && selected[0].start > base
    then [CheckpointPage(base, Min(prefixEnd, selected[0].start), 0)] + selected
    else selected
  }

  function Selected(ws: seq<CheckpointPage>, start: int, end: int): seq<CheckpointPage> {
    Overlapping(Served(ws, start, end), start, end)
  }

  /** A window can be cut out of these sources. */
  ghost predicate CutsOut(ws: seq<CheckpointPage>, start: int, end: int, base: int, prefixEnd: int) {
    Accepted(Pieces(Selected(ws, start, end), start, base, prefixEnd), start, end)
  }

  /** Every one of these windows can be. */
  ghost predicate Recut(ws: seq<CheckpointPage>, windows: seq<CheckpointPage>, base: int, prefixEnd: int) {
    forall i {:trigger windows[i]} :: 0 <= i < |windows| ==> CutsOut(ws, windows[i].start, windows[i].end, base, prefixEnd)
  }

  // ---------------------------------------------------------------- contiguous history re-cuts cleanly

  /** Held windows that follow each other without gap or overlap. */
  ghost predicate Contiguous(ws: seq<CheckpointPage>) {
    && (forall i :: 0 <= i < |ws| ==> ws[i].start < ws[i].end)
    && (forall i, j :: 0 <= i < |ws| && j == i + 1 < |ws| ==> ws[j].start == ws[i].end)
  }

  lemma {:induction false} ContiguousOrder(ws: seq<CheckpointPage>, i: nat, j: nat)
    requires Contiguous(ws) && i < j < |ws|
    ensures ws[i].end <= ws[j].start
    decreases j
  {
    if i + 1 < j { ContiguousOrder(ws, i, j - 1); }
  }

  lemma {:induction false} ContiguousFind(ws: seq<CheckpointPage>, n: nat, t: int) returns (i: nat)
    requires Contiguous(ws) && 0 < n <= |ws| && ws[0].start <= t < ws[n - 1].end
    ensures i < n && ws[i].start <= t < ws[i].end
  {
    if t >= ws[n - 1].start { i := n - 1; } else { i := ContiguousFind(ws, n - 1, t); }
  }

  lemma SliceIsSelected(ws: seq<CheckpointPage>, lo: nat, hi: nat, start: int, end: int)
    requires lo < hi <= |ws|
    requires forall k :: 0 <= k < lo ==> ws[k].end <= start
    requires forall k :: lo <= k < hi ==> ws[k].start < end && ws[k].end > start
    requires hi < |ws| ==> ws[hi].start >= end
    ensures Selected(ws, start, end) == ws[lo..hi]
  {
    SliceIsServed(ws, lo, hi, start, end);
    OverlapSlice(ws[lo..hi], 0, hi - lo, start, end);
    assert ws[lo..hi][0..hi - lo] == ws[lo..hi];
  }

  /** The sources selected from a contiguous history are the ones between two indices. */
  lemma SelectedBounds(ws: seq<CheckpointPage>, start: int, end: int) returns (lo: nat, hi: nat)
    requires Contiguous(ws) && ws != [] && Max(ws[0].start, start) < end <= ws[|ws| - 1].end
    ensures lo < hi <= |ws| && Selected(ws, start, end) == ws[lo..hi]
    ensures ws[lo].start <= Max(ws[0].start, start) < ws[lo].end && ws[hi - 1].start < end <= ws[hi - 1].end
    ensures start < ws[0].start ==> lo == 0
  {
    hide Selected, Contiguous;
    var first := Max(ws[0].start, start);
    lo, hi := SelectedIndices(ws, first, end);
    if 0 < lo { ContiguousOrder(ws, 0, lo); }
    if 0 < lo { ContiguousProper(ws, 0); }
    SliceIsSelected(ws, lo, hi, start, end);
  }

  lemma ContiguousProper(ws: seq<CheckpointPage>, i: nat)
    requires Contiguous(ws) && i < |ws|
    ensures ws[i].start < ws[i].end
  {
  }

  lemma SelectedIndices(ws: seq<CheckpointPage>, first: int, end: int) returns (lo: nat, hi: nat)
    requires Contiguous(ws) && ws != [] && ws[0].start <= first < end <= ws[|ws| - 1].end
    ensures lo < hi <= |ws|
    ensures ws[lo].start <= first < ws[lo].end && ws[hi - 1].start < end <= ws[hi - 1].end
    ensures forall k :: 0 <= k < lo ==> ws[k].end <= first
    ensures forall k :: lo <= k < hi ==> ws[k].start < end && ws[k].end > first
    ensures hi < |ws| ==> ws[hi].start >= end
  {
    lo := ContiguousFind(ws, |ws|, first);
    var last := ContiguousFind(ws, |ws|, end - 1);
    if last < lo { ContiguousOrder(ws, last, lo); }
    hi := last + 1;
    forall k | 0 <= k < lo ensures ws[k].end <= first { ContiguousOrder(ws, k, lo); }
    if hi < |ws| { ContiguousOrder(ws, last, hi); }
    forall k | lo <= k < hi ensures ws[k].start < end && ws[k].end > first {
      if lo < k { ContiguousOrder(ws, lo, k); }
      if k < last { ContiguousOrder(ws, k, last); }
    }
  }

  /** A stretch of contiguous sources is accepted wherever it covers the window's ends. */
  lemma StretchAccepted(ws: seq<CheckpointPage>, start: int, end: int)
    requires Contiguous(ws) && ws != []
    requires ws[0].start <= start < ws[0].end && ws[|ws| - 1].start < end <= ws[|ws| - 1].end
    ensures Accepted(ws, start, end)
  {
    var n := |ws| - 1;
    forall i | 0 <= i < |ws| ensures Left(ws[i], start) == Cut(ws, i, start, end) {
      if 0 < i { ContiguousOrder(ws, 0, i); }
      if 0 < i <= n { if i - 1 < n { ContiguousOrder(ws, i - 1, n); } }
    }
  }

  lemma SliceContiguous(ws: seq<CheckpointPage>, lo: nat, hi: nat)
    requires Contiguous(ws) && lo <= hi <= |ws|
    ensures Contiguous(ws[lo..hi])
  {
    var x := ws[lo..hi];
    forall i, j | 0 <= i < |x| && j == i + 1 < |x| ensures x[j].start == x[i].end { assert ws[lo + i + 1].start == ws[lo + i].end; }
  }

  /** A window behind the first source's start is cut out of the selected sources alone. */
  lemma InnerCutsOut(ws: seq<CheckpointPage>, start: int, end: int, base: int, prefixEnd: int)
    requires Contiguous(ws) && ws != [] && base <= start
    requires ws[0].start <= start < end <= ws[|ws| - 1].end
    ensures CutsOut(ws, start, end, base, prefixEnd)
  {
    var lo, hi := SelectedBounds(ws, start, end);
    SliceContiguous(ws, lo, hi);
    StretchAccepted(ws[lo..hi], start, end);
  }

  /** A first window that starts before the first source is cut out of the loaded prefix page and the
      sources, provided it reaches them. */
  lemma BoundaryCutsOut(ws: seq<CheckpointPage>, base: int, end: int, prefixEnd: int)
    requires Contiguous(ws) && ws != []
    requires base < ws[0].start <= prefixEnd && ws[0].start < end <= ws[|ws| - 1].end
    ensures CutsOut(ws, base, end, base, prefixEnd)
  {
    var lo, hi := SelectedBounds(ws, base, end);
    var chosen := ws[..hi];
    assert ws[0..hi] == chosen;
    SliceContiguous(ws, 0, hi);
    var prefix := CheckpointPage(base, ws[0].start, 0);
    var x := [prefix] + chosen;
    assert Pieces(Selected(ws, base, end), base, base, prefixEnd) == x;
    forall i, j | 0 <= i < |x| && j == i + 1 < |x| ensures x[j].start == x[i].end {
      if i > 0 { assert chosen[i].start == chosen[i - 1].end; }
    }
    StretchAccepted(x, base, end);
  }

  /** Before the first source nothing is selected and nothing can be cut out. */
  lemma ShortBoundaryFails(ws: seq<CheckpointPage>, base: int, end: int, prefixEnd: int)
    requires Contiguous(ws) && ws != [] && base < end <= ws[0].start
    ensures !CutsOut(ws, base, end, base, prefixEnd)
  {
    SliceIsServed(ws, 0, 0, base, end);
    assert Selected(ws, base, end) == [];
  }

  /** Held entries that can be re-cut up to a frontier: contiguous, from the resident prefix on. */
  ghost predicate Recuttable(held: seq<Entry>, prefixEnd: int, common: int) {
    && Contiguous(Windows(held))
    && (prefixEnd < common ==> held != [] && held[0].0.start <= prefixEnd && held[|held| - 1].0.end >= common)
  }

  lemma {:induction false} TilesInside(windows: seq<CheckpointPage>, a: int, b: int, i: nat)
    requires Tiles(windows, a, b) && i < |windows|
    ensures a <= windows[i].start < windows[i].end <= b
    ensures i > 0 ==> windows[0].end <= windows[i].start
  {
    for k := 0 to i
      invariant a <= Begin(windows, k, a) && (k > 0 ==> windows[0].end <= Begin(windows, k, a))
    {
      assert windows[k].start == Begin(windows, k, a) < windows[k].end == Begin(windows, k + 1, a);
    }
    assert windows[i].start == Begin(windows, i, a) < windows[i].end == Begin(windows, i + 1, a);
    var k := |windows|;
    while k > i + 1
      invariant i + 1 <= k <= |windows| && Begin(windows, k, a) <= b
    {
      k := k - 1;
      assert windows[k].start == Begin(windows, k, a) < windows[k].end == Begin(windows, k + 1, a);
    }
  }

  /** However the history was cut into pages, and whatever windows are asked for from the canonical base
      to the frontier, all of them can be cut out exactly when the first one reaches the first source. */
  lemma RecutIff(held: seq<Entry>, windows: seq<CheckpointPage>, base: int, prefixEnd: int, common: int)
    requires Recuttable(held, prefixEnd, common) && base <= prefixEnd < common
    requires Tiles(windows, base, common)
    ensures windows != []
    ensures Recut(Windows(held), windows, base, prefixEnd) <==> held[0].0.start <= base || windows[0].end > held[0].0.start
  {
    hide CutsOut, Contiguous;
    assert windows != [] by { assert Begin(windows, |windows|, base) == common; }
    var ws := Windows(held);
    TilesInside(windows, base, common, 0);
    assert windows[0].start == Begin(windows, 0, base);
    if ws[0].start <= base || windows[0].end > ws[0].start {
      forall i | 0 <= i < |windows| ensures CutsOut(ws, windows[i].start, windows[i].end, base, prefixEnd) {
        TilesInside(windows, base, common, i);
        if ws[0].start <= windows[i].start {
          InnerCutsOut(ws, windows[i].start, windows[i].end, base, prefixEnd);
        } else {
          BoundaryCutsOut(ws, base, windows[i].end, prefixEnd);
        }
      }
    } else {
      ShortBoundaryFails(ws, base, windows[0].end, prefixEnd);
    }
  }

  // ---------------------------------------------------------------- greedy chains

  /** Sources in token order without overlap. */
  ghost predicate Sequential(sources: seq<CheckpointPage>) {
    forall i, j :: 0 <= i < j < |sources| ==> sources[i].end <= sources[j].start
  }

  /** A greedy chain taken from sources that do not overlap is contiguous. */
  lemma ChainIsContiguous(held: seq<Entry>, sources: seq<CheckpointPage>, a: int, limit: int)
    requires Chain(held, a, limit) && From(held, sources) && Sequential(sources)
    ensures Contiguous(Windows(held))
  {
    forall i | 0 <= i < |held| ensures held[i].0.start < held[i].0.end { assert Extends(held, i, a, limit); }
    forall i, j | 0 <= i < |held| && j == i + 1 < |held| ensures held[j].0.start == held[i].0.end {
      assert Extends(held, i, a, limit) && Extends(held, j, a, limit);
      var p :| 0 <= p < |sources| && sources[p] == held[i].0;
      var q :| 0 <= q < |sources| && sources[q] == held[j].0;
    }
  }
}

/** Capture: the fragments a preempted request's history is cut into, and the sources its offer lists. */
module Capture {
  import opened CheckpointTypes
  import opened Coverage
  import opened Assembly
  import opened CanonicalPages
  import opened Division
  import opened LocalCheckpoint
  import opened MixedPlans
  import opened MixedManifest
  import opened MixedRestore

  ghost predicate AllInChunk(ws: seq<CheckpointPage>, chunk: nat)
    requires chunk > 0
  {
    forall i :: 0 <= i < |ws| ==> InChunk(ws[i], chunk)
  }

  lemma InChunkAppend(ws: seq<CheckpointPage>, w: CheckpointPage, chunk: nat)
    requires chunk > 0 && AllInChunk(ws, chunk) && InChunk(w, chunk)
    ensures AllInChunk(ws + [w], chunk)
  {
  }

  /** A fragment that starts at or behind the cursor and stops inside the cursor's chunk. */
  lemma FragmentInChunk(cursor: nat, start: nat, stop: nat, chunk: nat, key: nat)
    requires chunk > 0 && cursor <= start < stop <= (cursor / chunk + 1) * chunk
    ensures InChunk(CheckpointPage(start, stop, key), chunk)
  {
    var k, n := cursor / chunk, start / chunk;
    assert cursor == k * chunk + cursor % chunk && start == n * chunk + start % chunk;
    assert (n + 1) * chunk == n * chunk + chunk;
    if n < k { MulMonotone(n + 1, k, chunk); }
    MulMonotone(k + 1, n + 1, chunk);
  }

  lemma ChunkAhead(cursor: nat, chunk: nat)
    requires chunk > 0
    ensures cursor < (cursor / chunk + 1) * chunk
  {
    assert cursor == cursor / chunk * chunk + cursor % chunk;
    assert (cursor / chunk + 1) * chunk == cursor / chunk * chunk + chunk;
  }

  /** Cut [base, end) at chunk ends, halving a fragment that cannot be granted and stopping after a shorter
      one. The first group starts at its resident frontier. */
  method CutFragments(base: nat, residentStart: nat, end: nat, chunk: nat)
    returns (first: seq<CheckpointPage>, second: seq<CheckpointPage>, reached: nat)
    requires chunk > 0 && base <= residentStart <= end
    ensures base <= reached <= end
    ensures Tiles(second, base, reached) && AllInChunk(second, chunk)
    ensures Tiles(first, residentStart, Max(residentStart, reached)) && AllInChunk(first, chunk)
  {
    hide Tiles, AllInChunk, InChunk;
    first, second, reached := [], [], base;
    NoFragments(base, residentStart, chunk);
    while reached < end
      invariant base <= reached <= end
      invariant Tiles(second, base, reached) && AllInChunk(second, chunk)
      invariant Tiles(first, residentStart, Max(residentStart, reached)) && AllInChunk(first, chunk)
    {
      ChunkAhead(reached, chunk);
      var desired := Min(end, (reached / chunk + 1) * chunk);
      var stop := desired;
      var granted: bool := false;
      while stop > reached && !granted
        invariant reached <= stop <= desired && (granted ==> stop > reached)
        decreases stop, !granted
      {
        granted := *;
        if !granted { stop := reached + (stop - reached) / 2; }
      }
      if granted {
        var key: nat := *;
        var start := Max(reached, residentStart);
        if start < stop {
          FragmentInChunk(reached, start, stop, chunk, key);
          TilesAppend(first, CheckpointPage(start, stop, key), residentStart, start);
          InChunkAppend(first, CheckpointPage(start, stop, key), chunk);
          first := first + [CheckpointPage(start, stop, key)];
        }
        FragmentInChunk(reached, reached, stop, chunk, key);
        TilesAppend(second, CheckpointPage(reached, stop, key), base, reached);
        InChunkAppend(second, CheckpointPage(reached, stop, key), chunk);
        second := second + [CheckpointPage(reached, stop, key)];
        reached := stop;
      }
      if stop != desired { return; }
    }
  }

  lemma NoFragments(base: int, residentStart: int, chunk: nat)
    requires chunk > 0
    ensures Tiles([], base, base) && Tiles([], residentStart, residentStart) && AllInChunk([], chunk)
  {
  }

  /** The sources an offer lists for the fragments before its sealed end, the last one cut there. */
  method SealSources(fragments: seq<CheckpointPage>, ghost a: int, ghost reached: int, sealed: int, chunk: nat) returns (sources: seq<CheckpointPage>)
    requires chunk > 0 && Tiles(fragments, a, reached) && AllInChunk(fragments, chunk)
    ensures Tiles(sources, a, Max(a, Min(reached, sealed))) && AllInChunk(sources, chunk)
  {
    hide Tiles, AllInChunk;
    sources := [];
    NoFragments(a, a, chunk);
    FirstFrontier(fragments, a, reached);
    for i := 0 to |fragments|
      invariant Tiles(sources, a, Max(a, Min(Begin(fragments, i, a), sealed))) && AllInChunk(sources, chunk)
      invariant a <= Begin(fragments, i, a)
    {
      var f := fragments[i];
      FragmentIs(fragments, a, reached, i, chunk);
      if f.start < sealed {
        var w := CheckpointPage(f.start, Min(f.end, sealed), f.key);
        TilesAppend(sources, w, a, f.start);
        InChunkAppend(sources, w, chunk);
        sources := sources + [w];
      }
    }
  }

  lemma FirstFrontier(fragments: seq<CheckpointPage>, a: int, reached: int)
    requires Tiles(fragments, a, reached)
    ensures Begin(fragments, 0, a) == a && Begin(fragments, |fragments|, a) == reached
  {
  }

  lemma FragmentIs(fragments: seq<CheckpointPage>, a: int, reached: int, i: nat, chunk: nat)
    requires chunk > 0 && Tiles(fragments, a, reached) && AllInChunk(fragments, chunk) && i < |fragments|
    ensures fragments[i].start == Begin(fragments, i, a) < fragments[i].end == Begin(fragments, i + 1, a)
    ensures InChunk(fragments[i], chunk)
  {
  }

  /** The resident pages of the first group behind the prefix, cut at the resident frontier. */
  method PrefixSources(cached: seq<CheckpointPage>, prefixEnd: int, residentStart: int, chunk: nat) returns (sources: seq<CheckpointPage>)
    requires chunk > 0 && Contiguous(cached) && AllInChunk(cached, chunk)
    ensures AllInChunk(sources, chunk) && Sequential(sources)
    ensures forall i :: 0 <= i < |sources| ==> sources[i].end <= residentStart
  {
    sources := [];
    for i := 0 to |cached|
      invariant AllInChunk(sources, chunk) && Sequential(sources)
      invariant forall j :: 0 <= j < |sources| ==> sources[j].end <= residentStart
      invariant i < |cached| ==> forall j :: 0 <= j < |sources| ==> sources[j].end <= cached[i].start
    {
      var c := cached[i];
      if c.end > prefixEnd && c.start < residentStart {
        sources := sources + [CheckpointPage(c.start, Min(c.end, residentStart), c.key)];
      }
      if i + 1 < |cached| { assert cached[i + 1].start == c.end; }
    }
  }

  lemma TilesSequential(ws: seq<CheckpointPage>, a: int, b: int, i: nat, j: nat)
    requires Tiles(ws, a, b) && i < j < |ws|
    ensures ws[i].end <= ws[j].start
    decreases j
  {
    assert ws[j].start == Begin(ws, j, a);
    if i + 1 < j {
      TilesSequential(ws, a, b, i, j - 1);
      assert ws[j - 1].start == Begin(ws, j - 1, a) < ws[j - 1].end;
    }
  }

  lemma JoinSequential(x: seq<CheckpointPage>, y: seq<CheckpointPage>, a: int, b: int)
    requires Sequential(x) && Tiles(y, a, b) && forall i :: 0 <= i < |x| ==> x[i].end <= a
    ensures Sequential(x + y)
  {
    forall i, j | 0 <= i < j < |x + y| ensures (x + y)[i].end <= (x + y)[j].start {
      if i >= |x| {
        TilesSequential(y, a, b, i - |x|, j - |x|);
      } else if j >= |x| {
        TilesInside(y, a, b, j - |x|);
      }
    }
  }

  /** Capture and seal: the sources of both groups are in token order without overlap, and each lies
      inside one chunk. */
  method Publish(base: nat, prefixEnd: nat, residentStart: nat, end: nat, sealed: nat, cached: seq<CheckpointPage>, chunk: nat)
    returns (m: Manifest)
    requires chunk > 0 && base <= prefixEnd <= end && base <= residentStart <= end
    requires Contiguous(cached) && AllInChunk(cached, chunk)
    ensures m.total == sealed && m.prefixEnd == prefixEnd
    ensures forall g: nat :: g < 2 ==> Sequential(m.groups[g]) && AllInChunk(m.groups[g], chunk)
  {
    hide Tiles, AllInChunk, Sequential;
    var first, second, reached := CutFragments(base, residentStart, end, chunk);
    var sources0 := SealSources(first, residentStart, Max(residentStart, reached), sealed, chunk);
    var sources1 := SealSources(second, base, reached, sealed, chunk);
    var prefix := PrefixSources(cached, prefixEnd, residentStart, chunk);
    JoinSequential(prefix, sources0, residentStart, Max(residentStart, Min(Max(residentStart, reached), sealed)));
    EmptySequential();
    JoinSequential([], sources1, base, Max(base, Min(reached, sealed)));
    JoinInChunk(prefix, sources0, chunk);
    assert [] + sources1 == sources1;
    m := Offer(sealed, prefixEnd, [prefix + sources0, sources1]);
  }

  lemma EmptySequential()
    ensures Sequential([])
  {
  }

  lemma JoinInChunk(x: seq<CheckpointPage>, y: seq<CheckpointPage>, chunk: nat)
    requires chunk > 0 && AllInChunk(x, chunk) && AllInChunk(y, chunk)
    ensures AllInChunk(x + y, chunk)
  {
  }

  /** Windows of one chunk each, but for the last. */
  ghost predicate ChunkWindows(remote: seq<CheckpointPage>, chunk: nat)
    requires chunk > 0
  {
    forall i :: 0 <= i && i + 1 < |remote| ==> remote[i].end % chunk == 0
  }

  /** So no captured offer straddles a boundary of windows that end at chunk ends. */
  lemma CapturedNeverStraddles(m: Manifest, g: nat, remote: seq<CheckpointPage>, base: int, end: int, chunk: nat)
    requires chunk > 0 && g < 2 && AllInChunk(m.groups[g], chunk)
    requires Tiles(remote, base, m.total) && ChunkWindows(remote, chunk) && end <= m.total
    ensures NoSourceStraddles(RequestOf(m, g, remote, end))
  {
    var q := RequestOf(m, g, remote, end);
    forall s | s in q.sources ensures InChunk(s, chunk) {
      var i :| 0 <= i < |m.groups[g]| && m.groups[g][i] == s;
    }
    assert Begin(remote, |remote|, base) == m.total;
    forall d | Boundary(q, d) ensures d.end % chunk == 0 {
      var i :| 0 <= i < |remote| && remote[i] == d;
    }
    ChunkCutNeverStraddles(q, chunk);
  }

  /** A restore of a captured offer is never refused for a hole or an overlap: its sources are regular for
      whatever chunk windows a spill confirmed. */
  lemma CapturedIsRegular(m: Manifest, used: seq<seq<CheckpointPage>>, base: int, end: int, chunk: nat)
    requires chunk > 0 && |used| == 2 && end <= m.total
    requires forall g: nat :: g < 2 ==> Sequential(m.groups[g]) && AllInChunk(m.groups[g], chunk)
    requires forall g: nat {:trigger used[g]} :: g < 2 ==> used[g] == [] || (Tiles(used[g], base, m.total) && ChunkWindows(used[g], chunk))
    ensures Regular(m, end, used)
  {
    hide Sequential, AllInChunk, Tiles, ChunkWindows, NoSourceStraddles;
    forall g: nat | g < 2 ensures NoSourceStraddles(RequestOf(m, g, used[g], end)) {
      if used[g] == [] {
        NoWindowsNoBoundary(RequestOf(m, g, [], end));
      } else {
        CapturedNeverStraddles(m, g, used[g], base, end, chunk);
      }
    }
  }

  lemma NoWindowsNoBoundary(q: Request)
    requires q.remote == []
    ensures NoSourceStraddles(q)
  {
  }
}

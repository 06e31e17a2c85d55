/** What dense and sparse copies leave in memory: agreement on selected tokens, and the round trip
    out to the host and back. */
module HostChunksMemory {
  import opened Basics
  import opened Division
  import opened Dmas
  import opened HostChunks

  /** Bytes of one token over all planes. */
  function RowTotal(j: Job): nat {
    Width(j.d, S(j), K) + (if Has(j.d, V) then Width(j.d, S(j), V) else 0) + if Has(j.d, D) then Width(j.d, S(j), D) else 0
  }

  /** Chunks hold different staging tokens, and their buffers are disjoint from each other and from
      the staging buffer. */
  ghost predicate Separate(j: Job) {
    && JobOk(j)
    && (forall a :: 0 <= a < |j.chunks| ==> j.chunks[a].offset + j.chunks[a].tokens <= j.d.lmcTokens)
    && (forall a, b :: 0 <= a < b < |j.chunks| ==> Apart(j.chunks[a].offset, j.chunks[a].tokens, j.chunks[b].offset, j.chunks[b].tokens))
    && (forall a, b :: 0 <= a < b < |j.chunks| ==>
          Apart(j.chunks[a].ptr, j.chunks[a].tokens * RowTotal(j), j.chunks[b].ptr, j.chunks[b].tokens * RowTotal(j)))
    && (forall a :: 0 <= a < |j.chunks| ==>
          Apart(j.chunks[a].ptr, j.chunks[a].tokens * RowTotal(j), j.lmcPtr, j.d.lmcTokens * RowTotal(j)))
  }

  /** Where a plane's row starts in a stack of n tokens. */
  function Stacked(j: Job, n: nat, t: nat, part: Part): int { n * Prefix(j.d, S(j), part) + t * Width(j.d, S(j), part) }

  predicate InRow(row: int, width: nat, x: int) { row <= x < row + width }

  lemma RowFits(t: nat, n: nat, width: nat)
    requires t < n
    ensures 0 <= t * width && t * width + width <= n * width
  {
    MulNat(t, width);
    MulMonotone(t + 1, n, width);
    assert (t + 1) * width == t * width + width;
  }

  lemma SameRow(t: nat, u: nat, width: nat, x: int)
    requires InRow(t * width, width, x) && InRow(u * width, width, x)
    ensures t == u
  {
    assert (t + 1) * width == t * width + width && (u + 1) * width == u * width + width;
    if t < u { MulMonotone(t + 1, u, width); }
    if u < t { MulMonotone(u + 1, t, width); }
  }

  /** The planes of one token follow each other and end with the token's bytes. */
  lemma Prefixes(j: Job, part: Part)
    requires Has(j.d, part)
    ensures 0 <= Prefix(j.d, S(j), part) && Prefix(j.d, S(j), part) + Width(j.d, S(j), part) <= RowTotal(j)
    ensures part != K ==> Width(j.d, S(j), K) <= Prefix(j.d, S(j), part)
    ensures part == D && Has(j.d, V) ==> Prefix(j.d, S(j), V) + Width(j.d, S(j), V) <= Prefix(j.d, S(j), D)
    ensures Interleaved(j.d) ==> HostBytes(j.d) == RowTotal(j)
  {
    MulNat(j.d.vDims, j.d.element);
  }

  /** Distinct rows of stacked planes never share a byte. */
  lemma StackedUnique(j: Job, n: nat, t: nat, p: Part, u: nat, q: Part, x: int)
    requires Has(j.d, p) && Has(j.d, q) && t < n && u < n
    requires InRow(Stacked(j, n, t, p), Width(j.d, S(j), p), x) && InRow(Stacked(j, n, u, q), Width(j.d, S(j), q), x)
    ensures t == u && p == q
  {
    StackedInside(j, n, t, p, x);
    StackedInside(j, n, u, q, x);
    Prefixes(j, p);
    Prefixes(j, q);
    hide Prefix, Width, RowTotal, HostBytes;
    if p != q {
      Follows(j, n, p, q, x);
    } else {
      SameRow(t, u, Width(j.d, S(j), p), x - n * Prefix(j.d, S(j), p));
    }
  }

  /** A stacked plane occupies its own stretch. */
  lemma StackedInside(j: Job, n: nat, t: nat, p: Part, x: int)
    requires Has(j.d, p) && t < n && InRow(Stacked(j, n, t, p), Width(j.d, S(j), p), x)
    ensures n * Prefix(j.d, S(j), p) <= x < n * (Prefix(j.d, S(j), p) + Width(j.d, S(j), p)) <= n * RowTotal(j)
    ensures 0 <= x
  {
    Prefixes(j, p);
    hide Prefix, Width, RowTotal, HostBytes;
    var a, w := Prefix(j.d, S(j), p), Width(j.d, S(j), p);
    RowFits(t, n, w);
    assert n * (a + w) == n * a + n * w;
    MulMonotone(a + w, RowTotal(j), n);
    assert (a + w) * n == n * (a + w) && RowTotal(j) * n == n * RowTotal(j);
    MulNat(n, a);
  }

  /** Two different planes cannot contain the same byte. */
  lemma Follows(j: Job, n: nat, p: Part, q: Part, x: int)
    requires Has(j.d, p) && Has(j.d, q) && p != q
    requires n * Prefix(j.d, S(j), p) <= x < n * (Prefix(j.d, S(j), p) + Width(j.d, S(j), p))
    ensures !(n * Prefix(j.d, S(j), q) <= x < n * (Prefix(j.d, S(j), q) + Width(j.d, S(j), q)))
  {
    Prefixes(j, p);
    Prefixes(j, q);
    var a, b := Prefix(j.d, S(j), p), Prefix(j.d, S(j), q);
    var v, w := Width(j.d, S(j), p), Width(j.d, S(j), q);
    assert a == 0 || p != K;
    if a + v <= b { Scale(a + v, b, n); } else { Scale(b + w, a, n); }
  }

  /** Distinct rows of interleaved tokens never share a byte. */
  lemma InterleavedUnique(j: Job, t: nat, p: Part, u: nat, q: Part, x: int)
    requires Has(j.d, p) && Has(j.d, q)
    requires InRow(t * RowTotal(j) + Prefix(j.d, S(j), p), Width(j.d, S(j), p), x)
    requires InRow(u * RowTotal(j) + Prefix(j.d, S(j), q), Width(j.d, S(j), q), x)
    ensures t == u && p == q
  {
    Prefixes(j, p);
    Prefixes(j, q);
    SameRow(t, u, RowTotal(j), x);
  }

  // ---------------------------------------------------------------- where a moved byte lies

  /** A staging byte lies in its plane's stacked row, inside the staging buffer. */
  lemma StagingByte(j: Job, i: nat, t: nat, part: Part, h: int, c: int)
    requires Separate(j) && RowAt(j, i, t, part, h, c)
    ensures var token := j.chunks[i].offset + t;
      token < j.d.lmcTokens && InRow(Stacked(j, j.d.lmcTokens, token, part), Width(j.d, S(j), part), c - j.lmcPtr)
      && j.lmcPtr <= c < j.lmcPtr + j.d.lmcTokens * RowTotal(j)
  {
    StagingIsStacked(j.d, j.staging, j.chunks[i], part);
    var token := j.chunks[i].offset + t;
    StackedInside(j, j.d.lmcTokens, token, part, c - j.lmcPtr);
    hide Prefix, Width, RowTotal;
    Scale(Prefix(j.d, S(j), part) + Width(j.d, S(j), part), RowTotal(j), j.d.lmcTokens);
  }

  /** A host byte lies inside its chunk's buffer, in the row of its token and plane. */
  lemma HostByte(j: Job, i: nat, t: nat, part: Part, h: int, c: int)
    requires Separate(j) && RowAt(j, i, t, part, h, c)
    ensures j.chunks[i].ptr <= h < j.chunks[i].ptr + j.chunks[i].tokens * RowTotal(j)
    ensures Interleaved(j.d) ==> InRow(t * RowTotal(j) + Prefix(j.d, S(j), part), Width(j.d, S(j), part), h - j.chunks[i].ptr)
    ensures !Interleaved(j.d) ==> InRow(Stacked(j, j.chunks[i].tokens, t, part), Width(j.d, S(j), part), h - j.chunks[i].ptr)
  {
    var chunk := j.chunks[i];
    Prefixes(j, part);
    if Interleaved(j.d) {
      RowFits(t, chunk.tokens, RowTotal(j));
    } else {
      HostIsStacked(j.d, j.staging, chunk, part);
      StackedInside(j, chunk.tokens, t, part, h - chunk.ptr);
    }
  }

  /** A staging byte belongs to one token of one chunk in one plane: distinct regions never overlap. */
  lemma OneStagingByte(j: Job, a: nat, t: nat, p: Part, b: nat, u: nat, q: Part, h: int, g: int, c: int)
    requires Separate(j) && RowAt(j, a, t, p, h, c) && RowAt(j, b, u, q, g, c)
    ensures a == b && t == u && p == q && h == g
  {
    assert a < b ==> Apart(j.chunks[a].offset, j.chunks[a].tokens, j.chunks[b].offset, j.chunks[b].tokens);
    assert b < a ==> Apart(j.chunks[b].offset, j.chunks[b].tokens, j.chunks[a].offset, j.chunks[a].tokens);
    StagingByte(j, a, t, p, h, c);
    StagingByte(j, b, u, q, g, c);
    StackedUnique(j, j.d.lmcTokens, j.chunks[a].offset + t, p, j.chunks[b].offset + u, q, c - j.lmcPtr);
  }

  /** A host byte belongs to one token of one chunk in one plane. */
  lemma OneHostByte(j: Job, a: nat, t: nat, p: Part, b: nat, u: nat, q: Part, h: int, c: int, e: int)
    requires Separate(j) && RowAt(j, a, t, p, h, c) && RowAt(j, b, u, q, h, e)
    ensures a == b && t == u && p == q && c == e
  {
    assert a < b ==> Apart(j.chunks[a].ptr, j.chunks[a].tokens * RowTotal(j), j.chunks[b].ptr, j.chunks[b].tokens * RowTotal(j));
    assert b < a ==> Apart(j.chunks[b].ptr, j.chunks[b].tokens * RowTotal(j), j.chunks[a].ptr, j.chunks[a].tokens * RowTotal(j));
    HostByte(j, a, t, p, h, c);
    HostByte(j, b, u, q, h, e);
    if Interleaved(j.d) {
      InterleavedUnique(j, t, p, u, q, h - j.chunks[a].ptr);
    } else {
      StackedUnique(j, j.chunks[a].tokens, t, p, u, q, h - j.chunks[a].ptr);
    }
  }

  lemma Find(j: Job, h: int, c: int) returns (i: nat, t: nat, part: Part)
    requires DenseAt(j, h, c)
    ensures RowAt(j, i, t, part, h, c)
  {
    hide RowAt;
    i :| ChunkAt(j, i, h, c);
    t :| TokenAt(j, i, t, h, c);
    part :| RowAt(j, i, t, part, h, c);
  }

  /** Copies that stay inside what a dense copy moves can run in any order, out or in. */
  lemma IsOrderly(j: Job, dmas: seq<Dma>, save: bool)
    requires Separate(j) && forall h, c :: Moves(dmas, h, c) ==> DenseAt(j, h, c)
    ensures Orderly(dmas, save)
  {
    hide Moves, Separate, RowAt, DenseAt;
    forall h, c, g, e | Moves(dmas, h, c) && Moves(dmas, g, e) ensures h != e {
      var i, t, p := Find(j, h, c);
      var k, u, q := Find(j, g, e);
      HostIsNotStaging(j, i, t, p, h, c, k, u, q, g, e);
    }
    forall h, c, e | Moves(dmas, h, c) && Moves(dmas, h, e) ensures c == e {
      var i, t, p := Find(j, h, c);
      var k, u, q := Find(j, h, e);
      OneHostByte(j, i, t, p, k, u, q, h, c, e);
    }
    forall h, g, c | Moves(dmas, h, c) && Moves(dmas, g, c) ensures h == g {
      var i, t, p := Find(j, h, c);
      var k, u, q := Find(j, g, c);
      OneStagingByte(j, i, t, p, k, u, q, h, g, c);
    }
  }

  lemma HostIsNotStaging(j: Job, a: nat, t: nat, p: Part, h: int, c: int, b: nat, u: nat, q: Part, g: int, e: int)
    requires Separate(j) && RowAt(j, a, t, p, h, c) && RowAt(j, b, u, q, g, e)
    ensures h != e
  {
    HostByte(j, a, t, p, h, c);
    StagingByte(j, b, u, q, g, e);
  }

  // ---------------------------------------------------------------- the theorems

  /** A sparse load, with or without the bulk shortcut, leaves each selected token's rows in staging
      exactly as a dense load does. */
  lemma SparseAgreesWithDense(j: Job, selected: seq<int>, sparse: seq<Dma>, dense: seq<Dma>, mem: Memory, i: nat, t: nat, part: Part, h: int, c: int)
    requires Separate(j)
    requires forall g, e :: SelectedAt(j, selected, g, e) ==> Moves(sparse, g, e)
    requires forall g, e :: Moves(sparse, g, e) ==> DenseAt(j, g, e)
    requires forall g, e :: Moves(dense, g, e) <==> DenseAt(j, g, e)
    requires i < |j.chunks| && j.chunks[i].offset + t in selected && RowAt(j, i, t, part, h, c)
    ensures Execute(mem, sparse, false)(c) == Execute(mem, dense, false)(c) == mem(h)
  {
    SelectedIsMoved(j, selected, i, t, part, h, c);
    hide Moves, Separate, RowAt, DenseAt, SelectedAt;
    IsOrderly(j, sparse, false);
    IsOrderly(j, dense, false);
    LoadMoves(mem, sparse, h, c);
    LoadMoves(mem, dense, h, c);
  }

  lemma SelectedIsMoved(j: Job, selected: seq<int>, i: nat, t: nat, part: Part, h: int, c: int)
    requires Separate(j) && i < |j.chunks| && j.chunks[i].offset + t in selected && RowAt(j, i, t, part, h, c)
    ensures SelectedAt(j, selected, h, c) && DenseAt(j, h, c)
  {
    assert TokenAt(j, i, t, h, c);
    assert ChunkAt(j, i, h, c);
    forall k | 0 <= k < i ensures !Holds(j.chunks[k], j.chunks[i].offset + t) {
      assert Apart(j.chunks[k].offset, j.chunks[k].tokens, j.chunks[i].offset, j.chunks[i].tokens);
    }
    assert Picks(j, selected, i, t);
  }

  /** Out to the host and back in, whatever happened to staging in between: every byte that the
      chunks cover is restored. */
  lemma OutThenIn(j: Job, dmas: seq<Dma>, mem: Memory, later: Memory, h: int, c: int)
    requires Separate(j) && forall g, e :: Moves(dmas, g, e) <==> DenseAt(j, g, e)
    requires DenseAt(j, h, c)
    requires later(h) == Execute(mem, dmas, true)(h)
    ensures Execute(later, dmas, false)(c) == mem(c)
  {
    hide Moves, Separate, DenseAt;
    IsOrderly(j, dmas, true);
    IsOrderly(j, dmas, false);
    SaveMoves(mem, dmas, h, c);
    LoadMoves(later, dmas, h, c);
  }

  /** Every byte of every plane of every staging token that some chunk holds is among them. */
  lemma CoveredIsMoved(j: Job, i: nat, t: nat, part: Part, x: nat)
    requires i < |j.chunks| && t < j.chunks[i].tokens && Has(j.d, part) && x < Width(j.d, S(j), part)
    ensures DenseAt(j, HostRow(j, i, t, part) + x, StagingRow(j, j.chunks[i].offset + t, part) + x)
  {
    assert RowAt(j, i, t, part, HostRow(j, i, t, part) + x, StagingRow(j, j.chunks[i].offset + t, part) + x);
    assert TokenAt(j, i, t, HostRow(j, i, t, part) + x, StagingRow(j, j.chunks[i].offset + t, part) + x);
    assert ChunkAt(j, i, HostRow(j, i, t, part) + x, StagingRow(j, j.chunks[i].offset + t, part) + x);
  }

  /** Such jobs exist: two one-token chunks of a two-token layer. */
  lemma SeparateIsPossible()
    ensures Separate(Job(Dims(MLA_KV, false, 1, 1, 0, 2, 1), Layout(0, 0), 100,
                         [Chunk(0, 0, 1, Layout(0, 0)), Chunk(10, 1, 1, Layout(0, 0))]))
  {
    var j := Job(Dims(MLA_KV, false, 1, 1, 0, 2, 1), Layout(0, 0), 100,
                 [Chunk(0, 0, 1, Layout(0, 0)), Chunk(10, 1, 1, Layout(0, 0))]);
    assert RowTotal(j) == 2;
  }
}

/** Copies between one layer's staging buffer and host chunks: dense, and sparse for selected tokens. */
module HostChunks {
  import opened Basics
  import opened Division
  import opened Dmas

  datatype Format = MERGED_KV | SEPARATE_KV | MLA_KV | DSA_KV | MLA_LATENT | DSA_INDEX

  predicate MlaDsa(f: Format) { f.MLA_KV? || f.DSA_KV? || f.MLA_LATENT? || f.DSA_INDEX? }

  /** The tensor layout of one side: its first two strides, in elements. */
  datatype Layout = Layout(stride0: nat, stride1: nat)

  datatype Dims = Dims(format: Format, tokenMajor: bool, kDims: nat, vDims: nat, dsaDims: nat, lmcTokens: nat, element: nat)

  datatype Strides = Strides(lmcToken: nat, lmcVal: nat, vPlane: nat, dsaPlane: nat)

  /** The staging side of the strides, by format. */
  function ComputeStrides(d: Dims, staging: Layout): Strides {
    Strides(
      if MlaDsa(d.format) then d.kDims else if d.tokenMajor then staging.stride0 else staging.stride1,
      if MlaDsa(d.format) then 0 else if d.tokenMajor then staging.stride1 else staging.stride0,
      d.lmcTokens * d.kDims,
      d.lmcTokens * (d.kDims + d.vDims))
  }

  /** One host chunk: its buffer, the tokens it holds, and its tensor layout. */
  datatype Chunk = Chunk(ptr: int, offset: nat, tokens: nat, layout: Layout)

  datatype ChunkMeta = ChunkMeta(ptr: int, copySize: nat, vOffset: nat, dsaOffset: nat)

  function BytesPerToken(d: Dims, s: Strides): nat {
    if MlaDsa(d.format) then d.kDims * d.element else s.lmcToken * d.element
  }

  function PrepareMeta(d: Dims, s: Strides, chunk: Chunk): ChunkMeta {
    if MlaDsa(d.format) then
      ChunkMeta(chunk.ptr, chunk.tokens * d.kDims * d.element, chunk.tokens * d.kDims * d.element,
                chunk.tokens * (d.kDims + d.vDims) * d.element)
    else if !d.tokenMajor then
      ChunkMeta(chunk.ptr, chunk.tokens * BytesPerToken(d, s), chunk.layout.stride0 * d.element, 0)
    else
      ChunkMeta(chunk.ptr, chunk.tokens * BytesPerToken(d, s), 0, 0)
  }

  // ---------------------------------------------------------------- the meaning of the layouts

  /** The planes a copy moves. */
  datatype Part = K | V | D

  predicate Has(d: Dims, part: Part) {
    match part
    case K => true
    case V => if MlaDsa(d.format) then d.vDims * d.element > 0 else !d.tokenMajor
    case D => d.format.DSA_KV?
  }

  /** Bytes of one token in a plane; a token-major merged row holds keys and values together. */
  function Width(d: Dims, s: Strides, part: Part): nat {
    match part
    case K => BytesPerToken(d, s)
    case V => if MlaDsa(d.format) then d.vDims * d.element else BytesPerToken(d, s)
    case D => d.dsaDims * d.element
  }

  /** The bytes in front of a plane's row when the planes of one token stand side by side. */
  function Prefix(d: Dims, s: Strides, part: Part): nat {
    match part
    case K => 0
    case V => Width(d, s, K)
    case D => Width(d, s, K) + d.vDims * d.element
  }

  /** What allocation guarantees: contiguous tensors of the advertised shapes. */
  predicate Allocated(d: Dims, staging: Layout, chunk: Chunk) {
    && d.kDims > 0 && d.element > 0
    && (!MlaDsa(d.format) ==>
          if d.tokenMajor then staging.stride0 > 0
          else staging.stride1 > 0 && staging.stride0 == d.lmcTokens * staging.stride1
               && chunk.layout.stride0 == chunk.tokens * staging.stride1)
  }

  function StagingBase(d: Dims, s: Strides, part: Part): nat {
    match part
    case K => 0
    case V => if MlaDsa(d.format) then s.vPlane * d.element else s.lmcVal * d.element
    case D => s.dsaPlane * d.element
  }

  /** Token-major MLA/DSA chunks interleave the planes of a token; all others stack whole planes. */
  predicate Interleaved(d: Dims) { MlaDsa(d.format) && d.tokenMajor }

  function HostBase(d: Dims, s: Strides, m: ChunkMeta, part: Part): nat {
    if Interleaved(d) then Prefix(d, s, part)
    else match part
      case K => 0
      case V => m.vOffset
      case D => m.dsaOffset
  }

  /** Host bytes of one token over all planes of an interleaved chunk. */
  function HostBytes(d: Dims): nat {
    d.kDims * d.element + d.vDims * d.element + if d.format.DSA_KV? then d.dsaDims * d.element else 0
  }

  function HostStride(d: Dims, s: Strides, part: Part): nat {
    if Interleaved(d) then HostBytes(d) else Width(d, s, part)
  }

  /** The staging offsets are those of planes stacked for all staging tokens. */
  lemma StagingIsStacked(d: Dims, staging: Layout, chunk: Chunk, part: Part)
    requires Allocated(d, staging, chunk) && Has(d, part)
    ensures var s := ComputeStrides(d, staging); StagingBase(d, s, part) == d.lmcTokens * Prefix(d, s, part)
  {
    var n, k, v, e := d.lmcTokens, d.kDims, d.vDims, d.element;
    assert (n * k) * e == n * (k * e);
    assert (n * (k + v)) * e == n * (k * e + v * e);
    assert (n * staging.stride1) * e == n * (staging.stride1 * e);
  }

  /** The host offsets of a stacked chunk are those of planes stacked for the chunk's tokens. */
  lemma HostIsStacked(d: Dims, staging: Layout, chunk: Chunk, part: Part)
    requires Allocated(d, staging, chunk) && Has(d, part) && !Interleaved(d)
    ensures var s := ComputeStrides(d, staging); HostBase(d, s, PrepareMeta(d, s, chunk), part) == chunk.tokens * Prefix(d, s, part)
  {
    var n, k, v, e := chunk.tokens, d.kDims, d.vDims, d.element;
    assert n * k * e == n * (k * e);
    assert n * (k + v) * e == n * (k * e + v * e);
    assert (n * staging.stride1) * e == n * (staging.stride1 * e);
  }

  /** A chunk's copy size is its tokens times a row. */
  lemma CopySizeIs(d: Dims, staging: Layout, chunk: Chunk)
    requires Allocated(d, staging, chunk)
    ensures var s := ComputeStrides(d, staging);
      BytesPerToken(d, s) > 0 && PrepareMeta(d, s, chunk).copySize == chunk.tokens * BytesPerToken(d, s)
      && PrepareMeta(d, s, chunk).copySize / BytesPerToken(d, s) == chunk.tokens
  {
    var s := ComputeStrides(d, staging);
    MulGrows(d.kDims, d.element);
    if !MlaDsa(d.format) { MulGrows(s.lmcToken, d.element); }
    assert chunk.tokens * d.kDims * d.element == chunk.tokens * (d.kDims * d.element);
    DivUnique(chunk.tokens * BytesPerToken(d, s), BytesPerToken(d, s), chunk.tokens, 0);
  }

  // ---------------------------------------------------------------- one transfer

  datatype Job = Job(d: Dims, staging: Layout, lmcPtr: int, chunks: seq<Chunk>)

  ghost predicate JobOk(j: Job) { forall i :: 0 <= i < |j.chunks| ==> Allocated(j.d, j.staging, j.chunks[i]) }

  function S(j: Job): Strides { ComputeStrides(j.d, j.staging) }

  function HostRow(j: Job, i: nat, t: nat, part: Part): int
    requires i < |j.chunks|
  {
    j.chunks[i].ptr + HostBase(j.d, S(j), PrepareMeta(j.d, S(j), j.chunks[i]), part) + t * HostStride(j.d, S(j), part)
  }

  function StagingRow(j: Job, token: nat, part: Part): int {
    j.lmcPtr + StagingBase(j.d, S(j), part) + token * Width(j.d, S(j), part)
  }

  /** Token t of chunk i: byte h of its host row in a plane corresponds to byte c of its staging row. */
  predicate RowAt(j: Job, i: nat, t: nat, part: Part, h: int, c: int) {
    i < |j.chunks| && t < j.chunks[i].tokens && Has(j.d, part) &&
    RowByte(HostRow(j, i, t, part), StagingRow(j, j.chunks[i].offset + t, part), Width(j.d, S(j), part), h, c)
  }

  /** The rows of one token in all its planes. */
  ghost predicate TokenAt(j: Job, i: nat, t: nat, h: int, c: int) { exists part :: RowAt(j, i, t, part, h, c) }

  ghost predicate ChunkAt(j: Job, i: nat, h: int, c: int) { exists t: nat :: TokenAt(j, i, t, h, c) }

  /** Everything a dense copy moves. */
  ghost predicate DenseAt(j: Job, h: int, c: int) { exists i: nat :: ChunkAt(j, i, h, c) }

  /** One row of one plane. */
  function RowDma(j: Job, i: nat, t: nat, part: Part): Dma
    requires i < |j.chunks|
  {
    Dma(HostRow(j, i, t, part), StagingRow(j, j.chunks[i].offset + t, part), Width(j.d, S(j), part))
  }

  /** One plane of a stacked chunk, as one block. */
  function BlockDma(j: Job, i: nat, part: Part): Dma
    requires i < |j.chunks|
  {
    Dma(HostRow(j, i, 0, part), StagingRow(j, j.chunks[i].offset, part), j.chunks[i].tokens * Width(j.d, S(j), part))
  }

  /** The copies of one token, plane by plane. */
  method CopyToken(j: Job, i: nat, t: nat) returns (dmas: seq<Dma>)
    requires i < |j.chunks| && t < j.chunks[i].tokens
    ensures forall h, c :: Moves(dmas, h, c) <==> TokenAt(j, i, t, h, c)
  {
    dmas := [RowDma(j, i, t, K)];
    if Has(j.d, V) { dmas := dmas + [RowDma(j, i, t, V)]; }
    if Has(j.d, D) { dmas := dmas + [RowDma(j, i, t, D)]; }
    forall h, c ensures Moves(dmas, h, c) <==> TokenAt(j, i, t, h, c) {
      TokenMoves(j, i, t, dmas, h, c);
    }
  }

  lemma TokenMoves(j: Job, i: nat, t: nat, dmas: seq<Dma>, h: int, c: int)
    requires i < |j.chunks| && t < j.chunks[i].tokens
    requires forall d :: d in dmas <==> exists part :: Has(j.d, part) && d == RowDma(j, i, t, part)
    ensures Moves(dmas, h, c) <==> TokenAt(j, i, t, h, c)
  {
    hide Width, HostRow, StagingRow, Has;
    if Moves(dmas, h, c) {
      var d :| d in dmas && RowByte(d.host, d.device, d.bytes, h, c);
      var part :| Has(j.d, part) && d == RowDma(j, i, t, part);
      assert RowAt(j, i, t, part, h, c);
    }
    if part :| RowAt(j, i, t, part, h, c) {
      var d := RowDma(j, i, t, part);
      assert d in dmas && RowByte(d.host, d.device, d.bytes, h, c);
    }
  }

  /** The planes of a stacked chunk, each in one piece. */
  method CopyPlanes(j: Job, i: nat) returns (dmas: seq<Dma>)
    requires i < |j.chunks| && !Interleaved(j.d)
    ensures forall h, c :: Moves(dmas, h, c) <==> ChunkAt(j, i, h, c)
  {
    dmas := [BlockDma(j, i, K)];
    if Has(j.d, V) { dmas := dmas + [BlockDma(j, i, V)]; }
    if Has(j.d, D) { dmas := dmas + [BlockDma(j, i, D)]; }
    forall h, c ensures Moves(dmas, h, c) <==> ChunkAt(j, i, h, c) {
      PlanesMove(j, i, dmas, h, c);
    }
  }

  lemma PlanesMove(j: Job, i: nat, dmas: seq<Dma>, h: int, c: int)
    requires i < |j.chunks| && !Interleaved(j.d)
    requires forall d :: d in dmas <==> exists part :: Has(j.d, part) && d == BlockDma(j, i, part)
    ensures Moves(dmas, h, c) <==> ChunkAt(j, i, h, c)
  {
    hide Has, BlockDma, RowAt;
    if Moves(dmas, h, c) {
      var d :| d in dmas && RowByte(d.host, d.device, d.bytes, h, c);
      var part :| Has(j.d, part) && d == BlockDma(j, i, part);
      var t := RowInBlock(j, i, part, h, c);
      assert TokenAt(j, i, t, h, c);
    }
    if t: nat :| TokenAt(j, i, t, h, c) {
      var part :| RowAt(j, i, t, part, h, c);
      BlockHasRow(j, i, part, t, h, c);
      var d := BlockDma(j, i, part);
      assert d in dmas;
    }
  }

  /** A byte of a block lies in the row of one token. */
  lemma RowInBlock(j: Job, i: nat, part: Part, h: int, c: int) returns (t: nat)
    requires i < |j.chunks| && !Interleaved(j.d) && Has(j.d, part)
    requires var d := BlockDma(j, i, part); RowByte(d.host, d.device, d.bytes, h, c)
    ensures RowAt(j, i, t, part, h, c)
  {
    hide Width, HostBase, StagingBase, PrepareMeta;
    var chunk, width := j.chunks[i], Width(j.d, S(j), part);
    var host, device := chunk.ptr + HostBase(j.d, S(j), PrepareMeta(j.d, S(j), chunk), part), j.lmcPtr + StagingBase(j.d, S(j), part);
    assert width == 0 ==> chunk.tokens * width == 0;
    assert 0 * width == 0;
    t := RowOfRun(host, device, 0, chunk.offset, width, chunk.tokens, h, c);
  }

  lemma BlockHasRow(j: Job, i: nat, part: Part, t: nat, h: int, c: int)
    requires i < |j.chunks| && !Interleaved(j.d) && RowAt(j, i, t, part, h, c)
    ensures Has(j.d, part)
    ensures var d := BlockDma(j, i, part); RowByte(d.host, d.device, d.bytes, h, c)
  {
    hide Width, HostBase, StagingBase, PrepareMeta, Has;
    var chunk, width := j.chunks[i], Width(j.d, S(j), part);
    var host, device := chunk.ptr + HostBase(j.d, S(j), PrepareMeta(j.d, S(j), chunk), part), j.lmcPtr + StagingBase(j.d, S(j), part);
    assert 0 * width == 0;
    RunHasRow(host, device, 0, chunk.offset, width, chunk.tokens, t, h, c);
  }

  /** Copy every token of every chunk, chunk by chunk; the direction does not change what pairs up. */
  method ExecuteBatchedMemcpy(j: Job) returns (dmas: seq<Dma>)
    requires JobOk(j)
    ensures forall h, c :: Moves(dmas, h, c) <==> DenseAt(j, h, c)
  {
    hide Moves, ChunkAt, Allocated, PrepareMeta;
    dmas := [];
    forall h, c ensures !Moves(dmas, h, c) { NoMoves(h, c); }
    for i := 0 to |j.chunks|
      invariant forall h, c :: Moves(dmas, h, c) <==> exists k: nat :: k < i && ChunkAt(j, k, h, c)
    {
      var more: seq<Dma>;
      if Interleaved(j.d) {
        CopySizeIs(j.d, j.staging, j.chunks[i]);
        var chunkTokens := PrepareMeta(j.d, S(j), j.chunks[i]).copySize / (j.d.kDims * j.d.element);
        more := CopyTokens(j, i, chunkTokens);
      } else {
        more := CopyPlanes(j, i);
      }
      forall h, c ensures Moves(dmas + more, h, c) <==> exists k: nat :: k < i + 1 && ChunkAt(j, k, h, c) {
        MovesConcat(dmas, more, h, c);
      }
      dmas := dmas + more;
    }
    forall h, c ensures Moves(dmas, h, c) <==> DenseAt(j, h, c) {
      if DenseAt(j, h, c) {
        var i: nat :| ChunkAt(j, i, h, c);
        ChunkInside(j, i, h, c);
      }
    }
  }

  lemma ChunkInside(j: Job, i: nat, h: int, c: int)
    requires ChunkAt(j, i, h, c)
    ensures i < |j.chunks|
  {
  }

  method CopyTokens(j: Job, i: nat, count: nat) returns (dmas: seq<Dma>)
    requires i < |j.chunks| && count == j.chunks[i].tokens
    ensures forall h, c :: Moves(dmas, h, c) <==> ChunkAt(j, i, h, c)
  {
    hide Moves, TokenAt;
    dmas := [];
    forall h, c ensures !Moves(dmas, h, c) { NoMoves(h, c); }
    for t := 0 to count
      invariant forall h, c :: Moves(dmas, h, c) <==> exists u: nat :: u < t && TokenAt(j, i, u, h, c)
    {
      var more := CopyToken(j, i, t);
      forall h, c ensures Moves(dmas + more, h, c) <==> exists u: nat :: u < t + 1 && TokenAt(j, i, u, h, c) {
        MovesConcat(dmas, more, h, c);
      }
      dmas := dmas + more;
    }
    forall h, c ensures Moves(dmas, h, c) <==> ChunkAt(j, i, h, c) {
      if ChunkAt(j, i, h, c) {
        var t: nat :| TokenAt(j, i, t, h, c);
        TokenInside(j, i, t, h, c);
      }
    }
  }

  lemma TokenInside(j: Job, i: nat, t: nat, h: int, c: int)
    requires TokenAt(j, i, t, h, c)
    ensures i < |j.chunks| && t < j.chunks[i].tokens
  {
  }

  // ---------------------------------------------------------------- selected tokens

  predicate Holds(chunk: Chunk, token: int) { chunk.offset <= token < chunk.offset + chunk.tokens }

  /** The first chunk, in list order, that holds a token. */
  ghost predicate First(j: Job, i: nat, token: int) {
    i < |j.chunks| && Holds(j.chunks[i], token) && forall k :: 0 <= k < i ==> !Holds(j.chunks[k], token)
  }

  /** Look a staging token up among the chunks. */
  method FindChunk(j: Job, token: int) returns (i: Option<nat>)
    ensures i.Some? ==> First(j, i.value, token)
    ensures i.None? ==> forall k :: 0 <= k < |j.chunks| ==> !Holds(j.chunks[k], token)
  {
    for k := 0 to |j.chunks|
      invariant forall m :: 0 <= m < k ==> !Holds(j.chunks[m], token)
    {
      if Holds(j.chunks[k], token) { return Some(k); }
    }
    i := None;
  }

  ghost predicate Covered(j: Job, token: int) { exists i :: 0 <= i < |j.chunks| && Holds(j.chunks[i], token) }

  /** A selected token is looked up as token t of chunk i. */
  ghost predicate Picks(j: Job, selected: seq<int>, i: nat, t: nat) {
    i < |j.chunks| && j.chunks[i].offset + t in selected && First(j, i, j.chunks[i].offset + t)
  }

  /** What a sparse copy is asked to move: the rows of the selected tokens. */
  ghost predicate SelectedAt(j: Job, selected: seq<int>, h: int, c: int) {
    exists i: nat, t: nat :: Picks(j, selected, i, t) && TokenAt(j, i, t, h, c)
  }

  /** Whether most tokens are selected, so that the dense copy is used. */
  predicate Bulk(j: Job, selected: seq<int>) { |selected| >= (j.d.lmcTokens * 3) / 4 }

  /** Copy the selected tokens. The three-quarters shortcut copies all tokens instead and does not
      look at the selection; only the token-by-token path raises for a token in no chunk. */
  method ExecuteBatchedSparseMemcpy(j: Job, selected: seq<int>) returns (r: Result<seq<Dma>, int>)
    requires JobOk(j)
    ensures r.Err? <==> selected != [] && !Bulk(j, selected) && exists token :: token in selected && !Covered(j, token)
    ensures r.Ok? ==> forall h, c :: SelectedAt(j, selected, h, c) ==> Moves(r.value, h, c)
    ensures r.Ok? ==> forall h, c :: Moves(r.value, h, c) ==> DenseAt(j, h, c)
    ensures r.Ok? && (selected == [] || !Bulk(j, selected)) ==> forall h, c :: Moves(r.value, h, c) <==> SelectedAt(j, selected, h, c)
    ensures r.Ok? && selected != [] && Bulk(j, selected) ==> forall h, c :: Moves(r.value, h, c) <==> DenseAt(j, h, c)
  {
    hide Moves, TokenAt, JobOk;
    forall h, c ensures !Moves([], h, c) { NoMoves(h, c); }
    forall h, c | SelectedAt(j, selected, h, c) ensures DenseAt(j, h, c) {
      var i: nat, t: nat :| Picks(j, selected, i, t) && TokenAt(j, i, t, h, c);
      assert ChunkAt(j, i, h, c);
    }
    if |selected| <= 0 { return Ok([]); }
    if |selected| >= (j.d.lmcTokens * 3) / 4 {
      var dense := ExecuteBatchedMemcpy(j);
      return Ok(dense);
    }
    r := CopySelected(j, selected);
  }

  method CopySelected(j: Job, selected: seq<int>) returns (r: Result<seq<Dma>, int>)
    ensures r.Err? <==> exists token :: token in selected && !Covered(j, token)
    ensures r.Ok? ==> forall h, c :: Moves(r.value, h, c) <==> SelectedAt(j, selected, h, c)
  {
    hide Moves, TokenAt;
    var dmas: seq<Dma> := [];
    forall h, c ensures !Moves(dmas, h, c) { NoMoves(h, c); }
    for k := 0 to |selected|
      invariant forall h, c :: Moves(dmas, h, c) <==> SelectedAt(j, selected[..k], h, c)
      invariant forall token :: token in selected[..k] ==> Covered(j, token)
    {
      var token := selected[k];
      assert token in selected && selected[..k + 1] == selected[..k] + [token];
      var found := FindChunk(j, token);
      if found.None? { return Err(token); }
      var i := found.value;
      var more := CopyToken(j, i, token - j.chunks[i].offset);
      forall h, c ensures Moves(dmas + more, h, c) <==> SelectedAt(j, selected[..k + 1], h, c) {
        MovesConcat(dmas, more, h, c);
        SelectedNext(j, selected, k, i, h, c);
      }
      dmas := dmas + more;
    }
    assert selected[..|selected|] == selected;
    r := Ok(dmas);
  }

  lemma SelectedNext(j: Job, selected: seq<int>, k: nat, i: nat, h: int, c: int)
    requires k < |selected| && First(j, i, selected[k])
    ensures SelectedAt(j, selected[..k + 1], h, c) <==>
      (SelectedAt(j, selected[..k], h, c) || TokenAt(j, i, selected[k] - j.chunks[i].offset, h, c))
  {
    hide TokenAt;
    assert selected[..k + 1] == selected[..k] + [selected[k]];
    if SelectedAt(j, selected[..k + 1], h, c) {
      var a: nat, t: nat :| Picks(j, selected[..k + 1], a, t) && TokenAt(j, a, t, h, c);
      if j.chunks[a].offset + t in selected[..k] {
        assert Picks(j, selected[..k], a, t);
      } else {
        assert j.chunks[a].offset + t == selected[k] && First(j, a, selected[k]);
        assert a == i;
      }
    }
    if SelectedAt(j, selected[..k], h, c) {
      var a: nat, t: nat :| Picks(j, selected[..k], a, t) && TokenAt(j, a, t, h, c);
      assert Picks(j, selected[..k + 1], a, t);
    }
    if TokenAt(j, i, selected[k] - j.chunks[i].offset, h, c) {
      var t := selected[k] - j.chunks[i].offset;
      assert Picks(j, selected[..k + 1], i, t);
    }
  }
}

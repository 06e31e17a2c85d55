/** The grid-strided, run-coalescing copy between cache planes and packets, against a per-token
    specification. */
module IndexerC8 {
  import opened Basics
  import opened Division
  import opened Dmas

  const BLOCK := 128
  const SCALE_BYTES := 2

  /** One layer's planes, as the launch table gives them. */
  datatype Layer = Layer(keyBase: int, scaleBase: Option<int>, keyBytes: nat, slotFactor: nat, blockMap: Option<seq<int>>)

  /** One launch: packets[layer * chunks + chunk] is a packet address, 0 for none. */
  datatype Launch = Launch(layers: seq<Layer>, packets: seq<nat>, starts: seq<int>, counts: seq<int>, mapping: seq<int>,
                           chunks: nat, capacity: nat, cacheSlots: nat, fixedChunks: bool)

  // ---------------------------------------------------------------- the specification

  /** Where a slot lives in the physical plane. */
  function Physical(layer: Layer, slot: nat): int
    requires layer.blockMap.Some? ==> slot / BLOCK < |layer.blockMap.value|
  {
    if layer.blockMap.None? then slot + (slot / BLOCK) * (layer.slotFactor - 1) * BLOCK
    else layer.blockMap.value[slot / BLOCK] * BLOCK + slot % BLOCK
  }

  /** What the launch code guarantees about one layer. */
  predicate LayerOk(layer: Layer, cacheSlots: nat) {
    && layer.keyBytes > 0 && layer.slotFactor > 0
    && (layer.blockMap.Some? ==> cacheSlots <= |layer.blockMap.value| * BLOCK)
  }

  function Limit(layer: Layer, cacheSlots: nat): nat { cacheSlots * layer.slotFactor }

  /** A slot the caller did not exclude, inside the cache. */
  predicate Named(slot: int, cacheSlots: nat) { 0 <= slot < cacheSlots }

  lemma BlockInMap(layer: Layer, cacheSlots: nat, slot: int)
    requires LayerOk(layer, cacheSlots) && Named(slot, cacheSlots)
    ensures layer.blockMap.Some? ==> slot / BLOCK < |layer.blockMap.value|
  {
  }

  /** A token's row is copied when its own physical slot lies inside the plane. */
  predicate Copied(layer: Layer, cacheSlots: nat, slot: int)
    requires LayerOk(layer, cacheSlots)
  {
    Named(slot, cacheSlots) && (BlockInMap(layer, cacheSlots, slot); 0 <= Physical(layer, slot) < Limit(layer, cacheSlots))
  }

  /** The copy of one token, byte by byte: its key row, and its scale when there is a scale plane. */
  predicate TokenMoves(layer: Layer, cacheSlots: nat, packet: int, count: nat, token: nat, slot: int, p: int, c: int)
    requires LayerOk(layer, cacheSlots)
  {
    Copied(layer, cacheSlots, slot) &&
    (BlockInMap(layer, cacheSlots, slot);
     var at := Physical(layer, slot);
     RowByte(packet + token * layer.keyBytes, layer.keyBase + at * layer.keyBytes, layer.keyBytes, p, c)
     || (layer.scaleBase.Some? &&
         RowByte(packet + count * layer.keyBytes + token * SCALE_BYTES, layer.scaleBase.value + at * SCALE_BYTES, SCALE_BYTES, p, c)))
  }

  // ---------------------------------------------------------------- runs of neighbouring slots

  /** Slots that the kernel may take as one run. */
  predicate OneRun(layer: Layer, cacheSlots: nat, slot: nat, run: nat) {
    && slot + run <= cacheSlots
    && ((layer.slotFactor == 1 && layer.blockMap.None?) || slot % BLOCK + run <= BLOCK)
  }

  lemma NextInBlock(slot: nat, i: nat)
    requires slot % BLOCK + i < BLOCK
    ensures (slot + i) / BLOCK == slot / BLOCK && (slot + i) % BLOCK == slot % BLOCK + i
  {
    DivUnique(slot + i, BLOCK, slot / BLOCK, slot % BLOCK + i);
  }

  /** The slots of a run are neighbours in the physical plane too. */
  lemma RunIsPhysical(layer: Layer, cacheSlots: nat, slot: nat, run: nat, i: nat)
    requires LayerOk(layer, cacheSlots) && OneRun(layer, cacheSlots, slot, run) && i < run
    ensures Named(slot + i, cacheSlots)
    ensures layer.blockMap.Some? ==> (slot + i) / BLOCK < |layer.blockMap.value| && slot / BLOCK < |layer.blockMap.value|
    ensures Physical(layer, slot + i) == Physical(layer, slot) + i
  {
    BlockInMap(layer, cacheSlots, slot);
    BlockInMap(layer, cacheSlots, slot + i);
    if layer.slotFactor == 1 && layer.blockMap.None? {
    } else {
      NextInBlock(slot, i);
    }
  }

  /** Block b is mapped to the physical block in which the plane ends, and has rows on both sides. */
  predicate Straddles(layer: Layer, cacheSlots: nat, b: nat)
    requires layer.blockMap.Some? && b < |layer.blockMap.value|
  {
    var tail := Limit(layer, cacheSlots) % BLOCK;
    layer.blockMap.value[b] == Limit(layer, cacheSlots) / BLOCK && 0 < tail < BLOCK && b * BLOCK + tail < cacheSlots
  }

  /** No mapped block reaches across the end of the plane. */
  predicate NoStraddle(layer: Layer, cacheSlots: nat) {
    layer.blockMap.Some? ==> forall b {:trigger layer.blockMap.value[b]} :: 0 <= b < |layer.blockMap.value| ==> !Straddles(layer, cacheSlots, b)
  }

  /** Without a block map a slot inside the cache is always inside the plane. */
  lemma UnmappedFits(layer: Layer, cacheSlots: nat, slot: nat, run: nat)
    requires LayerOk(layer, cacheSlots) && layer.blockMap.None? && OneRun(layer, cacheSlots, slot, run) && run > 0
    ensures 0 <= Physical(layer, slot) && Physical(layer, slot) + run <= Limit(layer, cacheSlots)
  {
    var b, x, f := slot / BLOCK, slot % BLOCK, layer.slotFactor;
    assert slot == b * BLOCK + x;
    assert b * (f - 1) * BLOCK == b * BLOCK * (f - 1);
    MulNat(b * BLOCK, f - 1);
    MulMonotone(b * BLOCK, cacheSlots, f - 1);
    assert cacheSlots * f == cacheSlots * (f - 1) + cacheSlots;
  }

  /** The kernel's check of a whole run decides for every slot of it alike. */
  lemma RunIsAllOrNothing(layer: Layer, cacheSlots: nat, slot: nat, run: nat, i: nat)
    requires LayerOk(layer, cacheSlots) && OneRun(layer, cacheSlots, slot, run) && NoStraddle(layer, cacheSlots) && i < run
    requires layer.blockMap.Some? ==> slot / BLOCK < |layer.blockMap.value|
    ensures Copied(layer, cacheSlots, slot + i) <==>
      0 <= Physical(layer, slot) && Physical(layer, slot) + run <= Limit(layer, cacheSlots)
  {
    RunIsPhysical(layer, cacheSlots, slot, run, i);
    if layer.blockMap.None? {
      UnmappedFits(layer, cacheSlots, slot, run);
    } else {
      var id, limit := layer.blockMap.value[slot / BLOCK], Limit(layer, cacheSlots);
      assert Physical(layer, slot) == id * BLOCK + slot % BLOCK;
      assert !Straddles(layer, cacheSlots, slot / BLOCK);
      assert limit == (limit / BLOCK) * BLOCK + limit % BLOCK;
    }
  }

  lemma WholeBlocksFit(layer: Layer, cacheSlots: nat)
    requires Limit(layer, cacheSlots) % BLOCK == 0
    ensures NoStraddle(layer, cacheSlots)
  {
    hide Limit;
    if layer.blockMap.Some? {
      forall b | 0 <= b < |layer.blockMap.value| ensures !Straddles(layer, cacheSlots, b) {}
    }
  }

  /** The launch code sizes planes in whole blocks, so nothing ever straddles. */
  lemma HostNeverStraddles(layer: Layer, cacheSlots: nat, blocks: nat)
    requires layer.slotFactor > 0 && blocks % layer.slotFactor == 0 && cacheSlots == blocks * BLOCK / layer.slotFactor
    ensures Limit(layer, cacheSlots) == blocks * BLOCK && NoStraddle(layer, cacheSlots)
  {
    var f := layer.slotFactor;
    var q := blocks / f;
    assert blocks == q * f;
    assert blocks * BLOCK == (q * BLOCK) * f;
    DivUnique(blocks * BLOCK, f, q * BLOCK, 0);
    DivUnique(blocks * BLOCK, BLOCK, blocks, 0);
    WholeBlocksFit(layer, cacheSlots);
  }

  // ---------------------------------------------------------------- one tile

  /** The mapping names neighbouring slots from position at on. */
  predicate Neighbours(mapping: seq<int>, at: nat, slot: int, run: nat)
    requires at + run <= |mapping|
  {
    forall k {:trigger mapping[k]} :: at <= k < at + run ==> mapping[k] == slot + (k - at)
  }

  /** How far a run reaches once it has the given length. */
  function RunLength(layer: Layer, cacheSlots: nat, mapping: seq<int>, at: nat, room: nat, slot: nat, run: nat): (r: nat)
    requires at + room <= |mapping| && run <= room
    requires OneRun(layer, cacheSlots, slot, run) && Neighbours(mapping, at, slot, run)
    ensures run <= r <= room && OneRun(layer, cacheSlots, slot, r) && Neighbours(mapping, at, slot, r)
    decreases room - run
  {
    if run < room && slot + run < cacheSlots
       && ((layer.slotFactor == 1 && layer.blockMap.None?) || slot % BLOCK + run < BLOCK)
       && mapping[at + run] == slot + run
    then RunLength(layer, cacheSlots, mapping, at, room, slot, run + 1)
    else run
  }

  /** The one or two DMAs of a run. */
  function RunDmas(layer: Layer, packet: int, count: nat, token: nat, at: int, run: nat): seq<Dma> {
    [Dma(packet + token * layer.keyBytes, layer.keyBase + at * layer.keyBytes, run * layer.keyBytes)]
    + if layer.scaleBase.None? then []
      else [Dma(packet + count * layer.keyBytes + token * SCALE_BYTES, layer.scaleBase.value + at * SCALE_BYTES, run * SCALE_BYTES)]
  }

  /** The first run at a token whose slot is not excluded. */
  function FirstRun(layer: Layer, cacheSlots: nat, mapping: seq<int>, start: nat, token: nat, end: nat): (r: nat)
    requires LayerOk(layer, cacheSlots) && token < end && start + end <= |mapping| && Named(mapping[start + token], cacheSlots)
    ensures 1 <= r <= end - token && OneRun(layer, cacheSlots, mapping[start + token], r)
    ensures Neighbours(mapping, start + token, mapping[start + token], r)
  {
    RunLength(layer, cacheSlots, mapping, start + token, end - token, mapping[start + token], 1)
  }

  /** Whether a run lies inside the physical plane. */
  predicate RunFits(layer: Layer, cacheSlots: nat, slot: nat, run: nat)
    requires LayerOk(layer, cacheSlots) && Named(slot, cacheSlots)
  {
    BlockInMap(layer, cacheSlots, slot);
    0 <= Physical(layer, slot) && Physical(layer, slot) + run <= Limit(layer, cacheSlots)
  }

  /** What one tile issues, from a token on. */
  function TileDmas(layer: Layer, cacheSlots: nat, mapping: seq<int>, start: nat, packet: int, count: nat, token: nat, end: nat): seq<Dma>
    requires LayerOk(layer, cacheSlots) && start + end <= |mapping|
    decreases end - token
  {
    if token >= end then []
    else
      var slot := mapping[start + token];
      if !Named(slot, cacheSlots) then TileDmas(layer, cacheSlots, mapping, start, packet, count, token + 1, end)
      else
        var run := FirstRun(layer, cacheSlots, mapping, start, token, end);
        BlockInMap(layer, cacheSlots, slot);
        (if RunFits(layer, cacheSlots, slot, run) then RunDmas(layer, packet, count, token, Physical(layer, slot), run) else [])
        + TileDmas(layer, cacheSlots, mapping, start, packet, count, token + run, end)
  }

  /** The copy that the mapping asks for at one token of a chunk. */
  predicate MappedMoves(layer: Layer, cacheSlots: nat, mapping: seq<int>, start: nat, packet: int, count: nat, token: nat, p: int, c: int)
    requires LayerOk(layer, cacheSlots) && start + token < |mapping|
  {
    TokenMoves(layer, cacheSlots, packet, count, token, mapping[start + token], p, c)
  }

  lemma DmasOfRun(layer: Layer, packet: int, count: nat, token: nat, at: int, run: nat, p: int, c: int)
    ensures Moves(RunDmas(layer, packet, count, token, at, run), p, c) <==>
      WholeRun(packet, layer.keyBase, token, at, layer.keyBytes, run, p, c)
      || (layer.scaleBase.Some? && WholeRun(packet + count * layer.keyBytes, layer.scaleBase.value, token, at, SCALE_BYTES, run, p, c))
  {
    var dmas := RunDmas(layer, packet, count, token, at, run);
    assert dmas[0] in dmas;
    if layer.scaleBase.Some? { assert dmas[1] in dmas; }
    forall d | d in dmas ensures d == dmas[0] || (layer.scaleBase.Some? && d == dmas[1]) {}
  }

  lemma DmasOfToken(layer: Layer, cacheSlots: nat, packet: int, count: nat, token: nat, slot: nat, i: nat, at: int, p: int, c: int)
    requires LayerOk(layer, cacheSlots) && Copied(layer, cacheSlots, slot + i)
    requires layer.blockMap.Some? ==> (slot + i) / BLOCK < |layer.blockMap.value|
    requires Physical(layer, slot + i) == at + i
    ensures TokenMoves(layer, cacheSlots, packet, count, token + i, slot + i, p, c) <==>
      RunRow(packet, layer.keyBase, token, at, layer.keyBytes, i, p, c)
      || (layer.scaleBase.Some? && RunRow(packet + count * layer.keyBytes, layer.scaleBase.value, token, at, SCALE_BYTES, i, p, c))
  {
  }

  /** The DMAs of a run that fits move exactly the rows of its tokens. */
  lemma RunIsRows(layer: Layer, cacheSlots: nat, mapping: seq<int>, start: nat, packet: int, count: nat, token: nat, run: nat, p: int, c: int)
    requires LayerOk(layer, cacheSlots) && NoStraddle(layer, cacheSlots) && run > 0 && start + token + run <= |mapping|
    requires Named(mapping[start + token], cacheSlots) && OneRun(layer, cacheSlots, mapping[start + token], run)
    requires Neighbours(mapping, start + token, mapping[start + token], run)
    requires layer.blockMap.Some? ==> mapping[start + token] / BLOCK < |layer.blockMap.value|
    ensures (RunFits(layer, cacheSlots, mapping[start + token], run)
             && Moves(RunDmas(layer, packet, count, token, Physical(layer, mapping[start + token]), run), p, c))
      <==> Within(layer, cacheSlots, mapping, start, packet, count, token, token + run, p, c)
  {
    hide Moves, RunDmas, NoStraddle, TokenMoves;
    var slot := mapping[start + token];
    var at := Physical(layer, slot);
    DmasOfRun(layer, packet, count, token, at, run, p, c);
    if RunFits(layer, cacheSlots, slot, run) && Moves(RunDmas(layer, packet, count, token, at, run), p, c) {
      var i: nat;
      if WholeRun(packet, layer.keyBase, token, at, layer.keyBytes, run, p, c) {
        i := RowOfRun(packet, layer.keyBase, token, at, layer.keyBytes, run, p, c);
      } else {
        i := RowOfRun(packet + count * layer.keyBytes, layer.scaleBase.value, token, at, SCALE_BYTES, run, p, c);
      }
      RunToken(layer, cacheSlots, mapping, start, packet, count, token, run, i, p, c);
      assert MappedMoves(layer, cacheSlots, mapping, start, packet, count, token + i, p, c);
    }
    if Within(layer, cacheSlots, mapping, start, packet, count, token, token + run, p, c) {
      var t :| token <= t < token + run && MappedMoves(layer, cacheSlots, mapping, start, packet, count, t, p, c);
      var i := t - token;
      RunToken(layer, cacheSlots, mapping, start, packet, count, token, run, i, p, c);
      if RunRow(packet, layer.keyBase, token, at, layer.keyBytes, i, p, c) {
        RunHasRow(packet, layer.keyBase, token, at, layer.keyBytes, run, i, p, c);
      } else {
        RunHasRow(packet + count * layer.keyBytes, layer.scaleBase.value, token, at, SCALE_BYTES, run, i, p, c);
      }
    }
  }

  /** One token of a run, in terms of the run's first row. */
  lemma RunToken(layer: Layer, cacheSlots: nat, mapping: seq<int>, start: nat, packet: int, count: nat, token: nat, run: nat, i: nat, p: int, c: int)
    requires LayerOk(layer, cacheSlots) && NoStraddle(layer, cacheSlots) && i < run && start + token + run <= |mapping|
    requires Named(mapping[start + token], cacheSlots) && OneRun(layer, cacheSlots, mapping[start + token], run)
    requires Neighbours(mapping, start + token, mapping[start + token], run)
    requires layer.blockMap.Some? ==> mapping[start + token] / BLOCK < |layer.blockMap.value|
    ensures MappedMoves(layer, cacheSlots, mapping, start, packet, count, token + i, p, c) <==>
      var at := Physical(layer, mapping[start + token]);
      RunFits(layer, cacheSlots, mapping[start + token], run) &&
      (RunRow(packet, layer.keyBase, token, at, layer.keyBytes, i, p, c)
       || (layer.scaleBase.Some? && RunRow(packet + count * layer.keyBytes, layer.scaleBase.value, token, at, SCALE_BYTES, i, p, c)))
  {
    hide NoStraddle, RunRow;
    var slot := mapping[start + token];
    assert mapping[start + token + i] == slot + i;
    assert start + (token + i) == start + token + i;
    RunIsPhysical(layer, cacheSlots, slot, run, i);
    RunIsAllOrNothing(layer, cacheSlots, slot, run, i);
    if RunFits(layer, cacheSlots, slot, run) {
      DmasOfToken(layer, cacheSlots, packet, count, token, slot, i, Physical(layer, slot), p, c);
    }
  }

  /** Some token of a stretch asks for this byte. */
  ghost predicate Within(layer: Layer, cacheSlots: nat, mapping: seq<int>, start: nat, packet: int, count: nat, token: nat, end: nat, p: int, c: int)
    requires LayerOk(layer, cacheSlots) && start + end <= |mapping|
  {
    exists t: nat :: token <= t < end && MappedMoves(layer, cacheSlots, mapping, start, packet, count, t, p, c)
  }

  /** A tile moves exactly what its tokens ask for, one by one. */
  lemma {:induction false} TileIsTokens(layer: Layer, cacheSlots: nat, mapping: seq<int>, start: nat, packet: int, count: nat, token: nat, end: nat, p: int, c: int)
    requires LayerOk(layer, cacheSlots) && NoStraddle(layer, cacheSlots) && start + end <= |mapping|
    ensures Moves(TileDmas(layer, cacheSlots, mapping, start, packet, count, token, end), p, c) <==>
      Within(layer, cacheSlots, mapping, start, packet, count, token, end, p, c)
    decreases end - token
  {
    hide NoStraddle, TokenMoves, RunFits, OneRun, Neighbours, RunDmas;
    if token < end {
      var slot := mapping[start + token];
      if !Named(slot, cacheSlots) {
        TileIsTokens(layer, cacheSlots, mapping, start, packet, count, token + 1, end, p, c);
        NotCopied(layer, cacheSlots, mapping, start, packet, count, token, p, c);
      } else {
        var run := FirstRun(layer, cacheSlots, mapping, start, token, end);
        BlockInMap(layer, cacheSlots, slot);
        TileIsTokens(layer, cacheSlots, mapping, start, packet, count, token + run, end, p, c);
        RunIsRows(layer, cacheSlots, mapping, start, packet, count, token, run, p, c);
        var dmas := if RunFits(layer, cacheSlots, slot, run) then RunDmas(layer, packet, count, token, Physical(layer, slot), run) else [];
        MovesConcat(dmas, TileDmas(layer, cacheSlots, mapping, start, packet, count, token + run, end), p, c);
      }
    }
  }

  lemma NotCopied(layer: Layer, cacheSlots: nat, mapping: seq<int>, start: nat, packet: int, count: nat, token: nat, p: int, c: int)
    requires LayerOk(layer, cacheSlots) && start + token < |mapping| && !Named(mapping[start + token], cacheSlots)
    ensures !MappedMoves(layer, cacheSlots, mapping, start, packet, count, token, p, c)
  {
  }

  // ---------------------------------------------------------------- when the coalesced form is exact

  /** The kernel and the per-token copy agree on every byte of every stretch of a mapping. */
  ghost predicate Exact(layer: Layer, cacheSlots: nat, mapping: seq<int>)
    requires LayerOk(layer, cacheSlots)
  {
    forall p, c {:trigger Moves(TileDmas(layer, cacheSlots, mapping, 0, 0, |mapping|, 0, |mapping|), p, c)} ::
      Moves(TileDmas(layer, cacheSlots, mapping, 0, 0, |mapping|, 0, |mapping|), p, c) <==>
      Within(layer, cacheSlots, mapping, 0, 0, |mapping|, 0, |mapping|, p, c)
  }

  /** The slots of one logical block, as far as the cache has them. */
  function BlockSlots(cacheSlots: nat, b: nat): seq<int>
    requires b * BLOCK < cacheSlots
  {
    seq(if b * BLOCK + BLOCK <= cacheSlots then BLOCK else cacheSlots - b * BLOCK, i => b * BLOCK + i)
  }

  /** For a mapping over a straddling block the kernel issues nothing, though the rows in front of
      the end of the plane are asked for: its check of the whole run drops them too. */
  lemma StraddleLosesRows(layer: Layer, cacheSlots: nat, b: nat)
    requires LayerOk(layer, cacheSlots) && layer.blockMap.Some? && b < |layer.blockMap.value| && Straddles(layer, cacheSlots, b)
    ensures b * BLOCK < cacheSlots && TileDmas(layer, cacheSlots, BlockSlots(cacheSlots, b), 0, 0, |BlockSlots(cacheSlots, b)|, 0, |BlockSlots(cacheSlots, b)|) == []
    ensures MappedMoves(layer, cacheSlots, BlockSlots(cacheSlots, b), 0, 0, |BlockSlots(cacheSlots, b)|, 0, 0,
                        layer.keyBase + layer.blockMap.value[b] * BLOCK * layer.keyBytes)
  {
    var mapping := BlockSlots(cacheSlots, b);
    var n, slot := |mapping|, b * BLOCK;
    DivUnique(slot, BLOCK, b, 0);
    assert mapping[0] == slot;
    FullRun(layer, cacheSlots, mapping, slot, 1);
    StraddleDoesNotFit(layer, cacheSlots, b, n);
    assert TileDmas(layer, cacheSlots, mapping, 0, 0, n, n, n) == [];
  }

  lemma StraddleDoesNotFit(layer: Layer, cacheSlots: nat, b: nat, n: nat)
    requires LayerOk(layer, cacheSlots) && layer.blockMap.Some? && b < |layer.blockMap.value| && Straddles(layer, cacheSlots, b)
    requires (b * BLOCK) / BLOCK == b && (b * BLOCK) % BLOCK == 0 && b * BLOCK < cacheSlots
    requires n == if b * BLOCK + BLOCK <= cacheSlots then BLOCK else cacheSlots - b * BLOCK
    ensures !RunFits(layer, cacheSlots, b * BLOCK, n)
    ensures Copied(layer, cacheSlots, b * BLOCK)
    ensures Physical(layer, b * BLOCK) == layer.blockMap.value[b] * BLOCK
  {
    var limit := Limit(layer, cacheSlots);
    assert limit == (limit / BLOCK) * BLOCK + limit % BLOCK;
  }

  /** A run over neighbouring slots of one block does not stop early. */
  lemma {:induction false} FullRun(layer: Layer, cacheSlots: nat, mapping: seq<int>, slot: nat, run: nat)
    requires slot % BLOCK == 0 && 1 <= run <= |mapping| <= BLOCK && slot + |mapping| <= cacheSlots
    requires Neighbours(mapping, 0, slot, |mapping|)
    ensures RunLength(layer, cacheSlots, mapping, 0, |mapping|, slot, run) == |mapping|
    decreases |mapping| - run
  {
    if run < |mapping| {
      assert mapping[0 + run] == slot + run;
      FullRun(layer, cacheSlots, mapping, slot, run + 1);
    }
  }

  /** The coalesced copy is exact on all mappings if and only if no mapped block straddles the end
      of the plane. */
  lemma ExactIffNoStraddle(layer: Layer, cacheSlots: nat)
    requires LayerOk(layer, cacheSlots)
    ensures (forall mapping: seq<int> {:trigger Exact(layer, cacheSlots, mapping)} :: Exact(layer, cacheSlots, mapping)) <==> NoStraddle(layer, cacheSlots)
  {
    if NoStraddle(layer, cacheSlots) {
      forall mapping: seq<int> ensures Exact(layer, cacheSlots, mapping) {
        forall p, c ensures Moves(TileDmas(layer, cacheSlots, mapping, 0, 0, |mapping|, 0, |mapping|), p, c) <==>
          Within(layer, cacheSlots, mapping, 0, 0, |mapping|, 0, |mapping|, p, c)
        {
          TileIsTokens(layer, cacheSlots, mapping, 0, 0, |mapping|, 0, |mapping|, p, c);
        }
      }
    } else {
      var b: nat :| b < |layer.blockMap.value| && Straddles(layer, cacheSlots, b);
      StraddleLosesRows(layer, cacheSlots, b);
      var mapping := BlockSlots(cacheSlots, b);
      var c := layer.keyBase + layer.blockMap.value[b] * BLOCK * layer.keyBytes;
      assert Within(layer, cacheSlots, mapping, 0, 0, |mapping|, 0, |mapping|, 0, c);
      assert !Moves([], 0, c);
      assert !Exact(layer, cacheSlots, mapping);
    }
  }
}

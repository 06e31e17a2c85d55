/** The kernel's loops: the grid of (layer, chunk, tile) work over the cores, and the run loop. */
module IndexerC8Kernel {
  import opened Basics
  import opened Division
  import opened Dmas
  import opened IndexerC8

  function Tiles(launch: Launch): nat { (launch.capacity + BLOCK - 1) / BLOCK }

  function Total(launch: Launch): nat { |launch.layers| * (launch.chunks * Tiles(launch)) }

  predicate LaunchOk(launch: Launch) {
    && |launch.packets| == |launch.layers| * launch.chunks && launch.capacity > 0
    && (!launch.fixedChunks ==> |launch.starts| == |launch.counts| == launch.chunks)
    && forall l :: 0 <= l < |launch.layers| ==> LayerOk(launch.layers[l], launch.cacheSlots)
  }

  function Start(launch: Launch, chunk: nat): int
    requires LaunchOk(launch) && chunk < launch.chunks
  {
    if launch.fixedChunks then chunk * launch.capacity else launch.starts[chunk]
  }

  function Count(launch: Launch, chunk: nat): int
    requires LaunchOk(launch) && chunk < launch.chunks
  {
    if launch.fixedChunks then
      var remaining := |launch.mapping| - Start(launch, chunk);
      if remaining < launch.capacity then remaining else launch.capacity
    else launch.counts[chunk]
  }

  lemma PacketIndex(launch: Launch, layer: nat, chunk: nat)
    requires LaunchOk(launch) && layer < |launch.layers| && chunk < launch.chunks
    ensures layer * launch.chunks + chunk < |launch.packets|
  {
    MulMonotone(layer + 1, |launch.layers|, launch.chunks);
    assert (layer + 1) * launch.chunks == layer * launch.chunks + launch.chunks;
  }

  function Packet(launch: Launch, layer: nat, chunk: nat): nat
    requires LaunchOk(launch) && layer < |launch.layers| && chunk < launch.chunks
  {
    PacketIndex(launch, layer, chunk);
    launch.packets[layer * launch.chunks + chunk]
  }

  /** A chunk is copied when it has a packet and its range lies inside the mapping. */
  predicate Admitted(launch: Launch, layer: nat, chunk: nat)
    requires LaunchOk(launch) && layer < |launch.layers| && chunk < launch.chunks
  {
    && Packet(launch, layer, chunk) != 0 && 0 < Count(launch, chunk) <= launch.capacity
    && 0 <= Start(launch, chunk) && Count(launch, chunk) <= |launch.mapping| - Start(launch, chunk)
  }

  /** The per-token specification of the whole launch. */
  ghost predicate Asked(launch: Launch, layer: nat, chunk: nat, token: nat, p: int, c: int)
    requires LaunchOk(launch)
  {
    layer < |launch.layers| && chunk < launch.chunks && Admitted(launch, layer, chunk) && token < Count(launch, chunk) &&
    MappedMoves(launch.layers[layer], launch.cacheSlots, launch.mapping, Start(launch, chunk), Packet(launch, layer, chunk),
                Count(launch, chunk), token, p, c)
  }

  ghost predicate AskedSomewhere(launch: Launch, p: int, c: int)
    requires LaunchOk(launch)
  {
    exists layer: nat, chunk: nat, token: nat :: Asked(launch, layer, chunk, token, p, c)
  }

  // ---------------------------------------------------------------- the grid

  function LayerOf(launch: Launch, work: nat): nat
    requires launch.chunks * Tiles(launch) > 0
  {
    work / (launch.chunks * Tiles(launch))
  }

  function ChunkOf(launch: Launch, work: nat): nat
    requires launch.chunks > 0 && Tiles(launch) > 0
  {
    (work / Tiles(launch)) % launch.chunks
  }

  function TileOf(launch: Launch, work: nat): nat
    requires Tiles(launch) > 0
  {
    work % Tiles(launch)
  }

  lemma GridIsOpen(launch: Launch, work: nat)
    requires LaunchOk(launch) && work < Total(launch)
    ensures launch.chunks > 0 && Tiles(launch) > 0 && launch.chunks * Tiles(launch) > 0
    ensures LayerOf(launch, work) < |launch.layers| && ChunkOf(launch, work) < launch.chunks && TileOf(launch, work) < Tiles(launch)
  {
    var span := launch.chunks * Tiles(launch);
    assert span == 0 ==> |launch.layers| * span == 0;
    var l := work / span;
    assert work == l * span + work % span;
    if l >= |launch.layers| { MulMonotone(|launch.layers|, l, span); }
  }

  /** The work item of a tile. */
  function WorkOf(launch: Launch, layer: nat, chunk: nat, tile: nat): nat {
    (layer * launch.chunks + chunk) * Tiles(launch) + tile
  }

  /** Numbering the tiles and taking a number apart are inverse to each other. */
  lemma GridRoundTrip(launch: Launch, layer: nat, chunk: nat, tile: nat)
    requires layer < |launch.layers| && chunk < launch.chunks && tile < Tiles(launch)
    ensures launch.chunks * Tiles(launch) > 0
    ensures WorkOf(launch, layer, chunk, tile) < Total(launch)
    ensures LayerOf(launch, WorkOf(launch, layer, chunk, tile)) == layer
    ensures ChunkOf(launch, WorkOf(launch, layer, chunk, tile)) == chunk
    ensures TileOf(launch, WorkOf(launch, layer, chunk, tile)) == tile
  {
    var n, c := Tiles(launch), launch.chunks;
    var w, row := WorkOf(launch, layer, chunk, tile), layer * c + chunk;
    DivUnique(w, n, row, tile);
    DivUnique(row, c, layer, chunk);
    MulGrows(c, n);
    MulMonotone(chunk + 1, c, n);
    assert (chunk + 1) * n == chunk * n + n;
    assert row * n == layer * (c * n) + chunk * n by { assert row * n == (layer * c) * n + chunk * n; }
    MulNat(chunk, n);
    DivUnique(w, c * n, layer, chunk * n + tile);
    MulMonotone(layer + 1, |launch.layers|, c * n);
    assert (layer + 1) * (c * n) == layer * (c * n) + c * n;
  }

  /** Every work item belongs to the core with its remainder, and to no other. */
  predicate OnCore(work: nat, core: nat, cores: nat)
    requires cores > 0
  {
    work % cores == core
  }

  /** The tokens of one work item. */
  ghost predicate WorkMoves(launch: Launch, work: nat, p: int, c: int)
    requires LaunchOk(launch) && work < Total(launch)
  {
    GridIsOpen(launch, work);
    var layer, chunk, first := LayerOf(launch, work), ChunkOf(launch, work), TileOf(launch, work) * BLOCK;
    Admitted(launch, layer, chunk) &&
    Within(launch.layers[layer], launch.cacheSlots, launch.mapping, Start(launch, chunk), Packet(launch, layer, chunk),
           Count(launch, chunk), first, TileEnd(first, Count(launch, chunk)), p, c)
  }

  function TileEnd(first: nat, count: nat): nat { if first + BLOCK < count then first + BLOCK else count }

  /** The grid hands out every token of every admitted chunk. */
  lemma GridCovers(launch: Launch, p: int, c: int)
    requires LaunchOk(launch)
    ensures (exists work: nat :: work < Total(launch) && WorkMoves(launch, work, p, c)) <==> AskedSomewhere(launch, p, c)
  {
    if work: nat :| work < Total(launch) && WorkMoves(launch, work, p, c) {
      WorkIsAsked(launch, work, p, c);
    }
    if layer: nat, chunk: nat, token: nat :| Asked(launch, layer, chunk, token, p, c) {
      var work := AskedIsWork(launch, layer, chunk, token, p, c);
    }
  }

  lemma WorkIsAsked(launch: Launch, work: nat, p: int, c: int)
    requires LaunchOk(launch) && work < Total(launch) && WorkMoves(launch, work, p, c)
    ensures AskedSomewhere(launch, p, c)
  {
    hide MappedMoves;
    GridIsOpen(launch, work);
    var layer, chunk, first := LayerOf(launch, work), ChunkOf(launch, work), TileOf(launch, work) * BLOCK;
    var t: nat :| first <= t < TileEnd(first, Count(launch, chunk)) &&
      MappedMoves(launch.layers[layer], launch.cacheSlots, launch.mapping, Start(launch, chunk), Packet(launch, layer, chunk), Count(launch, chunk), t, p, c);
    assert Asked(launch, layer, chunk, t, p, c);
  }

  lemma AskedIsWork(launch: Launch, layer: nat, chunk: nat, token: nat, p: int, c: int) returns (work: nat)
    requires LaunchOk(launch) && Asked(launch, layer, chunk, token, p, c)
    ensures work < Total(launch) && WorkMoves(launch, work, p, c)
  {
    hide MappedMoves;
    var tile := token / BLOCK;
    assert tile < Tiles(launch);
    work := WorkOf(launch, layer, chunk, tile);
    GridRoundTrip(launch, layer, chunk, tile);
    assert tile * BLOCK <= token < TileEnd(tile * BLOCK, Count(launch, chunk));
  }

  // ---------------------------------------------------------------- the loops

  /** Copy the tokens of one tile, run by run. */
  method CopyTile(layer: Layer, cacheSlots: nat, mapping: seq<int>, start: nat, packet: int, count: nat, first: nat, end: nat)
    returns (dmas: seq<Dma>)
    requires LayerOk(layer, cacheSlots) && start + end <= |mapping|
    ensures dmas == TileDmas(layer, cacheSlots, mapping, start, packet, count, first, end)
  {
    hide OneRun, Neighbours, RunDmas, RunFits;
    dmas := [];
    var token := first;
    while token < end
      invariant dmas + TileDmas(layer, cacheSlots, mapping, start, packet, count, token, end)
             == TileDmas(layer, cacheSlots, mapping, start, packet, count, first, end)
      decreases end - token
    {
      var slot := mapping[start + token];
      if !Named(slot, cacheSlots) {
        token := token + 1;
        continue;
      }
      var run := ExtendRun(layer, cacheSlots, mapping, start, token, end);
      BlockInMap(layer, cacheSlots, slot);
      if RunFits(layer, cacheSlots, slot, run) {
        dmas := dmas + RunDmas(layer, packet, count, token, Physical(layer, slot), run);
      }
      token := token + run;
    }
  }

  method ExtendRun(layer: Layer, cacheSlots: nat, mapping: seq<int>, start: nat, token: nat, end: nat) returns (run: nat)
    requires LayerOk(layer, cacheSlots) && token < end && start + end <= |mapping| && Named(mapping[start + token], cacheSlots)
    ensures run == FirstRun(layer, cacheSlots, mapping, start, token, end)
  {
    var slot := mapping[start + token];
    run := 1;
    while token + run < end && slot + run < cacheSlots
          && ((layer.slotFactor == 1 && layer.blockMap.None?) || slot % BLOCK + run < BLOCK)
          && mapping[start + token + run] == slot + run
      invariant 1 <= run <= end - token && OneRun(layer, cacheSlots, slot, run) && Neighbours(mapping, start + token, slot, run)
      invariant RunLength(layer, cacheSlots, mapping, start + token, end - token, slot, run) == FirstRun(layer, cacheSlots, mapping, start, token, end)
      decreases end - token - run
    {
      run := run + 1;
    }
  }

  /** The work items below a bound that one core has taken. */
  ghost predicate Taken(launch: Launch, core: nat, cores: nat, bound: nat, p: int, c: int)
    requires LaunchOk(launch) && cores > 0
  {
    exists work: nat :: work < bound && work < Total(launch) && OnCore(work, core, cores) && WorkMoves(launch, work, p, c)
  }

  /** One work item. */
  method CopyWork(launch: Launch, work: nat) returns (dmas: seq<Dma>)
    requires LaunchOk(launch) && work < Total(launch)
    requires forall l :: 0 <= l < |launch.layers| ==> NoStraddle(launch.layers[l], launch.cacheSlots)
    ensures forall p, c :: Moves(dmas, p, c) <==> WorkMoves(launch, work, p, c)
  {
    hide Within, Moves, TileDmas, NoStraddle;
    GridIsOpen(launch, work);
    var layer, chunk, first := LayerOf(launch, work), ChunkOf(launch, work), TileOf(launch, work) * BLOCK;
    if !Admitted(launch, layer, chunk) {
      dmas := [];
      forall p, c ensures !Moves(dmas, p, c) { NoMoves(p, c); }
      return;
    }
    var start, count, packet := Start(launch, chunk), Count(launch, chunk), Packet(launch, layer, chunk);
    var end := TileEnd(first, count);
    dmas := CopyTile(launch.layers[layer], launch.cacheSlots, launch.mapping, start, packet, count, first, end);
    forall p, c ensures Moves(dmas, p, c) <==> WorkMoves(launch, work, p, c) {
      TileIsTokens(launch.layers[layer], launch.cacheSlots, launch.mapping, start, packet, count, first, end, p, c);
    }
  }

  /** Everything one core issues: its stride through the grid. */
  method RunCore(launch: Launch, core: nat, cores: nat) returns (dmas: seq<Dma>)
    requires LaunchOk(launch) && core < cores
    requires forall l :: 0 <= l < |launch.layers| ==> NoStraddle(launch.layers[l], launch.cacheSlots)
    ensures forall p, c :: Moves(dmas, p, c) <==> Taken(launch, core, cores, Total(launch), p, c)
  {
    hide Moves, WorkMoves, NoStraddle, LaunchOk;
    dmas := [];
    forall p, c ensures !Moves(dmas, p, c) { NoMoves(p, c); }
    var work := core;
    DivUnique(core, cores, 0, core);
    NoneTaken(launch, core, cores);
    while work < Total(launch)
      invariant work % cores == core
      invariant forall p, c :: Moves(dmas, p, c) <==> Taken(launch, core, cores, work, p, c)
      decreases Total(launch) - work
    {
      var more := CopyWork(launch, work);
      forall p, c ensures Moves(dmas + more, p, c) <==> Taken(launch, core, cores, work + cores, p, c) {
        MovesConcat(dmas, more, p, c);
        TakenStep(launch, core, cores, work, p, c);
      }
      dmas := dmas + more;
      ModStep(work, cores);
      work := work + cores;
    }
    forall p, c ensures Moves(dmas, p, c) <==> Taken(launch, core, cores, Total(launch), p, c) {}
  }

  lemma NoneTaken(launch: Launch, core: nat, cores: nat)
    requires LaunchOk(launch) && core < cores
    ensures forall p, c :: !Taken(launch, core, cores, core, p, c)
  {
    hide WorkMoves, LaunchOk;
    forall work: nat | work < core ensures work % cores == work { DivUnique(work, cores, 0, work); }
  }

  lemma TakenStep(launch: Launch, core: nat, cores: nat, work: nat, p: int, c: int)
    requires LaunchOk(launch) && cores > 0 && work < Total(launch) && work % cores == core
    ensures Taken(launch, core, cores, work + cores, p, c) <==> Taken(launch, core, cores, work, p, c) || WorkMoves(launch, work, p, c)
  {
    hide WorkMoves, LaunchOk;
    if Taken(launch, core, cores, work + cores, p, c) {
      var w: nat :| w < work + cores && w < Total(launch) && OnCore(w, core, cores) && WorkMoves(launch, w, p, c);
      if w > work { SameRemainder(cores, work, w); }
    }
    if WorkMoves(launch, work, p, c) { assert OnCore(work, core, cores); }
  }
}

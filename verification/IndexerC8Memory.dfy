/** What a launch does to memory: independent of cores and interleaving, and undone by a load. */
module IndexerC8Memory {
  import opened Basics
  import opened Division
  import opened Dmas
  import opened IndexerC8
  import opened IndexerC8Kernel

  // ---------------------------------------------------------------- when a launch is orderly

  function RowBytes(layer: Layer): nat { layer.keyBytes + if layer.scaleBase.Some? then SCALE_BYTES else 0 }

  /** No two packets overlap. */
  ghost predicate PacketsApart(launch: Launch)
    requires LaunchOk(launch)
  {
    forall l: nat, ch: nat, m: nat, dh: nat {:trigger Packet(launch, l, ch), Packet(launch, m, dh)} ::
      l < |launch.layers| && ch < launch.chunks && m < |launch.layers| && dh < launch.chunks && (l != m || ch != dh)
      && Admitted(launch, l, ch) && Admitted(launch, m, dh) ==>
        Apart(Packet(launch, l, ch), Count(launch, ch) * RowBytes(launch.layers[l]), Packet(launch, m, dh), Count(launch, dh) * RowBytes(launch.layers[m]))
  }

  /** One plane: the key plane or the scale plane of a layer. */
  datatype Plane = Plane(base: int, width: nat)

  function PlaneOf(layer: Layer, key: bool): Plane
    requires key || layer.scaleBase.Some?
  {
    if key then Plane(layer.keyBase, layer.keyBytes) else Plane(layer.scaleBase.value, SCALE_BYTES)
  }

  predicate HasPlane(layer: Layer, key: bool) { key || layer.scaleBase.Some? }

  /** No two planes overlap. */
  ghost predicate PlanesApart(launch: Launch) {
    forall l: nat, k: bool, m: nat, j: bool {:trigger PlaneOf(launch.layers[l], k), PlaneOf(launch.layers[m], j)} ::
      l < |launch.layers| && m < |launch.layers| && HasPlane(launch.layers[l], k) && HasPlane(launch.layers[m], j) && (l != m || k != j) ==>
        Apart(PlaneOf(launch.layers[l], k).base, Limit(launch.layers[l], launch.cacheSlots) * PlaneOf(launch.layers[l], k).width,
              PlaneOf(launch.layers[m], j).base, Limit(launch.layers[m], launch.cacheSlots) * PlaneOf(launch.layers[m], j).width)
  }

  /** No packet overlaps a plane. */
  ghost predicate PacketsOutside(launch: Launch)
    requires LaunchOk(launch)
  {
    forall l: nat, ch: nat, m: nat, j: bool {:trigger Packet(launch, l, ch), PlaneOf(launch.layers[m], j)} ::
      l < |launch.layers| && ch < launch.chunks && m < |launch.layers| && HasPlane(launch.layers[m], j) && Admitted(launch, l, ch) ==>
        Apart(Packet(launch, l, ch), Count(launch, ch) * RowBytes(launch.layers[l]),
              PlaneOf(launch.layers[m], j).base, Limit(launch.layers[m], launch.cacheSlots) * PlaneOf(launch.layers[m], j).width)
  }

  /** Where a packet keeps the rows of one plane. */
  function Section(launch: Launch, l: nat, ch: nat, key: bool): int
    requires LaunchOk(launch) && l < |launch.layers| && ch < launch.chunks && Admitted(launch, l, ch)
  {
    Packet(launch, l, ch) + if key then 0 else Count(launch, ch) * launch.layers[l].keyBytes
  }

  /** One asked byte, located: its plane, its packet row and its cache row. */
  ghost predicate Located(launch: Launch, l: nat, ch: nat, t: nat, key: bool, p: int, c: int)
    requires LaunchOk(launch)
  {
    && l < |launch.layers| && ch < launch.chunks && Admitted(launch, l, ch) && t < Count(launch, ch)
    && HasPlane(launch.layers[l], key)
    && Copied(launch.layers[l], launch.cacheSlots, launch.mapping[Start(launch, ch) + t])
    && (BlockInMap(launch.layers[l], launch.cacheSlots, launch.mapping[Start(launch, ch) + t]);
        var plane, at := PlaneOf(launch.layers[l], key), Physical(launch.layers[l], launch.mapping[Start(launch, ch) + t]);
        RowByte(Section(launch, l, ch, key) + t * plane.width, plane.base + at * plane.width, plane.width, p, c))
  }

  lemma AskedIsLocated(launch: Launch, l: nat, ch: nat, t: nat, p: int, c: int)
    requires LaunchOk(launch)
    ensures Asked(launch, l, ch, t, p, c) <==> Located(launch, l, ch, t, true, p, c) || Located(launch, l, ch, t, false, p, c)
  {
  }

  /** A located byte lies inside its packet and inside its plane. */
  lemma LocatedInside(launch: Launch, l: nat, ch: nat, t: nat, key: bool, p: int, c: int)
    requires LaunchOk(launch) && Located(launch, l, ch, t, key, p, c)
    ensures Packet(launch, l, ch) <= p < Packet(launch, l, ch) + Count(launch, ch) * RowBytes(launch.layers[l])
    ensures var plane := PlaneOf(launch.layers[l], key);
      plane.base <= c < plane.base + Limit(launch.layers[l], launch.cacheSlots) * plane.width
  {
    var layer, count := launch.layers[l], Count(launch, ch);
    BlockInMap(layer, launch.cacheSlots, launch.mapping[Start(launch, ch) + t]);
    var plane, at := PlaneOf(layer, key), Physical(layer, launch.mapping[Start(launch, ch) + t]);
    RowInside(t, count, plane.width);
    RowInside(at, Limit(layer, launch.cacheSlots), plane.width);
    Sections(layer, count);
  }

  /** The two sections of a packet fill it. */
  lemma Sections(layer: Layer, count: nat)
    ensures layer.scaleBase.Some? ==> count * RowBytes(layer) == count * layer.keyBytes + count * SCALE_BYTES
    ensures layer.scaleBase.None? ==> count * RowBytes(layer) == count * layer.keyBytes
    ensures count * layer.keyBytes >= 0
  {
    MulNat(count, layer.keyBytes);
  }

  lemma RowInside(t: int, count: int, width: nat)
    requires 0 <= t < count
    ensures 0 <= t * width && t * width + width <= count * width
  {
    MulNat(t, width);
    MulMonotone(t + 1, count, width);
    assert (t + 1) * width == t * width + width;
  }

  lemma RowUnique(base: int, t: int, s: int, width: nat, x: int)
    requires base + t * width <= x < base + t * width + width && base + s * width <= x < base + s * width + width
    ensures t == s
  {
    assert (t + 1) * width == t * width + width && (s + 1) * width == s * width + width;
    if t < s { MulMonotone(t + 1, s, width); }
    if s < t { MulMonotone(s + 1, t, width); }
  }

  /** A packet byte belongs to one token and one plane only. */
  lemma OnePacketByte(launch: Launch, l: nat, ch: nat, t: nat, k: bool, m: nat, dh: nat, s: nat, j: bool, p: int, c: int, d: int)
    requires LaunchOk(launch) && PacketsApart(launch)
    requires Located(launch, l, ch, t, k, p, c) && Located(launch, m, dh, s, j, p, d)
    ensures l == m && ch == dh && t == s && k == j && c == d
  {
    LocatedInside(launch, l, ch, t, k, p, c);
    LocatedInside(launch, m, dh, s, j, p, d);
    assert l == m && ch == dh;
    var kb, count := launch.layers[l].keyBytes, Count(launch, ch);
    RowInside(t, count, kb);
    RowInside(s, count, kb);
    MulNat(t, SCALE_BYTES);
    MulNat(s, SCALE_BYTES);
    assert k == j;
    RowUnique(Section(launch, l, ch, k), t, s, PlaneOf(launch.layers[l], k).width, p);
  }

  /** Two tokens of one layer with named slots never share a slot. */
  ghost predicate DistinctSlots(launch: Launch)
    requires LaunchOk(launch)
  {
    forall l: nat, ch: nat, t: nat, dh: nat, s: nat {:trigger Token(launch, l, ch, t), Token(launch, l, dh, s)} ::
      (Token(launch, l, ch, t) && Token(launch, l, dh, s)
       && launch.mapping[Start(launch, ch) + t] == launch.mapping[Start(launch, dh) + s] >= 0) ==> ch == dh && t == s
  }

  /** A token of an admitted chunk. */
  ghost predicate Token(launch: Launch, l: nat, ch: nat, t: nat)
    requires LaunchOk(launch)
  {
    l < |launch.layers| && ch < launch.chunks && Admitted(launch, l, ch) && t < Count(launch, ch)
  }

  /** Block maps are permutations, as the launch code demands. */
  ghost predicate MapsInjective(launch: Launch) {
    forall l: nat :: l < |launch.layers| ==> MapInjective(launch.layers[l])
  }

  ghost predicate MapInjective(layer: Layer) {
    layer.blockMap.Some? ==> forall a, b :: 0 <= a < b < |layer.blockMap.value| ==> layer.blockMap.value[a] != layer.blockMap.value[b]
  }

  /** Different slots live in different physical rows. */
  lemma PhysicalInjective(layer: Layer, cacheSlots: nat, x: nat, y: nat)
    requires LayerOk(layer, cacheSlots) && MapInjective(layer) && Named(x, cacheSlots) && Named(y, cacheSlots)
    requires layer.blockMap.Some? ==> x / BLOCK < |layer.blockMap.value| && y / BLOCK < |layer.blockMap.value|
    requires Physical(layer, x) == Physical(layer, y)
    ensures x == y
  {
    if layer.blockMap.Some? {
      var m := layer.blockMap.value;
      DivUnique(Physical(layer, x), BLOCK, m[x / BLOCK], x % BLOCK);
      DivUnique(Physical(layer, y), BLOCK, m[y / BLOCK], y % BLOCK);
    } else {
      UnmappedGrows(layer, x, y);
      UnmappedGrows(layer, y, x);
    }
  }

  lemma UnmappedGrows(layer: Layer, x: nat, y: nat)
    requires layer.blockMap.None? && layer.slotFactor > 0
    ensures x < y ==> Physical(layer, x) < Physical(layer, y)
  {
    if x < y {
      var g := layer.slotFactor - 1;
      MulMonotone(x / BLOCK, y / BLOCK, g);
    }
  }

  /** A cache byte belongs to one token and one plane only. */
  lemma OneCacheByte(launch: Launch, l: nat, ch: nat, t: nat, k: bool, m: nat, dh: nat, s: nat, j: bool, p: int, q: int, c: int)
    requires LaunchOk(launch) && PlanesApart(launch) && DistinctSlots(launch) && MapsInjective(launch)
    requires Located(launch, l, ch, t, k, p, c) && Located(launch, m, dh, s, j, q, c)
    ensures l == m && ch == dh && t == s && k == j && p == q
  {
    LocatedInside(launch, l, ch, t, k, p, c);
    LocatedInside(launch, m, dh, s, j, q, c);
    assert l == m && k == j;
    var layer, x, y := launch.layers[l], launch.mapping[Start(launch, ch) + t], launch.mapping[Start(launch, dh) + s];
    BlockInMap(layer, launch.cacheSlots, x);
    BlockInMap(layer, launch.cacheSlots, y);
    RowUnique(PlaneOf(layer, k).base, Physical(layer, x), Physical(layer, y), PlaneOf(layer, k).width, c);
    PhysicalInjective(layer, launch.cacheSlots, x, y);
    assert Token(launch, l, ch, t) && Token(launch, l, dh, s);
  }

  /** Packets and planes are disjoint memory. */
  ghost predicate RegionsApart(launch: Launch)
    requires LaunchOk(launch)
  {
    PacketsApart(launch) && PlanesApart(launch) && PacketsOutside(launch)
  }

  lemma PacketIsNotCache(launch: Launch, p: int, c: int, q: int, d: int)
    requires LaunchOk(launch) && RegionsApart(launch) && AskedSomewhere(launch, p, c) && AskedSomewhere(launch, q, d)
    ensures p != d
  {
    hide Located, Asked;
    var l, ch, t, k := Locate(launch, p, c);
    var m, dh, s, j := Locate(launch, q, d);
    LocatedInside(launch, l, ch, t, k, p, c);
    LocatedInside(launch, m, dh, s, j, q, d);
    HasIt(launch, l, ch, t, k, p, c);
    HasIt(launch, m, dh, s, j, q, d);
    assert Apart(Packet(launch, l, ch), Count(launch, ch) * RowBytes(launch.layers[l]),
                 PlaneOf(launch.layers[m], j).base, Limit(launch.layers[m], launch.cacheSlots) * PlaneOf(launch.layers[m], j).width);
  }

  lemma HasIt(launch: Launch, l: nat, ch: nat, t: nat, k: bool, p: int, c: int)
    requires LaunchOk(launch) && Located(launch, l, ch, t, k, p, c)
    ensures Token(launch, l, ch, t) && HasPlane(launch.layers[l], k)
  {
  }

  lemma Locate(launch: Launch, p: int, c: int) returns (l: nat, ch: nat, t: nat, key: bool)
    requires LaunchOk(launch) && AskedSomewhere(launch, p, c)
    ensures Located(launch, l, ch, t, key, p, c)
  {
    hide Asked, Located;
    l, ch, t :| Asked(launch, l, ch, t, p, c);
    AskedIsLocated(launch, l, ch, t, p, c);
    key := Located(launch, l, ch, t, true, p, c);
  }

  /** A list of DMAs that moves exactly what the launch asks for. */
  ghost predicate Faithful(launch: Launch, dmas: seq<Dma>)
    requires LaunchOk(launch)
  {
    forall p, c :: Moves(dmas, p, c) <==> AskedSomewhere(launch, p, c)
  }

  lemma SaveIsOrderly(launch: Launch, dmas: seq<Dma>)
    requires LaunchOk(launch) && RegionsApart(launch) && Faithful(launch, dmas)
    ensures Orderly(dmas, true)
  {
    hide Moves, AskedSomewhere;
    forall p, c, q, d | Moves(dmas, p, c) && Moves(dmas, q, d) ensures p != d { PacketIsNotCache(launch, p, c, q, d); }
    forall p, c, d | Moves(dmas, p, c) && Moves(dmas, p, d) ensures c == d {
      var l, ch, t, k := Locate(launch, p, c);
      var m, dh, s, j := Locate(launch, p, d);
      OnePacketByte(launch, l, ch, t, k, m, dh, s, j, p, c, d);
    }
  }

  lemma LoadIsOrderly(launch: Launch, dmas: seq<Dma>)
    requires LaunchOk(launch) && RegionsApart(launch) && DistinctSlots(launch) && MapsInjective(launch) && Faithful(launch, dmas)
    ensures Orderly(dmas, false)
  {
    hide Moves, AskedSomewhere;
    forall p, c, q, d | Moves(dmas, p, c) && Moves(dmas, q, d) ensures p != d { PacketIsNotCache(launch, p, c, q, d); }
    forall p, q, c | Moves(dmas, p, c) && Moves(dmas, q, c) ensures p == q {
      var l, ch, t, k := Locate(launch, p, c);
      var m, dh, s, j := Locate(launch, q, c);
      OneCacheByte(launch, l, ch, t, k, m, dh, s, j, p, q, c);
    }
  }

  /** Run every core, one after the other; the list is one interleaving of many. */
  method RunCores(launch: Launch, cores: nat) returns (dmas: seq<Dma>)
    requires LaunchOk(launch) && cores > 0
    requires forall l :: 0 <= l < |launch.layers| ==> NoStraddle(launch.layers[l], launch.cacheSlots)
    ensures Faithful(launch, dmas)
  {
    hide Moves, WorkMoves, NoStraddle, LaunchOk, AskedSomewhere;
    dmas := [];
    forall p, c ensures !Moves(dmas, p, c) { NoMoves(p, c); }
    for core := 0 to cores
      invariant forall p, c :: Moves(dmas, p, c) <==> TakenBelow(launch, core, cores, p, c)
    {
      var more := RunCore(launch, core, cores);
      forall p, c ensures Moves(dmas + more, p, c) <==> TakenBelow(launch, core + 1, cores, p, c) {
        MovesConcat(dmas, more, p, c);
        TakenNext(launch, core, cores, p, c);
      }
      dmas := dmas + more;
    }
    forall p, c ensures Moves(dmas, p, c) <==> AskedSomewhere(launch, p, c) {
      TakenByAll(launch, cores, p, c);
      GridCovers(launch, p, c);
    }
  }

  /** What the first few cores have taken. */
  ghost predicate TakenBelow(launch: Launch, bound: nat, cores: nat, p: int, c: int)
    requires LaunchOk(launch) && cores > 0
  {
    exists core: nat :: core < bound && Taken(launch, core, cores, Total(launch), p, c)
  }

  lemma TakenNext(launch: Launch, core: nat, cores: nat, p: int, c: int)
    requires LaunchOk(launch) && cores > 0
    ensures TakenBelow(launch, core + 1, cores, p, c) <==> TakenBelow(launch, core, cores, p, c) || Taken(launch, core, cores, Total(launch), p, c)
  {
    hide Taken, LaunchOk;
  }

  /** Between them the cores take every work item. */
  lemma TakenByAll(launch: Launch, cores: nat, p: int, c: int)
    requires LaunchOk(launch) && cores > 0
    ensures TakenBelow(launch, cores, cores, p, c) <==> exists work: nat :: work < Total(launch) && WorkMoves(launch, work, p, c)
  {
    hide WorkMoves, LaunchOk;
    if work: nat :| work < Total(launch) && WorkMoves(launch, work, p, c) {
      var core := work % cores;
      assert OnCore(work, core, cores);
      assert Taken(launch, core, cores, Total(launch), p, c);
    }
  }

  /** Whatever the number of cores and however their DMAs interleave, a save leaves each asked
      packet byte equal to its cache byte and touches nothing else. */
  lemma SaveIsExact(launch: Launch, mem: Memory, dmas: seq<Dma>, order: seq<Dma>, p: int, c: int)
    requires LaunchOk(launch) && RegionsApart(launch) && Faithful(launch, dmas) && forall d :: d in order <==> d in dmas
    ensures AskedSomewhere(launch, p, c) ==> Execute(mem, order, true)(p) == mem(c)
    ensures (forall e :: !AskedSomewhere(launch, p, e)) ==> Execute(mem, order, true)(p) == mem(p)
  {
    hide AskedSomewhere;
    SameMoves(dmas, order);
    SaveIsOrderly(launch, order);
    if AskedSomewhere(launch, p, c) { SaveMoves(mem, order, p, c); }
    if forall e :: !AskedSomewhere(launch, p, e) { SaveKeeps(mem, order, p); }
  }

  /** The same for a load into distinct slots. */
  lemma LoadIsExact(launch: Launch, mem: Memory, dmas: seq<Dma>, order: seq<Dma>, p: int, c: int)
    requires LaunchOk(launch) && RegionsApart(launch) && DistinctSlots(launch) && MapsInjective(launch)
    requires Faithful(launch, dmas) && forall d :: d in order <==> d in dmas
    ensures AskedSomewhere(launch, p, c) ==> Execute(mem, order, false)(c) == mem(p)
    ensures (forall q :: !AskedSomewhere(launch, q, c)) ==> Execute(mem, order, false)(c) == mem(c)
  {
    hide AskedSomewhere;
    SameMoves(dmas, order);
    LoadIsOrderly(launch, order);
    if AskedSomewhere(launch, p, c) { LoadMoves(mem, order, p, c); }
    if forall q :: !AskedSomewhere(launch, q, c) { LoadKeeps(mem, order, c); }
  }

  lemma SameMoves(dmas: seq<Dma>, order: seq<Dma>)
    requires forall d :: d in order <==> d in dmas
    ensures forall p, c :: Moves(order, p, c) <==> Moves(dmas, p, c)
  {
  }

  /** Two launches that work on the same packets, through different slot mappings or planes. */
  ghost predicate SamePackets(a: Launch, b: Launch)
    requires LaunchOk(a) && LaunchOk(b)
  {
    && |a.layers| == |b.layers| && a.chunks == b.chunks
    && (forall l: nat, ch: nat {:trigger Packet(a, l, ch)} {:trigger Packet(b, l, ch)} ::
          l < |a.layers| && ch < a.chunks ==> Packet(a, l, ch) == Packet(b, l, ch) && Count(a, ch) == Count(b, ch))
    && (forall l: nat {:trigger a.layers[l]} {:trigger b.layers[l]} :: l < |a.layers| ==>
          a.layers[l].keyBytes == b.layers[l].keyBytes && a.layers[l].scaleBase.Some? == b.layers[l].scaleBase.Some?)
  }

  /** A token whose row this launch copies. */
  ghost predicate Copies(launch: Launch, l: nat, ch: nat, t: nat)
    requires LaunchOk(launch)
  {
    Token(launch, l, ch, t) && Copied(launch.layers[l], launch.cacheSlots, launch.mapping[Start(launch, ch) + t])
  }

  /** The address of byte j of a token's row in the cache. */
  ghost function CacheByte(launch: Launch, l: nat, ch: nat, t: nat, key: bool, j: nat): int
    requires LaunchOk(launch) && Copies(launch, l, ch, t) && HasPlane(launch.layers[l], key)
  {
    BlockInMap(launch.layers[l], launch.cacheSlots, launch.mapping[Start(launch, ch) + t]);
    var plane := PlaneOf(launch.layers[l], key);
    plane.base + Physical(launch.layers[l], launch.mapping[Start(launch, ch) + t]) * plane.width + j
  }

  lemma ByteIsLocated(launch: Launch, l: nat, ch: nat, t: nat, key: bool, j: nat)
    requires LaunchOk(launch) && Copies(launch, l, ch, t) && HasPlane(launch.layers[l], key) && j < PlaneOf(launch.layers[l], key).width
    ensures Located(launch, l, ch, t, key, Section(launch, l, ch, key) + t * PlaneOf(launch.layers[l], key).width + j, CacheByte(launch, l, ch, t, key, j))
  {
  }

  /** Save, then load through any other mapping: every byte of every key and scale row that both
      launches copy arrives where the load's mapping puts it. */
  lemma SaveThenLoad(save: Launch, load: Launch, mem: Memory, saved: seq<Dma>, loaded: seq<Dma>, l: nat, ch: nat, t: nat, key: bool, j: nat)
    requires LaunchOk(save) && RegionsApart(save) && Faithful(save, saved)
    requires LaunchOk(load) && RegionsApart(load) && DistinctSlots(load) && MapsInjective(load) && Faithful(load, loaded)
    requires SamePackets(save, load) && Copies(save, l, ch, t) && Copies(load, l, ch, t)
    requires HasPlane(save.layers[l], key) && j < PlaneOf(save.layers[l], key).width
    ensures HasPlane(load.layers[l], key)
    ensures Execute(Execute(mem, saved, true), loaded, false)(CacheByte(load, l, ch, t, key, j)) == mem(CacheByte(save, l, ch, t, key, j))
  {
    assert Packet(load, l, ch) == Packet(save, l, ch) && load.layers[l].keyBytes == save.layers[l].keyBytes;
    var p := Section(save, l, ch, key) + t * PlaneOf(save.layers[l], key).width + j;
    var c, d := CacheByte(save, l, ch, t, key, j), CacheByte(load, l, ch, t, key, j);
    ByteIsLocated(save, l, ch, t, key, j);
    ByteIsLocated(load, l, ch, t, key, j);
    hide Located, Asked, SamePackets, CacheByte, Section;
    AskedIsLocated(save, l, ch, t, p, c);
    AskedIsLocated(load, l, ch, t, p, d);
    SaveIsExact(save, mem, saved, saved, p, c);
    LoadIsExact(load, Execute(mem, saved, true), loaded, loaded, p, d);
  }

  const ONE := Layer(1000, Some(2000), 4, 1, None)

  /** Two tokens of one layer, saved to or loaded from one packet. */
  const SMALL := Launch([ONE], [16], [], [], [0, 1], 1, 2, 128, true)

  /** Launches with disjoint regions and distinct slots exist. */
  lemma RegionsApartIsPossible()
    ensures LaunchOk(SMALL) && RegionsApart(SMALL) && DistinctSlots(SMALL) && MapsInjective(SMALL) && Copies(SMALL, 0, 0, 1)
  {
    assert Packet(SMALL, 0, 0) == 16 && Count(SMALL, 0) == 2 && RowBytes(ONE) == 6;
    assert Limit(ONE, 128) == 128;
    assert PlaneOf(ONE, true) == Plane(1000, 4) && PlaneOf(ONE, false) == Plane(2000, 2);
    assert Token(SMALL, 0, 0, 1);
  }
}

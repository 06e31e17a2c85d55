/** Block copies between host and device memory: what they move, byte by byte, and what running
    them in any order leaves behind. */
module Dmas {
  import opened Division

  /** Two ranges given by start and length do not overlap. */
  predicate Apart(a: int, n: int, b: int, m: int) { a + n <= b || b + m <= a }

  /** One copy: a number of bytes at a host address and the same number at a device address. */
  datatype Dma = Dma(host: int, device: int, bytes: nat)

  /** Byte p of a host row and byte c of a device row correspond. */
  predicate RowByte(hostRow: int, deviceRow: int, width: nat, p: int, c: int) {
    hostRow <= p < hostRow + width && c - deviceRow == p - hostRow
  }

  /** Whether some copy of a list moves between host byte p and device byte c. */
  ghost predicate Moves(dmas: seq<Dma>, p: int, c: int) {
    exists d :: d in dmas && RowByte(d.host, d.device, d.bytes, p, c)
  }

  lemma MovesConcat(x: seq<Dma>, y: seq<Dma>, p: int, c: int)
    ensures Moves(x + y, p, c) <==> Moves(x, p, c) || Moves(y, p, c)
  {
    if Moves(x, p, c) {
      var d :| d in x && RowByte(d.host, d.device, d.bytes, p, c);
      assert d in x + y;
    }
    if Moves(y, p, c) {
      var d :| d in y && RowByte(d.host, d.device, d.bytes, p, c);
      assert d in x + y;
    }
  }

  lemma NoMoves(p: int, c: int)
    ensures !Moves([], p, c)
  {
  }

  // ---------------------------------------------------------------- rows of a block

  /** Byte p of row token + i corresponds to byte c of row at + i. */
  predicate RunRow(host: int, device: int, token: nat, at: int, width: nat, i: int, p: int, c: int) {
    RowByte(host + (token + i) * width, device + (at + i) * width, width, p, c)
  }

  predicate WholeRun(host: int, device: int, token: nat, at: int, width: nat, run: nat, p: int, c: int) {
    RowByte(host + token * width, device + at * width, run * width, p, c)
  }

  lemma RowShift(token: int, i: int, width: nat)
    ensures (token + i) * width == token * width + i * width
  {
  }

  /** Every byte of a block of rows lies in one of the rows. */
  lemma RowOfRun(host: int, device: int, token: nat, at: int, width: nat, run: nat, p: int, c: int) returns (i: nat)
    requires width > 0 && WholeRun(host, device, token, at, width, run, p, c)
    ensures i < run && RunRow(host, device, token, at, width, i, p, c)
  {
    var x := p - (host + token * width);
    i := x / width;
    if i >= run { MulMonotone(run, i, width); }
    RowShift(token, i, width);
    RowShift(at, i, width);
  }

  lemma RunHasRow(host: int, device: int, token: nat, at: int, width: nat, run: nat, i: nat, p: int, c: int)
    requires i < run && RunRow(host, device, token, at, width, i, p, c)
    ensures WholeRun(host, device, token, at, width, run, p, c)
  {
    RowShift(token, i, width);
    RowShift(at, i, width);
    MulMonotone(i + 1, run, width);
    RowShift(1, i, width);
    MulNat(i, width);
  }

  // ---------------------------------------------------------------- running them

  /** Bytes by address. */
  type Memory = int -> int

  /** One DMA, out of the device or into it. */
  function Transfer(mem: Memory, d: Dma, save: bool): Memory {
    if save then x => if d.host <= x < d.host + d.bytes then mem(d.device + (x - d.host)) else mem(x)
    else x => if d.device <= x < d.device + d.bytes then mem(d.host + (x - d.device)) else mem(x)
  }

  /** The DMAs one after the other. */
  function Execute(mem: Memory, dmas: seq<Dma>, save: bool): Memory {
    if dmas == [] then mem
    else Transfer(Execute(mem, dmas[..|dmas| - 1], save), dmas[|dmas| - 1], save)
  }

  /** Host bytes and device bytes are different bytes, and no byte is written from two sources. */
  ghost predicate Orderly(dmas: seq<Dma>, save: bool) {
    && (forall p, c, q, d :: Moves(dmas, p, c) && Moves(dmas, q, d) ==> p != d)
    && (save ==> forall p, c, d :: Moves(dmas, p, c) && Moves(dmas, p, d) ==> c == d)
    && (!save ==> forall p, q, c :: Moves(dmas, p, c) && Moves(dmas, q, c) ==> p == q)
  }

  /** The last DMA of a list, and the ones in front of it. */
  lemma MovesSplit(dmas: seq<Dma>, front: seq<Dma>, d: Dma, p: int, c: int)
    requires dmas == front + [d]
    ensures Moves(dmas, p, c) <==> (Moves(front, p, c) || RowByte(d.host, d.device, d.bytes, p, c))
  {
    hide RowByte;
    MovesConcat(front, [d], p, c);
    if RowByte(d.host, d.device, d.bytes, p, c) { assert d in [d]; }
  }

  lemma OrderlyFront(dmas: seq<Dma>, front: seq<Dma>, d: Dma, save: bool)
    requires Orderly(dmas, save) && dmas == front + [d]
    ensures Orderly(front, save)
    ensures forall p, c {:trigger Moves(front, p, c)} :: Moves(front, p, c) ==> Moves(dmas, p, c)
  {
    hide Moves;
    forall p, c ensures Moves(front, p, c) ==> Moves(dmas, p, c) { MovesSplit(dmas, front, d, p, c); }
  }

  lemma ExecuteLast(mem: Memory, dmas: seq<Dma>, front: seq<Dma>, d: Dma, save: bool)
    requires dmas == front + [d]
    ensures Execute(mem, dmas, save) == Transfer(Execute(mem, front, save), d, save)
  {
  }

  lemma OneSource(dmas: seq<Dma>, p: int, c: int, d: int)
    requires Orderly(dmas, true) && Moves(dmas, p, c) && Moves(dmas, p, d)
    ensures c == d
  {
    hide Moves;
  }

  lemma OneTarget(dmas: seq<Dma>, p: int, q: int, c: int)
    requires Orderly(dmas, false) && Moves(dmas, p, c) && Moves(dmas, q, c)
    ensures p == q
  {
    hide Moves;
  }

  /** A source byte is never written. */
  lemma NoSource(dmas: seq<Dma>, front: seq<Dma>, p: int, c: int, save: bool)
    requires Orderly(dmas, save) && Moves(dmas, p, c)
    requires forall q, d {:trigger Moves(front, q, d)} :: Moves(front, q, d) ==> Moves(dmas, q, d)
    ensures forall d :: !Moves(front, c, d)
    ensures forall q :: !Moves(front, q, p)
  {
    hide Moves;
  }

  /** Saving leaves every byte that is not asked for. */
  lemma {:induction false} SaveKeeps(mem: Memory, dmas: seq<Dma>, x: int)
    requires Orderly(dmas, true) && forall c :: !Moves(dmas, x, c)
    ensures Execute(mem, dmas, true)(x) == mem(x)
    decreases |dmas|
  {
    hide Moves, Orderly;
    if dmas != [] {
      var front, d := dmas[..|dmas| - 1], dmas[|dmas| - 1];
      OrderlyFront(dmas, front, d, true);
      SaveKeeps(mem, front, x);
      MovesSplit(dmas, front, d, x, d.device + (x - d.host));
    }
  }

  /** Saving: every host byte that is asked for holds its device byte, in whatever order the DMAs
      ran. */
  lemma {:induction false} SaveMoves(mem: Memory, dmas: seq<Dma>, x: int, c: int)
    requires Orderly(dmas, true) && Moves(dmas, x, c)
    ensures Execute(mem, dmas, true)(x) == mem(c)
    decreases |dmas|
  {
    hide Moves, Orderly, Execute;
    if dmas == [] {
      NoMoves(x, c);
    } else {
      var front, d := dmas[..|dmas| - 1], dmas[|dmas| - 1];
      ExecuteLast(mem, dmas, front, d, true);
      OrderlyFront(dmas, front, d, true);
      MovesSplit(dmas, front, d, x, c);
      if d.host <= x < d.host + d.bytes {
        MovesSplit(dmas, front, d, x, d.device + (x - d.host));
        OneSource(dmas, x, c, d.device + (x - d.host));
        NoSource(dmas, front, x, c, true);
        SaveKeeps(mem, front, c);
      } else {
        SaveMoves(mem, front, x, c);
      }
    }
  }

  lemma {:induction false} LoadKeeps(mem: Memory, dmas: seq<Dma>, x: int)
    requires Orderly(dmas, false) && forall p :: !Moves(dmas, p, x)
    ensures Execute(mem, dmas, false)(x) == mem(x)
    decreases |dmas|
  {
    hide Moves, Orderly;
    if dmas != [] {
      var front, d := dmas[..|dmas| - 1], dmas[|dmas| - 1];
      OrderlyFront(dmas, front, d, false);
      LoadKeeps(mem, front, x);
      MovesSplit(dmas, front, d, d.host + (x - d.device), x);
    }
  }

  /** Loading: every device byte that is asked for holds its host byte. */
  lemma {:induction false} LoadMoves(mem: Memory, dmas: seq<Dma>, p: int, x: int)
    requires Orderly(dmas, false) && Moves(dmas, p, x)
    ensures Execute(mem, dmas, false)(x) == mem(p)
    decreases |dmas|
  {
    hide Moves, Orderly, Execute;
    if dmas == [] {
      NoMoves(p, x);
    } else {
      var front, d := dmas[..|dmas| - 1], dmas[|dmas| - 1];
      ExecuteLast(mem, dmas, front, d, false);
      OrderlyFront(dmas, front, d, false);
      MovesSplit(dmas, front, d, p, x);
      if d.device <= x < d.device + d.bytes {
        MovesSplit(dmas, front, d, d.host + (x - d.device), x);
        OneTarget(dmas, p, d.host + (x - d.device), x);
        NoSource(dmas, front, p, x, false);
        LoadKeeps(mem, front, p);
      } else {
        LoadMoves(mem, front, p, x);
      }
    }
  }
}

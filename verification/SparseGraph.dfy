/** The ragged-row work split of the sparse graph copy: packed tokens over cores. */
module SparseGraph {
  import opened Division

  /** The tensors of one replay; selected and slots are row-major with the given row width. */
  datatype Replay = Replay(counts: seq<int>, limits: seq<int>, selected: seq<int>, slots: seq<int>, table: seq<nat>,
                           requests: nat, rowWidth: nat, countStride: nat, chunkSize: nat, chunksPerRequest: nat, destinationSlots: nat)

  predicate Shaped(r: Replay) {
    && |r.limits| == r.requests && r.chunkSize > 0
    && |r.selected| == |r.slots| == r.requests * r.rowWidth && |r.table| == 2 * (r.requests * r.chunksPerRequest)
    && forall row: nat {:trigger CountAt(r, row)} :: row < r.requests ==> CountAt(r, row) < |r.counts|
  }

  function CountAt(r: Replay, row: nat): nat { row * r.countStride }

  function ActiveCount(count: int, limit: int, width: nat): nat {
    if limit <= 0 || count <= 0 then 0 else if count < width then count else width
  }

  function Active(r: Replay, row: nat): nat
    requires Shaped(r) && row < r.requests
  {
    ActiveCount(r.counts[CountAt(r, row)], r.limits[row], r.rowWidth)
  }

  // ---------------------------------------------------------------- the packed order

  type Pair = (nat, nat)

  function Row(row: nat, length: nat): (s: seq<Pair>)
    ensures |s| == length
  {
    seq(length, column => (row, column))
  }

  /** The active (row, column) pairs of the first rows, packed. */
  function Packed(r: Replay, rows: nat): seq<Pair>
    requires Shaped(r) && rows <= r.requests
  {
    if rows == 0 then [] else Packed(r, rows - 1) + Row(rows - 1, Active(r, rows - 1))
  }

  predicate IsActive(r: Replay, pair: Pair)
    requires Shaped(r)
  {
    pair.0 < r.requests && pair.1 < Active(r, pair.0)
  }

  /** The packed list has exactly the active pairs, each once. */
  lemma {:induction false} PackedIsActive(r: Replay, rows: nat)
    requires Shaped(r) && rows <= r.requests
    ensures forall pair: Pair :: pair in Packed(r, rows) <==> pair.0 < rows && IsActive(r, pair)
    ensures forall i, j :: 0 <= i < j < |Packed(r, rows)| ==> Packed(r, rows)[i] != Packed(r, rows)[j]
    decreases rows
  {
    hide Shaped, Active;
    if rows > 0 {
      PackedIsActive(r, rows - 1);
      RowMembers(r, rows - 1);
      ConcatDistinct(Packed(r, rows - 1), Row(rows - 1, Active(r, rows - 1)), rows - 1);
    }
  }

  lemma RowMembers(r: Replay, row: nat)
    requires Shaped(r) && row < r.requests
    ensures forall pair: Pair :: pair in Row(row, Active(r, row)) <==> pair.0 == row && IsActive(r, pair)
  {
    var list := Row(row, Active(r, row));
    forall pair: Pair | pair.0 == row && IsActive(r, pair) ensures pair in list { assert list[pair.1] == pair; }
  }

  lemma ConcatDistinct(front: seq<Pair>, last: seq<Pair>, row: nat)
    requires forall i, j :: 0 <= i < j < |front| ==> front[i] != front[j]
    requires last == Row(row, |last|) && forall pair: Pair :: pair in front ==> pair.0 < row
    ensures forall i, j :: 0 <= i < j < |front + last| ==> (front + last)[i] != (front + last)[j]
  {
    forall i, j | 0 <= i < j < |front + last| ensures (front + last)[i] != (front + last)[j] {
      if i < |front| <= j { assert front[i] in front; }
    }
  }

  lemma {:induction false} PackedPrefix(r: Replay, rows: nat, more: nat)
    requires Shaped(r) && rows <= more <= r.requests
    ensures |Packed(r, rows)| <= |Packed(r, more)| && Packed(r, rows) == Packed(r, more)[..|Packed(r, rows)|]
    decreases more
  {
    if rows < more { PackedPrefix(r, rows, more - 1); }
  }

  // ---------------------------------------------------------------- the split

  function Begin(total: nat, cores: nat, core: nat): nat
    requires cores > 0
  {
    core * (total / cores) + if core < total % cores then core else total % cores
  }

  function End(total: nat, cores: nat, core: nat): nat
    requires cores > 0
  {
    Begin(total, cores, core) + total / cores + if core < total % cores then 1 else 0
  }

  /** The cores' ranges follow each other over the packed tokens and differ in length by at most one. */
  lemma SplitTiles(total: nat, cores: nat, core: nat)
    requires core < cores
    ensures Begin(total, cores, 0) == 0 && End(total, cores, core) == Begin(total, cores, core + 1)
    ensures Begin(total, cores, cores) == total
    ensures total / cores <= End(total, cores, core) - Begin(total, cores, core) <= total / cores + 1
  {
    assert (core + 1) * (total / cores) == core * (total / cores) + total / cores;
    assert total == cores * (total / cores) + total % cores;
  }

  lemma {:induction false} SplitInside(total: nat, cores: nat, core: nat)
    requires core <= cores && cores > 0
    ensures Begin(total, cores, core) <= total
    ensures core < cores ==> Begin(total, cores, core) <= End(total, cores, core) <= total
    decreases cores - core
  {
    if core == cores {
      SplitTiles(total, cores, core - 1);
    } else {
      SplitTiles(total, cores, core);
      SplitInside(total, cores, core + 1);
    }
  }

  /** The packed tokens of one core. */
  function Share(all: seq<Pair>, cores: nat, core: nat): seq<Pair>
    requires core < cores
  {
    SplitInside(|all|, cores, core);
    all[Begin(|all|, cores, core)..End(|all|, cores, core)]
  }

  /** The first cores together. */
  function Together(all: seq<Pair>, cores: nat, first: nat): seq<Pair>
    requires first <= cores
  {
    if first == 0 then [] else Together(all, cores, first - 1) + Share(all, cores, first - 1)
  }

  /** All cores together handle the packed tokens, every one once and in order. */
  lemma {:induction false} CoresVisitAll(all: seq<Pair>, cores: nat, first: nat)
    requires first <= cores && cores > 0
    ensures Begin(|all|, cores, first) <= |all|
    ensures Together(all, cores, first) == all[..Begin(|all|, cores, first)]
    ensures first == cores ==> Together(all, cores, first) == all
    decreases first
  {
    SplitInside(|all|, cores, first);
    SplitTiles(|all|, cores, 0);
    if first > 0 {
      CoresVisitAll(all, cores, first - 1);
      SplitTiles(|all|, cores, first - 1);
      SplitInside(|all|, cores, first - 1);
      hide Begin, End;
      Joined(all, Begin(|all|, cores, first - 1), Begin(|all|, cores, first));
    }
  }

  lemma Joined(all: seq<Pair>, a: nat, b: nat)
    requires a <= b <= |all|
    ensures all[..a] + all[a..b] == all[..b]
  {
  }

  /** Every active pair is handled by exactly one core, and nothing else is handled. */
  lemma VisitedOnce(r: Replay, cores: nat)
    requires Shaped(r) && cores > 0
    ensures forall pair: Pair :: multiset(Together(Packed(r, r.requests), cores, cores))[pair] == if IsActive(r, pair) then 1 else 0
  {
    var all := Packed(r, r.requests);
    CoresVisitAll(all, cores, cores);
    PackedIsActive(r, r.requests);
    forall pair: Pair ensures multiset(all)[pair] == if IsActive(r, pair) then 1 else 0 {
      CountDistinct(all, pair);
      assert IsActive(r, pair) <==> pair in all;
    }
  }

  lemma {:induction false} CountDistinct(all: seq<Pair>, pair: Pair)
    requires forall i, j :: 0 <= i < j < |all| ==> all[i] != all[j]
    ensures multiset(all)[pair] == if pair in all then 1 else 0
    decreases |all|
  {
    if all != [] {
      var n := |all| - 1;
      assert all == all[..n] + [all[n]];
      CountDistinct(all[..n], pair);
    }
  }

  // ---------------------------------------------------------------- what is copied

  /** One row of both planes: the sources, the row inside them, and the destination slot. */
  datatype Copy = Copy(kSource: nat, peSource: nat, offset: nat, destination: nat)

  lemma PairInside(r: Replay, pair: Pair)
    requires Shaped(r) && IsActive(r, pair)
    ensures pair.0 * r.rowWidth + pair.1 < |r.selected|
  {
    MulMonotone(pair.0 + 1, r.requests, r.rowWidth);
    assert (pair.0 + 1) * r.rowWidth == pair.0 * r.rowWidth + r.rowWidth;
  }

  lemma ChunkInside(r: Replay, row: nat, chunk: nat)
    requires Shaped(r) && row < r.requests && chunk < r.chunksPerRequest
    ensures r.requests * r.chunksPerRequest + (row * r.chunksPerRequest + chunk) < |r.table|
  {
    MulMonotone(row + 1, r.requests, r.chunksPerRequest);
    assert (row + 1) * r.chunksPerRequest == row * r.chunksPerRequest + r.chunksPerRequest;
  }

  /** What one active pair copies: nothing when a bound or a source pointer rules it out. */
  function CopyOf(r: Replay, pair: Pair): seq<Copy>
    requires Shaped(r) && IsActive(r, pair)
  {
    PairInside(r, pair);
    var token, destination := r.selected[pair.0 * r.rowWidth + pair.1], r.slots[pair.0 * r.rowWidth + pair.1];
    if token < 0 || token >= r.limits[pair.0] || destination < 0 || destination >= r.destinationSlots then []
    else if token / r.chunkSize >= r.chunksPerRequest then []
    else
      ChunkInside(r, pair.0, token / r.chunkSize);
      var at := pair.0 * r.chunksPerRequest + token / r.chunkSize;
      var k, pe := r.table[at], r.table[r.requests * r.chunksPerRequest + at];
      if k == 0 || pe == 0 then [] else [Copy(k, pe, token % r.chunkSize, destination)]
  }

  function TokenOf(r: Replay, pair: Pair): int
    requires Shaped(r) && IsActive(r, pair)
  {
    PairInside(r, pair);
    r.selected[pair.0 * r.rowWidth + pair.1]
  }

  function DestinationOf(r: Replay, pair: Pair): int
    requires Shaped(r) && IsActive(r, pair)
  {
    PairInside(r, pair);
    r.slots[pair.0 * r.rowWidth + pair.1]
  }

  /** A pair asks for a copy when its token lies inside its request's limit and chunk table, its slot exists
      and both planes have that chunk. */
  ghost predicate Wanted(r: Replay, pair: Pair)
    requires Shaped(r) && IsActive(r, pair)
  {
    && 0 <= TokenOf(r, pair) < r.limits[pair.0] && 0 <= DestinationOf(r, pair) < r.destinationSlots
    && exists chunk: nat, offset: nat :: OwnRow(r, pair.0, TokenOf(r, pair), chunk, offset)
  }

  /** A copy is issued exactly for a token inside its request's limit and chunks, an existing
      destination slot and two present sources. */
  lemma CopyIssuedIff(r: Replay, pair: Pair)
    requires Shaped(r) && IsActive(r, pair)
    ensures CopyOf(r, pair) != [] <==> Wanted(r, pair)
  {
    var token := TokenOf(r, pair);
    if CopyOf(r, pair) != [] {
      var c := CopyReadsItsToken(r, pair);
    }
    if chunk: nat, offset: nat :| OwnRow(r, pair.0, token, chunk, offset) {
      DivUnique(token, r.chunkSize, chunk, offset);
    }
  }

  /** The copy reads the token's own row of its own chunk of its own request, in both planes. */
  lemma CopyReadsItsToken(r: Replay, pair: Pair) returns (chunk: nat)
    requires Shaped(r) && IsActive(r, pair) && CopyOf(r, pair) != []
    ensures |CopyOf(r, pair)| == 1 && OwnRow(r, pair.0, TokenOf(r, pair), chunk, CopyOf(r, pair)[0].offset)
    ensures CopyOf(r, pair)[0].kSource == KSource(r, pair.0, chunk) && CopyOf(r, pair)[0].peSource == PeSource(r, pair.0, chunk)
    ensures CopyOf(r, pair)[0].destination == DestinationOf(r, pair)
  {
    chunk := TokenOf(r, pair) / r.chunkSize;
  }

  /** The token is row `offset` of chunk `chunk` of its request, and both planes have that chunk. */
  ghost predicate OwnRow(r: Replay, row: nat, token: int, chunk: nat, offset: nat)
    requires Shaped(r) && row < r.requests
  {
    token == chunk * r.chunkSize + offset && offset < r.chunkSize && chunk < r.chunksPerRequest
    && KSource(r, row, chunk) != 0 && PeSource(r, row, chunk) != 0
  }

  function KSource(r: Replay, row: nat, chunk: nat): nat
    requires Shaped(r) && row < r.requests && chunk < r.chunksPerRequest
  {
    ChunkInside(r, row, chunk);
    r.table[row * r.chunksPerRequest + chunk]
  }

  function PeSource(r: Replay, row: nat, chunk: nat): nat
    requires Shaped(r) && row < r.requests && chunk < r.chunksPerRequest
  {
    ChunkInside(r, row, chunk);
    r.table[r.requests * r.chunksPerRequest + (row * r.chunksPerRequest + chunk)]
  }

  function Copies(r: Replay, pairs: seq<Pair>): seq<Copy>
    requires Shaped(r) && forall pair :: pair in pairs ==> IsActive(r, pair)
  {
    if pairs == [] then [] else Copies(r, pairs[..|pairs| - 1]) + CopyOf(r, pairs[|pairs| - 1])
  }

  function Clip(x: nat, begin: nat, end: nat): nat
    requires begin <= end
  {
    if x < begin then begin else if x < end then x else end
  }

  /** One core: walk the rows and handle exactly its range of packed tokens. */
  method Run(r: Replay, cores: nat, core: nat) returns (visited: seq<Pair>, copies: seq<Copy>)
    requires Shaped(r) && core < cores
    ensures visited == Share(Packed(r, r.requests), cores, core)
    ensures forall pair: Pair :: pair in visited ==> IsActive(r, pair)
    ensures copies == Copies(r, visited)
  {
    hide Shaped, Active, Begin, End, Packed, Copies, CopyOf;
    var total := CountActive(r);
    SplitInside(total, cores, core);
    var begin, end := Begin(total, cores, core), End(total, cores, core);
    ghost var all := Packed(r, r.requests);
    visited, copies := [], [];
    NoCopies(r);
    if begin == end { return; }
    var prefix := 0;
    EmptyPacked(r);
    for row := 0 to r.requests
      invariant prefix == |Packed(r, row)| < end
      invariant visited == all[begin..Clip(prefix, begin, end)]
      invariant forall pair: Pair :: pair in visited ==> IsActive(r, pair)
      invariant copies == Copies(r, visited)
    {
      var length := Active(r, row);
      var first := if begin > prefix then begin - prefix else 0;
      var last := if end < prefix + length then end - prefix else length;
      visited, copies := VisitRow(r, row, first, last, visited, copies);
      NextRow(r, row, begin, end, first, last);
      prefix := prefix + length;
      if prefix >= end { return; }
    }
  }

  lemma NoCopies(r: Replay)
    requires Shaped(r)
    ensures Copies(r, []) == []
  {
  }

  lemma EmptyPacked(r: Replay)
    requires Shaped(r)
    ensures Packed(r, 0) == []
  {
  }

  /** A row's part of a core's range, within the row and within the packed list. */
  lemma NextRow(r: Replay, row: nat, begin: nat, end: nat, first: nat, last: nat)
    requires Shaped(r) && row < r.requests && begin <= end <= |Packed(r, r.requests)| && |Packed(r, row)| < end
    requires first == if begin > |Packed(r, row)| then begin - |Packed(r, row)| else 0
    requires last == if end < |Packed(r, row)| + Active(r, row) then end - |Packed(r, row)| else Active(r, row)
    ensures |Packed(r, row + 1)| == |Packed(r, row)| + Active(r, row) <= |Packed(r, r.requests)|
    ensures var all, prefix := Packed(r, r.requests), |Packed(r, row)|;
      all[begin..Clip(prefix + Active(r, row), begin, end)] == all[begin..Clip(prefix, begin, end)] + Part(row, Active(r, row), first, last)
  {
    hide Shaped, Active;
    var all, front, part := Packed(r, r.requests), Packed(r, row), Row(row, Active(r, row));
    PackedPrefix(r, row + 1, r.requests);
    assert Packed(r, row + 1) == front + part;
    hide Packed;
    SliceOfRow(all, front, part, begin, end, first, last);
  }

  /** A range over packed tokens, advanced by one row. */
  lemma SliceOfRow(all: seq<Pair>, front: seq<Pair>, part: seq<Pair>, begin: nat, end: nat, first: nat, last: nat)
    requires |front + part| <= |all| && all[..|front + part|] == front + part && begin <= end <= |all| && |front| < end
    requires first == if begin > |front| then begin - |front| else 0
    requires last == if end < |front| + |part| then end - |front| else |part|
    ensures last <= |part|
    ensures all[begin..Clip(|front| + |part|, begin, end)] ==
      all[begin..Clip(|front|, begin, end)] + if first < last then part[first..last] else []
  {
    forall k | 0 <= k < |part| ensures all[|front| + k] == part[k] { assert all[..|front + part|][|front| + k] == part[k]; }
  }

  /** Columns first to last of a row. */
  function Part(row: nat, length: nat, first: nat, last: nat): seq<Pair>
    requires last <= length
  {
    if first < last then Row(row, length)[first..last] else []
  }

  method CountActive(r: Replay) returns (total: nat)
    requires Shaped(r)
    ensures total == |Packed(r, r.requests)|
  {
    total := 0;
    for row := 0 to r.requests
      invariant total == |Packed(r, row)|
    {
      total := total + Active(r, row);
    }
  }

  method VisitRow(r: Replay, row: nat, first: nat, last: nat, before: seq<Pair>, done: seq<Copy>)
    returns (visited: seq<Pair>, copies: seq<Copy>)
    requires Shaped(r) && row < r.requests && last <= Active(r, row)
    requires forall pair: Pair :: pair in before ==> IsActive(r, pair)
    requires done == Copies(r, before)
    ensures visited == before + Part(row, Active(r, row), first, last)
    ensures forall pair: Pair :: pair in visited ==> IsActive(r, pair)
    ensures copies == Copies(r, visited)
  {
    hide Shaped, Active, CopyOf, Copies;
    visited, copies := before, done;
    var column := first;
    while column < last
      invariant first <= column && (first <= last ==> column <= last)
      invariant visited == before + Part(row, Active(r, row), first, if column <= last then column else last)
      invariant forall pair: Pair :: pair in visited ==> IsActive(r, pair)
      invariant copies == Copies(r, visited)
    {
      var pair := (row, column);
      CopiesAppend(r, visited, pair);
      copies := copies + CopyOf(r, pair);
      visited := visited + [pair];
      column := column + 1;
    }
  }

  lemma CopiesAppend(r: Replay, pairs: seq<Pair>, pair: Pair)
    requires Shaped(r) && IsActive(r, pair) && forall q: Pair :: q in pairs ==> IsActive(r, q)
    ensures forall q: Pair :: q in pairs + [pair] ==> IsActive(r, q)
    ensures Copies(r, pairs + [pair]) == Copies(r, pairs) + CopyOf(r, pair)
  {
    assert (pairs + [pair])[..|pairs|] == pairs;
  }

  // ---------------------------------------------------------------- what all cores leave in memory

  /** The copies of all active pairs, in packed order. */
  ghost function PackedCopies(r: Replay): seq<Copy>
    requires Shaped(r)
  {
    PackedIsActive(r, r.requests);
    Copies(r, Packed(r, r.requests))
  }

  /** The cores one after the other; each only reads the replay. */
  method RunAll(r: Replay, cores: nat) returns (copies: seq<Copy>)
    requires Shaped(r) && cores > 0
    ensures copies == PackedCopies(r)
  {
    hide Shaped, Copies, Packed, Share, Active;
    ghost var all := Packed(r, r.requests);
    PackedIsActive(r, r.requests);
    copies := [];
    NoCopies(r);
    for core := 0 to cores
      invariant forall pair: Pair :: pair in Together(all, cores, core) ==> IsActive(r, pair)
      invariant copies == Copies(r, Together(all, cores, core))
    {
      var visited, more := Run(r, cores, core);
      CopiesConcat(r, Together(all, cores, core), visited);
      copies := copies + more;
    }
    CoresVisitAll(all, cores, cores);
  }

  lemma {:induction false} CopiesConcat(r: Replay, x: seq<Pair>, y: seq<Pair>)
    requires Shaped(r) && (forall pair: Pair :: pair in x ==> IsActive(r, pair)) && (forall pair: Pair :: pair in y ==> IsActive(r, pair))
    ensures forall pair: Pair :: pair in x + y ==> IsActive(r, pair)
    ensures Copies(r, x + y) == Copies(r, x) + Copies(r, y)
    decreases |y|
  {
    hide Shaped, IsActive, CopyOf;
    if y == [] {
      assert x + y == x;
    } else {
      var n := |y| - 1;
      CopiesConcat(r, x, y[..n]);
      assert (x + y)[..|x + y| - 1] == x + y[..n];
    }
  }

  /** The rows of the two destination planes, slot by slot. */
  datatype Planes<D> = Planes(k: seq<D>, pe: seq<D>)

  /** The rows behind a source pointer, of one plane. */
  type Rows<!D> = (nat, nat) -> D

  ghost function Stored<D>(p: Planes<D>, c: Copy, k: Rows<D>, pe: Rows<D>): Planes<D> {
    if c.destination < |p.k| == |p.pe|
    then Planes(p.k[c.destination := k(c.kSource, c.offset)], p.pe[c.destination := pe(c.peSource, c.offset)])
    else p
  }

  ghost function AllStored<D>(p: Planes<D>, order: seq<Copy>, k: Rows<D>, pe: Rows<D>): Planes<D> {
    if order == [] then p else Stored(AllStored(p, order[..|order| - 1], k, pe), order[|order| - 1], k, pe)
  }

  /** No two copies share a destination, and none is issued twice. */
  ghost predicate Once(copies: multiset<Copy>) {
    forall c, d :: c in copies && d in copies ==> copies[c] == 1 && (c.destination == d.destination ==> c == d)
  }

  lemma {:induction false} StoredSize<D>(p: Planes<D>, order: seq<Copy>, k: Rows<D>, pe: Rows<D>)
    requires |p.k| == |p.pe|
    ensures var q := AllStored(p, order, k, pe); |q.k| == |q.pe| == |p.k|
    decreases |order|
  {
    if order != [] { StoredSize(p, order[..|order| - 1], k, pe); }
  }

  lemma {:induction false} Landed<D>(p: Planes<D>, order: seq<Copy>, c: Copy, k: Rows<D>, pe: Rows<D>)
    requires Once(multiset(order)) && c in order && c.destination < |p.k| == |p.pe|
    ensures var q := AllStored(p, order, k, pe);
      && c.destination < |q.k| == |q.pe|
      && q.k[c.destination] == k(c.kSource, c.offset) && q.pe[c.destination] == pe(c.peSource, c.offset)
    decreases |order|
  {
    var n := |order| - 1;
    var front := order[..n];
    assert order == front + [order[n]];
    StoredSize(p, front, k, pe);
    if order[n] != c {
      assert Once(multiset(front)) by { OnceFront(front, order[n]); }
      assert c in multiset(order) && order[n] in multiset(order);
      Landed(p, front, c, k, pe);
    }
  }

  lemma OnceFront(front: seq<Copy>, last: Copy)
    requires Once(multiset(front + [last]))
    ensures Once(multiset(front))
  {
    assert multiset(front + [last]) == multiset(front) + multiset{last};
    forall c, d | c in multiset(front) && d in multiset(front)
      ensures multiset(front)[c] == 1 && (c.destination == d.destination ==> c == d)
    {
      assert c in multiset(front + [last]) && d in multiset(front + [last]);
    }
  }

  lemma {:induction false} Untouched<D>(p: Planes<D>, order: seq<Copy>, slot: nat, k: Rows<D>, pe: Rows<D>)
    requires slot < |p.k| == |p.pe| && forall c :: c in order ==> c.destination != slot
    ensures var q := AllStored(p, order, k, pe);
      slot < |q.k| == |q.pe| && q.k[slot] == p.k[slot] && q.pe[slot] == p.pe[slot]
    decreases |order|
  {
    StoredSize(p, order, k, pe);
    if order != [] {
      var n := |order| - 1;
      assert order == order[..n] + [order[n]];
      StoredSize(p, order[..n], k, pe);
      Untouched(p, order[..n], slot, k, pe);
    }
  }

  /** Distinct pairs that ask for a copy name distinct slots. */
  ghost predicate SlotsDistinct(r: Replay)
    requires Shaped(r)
  {
    forall a: Pair, b: Pair :: IsActive(r, a) && IsActive(r, b) && Wanted(r, a) && Wanted(r, b) && DestinationOf(r, a) == DestinationOf(r, b) ==> a == b
  }

  /** Some pair asks for a copy into this slot. */
  ghost predicate Named(r: Replay, slot: int)
    requires Shaped(r)
  {
    exists pair: Pair {:trigger Wanted(r, pair)} :: IsActive(r, pair) && Wanted(r, pair) && DestinationOf(r, pair) == slot
  }

  /** A copy of a list comes from one of its pairs. */
  lemma {:induction false} CopyFrom(r: Replay, pairs: seq<Pair>, c: Copy) returns (pair: Pair)
    requires Shaped(r) && (forall q: Pair :: q in pairs ==> IsActive(r, q)) && c in Copies(r, pairs)
    ensures pair in pairs && CopyOf(r, pair) == [c] && c.destination == DestinationOf(r, pair) && Wanted(r, pair)
    decreases |pairs|
  {
    hide Shaped, IsActive, Wanted, CopyOf, DestinationOf;
    var n := |pairs| - 1;
    assert pairs == pairs[..n] + [pairs[n]];
    if c in CopyOf(r, pairs[n]) {
      pair := pairs[n];
      CopyIssuedIff(r, pair);
      var _ := CopyReadsItsToken(r, pair);
    } else {
      pair := CopyFrom(r, pairs[..n], c);
    }
  }

  /** A pair that asks for a copy has it in the list. */
  lemma {:induction false} CopyListed(r: Replay, pairs: seq<Pair>, pair: Pair)
    requires Shaped(r) && (forall q: Pair :: q in pairs ==> IsActive(r, q)) && pair in pairs && CopyOf(r, pair) != []
    ensures CopyOf(r, pair)[0] in Copies(r, pairs)
    decreases |pairs|
  {
    hide Shaped, IsActive, CopyOf;
    var n := |pairs| - 1;
    assert pairs == pairs[..n] + [pairs[n]];
    if pair in pairs[..n] { CopyListed(r, pairs[..n], pair); }
  }

  lemma {:induction false} CopiesOnce(r: Replay, pairs: seq<Pair>)
    requires Shaped(r) && SlotsDistinct(r)
    requires forall pair: Pair :: pair in pairs ==> IsActive(r, pair)
    requires forall i, j :: 0 <= i < j < |pairs| ==> pairs[i] != pairs[j]
    ensures Once(multiset(Copies(r, pairs)))
    decreases |pairs|
  {
    hide Shaped, IsActive, CopyOf, Wanted, DestinationOf, SlotsDistinct, Once, Copies;
    if pairs == [] {
      NoCopies(r);
      assert Once(multiset([])) by { NothingOnce(); }
    } else {
      var n := |pairs| - 1;
      var front, last := pairs[..n], pairs[n];
      assert pairs == front + [last];
      CopiesAppend(r, front, last);
      CopiesOnce(r, front);
      if CopyOf(r, last) != [] {
        var _ := CopyReadsItsToken(r, last);
        CopyIssuedIff(r, last);
        var d := CopyOf(r, last)[0];
        forall c | c in Copies(r, front) ensures c.destination != d.destination {
          var pair := CopyFrom(r, front, c);
          if c.destination == d.destination { SameSlotSamePair(r, pair, last); }
        }
        assert CopyOf(r, last) == [d];
        OnceAppend(Copies(r, front), d);
      } else {
        assert Copies(r, front) + CopyOf(r, last) == Copies(r, front);
      }
    }
  }

  lemma NothingOnce()
    ensures Once(multiset([]))
  {
  }

  lemma SameSlotSamePair(r: Replay, a: Pair, b: Pair)
    requires Shaped(r) && SlotsDistinct(r) && IsActive(r, a) && IsActive(r, b) && Wanted(r, a) && Wanted(r, b)
    requires DestinationOf(r, a) == DestinationOf(r, b)
    ensures a == b
  {
  }

  lemma OnceAppend(front: seq<Copy>, d: Copy)
    requires Once(multiset(front)) && forall c :: c in front ==> c.destination != d.destination
    ensures Once(multiset(front + [d]))
  {
    assert multiset(front + [d]) == multiset(front) + multiset{d};
    assert d !in front;
  }

  /** In whatever order the cores' copies take effect: when the pairs that ask for a copy name distinct slots,
      the slot of each of them ends up with the rows its token has, in both planes, in its own chunk of its own
      request; and a slot no such pair names keeps what it held. */
  lemma ReplayLands<D>(r: Replay, order: seq<Copy>, before: Planes<D>, k: Rows<D>, pe: Rows<D>)
    requires Shaped(r) && SlotsDistinct(r)
    requires multiset(order) == multiset(PackedCopies(r))
    requires |before.k| == |before.pe| == r.destinationSlots
    ensures var after := AllStored(before, order, k, pe); |after.k| == |after.pe| == r.destinationSlots
    ensures var after := AllStored(before, order, k, pe);
      forall pair: Pair, chunk: nat, offset: nat {:trigger OwnRow(r, pair.0, TokenOf(r, pair), chunk, offset)} ::
        IsActive(r, pair) && Wanted(r, pair) && OwnRow(r, pair.0, TokenOf(r, pair), chunk, offset) ==>
        && after.k[DestinationOf(r, pair)] == k(KSource(r, pair.0, chunk), offset)
        && after.pe[DestinationOf(r, pair)] == pe(PeSource(r, pair.0, chunk), offset)
    ensures var after := AllStored(before, order, k, pe);
      forall slot: nat {:trigger after.k[slot]} :: slot < r.destinationSlots && !Named(r, slot) ==>
        after.k[slot] == before.k[slot] && after.pe[slot] == before.pe[slot]
  {
    hide Shaped, Active, Wanted, CopyOf, Packed, Copies, AllStored, SlotsDistinct, DestinationOf, TokenOf;
    var all := Packed(r, r.requests);
    PackedIsActive(r, r.requests);
    CopiesOnce(r, all);
    StoredSize(before, order, k, pe);
    forall pair: Pair, chunk: nat, offset: nat | IsActive(r, pair) && Wanted(r, pair) && OwnRow(r, pair.0, TokenOf(r, pair), chunk, offset)
      ensures 0 <= DestinationOf(r, pair) < r.destinationSlots
      ensures AllStored(before, order, k, pe).k[DestinationOf(r, pair)] == k(KSource(r, pair.0, chunk), offset)
      ensures AllStored(before, order, k, pe).pe[DestinationOf(r, pair)] == pe(PeSource(r, pair.0, chunk), offset)
    {
      PairLands(r, all, order, before, k, pe, pair, chunk, offset);
    }
    forall slot: nat | slot < r.destinationSlots && !Named(r, slot)
      ensures AllStored(before, order, k, pe).k[slot] == before.k[slot] && AllStored(before, order, k, pe).pe[slot] == before.pe[slot]
    {
      forall c | c in order ensures c.destination != slot {
        assert c in multiset(order);
        var pair := CopyFrom(r, all, c);
      }
      Untouched(before, order, slot, k, pe);
    }
  }

  lemma PairLands<D>(r: Replay, all: seq<Pair>, order: seq<Copy>, before: Planes<D>, k: Rows<D>, pe: Rows<D>, pair: Pair, chunk: nat, offset: nat)
    requires Shaped(r) && (forall q: Pair :: q in all ==> IsActive(r, q)) && pair in all
    requires multiset(order) == multiset(Copies(r, all)) && Once(multiset(order))
    requires |before.k| == |before.pe| == r.destinationSlots
    requires Wanted(r, pair) && OwnRow(r, pair.0, TokenOf(r, pair), chunk, offset)
    ensures 0 <= DestinationOf(r, pair) < r.destinationSlots
    ensures var after := AllStored(before, order, k, pe);
      && |after.k| == |after.pe| == r.destinationSlots
      && after.k[DestinationOf(r, pair)] == k(KSource(r, pair.0, chunk), offset)
      && after.pe[DestinationOf(r, pair)] == pe(PeSource(r, pair.0, chunk), offset)
  {
    hide Shaped, IsActive, CopyOf, Copies, AllStored, KSource, PeSource, Once;
    CopyIssuedIff(r, pair);
    var c := CopyOf(r, pair)[0];
    var own := CopyReadsItsToken(r, pair);
    DivUnique(TokenOf(r, pair), r.chunkSize, chunk, offset);
    DivUnique(TokenOf(r, pair), r.chunkSize, own, c.offset);
    CopyListed(r, all, pair);
    assert c in multiset(Copies(r, all));
    StoredSize(before, order, k, pe);
    Landed(before, order, c, k, pe);
  }
}

/** Which offers a mixed restore can always re-cut, told before anything is acquired: those in which no
    source reaches across a canonical boundary. */
module MixedManifest {
  import opened CheckpointTypes
  import opened Coverage
  import opened Assembly
  import opened MixedPlans
  import opened MixedAssembly
  import opened Division

  /** A boundary between two canonical windows inside the asked range. */
  predicate Boundary(q: Request, d: CheckpointPage) {
    d in q.remote && q.prefixEnd < d.end < q.end
  }

  /** No source of the offer reaches across such a boundary. */
  ghost predicate NoSourceStraddles(q: Request) {
    forall s, d {:trigger Straddles(s, d.end)} :: s in q.sources && Boundary(q, d) ==> !Straddles(s, d.end)
  }

  /** Whatever was held and whatever was loaded: without a straddling source no entry straddles. */
  lemma NoSourceMeansNoEntry(plans: seq<Plan>, q: Request)
    requires Planned(plans, q) && Sequential(q.sources) && NoSourceStraddles(q)
    ensures AllClean(plans) && NoneStraddles(plans)
  {
    forall i | 0 <= i && i + 1 < |plans| ensures CleanBoundary(plans, i) { BoundaryIsClean(plans, q, i); }
    CleanIffNoneStraddles(plans, q);
  }

  lemma BoundaryIsClean(plans: seq<Plan>, q: Request, i: nat)
    requires Planned(plans, q) && Sequential(q.sources) && NoSourceStraddles(q) && i + 1 < |plans|
    ensures CleanBoundary(plans, i)
  {
    var p, n := plans[i], plans[i + 1];
    PlansMeet(plans, q, i);
    RightBound(plans, q, i);
    RightBound(plans, q, i + 1);
    PlanParts(plans, q, i);
    PlanParts(plans, q, i + 1);
    hide Planned, Sequential, NoSourceStraddles, Chain, Reach, From, Part;
    var d := p.descriptor;
    assert Boundary(q, d) && p.right == d.end;
    EntryIsSourceOrPage(p, q, d);
    EntryIsSourceOrPage(n, q, d);
  }

  /** The first and last entry of a plan do not straddle a boundary: each is a source, or the remote page. */
  lemma EntryIsSourceOrPage(p: Plan, q: Request, d: CheckpointPage)
    requires PlanOk(p, q) && NoSourceStraddles(q) && Boundary(q, d)
    ensures if p.held == [] then First(p) == Last(p) == p.descriptor
            else !Straddles(First(p), d.end) && !Straddles(Last(p), d.end)
  {
    if p.held != [] {
      assert First(p) == p.held[0].0 && Last(p) == p.held[|p.held| - 1].0;
    }
  }

  /** A mixed acquisition up to the asked end, of an offer without straddling sources, hands over entries that
      can be re-cut along any windows. */
  lemma MixedRestoreReassembles(plans: seq<Plan>, q: Request, held: seq<Entry>)
    requires Planned(plans, q) && Sequential(q.sources) && NoSourceStraddles(q)
    requires Windows(held) == Listed(plans) && PlannedEnd(plans, q.prefixEnd) == q.end
    ensures Recuttable(held, q.prefixEnd, q.end)
  {
    hide Planned, NoSourceStraddles, Part, Listed, Sequential;
    NoSourceMeansNoEntry(plans, q);
    ContiguousIffClean(plans, q);
    if q.prefixEnd < q.end {
      ListedStarts(plans, q);
      ListedEnds(plans, q);
      PlanReaches(plans, q);
    }
  }

  // ---------------------------------------------------------------- when everything is held locally

  /** Entries for these windows; which page each is does not matter here. */
  function Cover(ws: seq<CheckpointPage>): seq<Entry> {
    seq(|ws|, i requires 0 <= i < |ws| => (ws[i], PageObj(0, 0)))
  }

  /** The plan when no lookup misses: every canonical window is held from the sources it overlaps. */
  function HeldPlans(q: Request, k: nat): seq<Plan>
    requires k <= |q.remote|
  {
    if k == 0 then [] else
      var d := q.remote[k - 1];
      var left, right := Max(q.prefixEnd, d.start), Min(q.end, d.end);
      HeldPlans(q, k - 1) + if left < right then [Plan(d, Cover(Selected(q.sources, left, right)), left, right)] else []
  }

  /** Sources without gap or overlap over the asked range. */
  ghost predicate Whole(q: Request) {
    && Contiguous(q.sources) && q.prefixEnd < q.end
    && q.sources != [] && q.sources[0].start <= q.prefixEnd && q.sources[|q.sources| - 1].end >= q.end
  }

  lemma ContiguousIsSequential(ws: seq<CheckpointPage>)
    requires Contiguous(ws)
    ensures Sequential(ws)
  {
    forall i, j | 0 <= i < j < |ws| ensures ws[i].end <= ws[j].start { ContiguousOrder(ws, i, j); }
  }

  lemma CoverIsChain(q: Request, left: int, right: int)
    requires Whole(q) && q.prefixEnd <= left < right <= q.end
    ensures var held := Cover(Selected(q.sources, left, right));
      && held != [] && Windows(held) == Selected(q.sources, left, right)
      && From(held, q.sources) && Chain(held, left, right) && Reach(held, left, right) == right
  {
    hide Selected;
    var lo, hi := SelectedBounds(q.sources, left, right);
    SliceIsChain(q.sources, lo, hi, left, right);
    assert Windows(Cover(q.sources[lo..hi])) == q.sources[lo..hi];
  }

  lemma SliceIsChain(ws: seq<CheckpointPage>, lo: nat, hi: nat, left: int, right: int)
    requires Contiguous(ws) && lo < hi <= |ws| && left < right
    requires ws[lo].start <= left < ws[lo].end && ws[hi - 1].start < right <= ws[hi - 1].end
    ensures var held := Cover(ws[lo..hi]);
      From(held, ws) && Chain(held, left, right) && Reach(held, left, right) == right
  {
    var held := Cover(ws[lo..hi]);
    forall i | 0 <= i < |held| ensures Extends(held, i, left, right) {
      assert held[i].0 == ws[lo + i];
      ContiguousProper(ws, lo + i);
      if i > 0 {
        assert ws[lo + i].start == ws[lo + i - 1].end;
        if lo + i - 1 < hi - 1 { ContiguousOrder(ws, lo + i - 1, hi - 1); }
      }
    }
  }

  lemma {:induction false} HeldIsPlanned(q: Request, k: nat, base: int, total: int)
    requires Whole(q) && Tiles(q.remote, base, total) && base <= q.prefixEnd && k <= |q.remote|
    ensures Planned(HeldPlans(q, k), q)
    ensures PlannedEnd(HeldPlans(q, k), q.prefixEnd) == Max(q.prefixEnd, Min(q.end, Begin(q.remote, k, base)))
    ensures AllHeld(HeldPlans(q, k))
    decreases k
  {
    hide Selected, Contiguous, Whole, Planned, AllHeld, PlannedEnd;
    if k == 0 {
      NothingPlanned(q);
      assert HeldPlans(q, 0) == [];
    } else {
      HeldIsPlanned(q, k - 1, base, total);
      var d := q.remote[k - 1];
      assert d.start == Begin(q.remote, k - 1, base) < d.end == Begin(q.remote, k, base);
      var left, right := Max(q.prefixEnd, d.start), Min(q.end, d.end);
      assert q.prefixEnd < q.end by { WholeRange(q); }
      if left < right {
        HeldStep(HeldPlans(q, k - 1), q, d, left, right);
      } else {
        assert HeldPlans(q, k) == HeldPlans(q, k - 1);
      }
    }
  }

  /** Every planned window is held locally. */
  ghost predicate AllHeld(plans: seq<Plan>) {
    forall i :: 0 <= i < |plans| ==> plans[i].held != []
  }

  lemma NothingPlanned(q: Request)
    ensures Planned([], q) && AllHeld([]) && PlannedEnd([], q.prefixEnd) == q.prefixEnd
  {
  }

  lemma WholeRange(q: Request)
    requires Whole(q)
    ensures q.prefixEnd < q.end
  {
  }

  lemma HeldStep(plans: seq<Plan>, q: Request, d: CheckpointPage, left: int, right: int)
    requires Whole(q) && Planned(plans, q) && AllHeld(plans) && d in q.remote
    requires left == Max(q.prefixEnd, d.start) == PlannedEnd(plans, q.prefixEnd) && right == Min(q.end, d.end) && left < right
    ensures var more := plans + [Plan(d, Cover(Selected(q.sources, left, right)), left, right)];
      Planned(more, q) && AllHeld(more) && PlannedEnd(more, q.prefixEnd) == right
  {
    hide Selected, Whole, Planned, Chain, From;
    CoverIsChain(q, left, right);
    PlannedAppend(plans, Plan(d, Cover(Selected(q.sources, left, right)), left, right), q);
  }

  lemma {:induction false} FindPlan(plans: seq<Plan>, q: Request, t: int) returns (i: nat)
    requires Planned(plans, q) && q.prefixEnd <= t < PlannedEnd(plans, q.prefixEnd)
    ensures i < |plans| && plans[i].left <= t < plans[i].right
    decreases |plans|
  {
    var n := |plans| - 1;
    if t >= plans[n].left {
      i := n;
    } else {
      PlannedTake(plans, q, n);
      i := FindPlan(plans[..n], q, t);
    }
  }

  /** Two windows of a tiling that share a position are the same window. */
  lemma {:induction false} TilesOnce(windows: seq<CheckpointPage>, a: int, b: int, i: nat, j: nat, t: int)
    requires Tiles(windows, a, b) && i <= j < |windows| && In(windows[i], t) && In(windows[j], t)
    ensures i == j
  {
    if i < j {
      var k := i + 1;
      assert windows[k].start == Begin(windows, k, a);
      while k < j
        invariant i < k <= j && windows[i].end <= windows[k].start
      {
        assert windows[k].start == Begin(windows, k, a) < windows[k].end;
        k := k + 1;
        assert windows[k].start == Begin(windows, k, a);
      }
    }
  }

  lemma SameWindow(windows: seq<CheckpointPage>, a: int, b: int, d: CheckpointPage, e: CheckpointPage, t: int)
    requires Tiles(windows, a, b) && d in windows && e in windows && In(d, t) && In(e, t)
    ensures d == e
  {
    var i :| 0 <= i < |windows| && windows[i] == d;
    var j :| 0 <= j < |windows| && windows[j] == e;
    if i <= j { TilesOnce(windows, a, b, i, j, t); } else { TilesOnce(windows, a, b, j, i, t); }
  }

  /** A held window up to a boundary holds the source that straddles it. */
  lemma StraddlerIsHeld(p: Plan, q: Request, s: CheckpointPage)
    requires Whole(q) && PlanOk(p, q) && p.held != [] && s in q.sources && s.start < p.right < s.end
    ensures s in Part(p)
  {
    var t := p.right - 1;
    ChainCovers(p.held, p.left, p.right);
    assert Covered(p.held, t);
    var i :| 0 <= i < |p.held| && p.held[i].0.start <= t < p.held[i].0.end;
    var x :| 0 <= x < |q.sources| && q.sources[x] == p.held[i].0;
    var y :| 0 <= y < |q.sources| && q.sources[y] == s;
    if x < y { ContiguousOrder(q.sources, x, y); }
    if y < x { ContiguousOrder(q.sources, y, x); }
    assert Windows(p.held)[i] == s;
  }

  /** When everything is held, a straddling source is among the entries of the window it starts in. */
  lemma StraddlerIsListed(plans: seq<Plan>, q: Request, base: int, total: int, s: CheckpointPage, d: CheckpointPage)
    requires Whole(q) && Tiles(q.remote, base, total) && Planned(plans, q) && PlannedEnd(plans, q.prefixEnd) == q.end
    requires AllHeld(plans)
    requires s in q.sources && Boundary(q, d) && Straddles(s, d.end)
    ensures !NoneStraddles(plans)
  {
    hide Whole, Planned, Part;
    var b := d.end;
    var i := FindPlan(plans, q, b - 1);
    PlanParts(plans, q, i);
    var p := plans[i];
    WindowOfTiles(q.remote, base, total, d);
    SameWindow(q.remote, base, total, p.descriptor, d, b - 1);
    assert p.right == b;
    StraddlerIsHeld(p, q, s);
    PartListed(plans, i, s);
    LastIsEnd(plans, q, i);
    assert s in Listed(plans) && Straddles(s, plans[i].right);
  }

  lemma PlanParts(plans: seq<Plan>, q: Request, i: nat)
    requires Planned(plans, q) && i < |plans|
    ensures PlanOk(plans[i], q)
  {
  }

  lemma LastIsEnd(plans: seq<Plan>, q: Request, i: nat)
    requires Planned(plans, q) && i < |plans| && plans[i].right < PlannedEnd(plans, q.prefixEnd)
    ensures i + 1 < |plans|
  {
  }

  lemma WindowOfTiles(windows: seq<CheckpointPage>, a: int, b: int, d: CheckpointPage)
    requires Tiles(windows, a, b) && d in windows
    ensures d.start < d.end
  {
    var i :| 0 <= i < |windows| && windows[i] == d;
    assert windows[i].start == Begin(windows, i, a) < windows[i].end;
  }

  lemma FirstPlanned(plans: seq<Plan>, q: Request, base: int, total: int)
    requires Planned(plans, q) && plans != [] && Tiles(q.remote, base, total) && base <= q.prefixEnd
    requires q.remote[0].end > q.prefixEnd
    ensures plans[0].descriptor.start == base
  {
    var p := plans[0];
    assert PlanOk(p, q) && p.left == q.prefixEnd;
    assert q.remote[0].start == Begin(q.remote, 0, base);
    SameWindow(q.remote, base, total, p.descriptor, q.remote[0], q.prefixEnd);
  }

  /** Every way to serve the request, up to its end, gives entries from which all canonical windows can be cut. */
  ghost predicate AlwaysRecuts(q: Request, base: int) {
    forall plans {:trigger Planned(plans, q)} :: Planned(plans, q) && PlannedEnd(plans, q.prefixEnd) == q.end ==> AllCutOut(plans, q, base)
  }

  /** For an offer whose sources cover the asked range: whatever the cache still holds, the acquired entries
      can be re-cut, if and only if no source reaches across a canonical boundary inside the range. */
  lemma AlwaysRecutsIff(q: Request, base: int, total: int)
    requires Whole(q) && Tiles(q.remote, base, total) && base <= q.prefixEnd && q.end <= total
    requires q.remote[0].end > q.prefixEnd
    ensures AlwaysRecuts(q, base) <==> NoSourceStraddles(q)
  {
    hide Planned, AllCutOut, NoneStraddles, NoSourceStraddles, Contiguous, Sequential, HeldPlans;
    assert Sequential(q.sources) by { ContiguousIsSequential(q.sources); }
    if NoSourceStraddles(q) {
      forall plans | Planned(plans, q) && PlannedEnd(plans, q.prefixEnd) == q.end ensures AllCutOut(plans, q, base) {
        NoSourceMeansNoEntry(plans, q);
        FirstPlanned(plans, q, base, total);
        RecutIffNoneStraddles(plans, q, base);
      }
    }
    if AlwaysRecuts(q, base) { AllHeldShows(q, base, total); }
  }

  /** When everything was held, the acquired entries can be re-cut if and only if no source straddles. */
  lemma HeldRecutsIff(plans: seq<Plan>, q: Request, base: int, total: int)
    requires Whole(q) && Tiles(q.remote, base, total) && q.remote != [] && base <= q.prefixEnd < q.remote[0].end
    requires Planned(plans, q) && PlannedEnd(plans, q.prefixEnd) == q.end && AllHeld(plans)
    ensures AllCutOut(plans, q, base) <==> NoSourceStraddles(q)
  {
    hide Planned, AllCutOut, NoneStraddles, Contiguous, Sequential, AllHeld;
    assert Sequential(q.sources) by { ContiguousIsSequential(q.sources); }
    FirstPlanned(plans, q, base, total);
    RecutIffNoneStraddles(plans, q, base);
    if NoSourceStraddles(q) { NoSourceMeansNoEntry(plans, q); }
    if NoneStraddles(plans) {
      forall s, d | s in q.sources && Boundary(q, d) ensures !Straddles(s, d.end) {
        if Straddles(s, d.end) { StraddlerIsListed(plans, q, base, total, s, d); }
      }
    }
  }

  lemma AllHeldShows(q: Request, base: int, total: int)
    requires Whole(q) && Tiles(q.remote, base, total) && base <= q.prefixEnd && q.end <= total
    requires q.remote[0].end > q.prefixEnd && AlwaysRecuts(q, base)
    ensures NoSourceStraddles(q)
  {
    hide Planned, AllCutOut, NoSourceStraddles, Contiguous, AllHeld, HeldPlans;
    HeldIsPlanned(q, |q.remote|, base, total);
    assert Begin(q.remote, |q.remote|, base) == total;
    HeldRecutsIff(HeldPlans(q, |q.remote|), q, base, total);
  }

  // ---------------------------------------------------------------- one offer that fails, and the offers that never do

  /** Three sources over two canonical windows of four tokens; the middle one lies across their boundary. */
  const STRADDLING := Request(0, 8,
    [CheckpointPage(0, 3, 1), CheckpointPage(3, 5, 2), CheckpointPage(5, 8, 3)],
    [CheckpointPage(0, 4, 10), CheckpointPage(4, 8, 11)])

  const TWICE := [CheckpointPage(0, 3, 1), CheckpointPage(3, 5, 2), CheckpointPage(3, 5, 2), CheckpointPage(5, 8, 3)]

  /** The middle source is acquired once per window and neither window can be cut out. */
  lemma StraddlingOffer()
    ensures Whole(STRADDLING) && Tiles(STRADDLING.remote, 0, 8) && !NoSourceStraddles(STRADDLING)
    ensures exists plans :: (Planned(plans, STRADDLING) && PlannedEnd(plans, 0) == 8 && Listed(plans) == TWICE)
    ensures !CutsOut(TWICE, 0, 4, 0, 0) && !CutsOut(TWICE, 4, 8, 0, 0)
  {
    hide Planned, CutsOut, Whole, Tiles, NoSourceStraddles, Listed;
    StraddlingRequest();
    var x, s, y := CheckpointPage(0, 3, 1), CheckpointPage(3, 5, 2), CheckpointPage(5, 8, 3);
    StraddlingPlans(Plan(CheckpointPage(0, 4, 10), Cover([x, s]), 0, 4), Plan(CheckpointPage(4, 8, 11), Cover([s, y]), 4, 8));
    SharedIsRejected(TWICE, 1, 3, 0, 4, 0, 0);
    SharedIsRejected(TWICE, 1, 4, 4, 8, 0, 0);
  }

  lemma StraddlingRequest()
    ensures Whole(STRADDLING) && Tiles(STRADDLING.remote, 0, 8) && !NoSourceStraddles(STRADDLING)
  {
    var q := STRADDLING;
    var s, d := q.sources[1], q.remote[0];
    assert s in q.sources && Boundary(q, d) && Straddles(s, d.end);
  }

  lemma StraddlingPlans(p0: Plan, p1: Plan)
    requires p0 == Plan(CheckpointPage(0, 4, 10), Cover([CheckpointPage(0, 3, 1), CheckpointPage(3, 5, 2)]), 0, 4)
    requires p1 == Plan(CheckpointPage(4, 8, 11), Cover([CheckpointPage(3, 5, 2), CheckpointPage(5, 8, 3)]), 4, 8)
    ensures Planned([p0, p1], STRADDLING) && PlannedEnd([p0, p1], 0) == 8
    ensures Listed([p0, p1]) == TWICE
  {
    assert STRADDLING.remote[0] in STRADDLING.remote && STRADDLING.remote[1] in STRADDLING.remote;
    assert STRADDLING.sources[0] in STRADDLING.sources && STRADDLING.sources[1] in STRADDLING.sources && STRADDLING.sources[2] in STRADDLING.sources;
    assert PlanOk(p0, STRADDLING) && PlanOk(p1, STRADDLING);
    ListedAppend([], p0);
    ListedAppend([p0], p1);
    assert [] + [p0] == [p0] && [p0] + [p1] == [p0, p1];
  }

  /** A source inside one chunk of so many tokens. */
  predicate InChunk(s: CheckpointPage, chunk: nat)
    requires chunk > 0
  {
    0 <= s.start < s.end <= (s.start / chunk + 1) * chunk
  }

  /** Sources cut at chunk ends never reach across canonical windows that end at chunk ends. */
  lemma ChunkCutNeverStraddles(q: Request, chunk: nat)
    requires chunk > 0 && forall s :: s in q.sources ==> InChunk(s, chunk)
    requires forall d :: Boundary(q, d) ==> d.end % chunk == 0
    ensures NoSourceStraddles(q)
  {
    forall s, d | s in q.sources && Boundary(q, d) ensures !Straddles(s, d.end) { BoundaryOutside(s, d.end, chunk); }
  }

  lemma BoundaryOutside(s: CheckpointPage, b: int, chunk: nat)
    requires chunk > 0 && InChunk(s, chunk) && b % chunk == 0
    ensures !Straddles(s, b)
  {
    if s.start < b {
      var k, n := s.start / chunk, b / chunk;
      assert b == n * chunk;
      if n <= k {
        assert n * chunk <= k * chunk by { MulMonotone(n, k, chunk); }
      } else {
        assert (k + 1) * chunk <= n * chunk by { MulMonotone(k + 1, n, chunk); }
      }
    }
  }
}

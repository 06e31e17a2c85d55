/** When the entries of a mixed acquisition can be re-cut: exactly when no acquired source straddles a
    boundary between two canonical windows, because such a source is taken once per window. */
module MixedAssembly {
  import opened CheckpointTypes
  import opened Coverage
  import opened Assembly
  import opened MixedPlans

  predicate Straddles(w: CheckpointPage, b: int) { w.start < b < w.end }

  function First(p: Plan): CheckpointPage { Part(p)[0] }
  function Last(p: Plan): CheckpointPage { Part(p)[|Part(p)| - 1] }

  /** A window's first entry contains its left end; its last entry reaches its right end. */
  lemma PartEnds(p: Plan, q: Request)
    requires PlanOk(p, q) && Sequential(q.sources)
    ensures First(p).start <= p.left < First(p).end
    ensures Last(p).start < p.right <= Last(p).end
    ensures Contiguous(Part(p))
  {
    if p.held != [] {
      assert Extends(p.held, 0, p.left, p.right);
      assert Extends(p.held, |p.held| - 1, p.left, p.right);
      ChainIsContiguous(p.held, q.sources, p.left, p.right);
    }
  }

  /** The last entry of window i ends at its boundary with window i + 1, where the next entry starts. */
  ghost predicate CleanBoundary(plans: seq<Plan>, i: nat)
    requires i + 1 < |plans|
  {
    Last(plans[i]).end == plans[i].right && First(plans[i + 1]).start == plans[i + 1].left
  }

  ghost predicate AllClean(plans: seq<Plan>) {
    forall i {:trigger CleanBoundary(plans, i)} :: 0 <= i && i + 1 < |plans| ==> CleanBoundary(plans, i)
  }

  lemma AllCleanSplit(plans: seq<Plan>, n: nat)
    requires n + 1 == |plans| && n > 0
    ensures AllClean(plans) <==> AllClean(plans[..n]) && CleanBoundary(plans, n - 1)
  {
    var front := plans[..n];
    forall i | 0 <= i && i + 1 < n ensures CleanBoundary(front, i) <==> CleanBoundary(plans, i) {}
    if AllClean(plans) {
      forall i | 0 <= i && i + 1 < n ensures CleanBoundary(front, i) { assert CleanBoundary(plans, i); }
      assert CleanBoundary(plans, n - 1);
    }
    if AllClean(front) && CleanBoundary(plans, n - 1) {
      forall i | 0 <= i && i + 1 < |plans| ensures CleanBoundary(plans, i) {
        if i + 1 < n { assert CleanBoundary(front, i); }
      }
    }
  }

  lemma JoinContiguous(x: seq<CheckpointPage>, y: seq<CheckpointPage>)
    requires Contiguous(x) && Contiguous(y) && x != [] && y != []
    ensures Contiguous(x + y) <==> x[|x| - 1].end == y[0].start
  {
    var z := x + y;
    if x[|x| - 1].end == y[0].start {
      forall i, j | 0 <= i < |z| && j == i + 1 < |z| ensures z[j].start == z[i].end {
        if i >= |x| { assert z[i] == y[i - |x|] && z[j] == y[i - |x| + 1]; }
      }
    }
    if Contiguous(z) {
      var i := |x| - 1;
      assert z[i + 1].start == z[i].end;
    }
  }

  lemma ContiguousParts(x: seq<CheckpointPage>, y: seq<CheckpointPage>)
    requires Contiguous(x + y)
    ensures Contiguous(x) && Contiguous(y)
  {
    forall i, j | 0 <= i < |x| && j == i + 1 < |x| ensures x[j].start == x[i].end {
      assert (x + y)[j].start == (x + y)[i].end;
    }
    forall i | 0 <= i < |y| ensures y[i].start < y[i].end { assert (x + y)[|x| + i] == y[i]; }
    forall i, j | 0 <= i < |y| && j == i + 1 < |y| ensures y[j].start == y[i].end {
      assert (x + y)[|x| + j].start == (x + y)[|x| + i].end;
    }
    forall i | 0 <= i < |x| ensures x[i].start < x[i].end { assert (x + y)[i] == x[i]; }
  }

  lemma JoinIffContiguous(x: seq<CheckpointPage>, y: seq<CheckpointPage>)
    requires Contiguous(y) && x != [] && y != []
    ensures Contiguous(x + y) <==> Contiguous(x) && x[|x| - 1].end == y[0].start
  {
    if Contiguous(x + y) { ContiguousParts(x, y); }
    if Contiguous(x) { JoinContiguous(x, y); }
  }

  lemma ListedEnds(plans: seq<Plan>, q: Request)
    requires Planned(plans, q) && plans != []
    ensures Listed(plans) != [] && Listed(plans)[|Listed(plans)| - 1] == Last(plans[|plans| - 1])
  {
  }

  lemma BoundaryIsJoin(plans: seq<Plan>, q: Request, n: nat)
    requires Planned(plans, q) && Sequential(q.sources) && n + 1 == |plans| && n > 0
    ensures CleanBoundary(plans, n - 1) <==> Last(plans[n - 1]).end == First(plans[n]).start
    ensures Contiguous(Part(plans[n])) && Part(plans[n]) != []
  {
    assert plans[n].left == plans[n - 1].right;
    PartEnds(plans[n - 1], q);
    PartEnds(plans[n], q);
  }

  /** The entry list has neither gap nor overlap exactly when every boundary is clean. */
  lemma {:induction false} ContiguousIffClean(plans: seq<Plan>, q: Request)
    requires Planned(plans, q) && Sequential(q.sources)
    ensures Contiguous(Listed(plans)) <==> AllClean(plans)
    decreases |plans|
  {
    hide Contiguous, CleanBoundary, PlanOk, Part, Sequential;
    if |plans| == 0 {
      assert Contiguous(Listed(plans)) by { assert Listed(plans) == []; EmptyIsContiguous(); }
    } else {
      var n := |plans| - 1;
      var front, part := plans[..n], Part(plans[n]);
      if n == 0 {
        PartEnds(plans[0], q);
        assert Listed(front) == [] && Listed(plans) == part;
      } else {
        PlannedTake(plans, q, n);
        ContiguousIffClean(front, q);
        ListedEnds(front, q);
        BoundaryIsJoin(plans, q, n);
        AllCleanSplit(plans, n);
        JoinIffContiguous(Listed(front), part);
      }
    }
  }

  lemma EmptyIsContiguous()
    ensures Contiguous([])
  {
  }

  /** In the entry list the last entry of a window stands right before the first of the next, and only
      entries of the windows up to there stand before it. */
  lemma {:induction false} Neighbours(plans: seq<Plan>, q: Request, i: nat) returns (p: nat)
    requires Planned(plans, q) && Sequential(q.sources) && i + 1 < |plans|
    ensures p + 1 < |Listed(plans)|
    ensures Listed(plans)[p] == Last(plans[i]) && Listed(plans)[p + 1] == First(plans[i + 1])
    ensures forall k :: 0 <= k <= p ==> Listed(plans)[k].start < plans[i].right
    decreases |plans|
  {
    hide Planned, Listed, Part, Sequential;
    var n := |plans| - 1;
    var front := plans[..n];
    PlannedTake(plans, q, n);
    ListedSplit(plans);
    if i + 1 == n {
      ListedEnds(front, q);
      LastPart(plans, q);
      p := |Listed(front)| - 1;
      ListedStartsBelow(front, q);
    } else {
      p := Neighbours(front, q, i);
    }
  }

  lemma {:induction false} ListedStartsBelow(plans: seq<Plan>, q: Request)
    requires Planned(plans, q) && Sequential(q.sources) && plans != []
    ensures forall k :: 0 <= k < |Listed(plans)| ==> Listed(plans)[k].start < plans[|plans| - 1].right
    decreases |plans|
  {
    var n := |plans| - 1;
    var p := plans[n];
    PartEnds(p, q);
    forall k | 0 <= k < |Part(p)| ensures Part(p)[k].start < p.right {
      if k < |Part(p)| - 1 {
        ContiguousOrder(Part(p), k, |Part(p)| - 1);
        ContiguousProper(Part(p), k);
      }
    }
    if n > 0 {
      PlannedTake(plans, q, n);
      ListedStartsBelow(plans[..n], q);
      assert plans[..n][n - 1].right == p.left;
    }
  }

  lemma ListedSplit(plans: seq<Plan>)
    requires plans != []
    ensures Listed(plans) == Listed(plans[..|plans| - 1]) + Part(plans[|plans| - 1])
  {
  }

  lemma LastPart(plans: seq<Plan>, q: Request)
    requires Planned(plans, q) && plans != []
    ensures Part(plans[|plans| - 1]) != []
  {
  }

  lemma {:induction false} ListedHead(plans: seq<Plan>)
    requires plans != []
    ensures Listed(plans) != [] && Listed(plans)[0] == First(plans[0])
    decreases |plans|
  {
    var n := |plans| - 1;
    if n > 0 {
      ListedHead(plans[..n]);
    } else {
      assert Listed(plans[..0]) == [] && Listed(plans) == Part(plans[0]);
    }
  }

  lemma ListedStarts(plans: seq<Plan>, q: Request)
    requires Planned(plans, q) && Sequential(q.sources) && plans != []
    ensures Listed(plans) != [] && Listed(plans)[0].start <= q.prefixEnd < Listed(plans)[0].end
  {
    hide Listed, Part;
    ListedHead(plans);
    PartEnds(plans[0], q);
  }

  lemma {:induction false} PartListed(plans: seq<Plan>, i: nat, w: CheckpointPage)
    requires i < |plans| && w in Part(plans[i])
    ensures w in Listed(plans)
    decreases |plans|
  {
    if i + 1 < |plans| { PartListed(plans[..|plans| - 1], i, w); }
  }

  /** Listed entries are never empty windows. */
  lemma {:induction false} ListedProper(plans: seq<Plan>, q: Request, w: CheckpointPage)
    requires Planned(plans, q) && Sequential(q.sources)
    ensures w in Listed(plans) ==> w.start < w.end
    decreases |plans|
  {
    if plans != [] {
      PlannedTake(plans, q, |plans| - 1);
      ListedProper(plans[..|plans| - 1], q, w);
      PartEnds(plans[|plans| - 1], q);
    }
  }

  // ---------------------------------------------------------------- the condition on the acquired entries

  /** No acquired entry reaches across a boundary between two planned windows. */
  ghost predicate NoneStraddles(plans: seq<Plan>) {
    forall w, i {:trigger w in Listed(plans), plans[i]} :: w in Listed(plans) && 0 <= i && i + 1 < |plans| ==> !Straddles(w, plans[i].right)
  }

  lemma CleanIffNoneStraddles(plans: seq<Plan>, q: Request)
    requires Planned(plans, q) && Sequential(q.sources)
    ensures AllClean(plans) <==> NoneStraddles(plans)
  {
    hide Planned, Part, Sequential;
    var ws := Listed(plans);
    if AllClean(plans) {
      ContiguousIffClean(plans, q);
      forall k, i | 0 <= k < |ws| && 0 <= i && i + 1 < |plans| ensures !Straddles(ws[k], plans[i].right) {
        var p := Neighbours(plans, q, i);
        assert CleanBoundary(plans, i);
        PlansMeet(plans, q, i);
        if k < p { ContiguousOrder(ws, k, p); ContiguousProper(ws, p); }
        if p + 1 < k { ContiguousOrder(ws, p + 1, k); ContiguousProper(ws, p + 1); }
      }
    }
    if NoneStraddles(plans) {
      forall i | 0 <= i && i + 1 < |plans| ensures CleanBoundary(plans, i) {
        var p := Neighbours(plans, q, i);
        PlansMeet(plans, q, i);
        assert ws[p] in ws && ws[p + 1] in ws;
      }
    }
  }

  /** What holds of the two entries beside a boundary. */
  lemma PlansMeet(plans: seq<Plan>, q: Request, i: nat)
    requires Planned(plans, q) && Sequential(q.sources) && i + 1 < |plans|
    ensures plans[i + 1].left == plans[i].right
    ensures Last(plans[i]).start < plans[i].right <= Last(plans[i]).end
    ensures First(plans[i + 1]).start <= plans[i].right < First(plans[i + 1]).end
  {
    PartEnds(plans[i], q);
    PartEnds(plans[i + 1], q);
    assert plans[i + 1].left == plans[(i + 1) - 1].right;
  }

  // ---------------------------------------------------------------- canonical windows of the acquisition

  /** Every canonical window of the plan, cut at the asked end, can be cut out of the acquired entries. */
  ghost predicate AllCutOut(plans: seq<Plan>, q: Request, base: int) {
    forall i {:trigger WindowCutOut(plans, q, base, i)} :: 0 <= i < |plans| ==> WindowCutOut(plans, q, base, i)
  }

  ghost predicate WindowCutOut(plans: seq<Plan>, q: Request, base: int, i: int)
    requires 0 <= i < |plans|
  {
    CutsOut(Listed(plans), plans[i].descriptor.start, plans[i].right, base, q.prefixEnd)
  }

  /** The first planned window starts at the canonical base; every later one where its plan does. */
  lemma WindowStart(plans: seq<Plan>, q: Request, base: int, i: nat)
    requires Planned(plans, q) && i < |plans| && plans[0].descriptor.start == base
    ensures base <= plans[i].descriptor.start <= plans[i].left < plans[i].right <= q.end
    ensures i > 0 ==> base <= q.prefixEnd < plans[i].descriptor.start == plans[i].left
    ensures plans[i].right <= PlannedEnd(plans, q.prefixEnd)
  {
    assert PlanOk(plans[i], q) && PlanOk(plans[0], q);
    RightBound(plans, q, i);
    if i > 0 {
      RightBound(plans, q, i - 1);
      assert plans[i].left == plans[i - 1].right;
    }
  }

  lemma CleanCutsOut(plans: seq<Plan>, q: Request, base: int)
    requires Planned(plans, q) && Sequential(q.sources) && plans != [] && plans[0].descriptor.start == base
    requires Contiguous(Listed(plans))
    ensures AllCutOut(plans, q, base)
  {
    hide CutsOut, Contiguous, Planned, Part, Listed;
    var ws := Listed(plans);
    var n := |plans| - 1;
    ListedStarts(plans, q);
    ListedEnds(plans, q);
    PlanReaches(plans, q);
    forall i | 0 <= i < |plans| ensures WindowCutOut(plans, q, base, i) {
      WindowStart(plans, q, base, i);
      var p := plans[i];
      if ws[0].start <= p.descriptor.start {
        InnerCutsOut(ws, p.descriptor.start, p.right, base, q.prefixEnd);
      } else {
        WindowStart(plans, q, base, 0);
        LeftIsPrefix(plans, q);
        BoundaryCutsOut(ws, base, p.right, q.prefixEnd);
      }
    }
  }

  lemma LeftIsPrefix(plans: seq<Plan>, q: Request)
    requires Planned(plans, q) && plans != []
    ensures plans[0].left == q.prefixEnd
  {
  }

  lemma PlanReaches(plans: seq<Plan>, q: Request)
    requires Planned(plans, q) && Sequential(q.sources) && plans != []
    ensures Last(plans[|plans| - 1]).end >= PlannedEnd(plans, q.prefixEnd)
  {
    PartEnds(plans[|plans| - 1], q);
  }

  /** Two selected sources that share a position make the coverage loop reject the window. */
  lemma TwiceIsRejected(x: seq<CheckpointPage>, i: nat, j: nat, t: int, l: int, r: int)
    requires i < j < |x| && l <= t < r && In(x[i], t) && In(x[j], t)
    requires forall k :: 0 <= k < |x| ==> Intersects(x[k], l, r)
    ensures !Accepted(x, l, r)
  {
    if Accepted(x, l, r) { AcceptedCoversOnce(x, l, r); }
  }

  /** Two neighbours in the list that both contain a position of the window are both served to it, as long
      as nothing before them starts behind the window. */
  lemma BothSelected(ws: seq<CheckpointPage>, p: nat, t: int, l: int, r: int) returns (i: nat)
    requires p + 1 < |ws| && l <= t < r && In(ws[p], t) && In(ws[p + 1], t)
    requires forall k :: 0 <= k <= p ==> ws[k].start < r
    ensures i + 1 < |Selected(ws, l, r)| && Selected(ws, l, r)[i] == ws[p] && Selected(ws, l, r)[i + 1] == ws[p + 1]
  {
    hide Served, Overlapping;
    var lo, hi := ServedBounds(ws, l, r);
    assert lo <= p && p + 2 <= hi;
    var x, y, z := ws[lo..p], [ws[p], ws[p + 1]], ws[p + 2..hi];
    assert ws[lo..hi] == x + (y + z);
    OverlapAppend(x, y + z, l, r);
    OverlapAppend(y, z, l, r);
    TwoOverlap(ws[p], ws[p + 1], l, r);
    i := |Overlapping(x, l, r)|;
  }

  lemma TwoOverlap(v: CheckpointPage, w: CheckpointPage, l: int, r: int)
    requires v.start < r && v.end > l && w.start < r && w.end > l
    ensures Overlapping([v, w], l, r) == [v, w]
  {
    OverlapSlice([v, w], 0, 2, l, r);
    assert [v, w][0..2] == [v, w];
  }

  lemma SelectedIntersects(ws: seq<CheckpointPage>, l: int, r: int)
    requires l < r && forall w :: w in ws ==> w.start < w.end
    ensures forall k :: 0 <= k < |Selected(ws, l, r)| ==> Intersects(Selected(ws, l, r)[k], l, r)
  {
    hide Served, Overlapping;
    var lo, hi := ServedBounds(ws, l, r);
    forall k | 0 <= k < |Selected(ws, l, r)| ensures Intersects(Selected(ws, l, r)[k], l, r) {
      OverlapMember(ws[lo..hi], Selected(ws, l, r)[k], l, r);
    }
  }

  /** The first entry is the first one selected for the first window. */
  lemma FirstSelected(ws: seq<CheckpointPage>, l: int, r: int)
    requires ws != [] && ws[0].start < r && ws[0].end > l
    ensures Selected(ws, l, r) != [] && Selected(ws, l, r)[0] == ws[0]
  {
    assert Served(ws, l, r) == [ws[0]] + TakeStarted(ws[1..], r);
  }

  /** An unclean boundary makes one of the two windows beside it impossible to cut out. */
  lemma UncleanIsRejected(plans: seq<Plan>, q: Request, base: int, i: nat)
    requires Planned(plans, q) && Sequential(q.sources) && i + 1 < |plans| && plans[0].descriptor.start == base
    requires !CleanBoundary(plans, i)
    ensures !WindowCutOut(plans, q, base, i) || !WindowCutOut(plans, q, base, i + 1)
  {
    var p := Neighbours(plans, q, i);
    var t, w := Shared(plans, q, i);
    hide Planned, Part, CutsOut, Contiguous, Listed, Sequential;
    var ws := Listed(plans);
    WindowStart(plans, q, base, i);
    WindowStart(plans, q, base, i + 1);
    PlansMeet(plans, q, i);
    WindowStart(plans, q, base, 0);
    LeftIsPrefix(plans, q);
    ListedStarts(plans, q);
    forall v | v in ws ensures v.start < v.end { ListedProper(plans, q, v); }
    SharedIsRejected(ws, p, t, plans[w].descriptor.start, plans[w].right, base, q.prefixEnd);
  }

  /** Two neighbouring entries that share a position of a window make it impossible to cut out. */
  lemma SharedIsRejected(ws: seq<CheckpointPage>, p: nat, t: int, l: int, r: int, base: int, prefixEnd: int)
    requires p + 1 < |ws| && l <= t < r && In(ws[p], t) && In(ws[p + 1], t)
    requires forall k :: 0 <= k <= p ==> ws[k].start < r
    requires forall v :: v in ws ==> v.start < v.end
    requires l == base ==> ws[0].start <= prefixEnd && ws[0].start < r && ws[0].end > l
    ensures !CutsOut(ws, l, r, base, prefixEnd)
  {
    hide Accepted, Selected, Intersects;
    var x := BothSelected(ws, p, t, l, r);
    SelectedIntersects(ws, l, r);
    var selected := Selected(ws, l, r);
    var pieces := Pieces(selected, l, base, prefixEnd);
    if pieces == selected {
      TwiceIsRejected(pieces, x, x + 1, t, l, r);
    } else {
      FirstSelected(ws, l, r);
      PrefixIntersects(base, Min(prefixEnd, selected[0].start), l, r);
      TwiceIsRejected(pieces, x + 1, x + 2, t, l, r);
    }
  }

  lemma PrefixIntersects(base: int, end: int, l: int, r: int)
    requires l == base < end && l < r
    ensures Intersects(CheckpointPage(base, end, 0), l, r)
  {
  }

  /** The position both neighbours of an unclean boundary contain, and the window it lies in. */
  lemma Shared(plans: seq<Plan>, q: Request, i: nat) returns (t: int, w: nat)
    requires Planned(plans, q) && Sequential(q.sources) && i + 1 < |plans| && !CleanBoundary(plans, i)
    ensures (w == i || w == i + 1) && plans[w].left <= t < plans[w].right
    ensures In(Last(plans[i]), t) && In(First(plans[i + 1]), t)
  {
    PartEnds(plans[i], q);
    PartEnds(plans[i + 1], q);
    PlansMeet(plans, q, i);
    if Last(plans[i]).end > plans[i].right {
      t, w := plans[i].right, i + 1;
    } else {
      t, w := plans[i].right - 1, i;
    }
  }

  /** What was acquired can be re-cut at all canonical windows exactly when no acquired entry straddles a
      boundary between them. */
  lemma RecutIffNoneStraddles(plans: seq<Plan>, q: Request, base: int)
    requires Planned(plans, q) && Sequential(q.sources) && plans != [] && plans[0].descriptor.start == base
    ensures AllCutOut(plans, q, base) <==> NoneStraddles(plans)
  {
    hide Planned, CleanBoundary, NoneStraddles, WindowCutOut, Contiguous, Sequential;
    CleanIffNoneStraddles(plans, q);
    ContiguousIffClean(plans, q);
    if AllClean(plans) { CleanCutsOut(plans, q, base); }
    if AllCutOut(plans, q, base) {
      forall i | 0 <= i && i + 1 < |plans| ensures CleanBoundary(plans, i) {
        assert WindowCutOut(plans, q, base, i) && WindowCutOut(plans, q, base, i + 1);
        if !CleanBoundary(plans, i) { UncleanIsRejected(plans, q, base, i); }
      }
    }
  }
}

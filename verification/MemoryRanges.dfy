/** Byte ranges of device accesses: exact coalescing, and the 64 KiB tiles they touch. */
module MemoryRanges {
  import opened Division

  /** (start, size) as callers give ranges; sizes below one name no bytes. */
  type Range = (int, int)

  predicate Contains(r: Range, x: int) { r.0 <= x < r.0 + r.1 }

  ghost predicate Bytes(rs: seq<Range>, x: int) { exists i :: 0 <= i < |rs| && Contains(rs[i], x) }

  // ---------------------------------------------------------------- sorting

  predicate Before(p: Range, q: Range) { p.0 < q.0 || (p.0 == q.0 && p.1 <= q.1) }

  predicate Ordered(rs: seq<Range>) { forall i, j :: 0 <= i < j < |rs| ==> Before(rs[i], rs[j]) }

  function Insert(rs: seq<Range>, r: Range): seq<Range> {
    if rs == [] then [r] else if Before(r, rs[0]) then [r] + rs else [rs[0]] + Insert(rs[1..], r)
  }

  function Sorted(rs: seq<Range>): seq<Range> {
    if rs == [] then [] else Insert(Sorted(rs[1..]), rs[0])
  }

  lemma {:induction false} InsertMembers(rs: seq<Range>, r: Range)
    ensures forall e :: e in Insert(rs, r) <==> e in rs || e == r
    decreases |rs|
  {
    if rs != [] {
      InsertMembers(rs[1..], r);
      assert rs == [rs[0]] + rs[1..];
    }
  }

  lemma {:induction false} InsertOrdered(rs: seq<Range>, r: Range)
    requires Ordered(rs)
    ensures Ordered(Insert(rs, r))
    decreases |rs|
  {
    if rs != [] && !Before(r, rs[0]) {
      InsertOrdered(rs[1..], r);
      InsertMembers(rs[1..], r);
      var more := Insert(rs[1..], r);
      forall k | 0 <= k < |more| ensures Before(rs[0], more[k]) { assert more[k] in more; }
    }
  }

  lemma {:induction false} SortedIsSorted(rs: seq<Range>)
    ensures Ordered(Sorted(rs)) && forall e :: e in Sorted(rs) <==> e in rs
    decreases |rs|
  {
    if rs != [] {
      SortedIsSorted(rs[1..]);
      InsertOrdered(Sorted(rs[1..]), rs[0]);
      InsertMembers(Sorted(rs[1..]), rs[0]);
      assert rs == [rs[0]] + rs[1..];
    }
  }

  lemma SameMembersSameBytes(p: seq<Range>, q: seq<Range>)
    requires forall e :: e in p <==> e in q
    ensures forall x :: Bytes(p, x) <==> Bytes(q, x)
  {
    forall x ensures Bytes(p, x) <==> Bytes(q, x) {
      if Bytes(p, x) {
        var i :| 0 <= i < |p| && Contains(p[i], x);
        assert p[i] in q;
      }
      if Bytes(q, x) {
        var i :| 0 <= i < |q| && Contains(q[i], x);
        assert q[i] in p;
      }
    }
  }

  // ---------------------------------------------------------------- merging

  /** (start, end) runs with a gap between any two. */
  ghost predicate Separate(runs: seq<(int, int)>) {
    && (forall i :: 0 <= i < |runs| ==> runs[i].0 < runs[i].1)
    && (forall i, j :: 0 <= i < j < |runs| ==> runs[i].1 < runs[j].0)
  }

  ghost predicate InRuns(runs: seq<(int, int)>, x: int) { exists i :: 0 <= i < |runs| && runs[i].0 <= x < runs[i].1 }

  /** Take one more range, whose start is not before the start of the last run. */
  function Absorb(runs: seq<(int, int)>, r: Range): seq<(int, int)> {
    if r.1 <= 0 then runs
    else if runs != [] && r.0 <= runs[|runs| - 1].1 then
      var last := runs[|runs| - 1];
      runs[..|runs| - 1] + [(last.0, if last.1 < r.0 + r.1 then r.0 + r.1 else last.1)]
    else runs + [(r.0, r.0 + r.1)]
  }

  lemma AbsorbSeparate(runs: seq<(int, int)>, r: Range)
    requires Separate(runs) && (runs != [] ==> runs[|runs| - 1].0 <= r.0)
    ensures Separate(Absorb(runs, r))
    ensures Absorb(runs, r) != [] ==> Absorb(runs, r)[|Absorb(runs, r)| - 1].0 <= r.0
  {
  }

  lemma AbsorbBytes(runs: seq<(int, int)>, r: Range, x: int)
    requires Separate(runs) && (runs != [] ==> runs[|runs| - 1].0 <= r.0)
    ensures InRuns(Absorb(runs, r), x) <==> InRuns(runs, x) || Contains(r, x)
  {
    if r.1 > 0 {
      if runs != [] && r.0 <= runs[|runs| - 1].1 { ExtendBytes(runs, r, x); } else { AppendBytes(runs, (r.0, r.0 + r.1), x); }
    }
  }

  lemma AppendBytes(runs: seq<(int, int)>, last: (int, int), x: int)
    ensures InRuns(runs + [last], x) <==> InRuns(runs, x) || last.0 <= x < last.1
  {
    var now := runs + [last];
    if InRuns(now, x) {
      var i :| 0 <= i < |now| && now[i].0 <= x < now[i].1;
      if i < |runs| { assert runs[i] == now[i]; }
    }
    if InRuns(runs, x) {
      var i :| 0 <= i < |runs| && runs[i].0 <= x < runs[i].1;
      assert now[i] == runs[i];
    }
    if last.0 <= x < last.1 { assert now[|runs|] == last; }
  }

  lemma ExtendBytes(runs: seq<(int, int)>, r: Range, x: int)
    requires r.1 > 0 && runs != [] && runs[|runs| - 1].0 <= r.0 <= runs[|runs| - 1].1
    ensures InRuns(Absorb(runs, r), x) <==> InRuns(runs, x) || Contains(r, x)
  {
    var front, last := runs[..|runs| - 1], runs[|runs| - 1];
    AppendBytes(front, last, x);
    AppendBytes(front, (last.0, if last.1 < r.0 + r.1 then r.0 + r.1 else last.1), x);
    assert runs == front + [last];
  }

  /** Merged ranges are positive, in order, and never touch. */
  ghost predicate Merged(rs: seq<Range>) {
    && (forall i :: 0 <= i < |rs| ==> rs[i].1 > 0)
    && (forall i, j :: 0 <= i < j < |rs| ==> rs[i].0 + rs[i].1 < rs[j].0)
  }

  /** Coalescing keeps the exact byte set and never enlarges it. */
  method MergeRanges(ranges: seq<Range>) returns (merged: seq<Range>)
    ensures forall x :: Bytes(merged, x) <==> Bytes(ranges, x)
    ensures Merged(merged)
  {
    var order := Sorted(ranges);
    SortedIsSorted(ranges);
    SameMembersSameBytes(order, ranges);
    var runs: seq<(int, int)> := [];
    for i := 0 to |order|
      invariant Separate(runs) && (i > 0 && runs != [] ==> runs[|runs| - 1].0 <= order[i - 1].0)
      invariant i == 0 ==> runs == []
      invariant forall x :: InRuns(runs, x) <==> Bytes(order[..i], x)
    {
      var r := order[i];
      if i > 0 { assert Before(order[i - 1], r); }
      forall x ensures InRuns(Absorb(runs, r), x) <==> Bytes(order[..i + 1], x) {
        AbsorbBytes(runs, r, x);
        BytesAppend(order, i, x);
      }
      AbsorbSeparate(runs, r);
      runs := Absorb(runs, r);
    }
    assert order[..|order|] == order;
    merged := seq(|runs|, i requires 0 <= i < |runs| => (runs[i].0, runs[i].1 - runs[i].0));
    RunsAsRanges(runs, merged);
  }

  lemma RunsAsRanges(runs: seq<(int, int)>, merged: seq<Range>)
    requires Separate(runs) && |merged| == |runs|
    requires forall i :: 0 <= i < |runs| ==> merged[i] == (runs[i].0, runs[i].1 - runs[i].0)
    ensures Merged(merged) && forall x :: Bytes(merged, x) <==> InRuns(runs, x)
  {
    forall x ensures Bytes(merged, x) <==> InRuns(runs, x) {
      if Bytes(merged, x) {
        var i :| 0 <= i < |merged| && Contains(merged[i], x);
        assert runs[i].0 <= x < runs[i].1;
      }
      if InRuns(runs, x) {
        var i :| 0 <= i < |runs| && runs[i].0 <= x < runs[i].1;
        assert Contains(merged[i], x);
      }
    }
  }

  lemma BytesAppend(order: seq<Range>, i: nat, x: int)
    requires i < |order|
    ensures Bytes(order[..i + 1], x) <==> Bytes(order[..i], x) || Contains(order[i], x)
  {
    var next := order[..i + 1];
    if Bytes(next, x) {
      var k :| 0 <= k < |next| && Contains(next[k], x);
      if k < i { assert order[..i][k] == next[k]; }
    }
    if Bytes(order[..i], x) {
      var k :| 0 <= k < i && Contains(order[..i][k], x);
      assert next[k] == order[..i][k];
    }
    if Contains(order[i], x) { assert next[i] == order[i]; }
  }

  /** Two merged lists that name the same bytes are the same list. */
  lemma {:induction false} MergedIsUnique(p: seq<Range>, q: seq<Range>)
    requires Merged(p) && Merged(q) && forall x :: Bytes(p, x) <==> Bytes(q, x)
    ensures p == q
    decreases |p|
  {
    if p == [] {
      if q != [] { assert Bytes(q, q[0].0) by { assert Contains(q[0], q[0].0); } }
    } else {
      FirstRun(p, q);
      FirstRun(q, p);
      forall x ensures Bytes(p[1..], x) <==> Bytes(q[1..], x) {
        BytesRest(p, x);
        BytesRest(q, x);
      }
      MergedIsUnique(p[1..], q[1..]);
      assert p == [p[0]] + p[1..] && q == [q[0]] + q[1..];
    }
  }

  lemma BytesRest(p: seq<Range>, x: int)
    requires Merged(p) && p != []
    ensures Bytes(p[1..], x) <==> Bytes(p, x) && !Contains(p[0], x)
  {
    if Bytes(p[1..], x) {
      var i :| 0 <= i < |p[1..]| && Contains(p[1..][i], x);
      assert Contains(p[i + 1], x);
    }
    if Bytes(p, x) && !Contains(p[0], x) {
      var i :| 0 <= i < |p| && Contains(p[i], x);
      assert p[1..][i - 1] == p[i];
    }
  }

  /** The first run starts at the first byte and ends before the first missing one. */
  lemma FirstRun(p: seq<Range>, q: seq<Range>)
    requires Merged(p) && Merged(q) && p != [] && forall x :: Bytes(p, x) <==> Bytes(q, x)
    ensures q != [] && q[0].0 <= p[0].0 && (q[0].0 == p[0].0 ==> p[0].1 <= q[0].1)
  {
    assert Contains(p[0], p[0].0);
    assert Bytes(p, p[0].0) && Bytes(q, p[0].0);
    var i :| 0 <= i < |q| && Contains(q[i], p[0].0);
    if q[0].0 == p[0].0 && q[0].1 < p[0].1 {
      var x := q[0].0 + q[0].1;
      assert Contains(p[0], x);
      assert Bytes(p, x);
      GapAfterFirst(q);
    }
  }

  lemma GapAfterFirst(q: seq<Range>)
    requires Merged(q) && q != []
    ensures !Bytes(q, q[0].0 + q[0].1)
  {
  }

  // ---------------------------------------------------------------- tiles

  const TILE := 65536

  function FirstTile(start: int): int { start / TILE }
  function LastTile(end: int): int { (end - 1) / TILE }

  predicate Overlap(a: int, b: int, start: int, end: int) { a < end && start < b }

  /** Two overlapping ranges have a tile in common. */
  lemma SharedTile(a: int, b: int, start: int, end: int) returns (t: int)
    requires a < b && start < end && Overlap(a, b, start, end)
    ensures FirstTile(a) <= t <= LastTile(b) && FirstTile(start) <= t <= LastTile(end)
  {
    t := (if a < start then start else a) / TILE;
  }
}

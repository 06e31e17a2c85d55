/** What it means for held windows to cover a token range, and for windows to tile one. */
module Coverage {
  import opened CheckpointTypes

  /** Every position of [a, b) lies in the window of some held entry. */
  ghost predicate Covers(held: seq<Entry>, a: int, b: int) {
    forall t :: a <= t < b ==> Covered(held, t)
  }

  ghost predicate Covered(held: seq<Entry>, t: int) {
    exists i :: 0 <= i < |held| && held[i].0.start <= t < held[i].0.end
  }

  /** Every entry was taken for one of these sources. */
  ghost predicate From(held: seq<Entry>, sources: seq<CheckpointPage>) {
    forall i :: 0 <= i < |held| ==> held[i].0 in sources
  }

  /** Entry i starts no later than the range covered before it, and reaches further. */
  ghost predicate Extends(held: seq<Entry>, i: int, a: int, limit: int)
    requires 0 <= i < |held|
  {
    var before := if i == 0 then a else held[i - 1].0.end;
    held[i].0.start <= before < held[i].0.end && before < limit
  }

  /** A greedy chain of windows from position a; only the last may pass the limit. */
  ghost predicate Chain(held: seq<Entry>, a: int, limit: int) {
    forall i {:trigger Extends(held, i, a, limit)} :: 0 <= i < |held| ==> Extends(held, i, a, limit)
  }

  function Min(a: int, b: int): int { if a < b then a else b }
  function Max(a: int, b: int): int { if a < b then b else a }

  /** How far a chain reaches, cut at the limit. */
  function Reach(held: seq<Entry>, a: int, limit: int): int {
    if held == [] then a else Min(held[|held| - 1].0.end, limit)
  }

  /** Where window i must start when windows follow each other from a. */
  function Begin(windows: seq<CheckpointPage>, i: int, a: int): int
    requires 0 <= i <= |windows|
  {
    if i == 0 then a else windows[i - 1].end
  }

  /** Windows that follow each other exactly from a to b. */
  ghost predicate Tiles(windows: seq<CheckpointPage>, a: int, b: int) {
    && Begin(windows, |windows|, a) == b
    && forall i {:trigger Begin(windows, i, a)} :: 0 <= i < |windows| ==>
         windows[i].start == Begin(windows, i, a) < windows[i].end
  }

  lemma TilesAppend(windows: seq<CheckpointPage>, w: CheckpointPage, a: int, b: int)
    requires Tiles(windows, a, b) && w.start == b < w.end
    ensures Tiles(windows + [w], a, w.end)
  {
    var more := windows + [w];
    forall i | 0 <= i < |more| ensures more[i].start == Begin(more, i, a) < more[i].end {
      if i < |windows| { assert Begin(more, i, a) == Begin(windows, i, a); }
    }
  }

  lemma ChainAppend(held: seq<Entry>, e: Entry, a: int, limit: int)
    requires Chain(held, a, limit)
    requires e.0.start <= Reach(held, a, limit) < e.0.end && Reach(held, a, limit) < limit
    ensures Chain(held + [e], a, limit) && Reach(held + [e], a, limit) == Min(e.0.end, limit)
  {
    var more := held + [e];
    forall i | 0 <= i < |more| ensures Extends(more, i, a, limit) {
      if i < |held| { assert Extends(held, i, a, limit); }
    }
  }

  lemma ChainPrefix(held: seq<Entry>, k: nat, a: int, limit: int)
    requires Chain(held, a, limit) && k <= |held|
    ensures Chain(held[..k], a, limit)
  {
    forall i | 0 <= i < k ensures Extends(held[..k], i, a, limit) { assert Extends(held, i, a, limit); }
  }

  lemma {:induction false} ChainCovers(held: seq<Entry>, a: int, limit: int)
    requires Chain(held, a, limit)
    ensures Covers(held, a, Reach(held, a, limit))
    ensures a <= Reach(held, a, limit)
  {
    if held != [] {
      var k := |held| - 1;
      var front := held[..k];
      assert Extends(held, k, a, limit);
      ChainPrefix(held, k, a, limit);
      ChainCovers(front, a, limit);
      forall t | a <= t < Reach(held, a, limit) ensures Covered(held, t) {
        if t < Reach(front, a, limit) {
          assert Covered(front, t);
          var i :| 0 <= i < |front| && front[i].0.start <= t < front[i].0.end;
          assert held[i] == front[i];
        } else {
          assert held[k].0.start <= t < held[k].0.end;
        }
      }
    }
  }

  lemma ChainBounds(held: seq<Entry>, a: int, limit: int)
    requires Chain(held, a, limit)
    ensures a <= Reach(held, a, limit) <= Max(a, limit)
  {
    ChainCovers(held, a, limit);
  }

  /** Dropping trailing windows that start at or after b loses nothing before b. */
  lemma CoversWithoutTail(held: seq<Entry>, k: nat, a: int, b: int)
    requires k <= |held| && Covers(held, a, b)
    requires forall i :: k <= i < |held| ==> held[i].0.start >= b
    ensures Covers(held[..k], a, b)
  {
    forall t | a <= t < b ensures Covered(held[..k], t) {
      assert Covered(held, t);
      var i :| 0 <= i < |held| && held[i].0.start <= t < held[i].0.end;
      assert held[..k][i] == held[i];
    }
  }

  lemma CoversShorter(held: seq<Entry>, a: int, b: int, c: int)
    requires Covers(held, a, b) && c <= b
    ensures Covers(held, a, c)
  {
  }

  lemma CoversJoin(x: seq<Entry>, y: seq<Entry>, a: int, b: int, c: int)
    requires Covers(x, a, b) && Covers(y, b, c)
    ensures Covers(x + y, a, c)
  {
    forall t | a <= t < c ensures Covered(x + y, t) {
      if t < b {
        assert Covered(x, t);
        var i :| 0 <= i < |x| && x[i].0.start <= t < x[i].0.end;
        assert (x + y)[i] == x[i];
      } else {
        assert Covered(y, t);
        var i :| 0 <= i < |y| && y[i].0.start <= t < y[i].0.end;
        assert (x + y)[|x| + i] == y[i];
      }
    }
  }
}

/** Orders in which a dependency scheduler may run its commands. */
module Schedule {

  /** deps[i] holds the commands that command i waits for; all were submitted before it. */
  ghost predicate Submitted(deps: seq<set<nat>>) {
    forall i, d :: 0 <= i < |deps| && d in deps[i] ==> d < i
  }

  /** Every command at most once, and only after everything it waits for. */
  ghost predicate Legal(order: seq<nat>, deps: seq<set<nat>>) {
    && (forall k :: 0 <= k < |order| ==> order[k] < |deps|)
    && (forall j, k :: 0 <= j < k < |order| ==> order[j] != order[k])
    && (forall k, d :: 0 <= k < |order| && d in deps[order[k]] ==> d in order[..k])
  }

  ghost predicate Complete(order: seq<nat>, deps: seq<set<nat>>) {
    Legal(order, deps) && forall i :: 0 <= i < |deps| ==> i in order
  }

  /** Command b waits for command a, directly or through others. */
  ghost predicate Waits(deps: seq<set<nat>>, a: nat, b: nat)
    requires Submitted(deps)
    decreases b
  {
    b < |deps| && exists d :: d in deps[b] && (d == a || Waits(deps, a, d))
  }

  lemma {:induction false} WaitsTrans(deps: seq<set<nat>>, a: nat, b: nat, c: nat)
    requires Submitted(deps) && Waits(deps, a, b) && Waits(deps, b, c)
    ensures Waits(deps, a, c)
    decreases c
  {
    var d :| d in deps[c] && (d == b || Waits(deps, b, d));
    if d != b { WaitsTrans(deps, a, b, d); }
  }

  /** Waiting is respected by every legal order, however far apart the two commands are. */
  lemma {:induction false} WaitsRunsLater(order: seq<nat>, deps: seq<set<nat>>, a: nat, k: nat)
    requires Submitted(deps) && Legal(order, deps)
    requires k < |order| && Waits(deps, a, order[k])
    ensures a in order[..k]
    decreases order[k]
  {
    var d :| d in deps[order[k]] && (d == a || Waits(deps, a, d));
    assert d in order[..k];
    if d != a {
      var j :| 0 <= j < k && order[..k][j] == d;
      WaitsRunsLater(order, deps, a, j);
      assert order[..j] <= order[..k];
    }
  }

  /** More submissions leave the waits among earlier commands alone. */
  lemma {:induction false} WaitsExtends(deps: seq<set<nat>>, more: seq<set<nat>>, a: nat, b: nat)
    requires Submitted(deps) && Submitted(more) && deps <= more && Waits(deps, a, b)
    ensures Waits(more, a, b)
    decreases b
  {
    var d :| d in deps[b] && (d == a || Waits(deps, a, d));
    assert more[b] == deps[b];
    if d != a { WaitsExtends(deps, more, a, d); }
  }

  lemma LegalNext(order: seq<nat>, deps: seq<set<nat>>, c: nat)
    requires Legal(order, deps) && c < |deps| && c !in order
    requires forall d :: d in deps[c] ==> d in order
    ensures Legal(order + [c], deps)
  {
    var next := order + [c];
    forall k, d | 0 <= k < |next| && d in deps[next[k]] ensures d in next[..k] {
      assert next[..k] == order[..k];
      if k == |order| { assert next[..k] == order; }
    }
  }

  /** The commands that have run. */
  ghost function Ran(order: seq<nat>): set<nat> { set c | c in order }

  ghost function Below(n: nat): (r: set<nat>)
    ensures |r| == n && forall c: nat :: c in r <==> c < n
  {
    if n == 0 then {} else Below(n - 1) + {n - 1}
  }

  /** A legal order is never longer than the list of commands. */
  lemma LegalIsShort(order: seq<nat>, deps: seq<set<nat>>)
    requires Legal(order, deps)
    ensures |order| <= |deps|
    ensures |order| == |deps| ==> Complete(order, deps)
  {
    Distinct(order);
    Subset(Ran(order), Below(|deps|));
    if |order| == |deps| {
      forall i | 0 <= i < |deps| ensures i in order { assert i in Below(|deps|); }
    }
  }

  lemma {:induction false} Distinct(order: seq<nat>)
    requires forall j, k :: 0 <= j < k < |order| ==> order[j] != order[k]
    ensures |Ran(order)| == |order|
    decreases |order|
  {
    if order != [] {
      var n := |order| - 1;
      Distinct(order[..n]);
      assert order == order[..n] + [order[n]];
      assert Ran(order) == Ran(order[..n]) + {order[n]};
    }
  }

  lemma Subset(a: set<nat>, b: set<nat>)
    requires a <= b
    ensures |a| <= |b| && (|a| == |b| ==> a == b)
  {
    assert b == a + (b - a);
    assert |b| == |a| + |b - a|;
  }

  // ---------------------------------------------------------------- waits are the only order there is

  ghost predicate RunsBefore(order: seq<nat>, a: nat, b: nat) {
    exists i, j :: 0 <= i < j < |order| && order[i] == a && order[j] == b
  }

  /** The commands below n that b needs, itself included, or the ones it does not need. */
  ghost function Part(deps: seq<set<nat>>, b: nat, n: nat, needed: bool): seq<nat>
    requires Submitted(deps) && n <= |deps|
  {
    if n == 0 then []
    else Part(deps, b, n - 1, needed) + if Needs(deps, b, n - 1) == needed then [n - 1] else []
  }

  ghost predicate Needs(deps: seq<set<nat>>, b: nat, c: nat)
    requires Submitted(deps)
  {
    c == b || Waits(deps, c, b)
  }

  lemma {:induction false} PartMembers(deps: seq<set<nat>>, b: nat, n: nat, needed: bool)
    requires Submitted(deps) && n <= |deps|
    ensures forall c: nat :: c in Part(deps, b, n, needed) <==> c < n && Needs(deps, b, c) == needed
    ensures forall i, j :: 0 <= i < j < |Part(deps, b, n, needed)| ==> Part(deps, b, n, needed)[i] < Part(deps, b, n, needed)[j]
    decreases n
  {
    hide Needs;
    if n > 0 {
      PartMembers(deps, b, n - 1, needed);
      var front := Part(deps, b, n - 1, needed);
      forall i | 0 <= i < |front| ensures front[i] < n - 1 { assert front[i] in front; }
    }
  }

  /** First everything b needs, then everything else: a complete legal order. */
  lemma NeededFirst(deps: seq<set<nat>>, b: nat)
    requires Submitted(deps) && b < |deps|
    ensures Complete(Part(deps, b, |deps|, true) + Part(deps, b, |deps|, false), deps)
  {
    hide Needs;
    var n := |deps|;
    var first, rest := Part(deps, b, n, true), Part(deps, b, n, false);
    PartMembers(deps, b, n, true);
    PartMembers(deps, b, n, false);
    var order := first + rest;
    forall i, j | 0 <= i < j < |order| ensures order[i] != order[j] {
      if i < |first| <= j { assert order[i] in first && order[j] in rest; }
    }
    forall k | 0 <= k < |order| ensures order[k] < n { assert order[k] in first || order[k] in rest; }
    forall k, d | 0 <= k < |order| && d in deps[order[k]] ensures d in order[..k] {
      DepComesFirst(deps, b, order, k, d);
    }
    forall c | 0 <= c < n ensures c in order { assert c in first || c in rest; }
  }

  lemma DepComesFirst(deps: seq<set<nat>>, b: nat, order: seq<nat>, k: nat, d: nat)
    requires Submitted(deps) && b < |deps|
    requires order == Part(deps, b, |deps|, true) + Part(deps, b, |deps|, false)
    requires k < |order| && order[k] < |deps| && d in deps[order[k]]
    ensures d in order[..k]
  {
    var n, c := |deps|, order[k];
    var first, rest := Part(deps, b, n, true), Part(deps, b, n, false);
    PartMembers(deps, b, n, true);
    PartMembers(deps, b, n, false);
    assert Waits(deps, d, c);
    if k < |first| {
      assert c in first;
      if c != b { WaitsTrans(deps, d, c, b); }
      assert d in first;
      var i :| 0 <= i < |first| && first[i] == d;
      assert i < k && order[i] == d;
    } else if Needs(deps, b, d) {
      assert d in first;
      var i :| 0 <= i < |first| && first[i] == d;
      assert order[i] == d;
    } else {
      assert d in rest && rest[k - |first|] == c;
      var i :| 0 <= i < |rest| && rest[i] == d;
      assert order[|first| + i] == d;
    }
  }

  /** A command runs before another in every complete order exactly when the other waits for it:
      without a chain of waits some legal schedule overtakes. */
  lemma AlwaysBeforeIffWaits(deps: seq<set<nat>>, a: nat, b: nat)
    requires Submitted(deps) && a < |deps| && b < |deps| && a != b
    ensures Waits(deps, a, b) <==> forall order :: Complete(order, deps) ==> RunsBefore(order, a, b)
  {
    if Waits(deps, a, b) {
      forall order | Complete(order, deps) ensures RunsBefore(order, a, b) {
        assert b in order;
        var k :| 0 <= k < |order| && order[k] == b;
        WaitsRunsLater(order, deps, a, k);
        var i :| 0 <= i < k && order[..k][i] == a;
        assert order[i] == a;
      }
    } else {
      NeededFirst(deps, b);
      Overtaken(deps, a, b);
    }
  }

  lemma Overtaken(deps: seq<set<nat>>, a: nat, b: nat)
    requires Submitted(deps) && a < |deps| && b < |deps| && a != b && !Waits(deps, a, b)
    ensures !RunsBefore(Part(deps, b, |deps|, true) + Part(deps, b, |deps|, false), a, b)
  {
    var first, rest := Part(deps, b, |deps|, true), Part(deps, b, |deps|, false);
    PartMembers(deps, b, |deps|, true);
    PartMembers(deps, b, |deps|, false);
    var order := first + rest;
    forall i, j | 0 <= i < j < |order| && order[i] == a ensures order[j] != b {
      assert a !in first;
      assert i >= |first|;
      assert order[j] in rest;
    }
  }
}

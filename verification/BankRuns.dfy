/** What any legal execution of the bank hand-off schedule does to its buffers. */
module BankRuns {
  import opened Schedule
  import opened Division

  /** One device command of the schedule. */
  datatype Op =
    | Load(layer: nat, request: nat)   // host row -> bank, on the bank's stream
    | Wait(layer: nat, request: nat)   // compute waits for that load's event
    | Busy(layer: nat, repeat: nat)    // unrelated compute work
    | Copy(layer: nat)                 // compute reads the bank
    | Add(layer: nat)                  // compute updates the bank in place
    | Use(layer: nat)                  // the bank's stream waits for the last compute access
    | Save(layer: nat)                 // bank -> host, on the bank's stream

  datatype Shape = Shape(layers: nat, banks: nat, requests: nat)

  /** The buffers, by (bank, request) and by (layer, request). */
  datatype Buffers = Buffers(bank: (nat, nat) -> real, observed: (nat, nat) -> real, saved: (nat, nat) -> real)

  function Bank(shape: Shape, layer: nat): nat
    requires shape.banks > 0
  {
    layer % shape.banks
  }

  function Effect(op: Op, s: Buffers, source: (nat, nat) -> real, shape: Shape): Buffers
    requires shape.banks > 0
  {
    match op
    case Load(l, r) => s.(bank := (b: nat, q: nat) => if b == Bank(shape, l) && q == r then source(l, r) else s.bank(b, q))
    case Copy(l) => s.(observed := (k: nat, q: nat) => if k == l then s.bank(Bank(shape, l), q) else s.observed(k, q))
    case Add(l) => s.(bank := (b: nat, q: nat) => if b == Bank(shape, l) then s.bank(b, q) + 0.25 else s.bank(b, q))
    case Save(l) => s.(saved := (k: nat, q: nat) => if k == l then s.bank(Bank(shape, l), q) else s.saved(k, q))
    case _ => s
  }

  /** The buffers after the commands of an execution order ran one after the other. */
  function Run(ops: seq<Op>, order: seq<nat>, start: Buffers, source: (nat, nat) -> real, shape: Shape): Buffers
    requires shape.banks > 0 && forall k :: 0 <= k < |order| ==> order[k] < |ops|
    decreases |order|
  {
    if order == [] then start
    else
      var n := |order| - 1;
      Effect(ops[order[n]], Run(ops, order[..n], start, source, shape), source, shape)
  }

  // ---------------------------------------------------------------- the schedule's dependencies

  /** Which command number every operation got. */
  ghost predicate Placed(ops: seq<Op>, at: map<Op, nat>) {
    && (forall x :: x in at ==> at[x] < |ops| && ops[at[x]] == x)
    && (forall c :: 0 <= c < |ops| ==> ops[c] in at && at[ops[c]] == c)
  }

  ghost predicate Before(deps: seq<set<nat>>, at: map<Op, nat>, x: Op, y: Op)
    requires Submitted(deps)
  {
    x in at && y in at && Waits(deps, at[x], at[y])
  }

  lemma BeforeTrans(deps: seq<set<nat>>, at: map<Op, nat>, x: Op, y: Op, z: Op)
    requires Submitted(deps) && Before(deps, at, x, y) && Before(deps, at, y, z)
    ensures Before(deps, at, x, z)
  {
    WaitsTrans(deps, at[x], at[y], at[z]);
  }

  /** Inside a layer: all its loads, then the read, then the update, then the save. */
  ghost predicate LayerEdges(deps: seq<set<nat>>, at: map<Op, nat>, l: nat, requests: nat)
    requires Submitted(deps)
  {
    && (forall r :: 0 <= r < requests ==> Before(deps, at, Load(l, r), Copy(l)))
    && Before(deps, at, Copy(l), Add(l)) && Before(deps, at, Add(l), Save(l))
  }

  /** Between layers of one bank: the save comes before every reload. */
  ghost predicate ReloadEdges(deps: seq<set<nat>>, at: map<Op, nat>, l: nat, m: nat, requests: nat)
    requires Submitted(deps)
  {
    forall r :: 0 <= r < requests ==> Before(deps, at, Save(l), Load(m, r))
  }

  ghost predicate Handoff(deps: seq<set<nat>>, at: map<Op, nat>, shape: Shape)
    requires Submitted(deps)
  {
    && (forall l {:trigger LayerEdges(deps, at, l, shape.requests)} :: 0 <= l < shape.layers ==> LayerEdges(deps, at, l, shape.requests))
    && (forall l, m {:trigger ReloadEdges(deps, at, l, m, shape.requests)} :: 0 <= l && m == l + shape.banks < shape.layers ==>
          ReloadEdges(deps, at, l, m, shape.requests))
  }

  /** However many layers later a bank is reused, the reload waits for the save. */
  lemma {:induction false} SaveBeforeReload(deps: seq<set<nat>>, at: map<Op, nat>, shape: Shape, l: nat, m: nat, r: nat)
    requires Submitted(deps) && Handoff(deps, at, shape) && shape.banks > 0
    requires l < m < shape.layers && Bank(shape, l) == Bank(shape, m) && r < shape.requests
    ensures Before(deps, at, Save(l), Load(m, r))
    decreases m
  {
    SameRemainder(shape.banks, l, m);
    var p := m - shape.banks;
    assert ReloadEdges(deps, at, p, m, shape.requests);
    if p != l {
      SaveBeforeReload(deps, at, shape, l, p, r);
      LoadBeforeSave(deps, at, shape, p, r);
      BeforeTrans(deps, at, Save(l), Load(p, r), Save(p));
      BeforeTrans(deps, at, Save(l), Save(p), Load(m, r));
    }
  }

  lemma LoadBeforeSave(deps: seq<set<nat>>, at: map<Op, nat>, shape: Shape, l: nat, r: nat)
    requires Submitted(deps) && Handoff(deps, at, shape) && l < shape.layers && r < shape.requests
    ensures Before(deps, at, Load(l, r), Add(l)) && Before(deps, at, Load(l, r), Save(l)) && Before(deps, at, Copy(l), Save(l))
  {
    assert LayerEdges(deps, at, l, shape.requests);
    BeforeTrans(deps, at, Load(l, r), Copy(l), Add(l));
    BeforeTrans(deps, at, Load(l, r), Add(l), Save(l));
    BeforeTrans(deps, at, Copy(l), Add(l), Save(l));
  }

  // ---------------------------------------------------------------- what every prefix keeps

  ghost predicate Done(order: seq<nat>, at: map<Op, nat>, x: Op) { x in at && at[x] in order }

  lemma DownClosed(order: seq<nat>, deps: seq<set<nat>>, at: map<Op, nat>, x: Op, y: Op)
    requires Submitted(deps) && Legal(order, deps) && Before(deps, at, x, y) && Done(order, at, y)
    ensures Done(order, at, x)
  {
    var k :| 0 <= k < |order| && order[k] == at[y];
    WaitsRunsLater(order, deps, at[x], k);
  }

  /** The next command of a legal order: everything before it ran, nothing behind it did. */
  lemma NextOp(order: seq<nat>, deps: seq<set<nat>>, at: map<Op, nat>, n: nat, x: Op, y: Op)
    requires Submitted(deps) && Legal(order, deps) && n < |order|
    requires y in at && at[y] == order[n]
    ensures Before(deps, at, x, y) ==> Done(order[..n], at, x)
    ensures Before(deps, at, y, x) ==> !Done(order[..n], at, x)
    ensures !Done(order[..n], at, y)
  {
    if Before(deps, at, x, y) { WaitsRunsLater(order, deps, at[x], n); }
    if Before(deps, at, y, x) && Done(order[..n], at, x) {
      LegalPrefix(order, deps, n);
      DownClosed(order[..n], deps, at, y, x);
    }
  }

  lemma LegalPrefix(order: seq<nat>, deps: seq<set<nat>>, n: nat)
    requires Legal(order, deps) && n <= |order|
    ensures Legal(order[..n], deps)
  {
    forall k, d | 0 <= k < n && d in deps[order[..n][k]] ensures d in order[..n][..k] {
      assert order[..n][..k] == order[..k];
    }
  }

  /** While a layer owns its bank, the bank holds that layer's data, updated once the add ran. */
  ghost predicate BankHolds(order: seq<nat>, at: map<Op, nat>, s: Buffers, source: (nat, nat) -> real, shape: Shape, l: nat, r: nat)
    requires shape.banks > 0
  {
    Done(order, at, Load(l, r)) && (l + shape.banks < shape.layers ==> !Done(order, at, Load(l + shape.banks, r))) ==>
      s.bank(Bank(shape, l), r) == source(l, r) + if Done(order, at, Add(l)) then 0.25 else 0.0
  }

  ghost predicate ReadRight(order: seq<nat>, at: map<Op, nat>, s: Buffers, source: (nat, nat) -> real, l: nat, r: nat) {
    && (Done(order, at, Copy(l)) ==> s.observed(l, r) == source(l, r))
    && (Done(order, at, Save(l)) ==> s.saved(l, r) == source(l, r) + 0.25)
  }

  lemma DoneNext(order: seq<nat>, n: nat, at: map<Op, nat>, ops: seq<Op>, y: Op, x: Op)
    requires n < |order| && Placed(ops, at) && y in at && at[y] == order[n]
    ensures Done(order[..n + 1], at, x) <==> Done(order[..n], at, x) || x == y
  {
    assert order[..n + 1] == order[..n] + [order[n]];
    if x in at && at[x] == at[y] { assert ops[at[x]] == x && ops[at[y]] == y; }
  }

  /** A load leaves the bank with the right data for whichever layer owns it afterwards. */
  lemma LoadStep(deps: seq<set<nat>>, ops: seq<Op>, at: map<Op, nat>, order: seq<nat>, n: nat, s: Buffers, source: (nat, nat) -> real, shape: Shape, l: nat, r: nat, k: nat, q: nat)
    requires Submitted(deps) && Legal(order, deps) && Handoff(deps, at, shape) && Placed(ops, at) && shape.banks > 0
    requires n < |order| && l < shape.layers && r < shape.requests && k < shape.layers && q < shape.requests
    requires Load(k, q) in at && at[Load(k, q)] == order[n]
    requires BankHolds(order[..n], at, s, source, shape, l, r)
    ensures BankHolds(order[..n + 1], at, Effect(Load(k, q), s, source, shape), source, shape, l, r)
  {
    var y := Load(k, q);
    DoneNext(order, n, at, ops, y, Load(l, r));
    DoneNext(order, n, at, ops, y, Load(l + shape.banks, r));
    DoneNext(order, n, at, ops, y, Add(l));
    if Bank(shape, k) == Bank(shape, l) && q == r {
      if k == l {
        LoadBeforeSave(deps, at, shape, l, r);
        NextOp(order, deps, at, n, Add(l), y);
      } else if k < l {
        LoadBeforeLoad(deps, at, shape, k, l, r);
        NextOp(order, deps, at, n, Load(l, r), y);
      } else {
        SameRemainder(shape.banks, l, k);
        if k != l + shape.banks {
          ModStep(l, shape.banks);
          LoadBeforeLoad(deps, at, shape, l + shape.banks, k, r);
          NextOp(order, deps, at, n, Load(l + shape.banks, r), y);
        }
      }
    }
  }

  lemma LoadBeforeLoad(deps: seq<set<nat>>, at: map<Op, nat>, shape: Shape, l: nat, m: nat, r: nat)
    requires Submitted(deps) && Handoff(deps, at, shape) && shape.banks > 0
    requires l < m < shape.layers && Bank(shape, l) == Bank(shape, m) && r < shape.requests
    ensures Before(deps, at, Load(l, r), Load(m, r)) && Before(deps, at, Add(l), Load(m, r))
  {
    SaveBeforeReload(deps, at, shape, l, m, r);
    LoadBeforeSave(deps, at, shape, l, r);
    assert LayerEdges(deps, at, l, shape.requests);
    BeforeTrans(deps, at, Load(l, r), Save(l), Load(m, r));
    BeforeTrans(deps, at, Add(l), Save(l), Load(m, r));
  }

  /** An update touches the bank only while its own layer owns it. */
  lemma AddStep(deps: seq<set<nat>>, ops: seq<Op>, at: map<Op, nat>, order: seq<nat>, n: nat, s: Buffers, source: (nat, nat) -> real, shape: Shape, l: nat, r: nat, k: nat)
    requires Submitted(deps) && Legal(order, deps) && Handoff(deps, at, shape) && Placed(ops, at) && shape.banks > 0
    requires n < |order| && l < shape.layers && r < shape.requests && k < shape.layers
    requires Add(k) in at && at[Add(k)] == order[n]
    requires BankHolds(order[..n], at, s, source, shape, l, r)
    ensures BankHolds(order[..n + 1], at, Effect(Add(k), s, source, shape), source, shape, l, r)
  {
    var y := Add(k);
    DoneNext(order, n, at, ops, y, Load(l, r));
    DoneNext(order, n, at, ops, y, Load(l + shape.banks, r));
    DoneNext(order, n, at, ops, y, Add(l));
    if Bank(shape, k) == Bank(shape, l) {
      if k == l {
        NextOp(order, deps, at, n, y, y);
      } else if k < l {
        LoadBeforeLoad(deps, at, shape, k, l, r);
        NextOp(order, deps, at, n, Load(l, r), y);
      } else {
        SameRemainder(shape.banks, l, k);
        LoadBeforeSave(deps, at, shape, k, r);
        if k != l + shape.banks {
          ModStep(l, shape.banks);
          LoadBeforeLoad(deps, at, shape, l + shape.banks, k, r);
          BeforeTrans(deps, at, Load(l + shape.banks, r), Load(k, r), y);
        }
        NextOp(order, deps, at, n, Load(l + shape.banks, r), y);
      }
    }
  }

  /** A read or save finds its own layer's data in the bank. */
  lemma UseStep(deps: seq<set<nat>>, ops: seq<Op>, at: map<Op, nat>, order: seq<nat>, n: nat, s: Buffers, source: (nat, nat) -> real, shape: Shape, l: nat, r: nat, y: Op)
    requires Submitted(deps) && Legal(order, deps) && Handoff(deps, at, shape) && Placed(ops, at) && shape.banks > 0
    requires n < |order| && l < shape.layers && r < shape.requests
    requires y in at && at[y] == order[n]
    requires BankHolds(order[..n], at, s, source, shape, l, r) && ReadRight(order[..n], at, s, source, l, r)
    ensures ReadRight(order[..n + 1], at, Effect(y, s, source, shape), source, l, r)
  {
    DoneNext(order, n, at, ops, y, Copy(l));
    DoneNext(order, n, at, ops, y, Save(l));
    if y == Copy(l) || y == Save(l) {
      BankOwned(deps, at, order, n, shape, l, r, y);
      NextOp(order, deps, at, n, y, y);
    }
  }

  /** When a layer reads or saves its bank, its load is in, its successor's is not, and the
      update lies between the read and the save. */
  lemma BankOwned(deps: seq<set<nat>>, at: map<Op, nat>, order: seq<nat>, n: nat, shape: Shape, l: nat, r: nat, y: Op)
    requires Submitted(deps) && Legal(order, deps) && Handoff(deps, at, shape) && shape.banks > 0
    requires n < |order| && l < shape.layers && r < shape.requests
    requires y in at && at[y] == order[n] && (y == Copy(l) || y == Save(l))
    ensures Done(order[..n], at, Load(l, r))
    ensures l + shape.banks < shape.layers ==> !Done(order[..n], at, Load(l + shape.banks, r))
    ensures Done(order[..n], at, Add(l)) <==> y == Save(l)
  {
    hide Handoff, Legal;
    LoadBeforeSave(deps, at, shape, l, r);
    LayerOrder(deps, at, shape, l, r);
    NextOp(order, deps, at, n, Load(l, r), y);
    NextOp(order, deps, at, n, Add(l), y);
    if l + shape.banks < shape.layers {
      ReloadAfter(deps, at, shape, l, r);
      NextOp(order, deps, at, n, Load(l + shape.banks, r), y);
    }
  }

  lemma LayerOrder(deps: seq<set<nat>>, at: map<Op, nat>, shape: Shape, l: nat, r: nat)
    requires Submitted(deps) && Handoff(deps, at, shape) && l < shape.layers && r < shape.requests
    ensures Before(deps, at, Load(l, r), Copy(l)) && Before(deps, at, Copy(l), Add(l)) && Before(deps, at, Add(l), Save(l))
  {
    assert LayerEdges(deps, at, l, shape.requests);
  }

  /** No reload of a bank overtakes the read or the save of the layer before it. */
  lemma ReloadAfter(deps: seq<set<nat>>, at: map<Op, nat>, shape: Shape, l: nat, r: nat)
    requires Submitted(deps) && Handoff(deps, at, shape) && r < shape.requests && l + shape.banks < shape.layers
    ensures Before(deps, at, Copy(l), Load(l + shape.banks, r)) && Before(deps, at, Save(l), Load(l + shape.banks, r))
  {
    assert ReloadEdges(deps, at, l, l + shape.banks, shape.requests);
    LoadBeforeSave(deps, at, shape, l, r);
    BeforeTrans(deps, at, Copy(l), Save(l), Load(l + shape.banks, r));
  }

  /** In range: only operations of the schedule were placed. */
  ghost predicate InShape(at: map<Op, nat>, shape: Shape) {
    forall x :: x in at ==> x.layer < shape.layers && (x.Load? ==> x.request < shape.requests)
  }

  lemma {:induction false} PrefixKeeps(deps: seq<set<nat>>, ops: seq<Op>, at: map<Op, nat>, order: seq<nat>, n: nat, start: Buffers, source: (nat, nat) -> real, shape: Shape, l: nat, r: nat)
    requires Submitted(deps) && Legal(order, deps) && Handoff(deps, at, shape) && Placed(ops, at) && InShape(at, shape) && shape.banks > 0
    requires |ops| == |deps| && n <= |order| && l < shape.layers && r < shape.requests
    ensures var s := Run(ops, order[..n], start, source, shape);
      BankHolds(order[..n], at, s, source, shape, l, r) && ReadRight(order[..n], at, s, source, l, r)
    decreases n
  {
    hide Handoff, Placed, Effect, ReadRight;
    if n > 0 {
      var m := n - 1;
      PrefixKeeps(deps, ops, at, order, m, start, source, shape, l, r);
      assert order[..n][..m] == order[..m];
      var s := Run(ops, order[..m], start, source, shape);
      var y := ops[order[m]];
      PlacedAt(ops, at, order[m]);
      UseStep(deps, ops, at, order, m, s, source, shape, l, r, y);
      BankStep(deps, ops, at, order, m, s, source, shape, l, r, y);
    } else {
      NothingDone(at, order, Run(ops, order[..n], start, source, shape), source, shape, l, r);
    }
  }

  lemma PlacedAt(ops: seq<Op>, at: map<Op, nat>, c: nat)
    requires Placed(ops, at) && c < |ops|
    ensures ops[c] in at && at[ops[c]] == c
  {
  }

  lemma NothingDone(at: map<Op, nat>, order: seq<nat>, s: Buffers, source: (nat, nat) -> real, shape: Shape, l: nat, r: nat)
    requires shape.banks > 0
    ensures BankHolds(order[..0], at, s, source, shape, l, r) && ReadRight(order[..0], at, s, source, l, r)
  {
  }

  lemma BankStep(deps: seq<set<nat>>, ops: seq<Op>, at: map<Op, nat>, order: seq<nat>, n: nat, s: Buffers, source: (nat, nat) -> real, shape: Shape, l: nat, r: nat, y: Op)
    requires Submitted(deps) && Legal(order, deps) && Handoff(deps, at, shape) && Placed(ops, at) && InShape(at, shape) && shape.banks > 0
    requires n < |order| && l < shape.layers && r < shape.requests
    requires y in at && at[y] == order[n]
    requires BankHolds(order[..n], at, s, source, shape, l, r)
    ensures BankHolds(order[..n + 1], at, Effect(y, s, source, shape), source, shape, l, r)
  {
    hide Legal, Handoff, Placed;
    match y {
      case Load(k: nat, q: nat) => LoadStep(deps, ops, at, order, n, s, source, shape, l, r, k, q);
      case Add(k) => AddStep(deps, ops, at, order, n, s, source, shape, l, r, k);
      case _ =>
        DoneNext(order, n, at, ops, y, Load(l, r));
        DoneNext(order, n, at, ops, y, Load(l + shape.banks, r));
        DoneNext(order, n, at, ops, y, Add(l));
    }
  }

  /** What the check compares at the end: every read and every save against the source. */
  ghost predicate Passes(s: Buffers, source: (nat, nat) -> real, shape: Shape) {
    forall l, r :: 0 <= l < shape.layers && 0 <= r < shape.requests ==>
      s.observed(l, r) == source(l, r) && s.saved(l, r) == source(l, r) + 0.25
  }

  /** Every complete execution order allowed by the hand-off's dependencies passes. */
  lemma EveryOrderPasses(deps: seq<set<nat>>, ops: seq<Op>, at: map<Op, nat>, order: seq<nat>, start: Buffers, source: (nat, nat) -> real, shape: Shape)
    requires Submitted(deps) && Complete(order, deps) && Handoff(deps, at, shape) && Placed(ops, at) && InShape(at, shape) && shape.banks > 0
    requires |ops| == |deps| && (shape.requests > 0)
    ensures Passes(Run(ops, order, start, source, shape), source, shape)
  {
    forall l, r | 0 <= l < shape.layers && 0 <= r < shape.requests
      ensures var s := Run(ops, order, start, source, shape);
        s.observed(l, r) == source(l, r) && s.saved(l, r) == source(l, r) + 0.25
    {
      PrefixKeeps(deps, ops, at, order, |order|, start, source, shape, l, r);
      assert order[..|order|] == order;
      assert LayerEdges(deps, at, l, shape.requests);
    }
  }
}

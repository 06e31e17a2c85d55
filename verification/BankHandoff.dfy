/** The schedule of the bank hand-off check, submitted to streams and drained on the device. */
module BankHandoff {
  import opened Basics
  import opened Schedule
  import opened Device
  import opened Streams
  import opened BankRuns
  import opened Division

  /** Submission only ever adds commands. */
  ghost predicate Grown(was: seq<set<nat>>, wasAt: map<Op, nat>, deps: seq<set<nat>>, at: map<Op, nat>) {
    was <= deps && forall x :: x in wasAt ==> x in at && at[x] == wasAt[x]
  }

  lemma BeforeGrows(was: seq<set<nat>>, wasAt: map<Op, nat>, deps: seq<set<nat>>, at: map<Op, nat>, x: Op, y: Op)
    requires Submitted(was) && Submitted(deps) && Grown(was, wasAt, deps, at) && Before(was, wasAt, x, y)
    ensures Before(deps, at, x, y)
  {
    WaitsExtends(was, deps, wasAt[x], wasAt[y]);
  }

  /** The dependencies of the layers computed so far, and of the reloads submitted so far. */
  ghost predicate Chained(deps: seq<set<nat>>, at: map<Op, nat>, shape: Shape, layers: nat)
    requires Submitted(deps)
  {
    && (forall l {:trigger LayerEdges(deps, at, l, shape.requests)} :: 0 <= l < layers ==> LayerEdges(deps, at, l, shape.requests))
    && (forall l, m {:trigger ReloadEdges(deps, at, l, m, shape.requests)} :: 0 <= l < layers && m == l + shape.banks < shape.layers ==>
          ReloadEdges(deps, at, l, m, shape.requests))
  }

  lemma ChainedGrows(was: seq<set<nat>>, wasAt: map<Op, nat>, deps: seq<set<nat>>, at: map<Op, nat>, shape: Shape, layers: nat)
    requires Submitted(was) && Submitted(deps) && Grown(was, wasAt, deps, at) && Chained(was, wasAt, shape, layers)
    ensures Chained(deps, at, shape, layers)
  {
    forall l | 0 <= l < layers ensures LayerEdges(deps, at, l, shape.requests) {
      assert LayerEdges(was, wasAt, l, shape.requests);
      forall r | 0 <= r < shape.requests ensures Before(deps, at, Load(l, r), Copy(l)) {
        BeforeGrows(was, wasAt, deps, at, Load(l, r), Copy(l));
      }
      BeforeGrows(was, wasAt, deps, at, Copy(l), Add(l));
      BeforeGrows(was, wasAt, deps, at, Add(l), Save(l));
    }
    forall l, m | 0 <= l < layers && m == l + shape.banks < shape.layers ensures ReloadEdges(deps, at, l, m, shape.requests) {
      assert ReloadEdges(was, wasAt, l, m, shape.requests);
      forall r | 0 <= r < shape.requests ensures Before(deps, at, Save(l), Load(m, r)) {
        BeforeGrows(was, wasAt, deps, at, Save(l), Load(m, r));
      }
    }
  }

  /** The recorded events of a layer's loads, last request first. */
  ghost predicate Events(row: seq<Option<nat>>, at: map<Op, nat>, layer: nat, requests: nat) {
    |row| == requests &&
    forall i {:trigger row[i]} :: 0 <= i < |row| ==> EventOf(row[i], at, Load(layer, requests - 1 - i))
  }

  ghost predicate EventOf(event: Option<nat>, at: map<Op, nat>, x: Op) {
    event.Some? && x in at && at[x] == event.value
  }

  /** The layers that the banks hold or await each have their completion events recorded. */
  ghost predicate Awaited(loadDone: map<nat, seq<Option<nat>>>, at: map<Op, nat>, shape: Shape, layer: nat) {
    forall l :: layer <= l < layer + shape.banks && l < shape.layers ==> l in loadDone && Events(loadDone[l], at, l, shape.requests)
  }

  /** Which operations were submitted: loads below one layer, everything else below another. */
  ghost predicate OnlyUpTo(at: map<Op, nat>, shape: Shape, layer: nat, loaded: nat) {
    forall x :: x in at ==> Expected(x, shape, layer, loaded)
  }

  predicate Expected(x: Op, shape: Shape, layer: nat, loaded: nat) {
    x.layer < shape.layers && if x.Load? then x.layer < loaded && x.request < shape.requests else x.layer < layer
  }

  lemma AwaitedGrows(was: map<nat, seq<Option<nat>>>, wasAt: map<Op, nat>, now: map<nat, seq<Option<nat>>>, at: map<Op, nat>, shape: Shape, layer: nat)
    requires Awaited(was, wasAt, shape, layer)
    requires forall x :: x in wasAt ==> x in at && at[x] == wasAt[x]
    requires forall l :: l in was && l != layer && l != layer + shape.banks ==> l in now && now[l] == was[l]
    requires layer + shape.banks < shape.layers ==> layer + shape.banks in now && Events(now[layer + shape.banks], at, layer + shape.banks, shape.requests)
    ensures Awaited(now, at, shape, layer + 1)
  {
    forall l | layer + 1 <= l < layer + 1 + shape.banks && l < shape.layers
      ensures l in now && Events(now[l], at, l, shape.requests)
    {
      if l < layer + shape.banks {
        assert Events(was[l], wasAt, l, shape.requests);
        forall i | 0 <= i < |was[l]| ensures EventOf(was[l][i], at, Load(l, shape.requests - 1 - i)) {
          assert EventOf(was[l][i], wasAt, Load(l, shape.requests - 1 - i));
        }
      }
    }
  }

  class Case {
    const shape: Shape
    const sameStream: bool
    const streams: Streams
    var loadDone: map<nat, seq<Option<nat>>>   // completion events by layer, one a request
    ghost var ops: seq<Op>
    ghost var at: map<Op, nat>

    /** Stream 0 computes; every bank has a stream of its own unless they all share the first. */
    function On(op: Op): nat
      requires shape.banks > 0
    {
      if (op.Load? || op.Use? || op.Save?) && !sameStream then 1 + Bank(shape, op.layer) else 0
    }

    ghost predicate Valid()
      reads this, streams, streams.device
    {
      && shape.banks > 0 && shape.requests > 0
      && streams.Valid() && |streams.tails| == shape.banks + 1
      && |ops| == |streams.device.deps| && Placed(ops, at)
      && forall c :: 0 <= c < |ops| ==> streams.on[c] == On(ops[c])
    }

    constructor (shape: Shape, sameStream: bool)
      requires shape.banks > 0 && shape.requests > 0
      ensures Valid() && fresh(streams) && fresh(streams.device)
      ensures this.shape == shape && this.sameStream == sameStream && at == map[] && loadDone == map[]
    {
      this.shape, this.sameStream := shape, sameStream;
      streams := new Streams(shape.banks + 1);
      loadDone, ops, at := map[], [], map[];
    }

    /** Submit one operation to its stream, behind an event if one is given. */
    method Put(op: Op, event: Option<nat>, ghost x: Op)
      requires Valid() && op !in at && (event.Some? ==> x in at && at[x] == event.value)
      modifies this`ops, this`at, streams, streams.device
      ensures Valid() && at == old(at)[op := |old(ops)|] && Grown(old(streams.device.deps), old(at), streams.device.deps, at)
      ensures streams.tails == old(streams.tails)[On(op) := Some(at[op])]
      ensures event.Some? ==> Before(streams.device.deps, at, x, op)
      ensures forall z :: z in old(at) && On(z) == On(op) ==> Before(streams.device.deps, at, z, op)
    {
      var c := streams.Submit(On(op), "op", [event]);
      assert event in [event];
      ops := ops + [op];
      at := at[op := c];
      if event.Some? { assert Waits(streams.device.deps, event.value, c); }
    }

    ghost predicate Loads(layer: nat, x: Op) { x.Load? && x.layer == layer && x.request < shape.requests }

    /** Layers below the given one are computed; the banks hold or await the layers from it on. */
    ghost predicate Progress(layer: nat)
      reads this, streams, streams.device
    {
      && Valid() && Chained(streams.device.deps, at, shape, layer)
      && OnlyUpTo(at, shape, layer, layer + shape.banks) && Awaited(loadDone, at, shape, layer)
    }

    /** Load one layer into its bank; every request gets a completion event of its own. */
    method Load(layer: nat)
      requires Valid() && forall r :: Op.Load(layer, r) !in at
      modifies this, streams, streams.device
      ensures Valid() && Grown(old(streams.device.deps), old(at), streams.device.deps, at)
      ensures forall x :: x in at <==> x in old(at) || Loads(layer, x)
      ensures layer in loadDone && loadDone == old(loadDone)[layer := loadDone[layer]] && Events(loadDone[layer], at, layer, shape.requests)
      ensures forall z, r: nat {:trigger Before(streams.device.deps, at, z, Op.Load(layer, r))} ::
        z in old(at) && r < shape.requests && On(z) == On(Op.Load(layer, r)) ==> Before(streams.device.deps, at, z, Op.Load(layer, r))
    {
      hide Waits, Fifo, Placed, Legal, Submitted, Counted, Linked, ReadyOnce, Heap, Timed, Marked;
      var row: seq<Option<nat>> := [];
      ghost var was := at;
      for request := shape.requests downto 0
        invariant Valid() && Grown(old(streams.device.deps), was, streams.device.deps, at)
        invariant loadDone == old(loadDone) && |row| == shape.requests - request
        invariant forall x :: x in at <==> x in was || (Loads(layer, x) && x.request >= request)
        invariant forall i {:trigger row[i]} :: 0 <= i < |row| ==> EventOf(row[i], at, Op.Load(layer, shape.requests - 1 - i))
        invariant forall z, r: nat {:trigger Before(streams.device.deps, at, z, Op.Load(layer, r))} ::
          z in was && request <= r < shape.requests && On(z) == On(Op.Load(layer, r)) ==> Before(streams.device.deps, at, z, Op.Load(layer, r))
      {
        ghost var deps, before := streams.device.deps, at;
        var op := Op.Load(layer, request);
        Put(op, None, op);
        row := row + [streams.tails[On(op)]];
        forall z, r: nat | z in was && request <= r < shape.requests && On(z) == On(Op.Load(layer, r))
          ensures Before(streams.device.deps, at, z, Op.Load(layer, r))
        {
          if r != request { BeforeGrows(deps, before, streams.device.deps, at, z, Op.Load(layer, r)); }
        }
      }
      loadDone := loadDone[layer := row];
    }

    /** Unrelated work in front of the layer, then a wait for each of its load events. */
    method WaitForLoad(layer: nat, repeats: nat)
      requires Valid() && layer in loadDone && Events(loadDone[layer], at, layer, shape.requests)
      requires forall x :: x in at && x.layer == layer ==> x.Load?
      modifies this, streams, streams.device
      ensures Valid() && Grown(old(streams.device.deps), old(at), streams.device.deps, at)
      ensures loadDone == old(loadDone) - {layer}
      ensures forall x :: x in at ==> x in old(at) || (x.layer == layer && (x.Busy? || x.Wait?))
      ensures forall r {:trigger Before(streams.device.deps, at, Op.Load(layer, r), Wait(layer, r))} ::
        0 <= r < shape.requests ==> Before(streams.device.deps, at, Op.Load(layer, r), Wait(layer, r))
    {
      hide Waits, Fifo, Placed, Legal, Submitted, Counted, Linked, ReadyOnce, Heap, Timed, Marked;
      ghost var was := at;
      for k := 0 to repeats
        invariant Valid() && Grown(old(streams.device.deps), was, streams.device.deps, at) && loadDone == old(loadDone)
        invariant forall x :: x in at ==> x in was || (x.layer == layer && x.Busy? && x.repeat < k)
      {
        Put(Busy(layer, k), None, Busy(layer, k));
      }
      var row := loadDone[layer];
      loadDone := loadDone - {layer};
      WaitForEvents(layer, row);
    }

    method WaitForEvents(layer: nat, row: seq<Option<nat>>)
      requires Valid() && Events(row, at, layer, shape.requests) && forall x :: x in at && x.layer == layer ==> !x.Wait?
      modifies this`ops, this`at, streams, streams.device
      ensures Valid() && Grown(old(streams.device.deps), old(at), streams.device.deps, at)
      ensures forall x :: x in at ==> x in old(at) || (x.layer == layer && x.Wait?)
      ensures forall r {:trigger Before(streams.device.deps, at, Op.Load(layer, r), Wait(layer, r))} ::
        0 <= r < shape.requests ==> Before(streams.device.deps, at, Op.Load(layer, r), Wait(layer, r))
    {
      hide Waits, Fifo, Placed, Legal, Submitted, Counted, Linked, ReadyOnce, Heap, Timed, Marked;
      ghost var was := at;
      for i := 0 to |row|
        invariant Valid() && Grown(old(streams.device.deps), was, streams.device.deps, at) && Events(row, at, layer, shape.requests)
        invariant forall x :: x in at ==> x in was || (x.layer == layer && x.Wait? && x.request >= shape.requests - i)
        invariant forall r {:trigger Before(streams.device.deps, at, Op.Load(layer, r), Wait(layer, r))} ::
          shape.requests - i <= r < shape.requests ==> Before(streams.device.deps, at, Op.Load(layer, r), Wait(layer, r))
      {
        ghost var deps, before := streams.device.deps, at;
        var request := shape.requests - 1 - i;
        assert EventOf(row[i], at, Op.Load(layer, request));
        Put(Wait(layer, request), row[i], Op.Load(layer, request));
        forall r | shape.requests - (i + 1) <= r < shape.requests
          ensures Before(streams.device.deps, at, Op.Load(layer, r), Wait(layer, r))
        {
          if r != request { BeforeGrows(deps, before, streams.device.deps, at, Op.Load(layer, r), Wait(layer, r)); }
        }
      }
    }

    /** Read the bank, update it, and save it behind the last compute access. */
    method ReadUpdateSave(layer: nat)
      requires Valid()
      requires Copy(layer) !in at && Add(layer) !in at && Use(layer) !in at && Save(layer) !in at
      requires forall r {:trigger Before(streams.device.deps, at, Op.Load(layer, r), Wait(layer, r))} ::
        0 <= r < shape.requests ==> Before(streams.device.deps, at, Op.Load(layer, r), Wait(layer, r))
      modifies this`ops, this`at, streams, streams.device
      ensures Valid() && Grown(old(streams.device.deps), old(at), streams.device.deps, at)
      ensures forall x :: x in at <==> x in old(at) || x == Copy(layer) || x == Add(layer) || x == Use(layer) || x == Save(layer)
      ensures LayerEdges(streams.device.deps, at, layer, shape.requests)
    {
      hide Waits, Fifo, Placed, Legal, Submitted, Counted, Linked, ReadyOnce, Heap, Timed, Marked;
      ghost var deps0, at0 := streams.device.deps, at;
      Put(Copy(layer), None, Copy(layer));
      ghost var deps1, at1 := streams.device.deps, at;
      assert forall r | 0 <= r < shape.requests :: Before(deps1, at1, Op.Load(layer, r), Copy(layer)) by {
        forall r | 0 <= r < shape.requests ensures Before(deps1, at1, Op.Load(layer, r), Copy(layer)) {
          assert Before(deps0, at0, Op.Load(layer, r), Wait(layer, r)) && On(Wait(layer, r)) == On(Copy(layer));
          BeforeGrows(deps0, at0, deps1, at1, Op.Load(layer, r), Wait(layer, r));
          BeforeTrans(deps1, at1, Op.Load(layer, r), Wait(layer, r), Copy(layer));
        }
      }
      UpdateAndSave(layer);
      forall r | 0 <= r < shape.requests ensures Before(streams.device.deps, at, Op.Load(layer, r), Copy(layer)) {
        BeforeGrows(deps1, at1, streams.device.deps, at, Op.Load(layer, r), Copy(layer));
      }
    }

    method UpdateAndSave(layer: nat)
      requires Valid() && Copy(layer) in at && Add(layer) !in at && Use(layer) !in at && Save(layer) !in at
      modifies this`ops, this`at, streams, streams.device
      ensures Valid() && Grown(old(streams.device.deps), old(at), streams.device.deps, at)
      ensures forall x :: x in at <==> x in old(at) || x == Add(layer) || x == Use(layer) || x == Save(layer)
      ensures Before(streams.device.deps, at, Copy(layer), Add(layer)) && Before(streams.device.deps, at, Add(layer), Save(layer))
    {
      hide Waits, Fifo, Placed, Legal, Submitted, Counted, Linked, ReadyOnce, Heap, Timed, Marked;
      Put(Add(layer), None, Add(layer));
      ghost var deps1, at1 := streams.device.deps, at;
      assert Before(deps1, at1, Copy(layer), Add(layer));
      var used := streams.tails[0];
      Put(Use(layer), used, Add(layer));
      ghost var deps2, at2 := streams.device.deps, at;
      assert Before(deps2, at2, Add(layer), Use(layer));
      Put(Save(layer), None, Save(layer));
      assert On(Use(layer)) == On(Save(layer));
      BeforeGrows(deps2, at2, streams.device.deps, at, Add(layer), Use(layer));
      BeforeTrans(streams.device.deps, at, Add(layer), Use(layer), Save(layer));
      BeforeGrows(deps1, at1, deps2, at2, Copy(layer), Add(layer));
      BeforeGrows(deps2, at2, streams.device.deps, at, Copy(layer), Add(layer));
    }

    /** The first loads: nothing is computed yet. */
    ghost predicate Loading(layer: nat)
      reads this, streams, streams.device
    {
      && Valid() && OnlyUpTo(at, shape, 0, layer)
      && forall l :: 0 <= l < layer ==> l in loadDone && Events(loadDone[l], at, l, shape.requests)
    }

    method LoadNext(layer: nat)
      requires Loading(layer) && layer < shape.layers
      modifies this, streams, streams.device
      ensures Loading(layer + 1)
    {
      hide Waits, Fifo, Placed, Legal, Submitted, Counted, Linked, ReadyOnce, Heap, Timed, Marked, LayerEdges, ReloadEdges, Before;
      ghost var at0, done0 := at, loadDone;
      Load(layer);
      forall l | 0 <= l < layer ensures l in loadDone && Events(loadDone[l], at, l, shape.requests) {
        EventsGrow(done0[l], at0, at, l);
      }
    }

    lemma EventsGrow(row: seq<Option<nat>>, was: map<Op, nat>, at: map<Op, nat>, l: nat)
      requires Events(row, was, l, shape.requests) && forall x :: x in was ==> x in at && at[x] == was[x]
      ensures Events(row, at, l, shape.requests)
    {
      forall i | 0 <= i < |row| ensures EventOf(row[i], at, Op.Load(l, shape.requests - 1 - i)) {
        assert EventOf(row[i], was, Op.Load(l, shape.requests - 1 - i));
      }
    }

    lemma Loaded()
      requires Loading(if shape.banks < shape.layers then shape.banks else shape.layers)
      ensures Progress(0)
    {
    }

    /** Everything of one layer but the reload of its bank. */
    method UseLayer(layer: nat, repeats: nat)
      requires Valid() && layer in loadDone && Events(loadDone[layer], at, layer, shape.requests)
      requires forall x :: x in at && x.layer == layer ==> x.Load?
      modifies this, streams, streams.device
      ensures Valid() && Grown(old(streams.device.deps), old(at), streams.device.deps, at)
      ensures loadDone == old(loadDone) - {layer} && Save(layer) in at
      ensures forall x :: x in at ==> x in old(at) || (x.layer == layer && !x.Load?)
      ensures LayerEdges(streams.device.deps, at, layer, shape.requests)
    {
      hide Waits, Fifo, Placed, Legal, Submitted, Counted, Linked, ReadyOnce, Heap, Timed, Marked, LayerEdges, ReloadEdges, Before;
      WaitForLoad(layer, repeats);
      ReadUpdateSave(layer);
    }

    /** One layer: wait, read, update, save, and reload its bank for the layer that comes next. */
    method ComputeLayer(layer: nat, repeats: nat)
      requires layer < shape.layers && Progress(layer)
      modifies this, streams, streams.device
      ensures Progress(layer + 1)
    {
      hide Waits, Fifo, Placed, Legal, Submitted, Counted, Linked, ReadyOnce, Heap, Timed, Marked, LayerEdges, ReloadEdges, Before, Events, Chained;
      ghost var deps0, at0, done0 := streams.device.deps, at, loadDone;
      UseLayer(layer, repeats);
      ghost var deps1, at1 := streams.device.deps, at;
      var future := layer + shape.banks;
      if future < shape.layers {
        Load(future);
        ReloadsBehindSave(layer, future, at1);
      }
      ChainedGrows(deps0, at0, streams.device.deps, at, shape, layer);
      LayerGrows(deps1, at1, streams.device.deps, at, layer);
      ChainedNext(streams.device.deps, at, layer);
      AwaitedGrows(done0, at0, loadDone, at, shape, layer);
    }

    lemma ChainedNext(deps: seq<set<nat>>, at: map<Op, nat>, layer: nat)
      requires Submitted(deps) && Chained(deps, at, shape, layer) && LayerEdges(deps, at, layer, shape.requests)
      requires layer + shape.banks < shape.layers ==> ReloadEdges(deps, at, layer, layer + shape.banks, shape.requests)
      ensures Chained(deps, at, shape, layer + 1)
    {
    }

    lemma ReloadsBehindSave(layer: nat, future: nat, was: map<Op, nat>)
      requires Valid() && future == layer + shape.banks && Save(layer) in was
      requires forall z, r: nat {:trigger Before(streams.device.deps, at, z, Op.Load(future, r))} ::
        z in was && r < shape.requests && On(z) == On(Op.Load(future, r)) ==> Before(streams.device.deps, at, z, Op.Load(future, r))
      ensures ReloadEdges(streams.device.deps, at, layer, future, shape.requests)
    {
      ModStep(layer, shape.banks);
      forall r | 0 <= r < shape.requests ensures Before(streams.device.deps, at, Save(layer), Op.Load(future, r)) {
        assert On(Save(layer)) == On(Op.Load(future, r));
      }
    }

    lemma LayerGrows(was: seq<set<nat>>, wasAt: map<Op, nat>, deps: seq<set<nat>>, at: map<Op, nat>, l: nat)
      requires Submitted(was) && Submitted(deps) && Grown(was, wasAt, deps, at) && LayerEdges(was, wasAt, l, shape.requests)
      ensures LayerEdges(deps, at, l, shape.requests)
    {
      forall r | 0 <= r < shape.requests ensures Before(deps, at, Op.Load(l, r), Copy(l)) {
        BeforeGrows(was, wasAt, deps, at, Op.Load(l, r), Copy(l));
      }
      BeforeGrows(was, wasAt, deps, at, Copy(l), Add(l));
      BeforeGrows(was, wasAt, deps, at, Add(l), Save(l));
    }
  }

  lemma AllOrdersPass(deps: seq<set<nat>>, ops: seq<Op>, at: map<Op, nat>, start: Buffers, source: (nat, nat) -> real, shape: Shape)
    requires Submitted(deps) && Placed(ops, at) && |ops| == |deps| && shape.banks > 0 && shape.requests > 0
    requires Chained(deps, at, shape, shape.layers) && OnlyUpTo(at, shape, shape.layers, shape.layers + shape.banks)
    ensures forall order :: Complete(order, deps) ==> Passes(Run(ops, order, start, source, shape), source, shape)
  {
    forall order | Complete(order, deps) ensures Passes(Run(ops, order, start, source, shape), source, shape) {
      EveryOrderPasses(deps, ops, at, order, start, source, shape);
    }
  }

  /** The whole check, for any number of layers, banks and requests, with one stream a bank or all
      banks on the compute stream. Every complete execution order the submitted dependencies allow
      reads each layer's own data and saves each layer's own update; so does the order in which
      the device drained. */
  method RunCase(shape: Shape, sameStream: bool, repeats: nat, ghost start: Buffers, ghost source: (nat, nat) -> real)
    returns (c: Case, r: Result<(), OrderingError>)
    requires shape.banks > 0 && shape.requests > 0
    ensures c.Valid() || r.Err?
    ensures Submitted(c.streams.device.deps) && |c.ops| == |c.streams.device.deps|
    ensures forall order :: Complete(order, c.streams.device.deps) ==> Passes(Run(c.ops, order, start, source, shape), source, shape)
    ensures r.Ok? ==> Complete(c.streams.device.order, c.streams.device.deps)
    ensures r.Err? ==> r.error.Raised?
  {
    hide Waits, Fifo, Placed, Legal, Submitted, Counted, Linked, ReadyOnce, Heap, Timed, Marked, LayerEdges, ReloadEdges, Before;
    c := new Case(shape, sameStream);
    for layer := 0 to if shape.banks < shape.layers then shape.banks else shape.layers
      invariant c.Loading(layer)
    {
      c.LoadNext(layer);
    }
    c.Loaded();
    for layer := 0 to shape.layers
      invariant c.Progress(layer)
    {
      c.ComputeLayer(layer, repeats);
    }
    AllOrdersPass(c.streams.device.deps, c.ops, c.at, start, source, shape);
    r := c.streams.device.Drain();
  }
}

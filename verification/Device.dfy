/** The device model: a clock, a heap of runnable commands, and dependency counters. */
module Device {
  import opened Basics
  import opened Schedule

  /** A submitted command; its identity is its position in the submission list. */
  datatype Command = Command(name: string, pending: int, successors: seq<nat>, done: bool, readyAt: real)

  datatype OrderingError = Deadlock | Unfinished | Raised(number: nat)

  // ---------------------------------------------------------------- the ready heap

  predicate Earlier(x: (real, nat), y: (real, nat)) { x.0 < y.0 || (x.0 == y.0 && x.1 < y.1) }

  predicate Heap(ready: seq<(real, nat)>) {
    forall j, k :: 0 <= j < k < |ready| ==> Earlier(ready[j], ready[k])
  }

  /** The heap as its pop order: smallest ready time first, then the smallest number. */
  function Push(ready: seq<(real, nat)>, x: (real, nat)): seq<(real, nat)> {
    if ready == [] then [x]
    else if Earlier(x, ready[0]) then [x] + ready
    else [ready[0]] + Push(ready[1..], x)
  }

  /** How often a command stands in the heap. */
  function Times(ready: seq<(real, nat)>, c: nat): nat {
    if ready == [] then 0 else (if ready[0].1 == c then 1 else 0) + Times(ready[1..], c)
  }

  lemma {:induction false} PushTimes(ready: seq<(real, nat)>, x: (real, nat), c: nat)
    ensures Times(Push(ready, x), c) == Times(ready, c) + if c == x.1 then 1 else 0
    decreases |ready|
  {
    if ready == [] {
    } else if Earlier(x, ready[0]) {
      assert ([x] + ready)[1..] == ready;
    } else {
      PushTimes(ready[1..], x, c);
      assert ([ready[0]] + Push(ready[1..], x))[1..] == Push(ready[1..], x);
    }
  }

  lemma {:induction false} PushMembers(ready: seq<(real, nat)>, x: (real, nat))
    ensures forall e :: e in Push(ready, x) <==> e in ready || e == x
    decreases |ready|
  {
    if ready != [] {
      PushMembers(ready[1..], x);
      assert ready == [ready[0]] + ready[1..];
    }
  }

  lemma {:induction false} PushHeap(ready: seq<(real, nat)>, x: (real, nat))
    requires Heap(ready) && forall k :: 0 <= k < |ready| ==> ready[k].1 != x.1
    ensures Heap(Push(ready, x))
    decreases |ready|
  {
    if ready != [] && !Earlier(x, ready[0]) {
      var rest := ready[1..];
      PushHeap(rest, x);
      PushMembers(rest, x);
      var more := Push(rest, x);
      forall k | 0 <= k < |more| ensures Earlier(ready[0], more[k]) { assert more[k] in more; }
    }
  }

  lemma {:induction false} InHeap(ready: seq<(real, nat)>, k: nat)
    requires k < |ready|
    ensures Times(ready, ready[k].1) >= 1
    decreases k
  {
    if k > 0 { InHeap(ready[1..], k - 1); }
  }

  lemma {:induction false} OfHeap(ready: seq<(real, nat)>, c: nat) returns (k: nat)
    requires Times(ready, c) >= 1
    ensures k < |ready| && ready[k].1 == c
    decreases |ready|
  {
    if ready[0].1 == c {
      k := 0;
    } else {
      k := OfHeap(ready[1..], c);
      k := k + 1;
    }
  }

  // ---------------------------------------------------------------- what the device keeps

  ghost predicate Marked(cs: seq<Command>, order: seq<nat>) {
    forall i :: 0 <= i < |cs| ==> (cs[i].done <==> i in order)
  }

  /** pending counts the unfinished predecessors. */
  ghost predicate Counted(cs: seq<Command>, deps: seq<set<nat>>, order: seq<nat>) {
    |deps| == |cs| && forall i {:trigger Counts(cs, deps, order, i)} :: 0 <= i < |cs| && i !in order ==> Counts(cs, deps, order, i)
  }

  ghost predicate Counts(cs: seq<Command>, deps: seq<set<nat>>, order: seq<nat>, i: nat)
    requires i < |cs| == |deps|
  {
    cs[i].pending == |deps[i] - Ran(order)|
  }

  /** An unfinished command knows exactly the commands that wait for it, each once. */
  ghost predicate Linked(cs: seq<Command>, deps: seq<set<nat>>, order: seq<nat>) {
    |deps| == |cs| && forall d {:trigger Links(cs, deps, d)} :: 0 <= d < |cs| && d !in order ==> Links(cs, deps, d)
  }

  ghost predicate Links(cs: seq<Command>, deps: seq<set<nat>>, d: nat)
    requires d < |cs| == |deps|
  {
    && (forall j, k :: 0 <= j < k < |cs[d].successors| ==> cs[d].successors[j] != cs[d].successors[k])
    && (forall i: nat :: i in cs[d].successors <==> i < |cs| && d in deps[i])
  }

  /** The heap holds every runnable command exactly once, and nothing else. */
  ghost predicate ReadyOnce(cs: seq<Command>, ready: seq<(real, nat)>, order: seq<nat>) {
    forall c: nat :: Times(ready, c) == if c < |cs| && c !in order && cs[c].pending == 0 then 1 else 0
  }

  ghost predicate Timed(cs: seq<Command>, ready: seq<(real, nat)>, clock: real) {
    forall k :: 0 <= k < |ready| ==> ready[k].1 < |cs| && clock <= ready[k].0 == cs[ready[k].1].readyAt
  }

  /** Some command is runnable while one is unfinished: the oldest unfinished one. */
  lemma SomeReady(cs: seq<Command>, deps: seq<set<nat>>, order: seq<nat>, ready: seq<(real, nat)>, c: nat)
    requires Submitted(deps) && Counted(cs, deps, order) && ReadyOnce(cs, ready, order)
    requires c < |cs| && c !in order
    ensures ready != []
    decreases c
  {
    if exists d :: d in deps[c] && d !in order {
      var d :| d in deps[c] && d !in order;
      SomeReady(cs, deps, order, ready, d);
    } else {
      assert deps[c] - Ran(order) == {};
      assert Counts(cs, deps, order, c);
      assert Times(ready, c) == 1;
    }
  }

  /** A command in the heap has all its predecessors behind it. */
  lemma RunnableIsFree(cs: seq<Command>, deps: seq<set<nat>>, order: seq<nat>, ready: seq<(real, nat)>)
    requires Counted(cs, deps, order) && ReadyOnce(cs, ready, order) && ready != []
    ensures var c := ready[0].1; c < |cs| && c !in order && forall d :: d in deps[c] ==> d in order
  {
    var c := ready[0].1;
    InHeap(ready, 0);
    assert Counts(cs, deps, order, c);
    var open := deps[c] - Ran(order);
    assert |open| == 0;
    forall d | d in deps[c] ensures d in Ran(order) { assert d !in open; }
  }

  lemma Finishes(ds: set<nat>, order: seq<nat>, c: nat)
    requires c !in order
    ensures |ds - Ran(order + [c])| == |ds - Ran(order)| - if c in ds then 1 else 0
  {
    assert Ran(order + [c]) == Ran(order) + {c};
    if c in ds {
      assert ds - Ran(order) == (ds - Ran(order + [c])) + {c};
    } else {
      assert ds - Ran(order) == ds - Ran(order + [c]);
    }
  }

  /** Registering a new command with the unfinished ones among those it waits for. */
  ghost predicate Registered(cs: seq<Command>, was: seq<Command>, done: set<nat>, name: string) {
    && |cs| == |was| + 1
    && cs[|was|].name == name && !cs[|was|].done && cs[|was|].successors == [] && cs[|was|].readyAt == 0.0
    && forall d {:trigger cs[d]} :: 0 <= d < |was| ==>
         cs[d] == if d in done && !was[d].done then was[d].(successors := was[d].successors + [|was|]) else was[d]
  }

  lemma RegisteredLinks(cs: seq<Command>, was: seq<Command>, deps: seq<set<nat>>, ds: set<nat>, order: seq<nat>, name: string)
    requires Registered(cs, was, ds, name) && Marked(was, order) && Linked(was, deps, order)
    requires Submitted(deps) && Legal(order, deps) && forall d :: d in ds ==> d < |was|
    ensures Linked(cs, deps + [ds], order) && Marked(cs, order)
  {
    var n := |was|;
    var more := deps + [ds];
    forall d | 0 <= d < |cs| && d !in order ensures Links(cs, more, d) {
      if d < n {
        assert Links(was, deps, d);
        assert n !in was[d].successors;
      } else {
        forall i: nat | i < |cs| ensures d !in more[i] {}
      }
    }
  }

  /** Hooking command n behind command d, when d is not finished yet. */
  function Hook(cs: seq<Command>, n: nat, d: nat): seq<Command>
    requires d < n < |cs|
  {
    if cs[d].done then cs
    else cs[n := cs[n].(pending := cs[n].pending + 1)][d := cs[d].(successors := cs[d].successors + [n])]
  }

  lemma HookRegisters(cs: seq<Command>, was: seq<Command>, seen: set<nat>, d: nat, name: string, order: seq<nat>)
    requires Registered(cs, was, seen, name) && Marked(was, order)
    requires d < |was| && d !in seen && cs[|was|].pending == |seen - Ran(order)|
    ensures Registered(Hook(cs, |was|, d), was, seen + {d}, name)
    ensures Hook(cs, |was|, d)[|was|].pending == |seen + {d} - Ran(order)|
  {
    if d in order {
      assert seen + {d} - Ran(order) == seen - Ran(order);
    } else {
      assert seen + {d} - Ran(order) == (seen - Ran(order)) + {d};
    }
  }

  lemma FirstRegistered(was: seq<Command>, name: string, order: seq<nat>)
    ensures Registered(was + [Command(name, 0, [], false, 0.0)], was, {}, name)
    ensures {} - Ran(order) == {}
  {
  }

  /** Only the ready time of one command differs. */
  ghost predicate Restamped(cs: seq<Command>, was: seq<Command>, c: nat) {
    |cs| == |was| && c < |cs| && cs == was[c := was[c].(readyAt := cs[c].readyAt)]
  }

  lemma RestampKeeps(cs: seq<Command>, was: seq<Command>, c: nat, deps: seq<set<nat>>, order: seq<nat>)
    requires Restamped(cs, was, c)
    ensures Marked(was, order) ==> Marked(cs, order)
    ensures Linked(was, deps, order) ==> Linked(cs, deps, order)
    ensures forall d {:trigger cs[d]} :: 0 <= d < |cs| ==> cs[d] == was[d].(readyAt := cs[d].readyAt)
  {
    if Linked(was, deps, order) {
      forall d | 0 <= d < |cs| && d !in order ensures Links(cs, deps, d) { assert Links(was, deps, d); }
    }
  }

  lemma RestampCounts(cs: seq<Command>, was: seq<Command>, c: nat, deps: seq<set<nat>>, order: seq<nat>)
    requires Restamped(cs, was, c) && Counted(was, deps, order)
    ensures Counted(cs, deps, order)
  {
    forall i | 0 <= i < |cs| && i !in order ensures Counts(cs, deps, order, i) { assert Counts(was, deps, order, i); }
  }

  lemma RegisteredCounts(cs: seq<Command>, was: seq<Command>, deps: seq<set<nat>>, ds: set<nat>, order: seq<nat>, name: string)
    requires Registered(cs, was, ds, name) && Counted(was, deps, order)
    requires cs[|was|].pending == |ds - Ran(order)|
    ensures Counted(cs, deps + [ds], order)
  {
    forall i | 0 <= i < |cs| && i !in order ensures Counts(cs, deps + [ds], order, i) {
      if i < |was| { assert Counts(was, deps, order, i); }
    }
  }

  /** The state between submitting a command and putting it into the heap. */
  lemma RegisteredReady(cs: seq<Command>, was: seq<Command>, ready: seq<(real, nat)>, order: seq<nat>, ds: set<nat>, name: string, clock: real)
    requires Registered(cs, was, ds, name) && ReadyOnce(was, ready, order) && Timed(was, ready, clock)
    ensures Timed(cs, ready, clock) && Times(ready, |was|) == 0
    ensures forall c: nat :: c != |was| ==> Times(ready, c) == if c < |cs| && c !in order && cs[c].pending == 0 then 1 else 0
  {
  }

  /** pending while a finished command still has the given successors to let go. */
  ghost predicate CountedBut(cs: seq<Command>, deps: seq<set<nat>>, order: seq<nat>, rest: seq<nat>) {
    |deps| == |cs| && forall i {:trigger CountsBut(cs, deps, order, rest, i)} :: 0 <= i < |cs| && i !in order ==> CountsBut(cs, deps, order, rest, i)
  }

  ghost predicate CountsBut(cs: seq<Command>, deps: seq<set<nat>>, order: seq<nat>, rest: seq<nat>, i: nat)
    requires i < |cs| == |deps|
  {
    cs[i].pending == |deps[i] - Ran(order)| + if i in rest then 1 else 0
  }

  /** Only counters and ready times differ. */
  ghost predicate SameShape(cs: seq<Command>, was: seq<Command>) {
    |cs| == |was| && forall i {:trigger cs[i]} {:trigger was[i]} :: 0 <= i < |cs| ==>
      cs[i].name == was[i].name && cs[i].successors == was[i].successors && cs[i].done == was[i].done
  }

  lemma SameShapeKeeps(cs: seq<Command>, was: seq<Command>, deps: seq<set<nat>>, order: seq<nat>)
    requires SameShape(cs, was)
    ensures Marked(was, order) ==> Marked(cs, order)
    ensures Linked(was, deps, order) ==> Linked(cs, deps, order)
  {
    if Linked(was, deps, order) {
      forall d | 0 <= d < |cs| && d !in order ensures Links(cs, deps, d) { assert Links(was, deps, d); }
    }
  }

  /** The state right after a command ran: its successors are still counted as waiting for it. */
  lemma PoppedCounts(cs: seq<Command>, deps: seq<set<nat>>, order: seq<nat>, c: nat)
    requires Counted(cs, deps, order) && Linked(cs, deps, order)
    requires c < |cs| && c !in order
    ensures CountedBut(cs[c := cs[c].(done := true)], deps, order + [c], cs[c].successors)
  {
    hide Ran;
    var next := cs[c := cs[c].(done := true)];
    assert Links(cs, deps, c);
    forall i | 0 <= i < |next| && i !in order + [c] ensures CountsBut(next, deps, order + [c], cs[c].successors, i) {
      assert Counts(cs, deps, order, i);
      Finishes(deps[i], order, c);
    }
  }

  lemma PoppedLinks(cs: seq<Command>, deps: seq<set<nat>>, order: seq<nat>, c: nat, next: Command)
    requires Linked(cs, deps, order) && c < |cs|
    ensures Linked(cs[c := next], deps, order + [c])
  {
    forall d | 0 <= d < |cs| && d !in order + [c] ensures Links(cs[c := next], deps, d) { assert Links(cs, deps, d); }
  }

  lemma {:induction false} PopTimes(ready: seq<(real, nat)>, c: nat)
    requires ready != []
    ensures Times(ready[1..], c) == Times(ready, c) - if c == ready[0].1 then 1 else 0
  {
  }

  /** What stands in the heap once its head was taken. */
  lemma PoppedReady(cs: seq<Command>, ready: seq<(real, nat)>, order: seq<nat>, clock: real)
    requires ReadyOnce(cs, ready, order) && Heap(ready) && Timed(cs, ready, clock) && ready != []
    requires Marked(cs, order)
    ensures ready[0].1 < |cs| && ready[0].1 !in order
    ensures Heap(ready[1..]) && Timed(cs, ready[1..], ready[0].0) && clock <= ready[0].0
    ensures var c := ready[0].1; ReadyOnce(cs[c := cs[c].(done := true)], ready[1..], order + [c])
  {
    var c := ready[0].1;
    InHeap(ready, 0);
    var next := cs[c := cs[c].(done := true)];
    forall b: nat ensures Times(ready[1..], b) == if b < |next| && b !in order + [c] && next[b].pending == 0 then 1 else 0 {
      PopTimes(ready, b);
    }
  }

  lemma RanHasDeps(order: seq<nat>, deps: seq<set<nat>>, s: nat, d: nat)
    requires Legal(order, deps) && s in order && d in deps[s]
    ensures d in order
  {
    var k :| 0 <= k < |order| && order[k] == s;
    assert d in order[..k];
  }

  /** A finished command may forget its successors. */
  lemma ClearKeeps(cs: seq<Command>, deps: seq<set<nat>>, order: seq<nat>, c: nat)
    requires Linked(cs, deps, order) && Counted(cs, deps, order) && c < |cs| && c in order
    ensures var next := cs[c := cs[c].(successors := [])]; Linked(next, deps, order) && Counted(next, deps, order)
  {
    var next := cs[c := cs[c].(successors := [])];
    forall d | 0 <= d < |cs| && d !in order ensures Links(next, deps, d) { assert Links(cs, deps, d); }
    forall d | 0 <= d < |cs| && d !in order ensures Counts(next, deps, order, d) { assert Counts(cs, deps, order, d); }
  }

  /** A command waits for nobody that waits for it. */
  lemma SuccessorsAreOpen(cs: seq<Command>, deps: seq<set<nat>>, order: seq<nat>, c: nat)
    requires Submitted(deps) && Legal(order, deps) && Linked(cs, deps, order) && c < |cs| && c !in order
    ensures forall s :: s in cs[c].successors ==> s < |cs| && s !in order + [c]
    ensures forall j, k :: 0 <= j < k < |cs[c].successors| ==> cs[c].successors[j] != cs[c].successors[k]
  {
    assert Links(cs, deps, c);
    forall s | s in cs[c].successors ensures s !in order + [c] {
      assert c in deps[s];
      if s in order { RanHasDeps(order, deps, s, c); }
    }
  }

  /** One more successor has been let go. */
  lemma LetGoCounts(cs: seq<Command>, was: seq<Command>, deps: seq<set<nat>>, order: seq<nat>, s: nat, rest: seq<nat>)
    requires CountedBut(was, deps, order, [s] + rest) && s !in rest && s < |was|
    requires |cs| == |was| && forall i {:trigger cs[i]} :: 0 <= i < |cs| ==> cs[i].pending == was[i].pending - if i == s then 1 else 0
    ensures CountedBut(cs, deps, order, rest)
  {
    hide Ran;
    forall i | 0 <= i < |cs| && i !in order ensures CountsBut(cs, deps, order, rest, i) {
      assert CountsBut(was, deps, order, [s] + rest, i);
    }
  }

  lemma NothingLeft(cs: seq<Command>, deps: seq<set<nat>>, order: seq<nat>)
    requires CountedBut(cs, deps, order, [])
    ensures Counted(cs, deps, order)
  {
    hide Ran;
    forall i | 0 <= i < |cs| && i !in order ensures Counts(cs, deps, order, i) { assert CountsBut(cs, deps, order, [], i); }
  }

  class Device {
    var commands: seq<Command>
    var ready: seq<(real, nat)>
    var clock: real
    ghost var deps: seq<set<nat>>   // what each command was told to wait for
    ghost var order: seq<nat>       // the commands that have run, oldest first

    ghost predicate Valid()
      reads this
    {
      && |deps| == |commands| && Submitted(deps) && Legal(order, deps)
      && Marked(commands, order) && Counted(commands, deps, order) && Linked(commands, deps, order)
      && ReadyOnce(commands, ready, order) && Heap(ready) && Timed(commands, ready, clock)
    }

    constructor ()
      ensures Valid() && commands == [] && order == []
    {
      commands, ready, clock := [], [], 0.0;
      deps, order := [], [];
    }

    /** A latency of this schedule; only its sign matters. */
    method Latency() returns (delay: real)
      ensures delay > 0.0
    {
      delay := *;
      if delay <= 0.0 { delay := 0.005; }
    }

    /** Stamp a command whose last predecessor is done and put it into the heap. */
    method MakeReady(c: nat)
      requires c < |commands| && Heap(ready) && Timed(commands, ready, clock) && Times(ready, c) == 0
      modifies this`commands, this`ready
      ensures Restamped(commands, old(commands), c) && commands[c].readyAt > clock
      ensures Heap(ready) && Timed(commands, ready, clock)
      ensures forall b: nat :: Times(ready, b) == old(Times(ready, b)) + if b == c then 1 else 0
    {
      var delay := Latency();
      var at := clock + delay;
      forall k | 0 <= k < |ready| ensures ready[k].1 != c { InHeap(ready, k); }
      PushHeap(ready, (at, c));
      PushMembers(ready, (at, c));
      forall b: nat ensures Times(Push(ready, (at, c)), b) == Times(ready, b) + if b == c then 1 else 0 {
        PushTimes(ready, (at, c), b);
      }
      commands := commands[c := commands[c].(readyAt := at)];
      ghost var before := ready;
      ready := Push(ready, (at, c));
      forall k | 0 <= k < |ready| ensures ready[k].1 < |commands| && clock <= ready[k].0 == commands[ready[k].1].readyAt {
        assert ready[k] in ready;
        if ready[k] != (at, c) { var j :| 0 <= j < |before| && before[j] == ready[k]; }
      }
    }

    /** Submit a command behind the given ones; absent and finished ones do not hold it back. */
    method Enqueue(name: string, after: seq<Option<nat>>) returns (c: nat)
      requires Valid() && forall o :: o in after && o.Some? ==> o.value < |commands|
      modifies this
      ensures Valid() && c == |old(commands)| && |commands| == c + 1
      ensures order == old(order) && clock == old(clock)
      ensures deps == old(deps) + [set o | o in after && o.Some? :: o.value]
      ensures commands[c].name == name && !commands[c].done
    {
      c := |commands|;
      ghost var was := commands;
      var ds := set o | o in after && o.Some? :: o.value;
      Register(name, ds);
      RegisteredLinks(commands, was, deps, ds, order, name);
      RegisteredCounts(commands, was, deps, ds, order, name);
      RegisteredReady(commands, was, ready, order, ds, name, clock);
      deps := deps + [ds];
      ghost var mid := commands;
      if commands[c].pending == 0 {
        MakeReady(c);
        RestampKeeps(commands, mid, c, deps, order);
        RestampCounts(commands, mid, c, deps, order);
      }
    }

    method HookBehind(n: nat, d: nat)
      requires d < n < |commands|
      modifies this`commands
      ensures commands == Hook(old(commands), n, d)
    {
      if !commands[d].done {
        commands := commands[n := commands[n].(pending := commands[n].pending + 1)];
        commands := commands[d := commands[d].(successors := commands[d].successors + [n])];
      }
    }

    method Register(name: string, ds: set<nat>)
      requires Marked(commands, order) && forall d :: d in ds ==> d < |commands|
      modifies this`commands
      ensures Registered(commands, old(commands), ds, name)
      ensures commands[|old(commands)|].pending == |ds - Ran(order)|
    {
      var n := |commands|;
      hide Registered, Marked, Hook;
      ghost var was := commands;
      FirstRegistered(was, name, order);
      commands := commands + [Command(name, 0, [], false, 0.0)];
      var left := ds;
      ghost var seen: set<nat> := {};
      while left != {}
        invariant left + seen == ds && left !! seen && |commands| == n + 1
        invariant Registered(commands, was, seen, name)
        invariant commands[n].pending == |seen - Ran(order)|
        decreases left
      {
        var d :| d in left;
        left := left - {d};
        HookRegisters(commands, was, seen, d, name, order);
        HookBehind(n, d);
        seen := seen + {d};
      }
      assert seen == ds;
    }

    /** What holds between popping a command and having let go of all its successors. */
    ghost predicate Busy(rest: seq<nat>)
      reads this
    {
      && |deps| == |commands| && Submitted(deps) && Legal(order, deps)
      && Marked(commands, order) && CountedBut(commands, deps, order, rest) && Linked(commands, deps, order)
      && ReadyOnce(commands, ready, order) && Heap(ready) && Timed(commands, ready, clock)
    }

    /** One predecessor of s has finished; the last one makes it runnable. */
    method LetGo(s: nat, ghost rest: seq<nat>)
      requires Busy([s] + rest) && s !in rest && s < |commands| && s !in order
      modifies this`commands, this`ready
      ensures Busy(rest) && SameShape(commands, old(commands))
    {
      hide Links, Legal, Submitted, Ran;
      ghost var was := commands;
      assert CountsBut(was, deps, order, [s] + rest, s);
      assert was[s].pending >= 1;
      commands := commands[s := commands[s].(pending := commands[s].pending - 1)];
      if commands[s].pending == 0 { MakeReady(s); }
      LetGoCounts(commands, was, deps, order, s, rest);
      SameShapeKeeps(commands, was, deps, order);
    }

    /** Run the earliest runnable command. */
    method Step() returns (r: Result<nat, OrderingError>)
      requires Valid()
      modifies this
      ensures deps == old(deps) && |commands| == |old(commands)| && clock >= old(clock)
      ensures r == Err(Deadlock) <==> old(ready) == []
      ensures r == Err(Deadlock) ==> Complete(order, deps)
      ensures r.Err? ==> order == old(order) && commands == old(commands) && !r.error.Unfinished?
      ensures r.Ok? ==> Valid() && order == old(order) + [r.value] && r.value !in old(order)
      ensures old(ready) != [] ==> r == Ok(old(ready[0].1)) || r == Err(Raised(old(ready[0].1)))
    {
      if ready == [] {
        forall c | 0 <= c < |commands| ensures c in order {
          if c !in order { SomeReady(commands, deps, order, ready, c); }
        }
        return Err(Deadlock);
      }
      RunnableIsFree(commands, deps, order, ready);
      PoppedReady(commands, ready, order, clock);
      var c := ready[0].1;
      clock, ready := ready[0].0, ready[1..];
      var fine: bool := *;                  // the command's own action may raise
      if !fine { return Err(Raised(c)); }
      Finish(c);
      r := Ok(c);
    }

    method Finish(c: nat)
      requires |deps| == |commands| && Submitted(deps) && Legal(order, deps)
      requires Marked(commands, order) && Counted(commands, deps, order) && Linked(commands, deps, order)
      requires c < |commands| && c !in order && forall d :: d in deps[c] ==> d in order
      requires Heap(ready) && Timed(commands, ready, clock)
      requires ReadyOnce(commands[c := commands[c].(done := true)], ready, order + [c])
      modifies this`commands, this`ready, this`order
      ensures Valid() && order == old(order) + [c] && |commands| == |old(commands)|
    {
      hide Links, Ran;
      var successors := commands[c].successors;
      assert Links(commands, deps, c);
      SuccessorsAreOpen(commands, deps, order, c);
      LegalNext(order, deps, c);
      PoppedCounts(commands, deps, order, c);
      PoppedLinks(commands, deps, order, c, commands[c].(done := true));
      commands := commands[c := commands[c].(done := true)];
      order := order + [c];
      LetAllGo(successors);
      NothingLeft(commands, deps, order);
      ClearKeeps(commands, deps, order, c);
      commands := commands[c := commands[c].(successors := [])];
    }

    method LetAllGo(successors: seq<nat>)
      requires Busy(successors)
      requires forall j, k :: 0 <= j < k < |successors| ==> successors[j] != successors[k]
      requires forall s :: s in successors ==> s < |commands| && s !in order
      modifies this`commands, this`ready
      ensures Busy([]) && SameShape(commands, old(commands))
    {
      hide CountedBut, Linked, Legal, Submitted, Marked, ReadyOnce, Heap, Timed;
      assert successors[0..] == successors;
      for k := 0 to |successors|
        invariant Busy(successors[k..]) && SameShape(commands, old(commands))
      {
        assert successors[k..] == [successors[k]] + successors[k + 1..] && successors[k] in successors;
        LetGo(successors[k], successors[k + 1..]);
      }
    }

    /** Run until one command is done. It never runs out of runnable commands first. */
    method Until(c: Option<nat>) returns (r: Result<(), OrderingError>)
      requires Valid() && (c.Some? ==> c.value < |commands|)
      modifies this
      ensures deps == old(deps) && |commands| == |old(commands)| && old(order) <= order && clock >= old(clock)
      ensures r.Ok? ==> Valid() && (c.Some? ==> c.value in order)
      ensures r.Err? ==> r.error.Raised?
    {
      while c.Some? && !commands[c.value].done
        invariant Valid() && |commands| == |old(commands)|
        invariant deps == old(deps) && old(order) <= order && clock >= old(clock)
        decreases |commands| - |order|
      {
        LegalIsShort(order, deps);
        var step := Step();
        if step.Err? { return Err(step.error); }
        LegalIsShort(order, deps);
      }
      r := Ok(());
    }

    /** Run everything. A drain that does not raise has run every command, so the check for
        unfinished ones never fires. */
    method Drain() returns (r: Result<(), OrderingError>)
      requires Valid()
      modifies this
      ensures deps == old(deps) && |commands| == |old(commands)| && old(order) <= order && clock >= old(clock)
      ensures r.Ok? ==> Valid() && Complete(order, deps)
      ensures r.Err? ==> r.error.Raised?
    {
      while ready != []
        invariant Valid() && |commands| == |old(commands)|
        invariant deps == old(deps) && old(order) <= order && clock >= old(clock)
        decreases |commands| - |order|
      {
        LegalIsShort(order, deps);
        var step := Step();
        if step.Err? { return Err(step.error); }
        LegalIsShort(order, deps);
      }
      forall c | 0 <= c < |commands| ensures c in order {
        if c !in order { SomeReady(commands, deps, order, ready, c); }
      }
      if exists c :: 0 <= c < |commands| && !commands[c].done { return Err(Unfinished); }
      r := Ok(());
    }
  }
}

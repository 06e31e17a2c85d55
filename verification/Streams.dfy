/** Streams and events on the device: FIFO queues whose order reaches across streams by waits. */
module Streams {
  import opened Basics
  import opened Schedule
  import opened Device

  /** Everything submitted to a stream is its tail or has to run before its tail. */
  ghost predicate Fifo(deps: seq<set<nat>>, on: seq<nat>, tails: seq<Option<nat>>)
    requires Submitted(deps)
  {
    && |on| == |deps|
    && (forall s :: 0 <= s < |tails| && tails[s].Some? ==> tails[s].value < |deps|)
    && forall c {:trigger Behind(deps, on, tails, c)} :: 0 <= c < |on| ==> Behind(deps, on, tails, c)
  }

  ghost predicate Behind(deps: seq<set<nat>>, on: seq<nat>, tails: seq<Option<nat>>, c: nat)
    requires Submitted(deps) && c < |on|
  {
    on[c] < |tails| && tails[on[c]].Some? && (c == tails[on[c]].value || Waits(deps, c, tails[on[c]].value))
  }

  lemma FifoSubmit(deps: seq<set<nat>>, on: seq<nat>, tails: seq<Option<nat>>, s: nat, after: set<nat>)
    requires Submitted(deps) && Fifo(deps, on, tails) && s < |tails|
    requires forall d :: d in after ==> d < |deps|
    requires tails[s].Some? ==> tails[s].value in after
    ensures Submitted(deps + [after])
    ensures Fifo(deps + [after], on + [s], tails[s := Some(|deps|)])
    ensures forall c :: 0 <= c < |on| && on[c] == s ==> Waits(deps + [after], c, |deps|)
  {
    var more, n := deps + [after], |deps|;
    forall c | 0 <= c < |on|
      ensures on[c] == s ==> Waits(more, c, n)
      ensures Behind(more, on + [s], tails[s := Some(n)], c)
    {
      assert Behind(deps, on, tails, c);
      var t := tails[on[c]].value;
      if c != t { WaitsExtends(deps, more, c, t); }
      if on[c] == s { assert t in more[n]; }
    }
  }

  class Streams {
    const device: Device
    var tails: seq<Option<nat>>   // the last command of every stream
    ghost var on: seq<nat>        // the stream of every command

    ghost predicate Valid()
      reads this, device
    {
      device.Valid() && Fifo(device.deps, on, tails)
    }

    constructor (streams: nat)
      ensures Valid() && fresh(device) && device.deps == [] && |tails| == streams && on == []
    {
      device := new Device();
      tails := seq(streams, _ => None);
      on := [];
    }

    /** Submit behind the stream's tail and behind the given commands. */
    method Submit(s: nat, name: string, after: seq<Option<nat>>) returns (c: nat)
      requires Valid() && s < |tails|
      requires forall o :: o in after && o.Some? ==> o.value < |device.deps|
      modifies this, device
      ensures Valid() && |tails| == old(|tails|) && c == |old(device.deps)|
      ensures on == old(on) + [s] && tails == old(tails)[s := Some(c)] && device.order == old(device.order)
      ensures |device.deps| == c + 1 && old(device.deps) <= device.deps
      ensures forall o :: o in after && o.Some? ==> o.value in device.deps[c]
      ensures forall b :: 0 <= b < c && on[b] == s ==> Waits(device.deps, b, c)
    {
      hide Waits, Behind;
      ghost var was, held := device.deps, set o | o in [tails[s]] + after && o.Some? :: o.value;
      assert tails[s] in [tails[s]] + after;
      forall o | o in after && o.Some? ensures o in [tails[s]] + after && o.value in held {}
      c := device.Enqueue(name, [tails[s]] + after);
      FifoSubmit(was, on, tails, s, held);
      tails := tails[s := Some(c)];
      on := on + [s];
    }

    /** An event remembers the stream's tail; waiting for it puts a command behind that tail. */
    method WaitEvent(s: nat, event: Option<nat>) returns (c: nat)
      requires Valid() && s < |tails| && (event.Some? ==> event.value < |device.deps|)
      modifies this, device
      ensures Valid() && |tails| == old(|tails|) && c == |old(device.deps)|
      ensures on == old(on) + [s] && tails == old(tails)[s := Some(c)] && device.order == old(device.order)
      ensures |device.deps| == c + 1 && old(device.deps) <= device.deps
      ensures event.Some? ==> Waits(device.deps, event.value, c)
      ensures forall b :: 0 <= b < c && on[b] == s ==> Waits(device.deps, b, c)
    {
      c := Submit(s, "wait", [event]);
    }

    /** Block the host until everything submitted to a stream has run. */
    method Synchronize(s: nat) returns (r: Result<(), OrderingError>)
      requires Valid() && s < |tails|
      modifies device
      ensures device.deps == old(device.deps) && old(device.order) <= device.order
      ensures r.Ok? ==> Valid() && forall c :: 0 <= c < |on| && on[c] == s ==> c in device.order
      ensures r.Err? ==> r.error.Raised?
    {
      r := device.Until(tails[s]);
      if r.Err? { return; }
      forall c | 0 <= c < |on| && on[c] == s ensures c in device.order {
        assert Behind(device.deps, on, tails, c);
        var t := tails[s].value;
        var k :| 0 <= k < |device.order| && device.order[k] == t;
        if c != t { WaitsRunsLater(device.order, device.deps, c, k); }
      }
    }
  }
}

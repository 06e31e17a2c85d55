/** The bounded queue of asynchronous page puts: admission, sticky failure, and request fences. */
module PutQueue {
  import opened Basics

  /** A submitted transfer; its identity is a number. */
  type Future = nat

  datatype PutError = SubmissionFailed(code: nat) | TransferFailed(code: nat) | TimedOut

  datatype Batch = Batch(size: nat, futures: seq<Future>)

  // ---------------------------------------------------------------- sizes

  function Total(batches: seq<Batch>): nat {
    if batches == [] then 0 else Total(batches[..|batches| - 1]) + batches[|batches| - 1].size
  }

  /** xs is ys with some batches left out, in the same order. */
  ghost predicate Sub(xs: seq<Batch>, ys: seq<Batch>) {
    if ys == [] then xs == []
    else
      || Sub(xs, ys[..|ys| - 1])
      || (xs != [] && xs[|xs| - 1] == ys[|ys| - 1] && Sub(xs[..|xs| - 1], ys[..|ys| - 1]))
  }

  lemma SubAppend(xs: seq<Batch>, ys: seq<Batch>, b: Batch)
    requires Sub(xs, ys)
    ensures Sub(xs, ys + [b]) && Sub(xs + [b], ys + [b])
  {
    assert (ys + [b])[..|ys|] == ys && (xs + [b])[..|xs|] == xs;
  }

  lemma {:induction false} SubIsSmaller(xs: seq<Batch>, ys: seq<Batch>)
    requires Sub(xs, ys)
    ensures |xs| <= |ys| && Total(xs) <= Total(ys) && forall b :: b in xs ==> b in ys
    decreases |ys|
  {
    if ys != [] {
      var front := ys[..|ys| - 1];
      assert ys == front + [ys[|ys| - 1]];
      if Sub(xs, front) {
        SubIsSmaller(xs, front);
      } else {
        SubIsSmaller(xs[..|xs| - 1], front);
        assert xs == xs[..|xs| - 1] + [xs[|xs| - 1]];
      }
    }
  }

  lemma {:induction false} SubTrans(xs: seq<Batch>, ys: seq<Batch>, zs: seq<Batch>)
    requires Sub(xs, ys) && Sub(ys, zs)
    ensures Sub(xs, zs)
    decreases |zs|
  {
    if zs != [] {
      var rest := zs[..|zs| - 1];
      if Sub(ys, rest) {
        SubTrans(xs, ys, rest);
      } else if Sub(xs, ys[..|ys| - 1]) {
        SubTrans(xs, ys[..|ys| - 1], rest);
      } else {
        SubTrans(xs[..|xs| - 1], ys[..|ys| - 1], rest);
      }
    }
  }

  /** Leaving out the head leaves out at least one batch. */
  lemma {:induction false} SubWithoutHead(xs: seq<Batch>, ys: seq<Batch>)
    requires Sub(xs, ys) && ys != [] && ys[0] !in xs
    ensures |xs| < |ys|
    decreases |ys|
  {
    var front := ys[..|ys| - 1];
    if |ys| == 1 {
      assert ys[0] == ys[|ys| - 1];
    } else if Sub(xs, front) {
      SubIsSmaller(xs, front);
    } else {
      assert front[0] == ys[0];
      assert xs == xs[..|xs| - 1] + [xs[|xs| - 1]];
      SubWithoutHead(xs[..|xs| - 1], front);
    }
  }

  // ---------------------------------------------------------------- dependency tables

  /** The futures recorded under a name. */
  function Under<K>(table: map<K, set<Future>>, k: K): set<Future> { if k in table then table[k] else {} }

  /** setdefault(k, set()).update(futures) */
  function Joined<K>(table: map<K, set<Future>>, k: K, futures: set<Future>): map<K, set<Future>> {
    table[k := Under(table, k) + futures]
  }

  /** Drop finished futures, and names without any left. */
  method Forget<K>(table: map<K, set<Future>>, completed: set<Future>) returns (rest: map<K, set<Future>>)
    ensures forall k :: Under(rest, k) == Under(table, k) - completed
    ensures forall k :: k in rest ==> rest[k] != {}
  {
    rest := table;
    var keys := table.Keys;
    while keys != {}
      invariant keys <= table.Keys && keys <= rest.Keys <= table.Keys
      invariant forall k :: k in keys ==> rest[k] == table[k]
      invariant forall k :: k in table && k !in keys ==> Under(rest, k) == table[k] - completed
      invariant forall k :: k in rest && k !in keys ==> rest[k] != {}
      decreases keys
    {
      var k :| k in keys;
      var left := rest[k] - completed;
      rest := if left == {} then rest - {k} else rest[k := left];
      keys := keys - {k};
    }
  }

  // ---------------------------------------------------------------- the queue

  /** A name's recorded futures that are no longer tracked have succeeded. */
  ghost predicate Settled<K(!new)>(recorded: map<K, set<Future>>, table: map<K, set<Future>>, succeeded: set<Future>) {
    forall k, f {:trigger f in Under(recorded, k)} :: f in Under(recorded, k) ==> f in Under(table, k) || f in succeeded
  }

  /** Every tracked future belongs to a batch that is still pending. */
  ghost predicate Carried<K(!new)>(table: map<K, set<Future>>, pending: seq<Batch>) {
    forall k, f {:trigger f in Under(table, k)} :: f in Under(table, k) ==> InBatches(pending, f)
  }

  ghost predicate InBatches(pending: seq<Batch>, f: Future) { exists b :: b in pending && f in b.futures }

  /** The transfers themselves: they finish in any order, each with a fixed outcome. */
  class Transfers {
    const outcome: Future -> Option<PutError>
    var done: set<Future>

    constructor (outcome: Future -> Option<PutError>)
      ensures this.outcome == outcome && done == {}
    {
      this.outcome, done := outcome, {};
    }

    /** Time passes: any transfers may finish. */
    method Advance()
      modifies this
      ensures old(done) <= done
    {
      var more: set<Future> := *;
      done := done + more;
    }

    /** Wait for some transfers up to a deadline; the ones still running are returned. */
    method WaitFor(futures: set<Future>) returns (running: set<Future>)
      modifies this
      ensures old(done) <= done && running == futures - done
    {
      Advance();
      running := futures - done;
    }

    ghost predicate Succeeded(f: Future)
      reads this
    {
      f in done && outcome(f) == None
    }
  }

  ghost function Successes(transfers: Transfers): (r: set<Future>)
    reads transfers
    ensures forall f :: f in r <==> transfers.Succeeded(f)
  {
    set f | f in transfers.done && transfers.outcome(f) == None
  }

  class LayerwisePutQueue {
    const maxBytes: nat
    const maxBatches: nat
    const transfers: Transfers
    var pending: seq<Batch>
    var pendingBytes: nat
    var error: Option<PutError>
    var requestFutures: map<string, set<Future>>
    var keyFutures: map<nat, set<Future>>
    ghost var requestLog: map<string, set<Future>>   // every future ever recorded for a request
    ghost var keyLog: map<nat, set<Future>>          // every future ever recorded for a key

    ghost predicate Valid()
      reads this, transfers
    {
      && pendingBytes == Total(pending)
      && Carried(requestFutures, pending) && Carried(keyFutures, pending)
      && Settled(requestLog, requestFutures, Successes(transfers)) && Settled(keyLog, keyFutures, Successes(transfers))
    }

    /** Room for one more batch: the queue is empty or stays within both limits. */
    predicate Room(size: nat)
      reads this
    {
      pending == [] || (|pending| < maxBatches && pendingBytes + size <= maxBytes)
    }

    /** The admission limits; one batch above the byte limit is allowed alone. */
    predicate Bounded()
      reads this
    {
      |pending| <= maxBatches && (pendingBytes <= maxBytes || |pending| <= 1)
    }

    constructor (maxBytes: nat, maxBatches: nat, transfers: Transfers)
      requires maxBytes > 0 && maxBatches > 0
      ensures Valid() && Bounded() && pending == [] && error == None && this.transfers == transfers
      ensures requestLog == map[] && keyLog == map[] && this.maxBytes == maxBytes && this.maxBatches == maxBatches
    {
      this.maxBytes, this.maxBatches, this.transfers := maxBytes, maxBatches, transfers;
      pending, pendingBytes, error := [], 0, None;
      requestFutures, keyFutures, requestLog, keyLog := map[], map[], map[], map[];
    }

    /** The queue stays valid while transfers go on finishing between its calls. */
    twostate lemma ValidSurvives()
      requires old(Valid()) && unchanged(this) && old(transfers.done) <= transfers.done
      ensures Valid()
    {
      assert old(Successes(transfers)) <= Successes(transfers);
    }

    /** Time passes between two calls. */
    method Elapse()
      requires Valid()
      modifies transfers
      ensures Valid() && old(transfers.done) <= transfers.done
    {
      transfers.Advance();
      ValidSurvives();
    }

    /** Only the first failure is kept. */
    method Fail(e: PutError)
      modifies this`error
      ensures error == if old(error).Some? then old(error) else Some(e)
    {
      if error.None? { error := Some(e); }
    }

    /** Look at one batch: raise the first failure found, note what has completed. */
    method CheckBatch(b: Batch, seen: set<Future>) returns (r: Result<(bool, set<Future>), PutError>)
      modifies transfers
      ensures old(transfers.done) <= transfers.done
      ensures r.Ok? ==> seen <= r.value.1 && forall f :: f in r.value.1 - seen ==> f in b.futures && transfers.Succeeded(f)
      ensures r.Ok? && r.value.0 ==> forall f :: f in b.futures ==> f in r.value.1 && transfers.Succeeded(f)
      ensures r.Ok? && !r.value.0 ==> exists f :: f in b.futures && f !in old(transfers.done)
      ensures r.Ok? ==> forall f :: f in b.futures && f in old(transfers.done) ==> transfers.Succeeded(f)
      ensures r.Err? ==> exists f :: f in b.futures && f in transfers.done && transfers.outcome(f) == Some(r.error)
    {
      var finished, completed := true, seen;
      for i := 0 to |b.futures|
        invariant old(transfers.done) <= transfers.done
        invariant seen <= completed
        invariant forall f :: f in completed ==> f in seen || (f in b.futures && f in transfers.done && transfers.outcome(f) == None)
        invariant finished ==> forall f :: f in b.futures[..i] ==> f in completed && transfers.Succeeded(f)
        invariant !finished ==> exists f :: f in b.futures && f !in old(transfers.done)
        invariant forall f :: f in b.futures[..i] && f in old(transfers.done) ==> transfers.Succeeded(f)
      {
        transfers.Advance();
        var f := b.futures[i];
        assert f in b.futures && b.futures[..i + 1] == b.futures[..i] + [f];
        if f in transfers.done {
          if transfers.outcome(f).Some? { return Err(transfers.outcome(f).value); }
          completed := completed + {f};
        } else {
          finished := false;
        }
      }
      assert b.futures[..|b.futures|] == b.futures;
      r := Ok((finished, completed));
    }

    /** What one look at every pending batch finds. */
    method Scan() returns (r: Result<(seq<Batch>, nat, set<Future>), PutError>)
      modifies transfers
      ensures old(transfers.done) <= transfers.done
      ensures r.Err? ==> exists b, f :: b in pending && f in b.futures && f in transfers.done && transfers.outcome(f) == Some(r.error)
      ensures r.Ok? ==> var (remaining, bytes, completed) := r.value;
        && Sub(remaining, pending) && bytes == Total(remaining)
        && (forall f :: f in completed ==> transfers.Succeeded(f))
        && (forall b :: b in pending ==> b in remaining || Reaped(b, completed))
        && (forall b :: b in remaining ==> Unfinished(b, old(transfers.done)))
        && (forall b, f {:trigger f in b.futures} :: b in pending && f in b.futures && f in old(transfers.done) ==> transfers.Succeeded(f))
    {
      var remaining: seq<Batch>, bytes: nat, completed: set<Future> := [], 0, {};
      for i := 0 to |pending|
        invariant old(transfers.done) <= transfers.done
        invariant Sub(remaining, pending[..i]) && bytes == Total(remaining)
        invariant forall f :: f in completed ==> transfers.Succeeded(f)
        invariant forall b :: b in pending[..i] ==> b in remaining || Reaped(b, completed)
        invariant forall b :: b in remaining ==> Unfinished(b, old(transfers.done))
        invariant forall b, f {:trigger f in b.futures} :: b in pending[..i] && f in b.futures && f in old(transfers.done) ==> transfers.Succeeded(f)
      {
        var b := pending[i];
        assert pending[..i + 1] == pending[..i] + [b];
        SubAppend(remaining, pending[..i], b);
        var checked := CheckBatch(b, completed);
        if checked.Err? { return Err(checked.error); }
        completed := checked.value.1;
        if !checked.value.0 {
          assert (remaining + [b])[..|remaining|] == remaining;
          remaining, bytes := remaining + [b], bytes + b.size;
        }
      }
      assert pending[..|pending|] == pending;
      r := Ok((remaining, bytes, completed));
    }

    /** Reap whatever has completed, in any order; raise the first failure and keep raising it. */
    method Poll() returns (r: Result<(), PutError>)
      requires Valid()
      modifies this`pending, this`pendingBytes, this`error, this`requestFutures, this`keyFutures, transfers
      ensures Valid() && old(transfers.done) <= transfers.done && (old(Bounded()) ==> Bounded())
      ensures old(error).Some? ==> r == Err(old(error).value)
      ensures r.Err? ==> error == Some(r.error) && pending == old(pending)
      ensures r.Err? && old(error).None? ==> exists b, f :: b in pending && f in b.futures && f in transfers.done && transfers.outcome(f) == Some(r.error)
      ensures r.Ok? ==> error == None && old(error) == None && Sub(pending, old(pending))
      ensures r.Ok? ==> forall b :: b in old(pending) ==> b in pending || forall f :: f in b.futures ==> transfers.Succeeded(f)
      ensures r.Ok? ==> forall b :: b in pending ==> Unfinished(b, old(transfers.done))
      ensures r.Ok? ==> forall b, f {:trigger f in b.futures} ::
        b in old(pending) && f in b.futures && f in old(transfers.done) ==> transfers.Succeeded(f)
      ensures r.Ok? ==> forall k :: Under(requestFutures, k) <= old(Under(requestFutures, k))
    {
      hide Sub, Carried, Reaped, Unfinished;
      if error.Some? { return Err(error.value); }
      var found := Scan();
      if found.Err? {
        error := Some(found.error);
        return Err(found.error);
      }
      var (remaining, bytes, completed) := found.value;
      ReapedSucceeded(pending, remaining, completed);
      SubIsSmaller(remaining, pending);
      Reap(remaining, bytes, completed);
      r := Ok(());
    }

    /** Keep the open batches, and drop completed transfers from both dependency tables. */
    method Reap(remaining: seq<Batch>, bytes: nat, completed: set<Future>)
      requires Valid() && bytes == Total(remaining) && forall f :: f in completed ==> transfers.Succeeded(f)
      requires forall b :: b in pending ==> b in remaining || Reaped(b, completed)
      modifies this`pending, this`pendingBytes, this`requestFutures, this`keyFutures
      ensures Valid() && pending == remaining && pendingBytes == bytes
      ensures forall k :: Under(requestFutures, k) == old(Under(requestFutures, k)) - completed
      ensures forall k :: Under(keyFutures, k) == old(Under(keyFutures, k)) - completed
    {
      hide Carried, Reaped, Total;
      ghost var requests, keys, was := requestFutures, keyFutures, pending;
      pending, pendingBytes := remaining, bytes;
      if completed != {} {
        requestFutures := Forget(requestFutures, completed);
        keyFutures := Forget(keyFutures, completed);
      }
      CarriedOn(requests, requestFutures, was, pending, completed);
      CarriedOn(keys, keyFutures, was, pending, completed);
    }

    /** What is pending was pending before, in the same order, and what is gone succeeded. */
    ghost predicate Drained(was: seq<Batch>)
      reads this, transfers
    {
      Sub(pending, was) && forall b :: b in was ==> b in pending || AllSucceeded(b, Successes(transfers))
    }

    /** Wait for the oldest batch, then reap. Without an error the queue got shorter. */
    method WaitFirst() returns (r: Result<(), PutError>)
      requires Valid() && pending != [] && error == None
      modifies this`pending, this`pendingBytes, this`error, this`requestFutures, this`keyFutures, transfers
      ensures Valid() && old(transfers.done) <= transfers.done && (old(Bounded()) ==> Bounded())
      ensures r.Err? ==> error == Some(r.error)
      ensures r.Ok? ==> error == None && |pending| < |old(pending)|
      ensures r.Ok? ==> Drained(old(pending))
    {
      hide Sub, Carried;
      ghost var was := pending;
      var running := transfers.WaitFor(set f | f in pending[0].futures);
      ghost var done := transfers.done;
      if running != {} {
        error := Some(TimedOut);
        return Err(TimedOut);
      }
      r := Poll();
      if r.Ok? {
        forall f | f in was[0].futures ensures f in done { assert f !in running; }
        assert !Unfinished(was[0], done);
        SubWithoutHead(pending, was);
      }
    }

    /** Wait until one more batch of the given size fits. */
    method Reserve(size: nat) returns (r: Result<(), PutError>)
      requires Valid()
      modifies this`pending, this`pendingBytes, this`error, this`requestFutures, this`keyFutures, transfers
      ensures Valid() && old(transfers.done) <= transfers.done && (old(Bounded()) ==> Bounded())
      ensures r.Ok? ==> Room(size) && error == None && Drained(old(pending))
      ensures r.Err? ==> error == Some(r.error)
      ensures old(error).Some? ==> r == Err(old(error).value)
    {
      hide Sub, Carried, Settled, Total;
      ghost var first := pending;
      r := Poll();
      if r.Err? { return; }
      while pending != [] && (|pending| >= maxBatches || pendingBytes + size > maxBytes)
        invariant Valid() && error == None && old(error) == None && r.Ok?
        invariant old(transfers.done) <= transfers.done && (old(Bounded()) ==> Bounded())
        invariant Drained(first)
        decreases |pending|
      {
        ghost var was, succeeded := pending, Successes(transfers);
        r := WaitFirst();
        if r.Err? { return; }
        DrainedFurther(first, was, pending, succeeded, Successes(transfers));
      }
    }

    /** Record a submitted batch for a request and for the keys it publishes. */
    method Add(size: nat, futures: seq<Future>, request: string, keys: seq<nat>)
      requires Valid()
      modifies this`pending, this`pendingBytes, this`requestFutures, this`keyFutures, this`requestLog, this`keyLog
      ensures Valid() && (old(Bounded()) && old(Room(size)) && maxBatches > 0 ==> Bounded())
      ensures pending == if futures == [] then old(pending) else old(pending) + [Batch(size, futures)]
      ensures pendingBytes == old(pendingBytes) + if futures == [] then 0 else size
      ensures forall q :: Under(requestLog, q) == old(Under(requestLog, q)) + if q == request != "" then Members(futures) else {}
      ensures forall k :: Under(keyLog, k) == old(Under(keyLog, k)) + if k in keys then Members(futures) else {}
    {
      hide Carried, Settled, Total;
      if futures == [] { return; }
      ghost var b := Batch(size, futures);
      TotalAppend(pending, b);
      CarriedMore(requestFutures, pending, b);
      CarriedMore(keyFutures, pending, b);
      pending := pending + [Batch(size, futures)];
      pendingBytes := pendingBytes + size;
      assert b in pending;
      AddRequest(futures, request, b);
      AddKeys(futures, keys, b);
    }

    method AddRequest(futures: seq<Future>, request: string, ghost b: Batch)
      requires Carried(requestFutures, pending) && Settled(requestLog, requestFutures, Successes(transfers))
      requires b in pending && b.futures == futures
      modifies this`requestFutures, this`requestLog
      ensures Carried(requestFutures, pending) && Settled(requestLog, requestFutures, Successes(transfers))
      ensures forall q :: Under(requestLog, q) == old(Under(requestLog, q)) + if q == request != "" then Members(futures) else {}
    {
      hide Carried, Settled;
      if request != "" {
        CarriedJoin(requestFutures, pending, request, Members(futures), b);
        SettledJoin(requestLog, requestFutures, Successes(transfers), request, Members(futures));
        requestFutures := Joined(requestFutures, request, Members(futures));
        requestLog := Joined(requestLog, request, Members(futures));
      }
    }

    method AddKeys(futures: seq<Future>, keys: seq<nat>, ghost b: Batch)
      requires Carried(keyFutures, pending) && Settled(keyLog, keyFutures, Successes(transfers))
      requires b in pending && b.futures == futures
      modifies this`keyFutures, this`keyLog
      ensures Carried(keyFutures, pending) && Settled(keyLog, keyFutures, Successes(transfers))
      ensures forall k :: Under(keyLog, k) == old(Under(keyLog, k)) + if k in keys then Members(futures) else {}
    {
      hide Carried, Settled;
      for i := 0 to |keys|
        invariant Carried(keyFutures, pending) && Settled(keyLog, keyFutures, Successes(transfers))
        invariant forall k :: Under(keyLog, k) == old(Under(keyLog, k)) + if k in keys[..i] then Members(futures) else {}
      {
        CarriedJoin(keyFutures, pending, keys[i], Members(futures), b);
        SettledJoin(keyLog, keyFutures, Successes(transfers), keys[i], Members(futures));
        keyFutures := Joined(keyFutures, keys[i], Members(futures));
        keyLog := Joined(keyLog, keys[i], Members(futures));
      }
    }

    /** A request that reuses published pages inherits every put ever recorded for their keys. */
    method TrackKeys(request: string, keys: seq<nat>)
      requires Valid()
      modifies this`requestFutures, this`requestLog
      ensures Valid()
      ensures forall q :: Under(requestLog, q) == old(Under(requestLog, q)) + if q == request != "" then Inherited(keyLog, keys) else {}
    {
      if request == "" { return; }
      ghost var was := requestLog;
      requestLog := Joined(requestLog, request, Inherited(keyLog, keys));
      forall q, f | f in Under(requestLog, q)
        ensures f in Under(requestFutures, q) || f in Successes(transfers) || (q == request && f in Inherited(keyLog, keys))
      {
        assert f in Under(was, q) || (q == request && f in Inherited(keyLog, keys));
      }
      if keyFutures == map[] {
        SettledInherit(keyLog, keyFutures, Successes(transfers), keys);
        return;
      }
      InheritAll(request, keys);
    }

    method InheritAll(request: string, keys: seq<nat>)
      requires Carried(requestFutures, pending) && Carried(keyFutures, pending) && Settled(keyLog, keyFutures, Successes(transfers))
      requires forall q, f {:trigger f in Under(requestLog, q)} :: f in Under(requestLog, q) ==>
        f in Under(requestFutures, q) || f in Successes(transfers) || (q == request && f in Inherited(keyLog, keys))
      modifies this`requestFutures
      ensures Carried(requestFutures, pending) && Settled(requestLog, requestFutures, Successes(transfers))
    {
      hide Carried;
      for i := 0 to |keys|
        invariant Carried(requestFutures, pending)
        invariant forall q, f {:trigger f in Under(requestLog, q)} :: f in Under(requestLog, q) ==>
          f in Under(requestFutures, q) || f in Successes(transfers) || (q == request && f in Inherited(keyLog, keys[i..]))
      {
        InheritedHead(keyLog, keys[i..]);
        assert keys[i..][1..] == keys[i + 1..];
        var futures := Under(keyFutures, keys[i]);
        if futures != {} {
          CarriedUnion(requestFutures, keyFutures, pending, request, keys[i]);
          requestFutures := Joined(requestFutures, request, futures);
        }
      }
    }

    /** Fence some requests: wait for everything recorded for them, and for nothing else. A normal
        return means that all of it was stored. */
    method DrainRequests(requests: seq<string>) returns (r: Result<(), PutError>)
      requires Valid()
      modifies this`pending, this`pendingBytes, this`error, this`requestFutures, this`keyFutures, transfers
      ensures Valid() && old(transfers.done) <= transfers.done && (old(Bounded()) ==> Bounded())
      ensures r.Ok? ==> error == None && forall q, f {:trigger f in Under(requestLog, q)} ::
        q in requests && f in Under(requestLog, q) ==> transfers.Succeeded(f)
      ensures r.Err? ==> error == Some(r.error)
      ensures old(error).Some? ==> r == Err(old(error).value)
    {
      hide Sub, Total, Carried;
      r := Poll();
      if r.Err? { return; }
      ghost var tracked, batches := requestFutures, pending;
      var running: set<Future> := {};
      var futures := set q, f | q in requests && f in Under(requestFutures, q) :: f;
      if futures != {} {
        running := transfers.WaitFor(futures);
        if running != {} {
          error := Some(TimedOut);
          return Err(TimedOut);
        }
      }
      ghost var done := transfers.done;
      forall f | f in futures ensures f in done { assert f !in running; }
      r := Poll();
      if r.Ok? { FencedSucceeded(requests, requestLog, requestFutures, tracked, batches, futures, Successes(transfers)); }
    }

    /** Fence everything. */
    method Drain() returns (r: Result<(), PutError>)
      requires Valid()
      modifies this`pending, this`pendingBytes, this`error, this`requestFutures, this`keyFutures, transfers
      ensures Valid() && old(transfers.done) <= transfers.done
      ensures r.Ok? ==> error == None && pending == [] && pendingBytes == 0
      ensures r.Ok? ==> forall q, f {:trigger f in Under(requestLog, q)} :: f in Under(requestLog, q) ==> transfers.Succeeded(f)
      ensures r.Ok? ==> forall k, f {:trigger f in Under(keyLog, k)} :: f in Under(keyLog, k) ==> transfers.Succeeded(f)
      ensures r.Err? ==> error == Some(r.error)
      ensures old(error).Some? ==> r == Err(old(error).value)
    {
      hide Sub;
      r := Poll();
      if r.Err? { return; }
      while pending != []
        invariant Valid() && error == None && old(error) == None && r.Ok?
        invariant old(transfers.done) <= transfers.done
        decreases |pending|
      {
        r := WaitFirst();
        if r.Err? { return; }
      }
      r := Poll();
      if r.Ok? {
        SubIsSmaller(pending, []);
        NothingCarried(requestFutures);
        NothingCarried(keyFutures);
      }
    }
  }

  /** Once the tracked transfers of some requests are known to have succeeded, so has everything
      ever recorded for them. */
  lemma FencedSucceeded(requests: seq<string>, log: map<string, set<Future>>, table: map<string, set<Future>>, tracked: map<string, set<Future>>, batches: seq<Batch>, futures: set<Future>, succeeded: set<Future>)
    requires Settled(log, table, succeeded) && Carried(tracked, batches)
    requires forall k :: Under(table, k) <= Under(tracked, k)
    requires forall q, f {:trigger f in Under(tracked, q)} :: q in requests && f in Under(tracked, q) ==> f in futures
    requires forall b, f {:trigger f in b.futures} :: b in batches && f in b.futures && f in futures ==> f in succeeded
    ensures forall q, f {:trigger f in Under(log, q)} :: q in requests && f in Under(log, q) ==> f in succeeded
  {
    forall q, f | q in requests && f in Under(log, q) ensures f in succeeded {
      if f in Under(table, q) {
        assert f in Under(tracked, q);
        assert InBatches(batches, f);
        var b :| b in batches && f in b.futures;
      }
    }
  }

  /** Everything ever recorded under some keys. */
  ghost function Inherited(log: map<nat, set<Future>>, keys: seq<nat>): set<Future> {
    if keys == [] then {} else Under(log, keys[0]) + Inherited(log, keys[1..])
  }

  lemma InheritedHead(log: map<nat, set<Future>>, keys: seq<nat>)
    requires keys != []
    ensures Inherited(log, keys) == Under(log, keys[0]) + Inherited(log, keys[1..])
  {
  }

  lemma {:induction false} InheritedIsUnion(log: map<nat, set<Future>>, keys: seq<nat>, f: Future)
    ensures f in Inherited(log, keys) <==> exists k :: k in keys && f in Under(log, k)
    decreases |keys|
  {
    if keys != [] {
      InheritedIsUnion(log, keys[1..], f);
      assert keys == [keys[0]] + keys[1..];
    }
  }

  lemma {:induction false} SettledInherit(log: map<nat, set<Future>>, table: map<nat, set<Future>>, succeeded: set<Future>, keys: seq<nat>)
    requires Settled(log, table, succeeded) && table == map[]
    ensures Inherited(log, keys) <= succeeded
    decreases |keys|
  {
    if keys != [] { SettledInherit(log, table, succeeded, keys[1..]); }
  }

  lemma CarriedUnion<K(!new), J(!new)>(table: map<K, set<Future>>, other: map<J, set<Future>>, pending: seq<Batch>, k: K, j: J)
    requires Carried(table, pending) && Carried(other, pending)
    ensures Carried(Joined(table, k, Under(other, j)), pending)
  {
    forall i, f | f in Under(Joined(table, k, Under(other, j)), i) ensures InBatches(pending, f) {
      assert f in Under(table, i) || f in Under(other, j);
    }
  }

  lemma NothingCarried<K(!new)>(table: map<K, set<Future>>)
    requires Carried(table, [])
    ensures forall k :: Under(table, k) == {}
  {
    forall k ensures Under(table, k) == {} {
      forall f ensures f !in Under(table, k) { assert !InBatches([], f); }
    }
  }

  ghost predicate AllSucceeded(b: Batch, succeeded: set<Future>) { forall f :: f in b.futures ==> f in succeeded }

  lemma DrainedFurther(first: seq<Batch>, was: seq<Batch>, now: seq<Batch>, before: set<Future>, after: set<Future>)
    requires Sub(was, first) && Sub(now, was) && before <= after
    requires forall b :: b in first ==> b in was || AllSucceeded(b, before)
    requires forall b :: b in was ==> b in now || AllSucceeded(b, after)
    ensures Sub(now, first) && forall b :: b in first ==> b in now || AllSucceeded(b, after)
  {
    SubTrans(now, was, first);
    forall b | b in first ensures b in now || AllSucceeded(b, after) {
      if b !in was { assert AllSucceeded(b, before); }
    }
  }

  function Members(futures: seq<Future>): set<Future> { set f | f in futures }

  lemma TotalAppend(pending: seq<Batch>, b: Batch)
    ensures Total(pending + [b]) == Total(pending) + b.size
  {
    assert (pending + [b])[..|pending|] == pending;
  }

  lemma CarriedMore<K(!new)>(table: map<K, set<Future>>, pending: seq<Batch>, b: Batch)
    requires Carried(table, pending)
    ensures Carried(table, pending + [b])
  {
    forall k, f | f in Under(table, k) ensures InBatches(pending + [b], f) {
      assert InBatches(pending, f);
      var c :| c in pending && f in c.futures;
      assert c in pending + [b];
    }
  }

  lemma CarriedJoin<K(!new)>(table: map<K, set<Future>>, pending: seq<Batch>, k: K, futures: set<Future>, b: Batch)
    requires Carried(table, pending) && b in pending && futures <= Members(b.futures)
    ensures Carried(Joined(table, k, futures), pending)
  {
    forall j, f | f in Under(Joined(table, k, futures), j) ensures InBatches(pending, f) {
      if f in futures { assert f in b.futures; } else { assert f in Under(table, j); }
    }
  }

  lemma SettledJoin<K(!new)>(log: map<K, set<Future>>, table: map<K, set<Future>>, succeeded: set<Future>, k: K, futures: set<Future>)
    requires Settled(log, table, succeeded)
    ensures Settled(Joined(log, k, futures), Joined(table, k, futures), succeeded)
  {
    forall j, f | f in Under(Joined(log, k, futures), j) ensures f in Under(Joined(table, k, futures), j) || f in succeeded {
      if !(j == k && f in futures) { assert f in Under(log, j); }
    }
  }

  lemma ReapedSucceeded(was: seq<Batch>, pending: seq<Batch>, completed: set<Future>)
    requires forall b :: b in was ==> b in pending || Reaped(b, completed)
    ensures forall b :: b in was ==> b in pending || forall f :: f in b.futures ==> f in completed
  {
  }

  /** Every transfer of the batch has completed. */
  ghost predicate Reaped(b: Batch, completed: set<Future>) { forall f :: f in b.futures ==> f in completed }

  ghost predicate Unfinished(b: Batch, done: set<Future>) { exists f :: f in b.futures && f !in done }

  lemma CarriedOn<K(!new)>(table: map<K, set<Future>>, rest: map<K, set<Future>>, was: seq<Batch>, pending: seq<Batch>, completed: set<Future>)
    requires Carried(table, was) && forall k :: Under(rest, k) == Under(table, k) - completed
    requires forall b :: b in was ==> b in pending || Reaped(b, completed)
    ensures Carried(rest, pending)
  {
    forall k, f | f in Under(rest, k) ensures InBatches(pending, f) {
      assert f in Under(table, k);
      assert InBatches(was, f);
      var b :| b in was && f in b.futures;
      if b !in pending { assert Reaped(b, completed); }
    }
  }
}

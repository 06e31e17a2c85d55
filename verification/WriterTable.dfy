/** The tile-indexed table of pending writers, and the read-readiness check it feeds. */
module WriterTable {
  import opened Basics
  import opened Schedule
  import opened Device
  import opened Streams
  import opened MemoryRanges

  /** A submitted write: [start, end) and the command that commits it. */
  type Write = (int, int, nat)

  predicate Hit(e: Write, r: Range) { Overlap(e.0, e.1, r.0, r.0 + r.1) }

  ghost predicate Hits(e: Write, ranges: seq<Range>) { exists i :: 0 <= i < |ranges| && Hit(e, ranges[i]) }

  /** A write and a list of ranges have a byte in common. */
  ghost predicate Touches(e: Write, ranges: seq<Range>) { exists x :: e.0 <= x < e.1 && Bytes(ranges, x) }

  lemma HitsAreTouches(e: Write, ranges: seq<Range>)
    requires e.0 < e.1 && forall i :: 0 <= i < |ranges| ==> ranges[i].1 > 0
    ensures Hits(e, ranges) <==> Touches(e, ranges)
  {
    if Hits(e, ranges) {
      var i :| 0 <= i < |ranges| && Hit(e, ranges[i]);
      var x := if e.0 < ranges[i].0 then ranges[i].0 else e.0;
      assert Contains(ranges[i], x);
      assert Bytes(ranges, x);
    }
    if Touches(e, ranges) {
      var x :| e.0 <= x < e.1 && Bytes(ranges, x);
      var i :| 0 <= i < |ranges| && Contains(ranges[i], x);
      assert Hit(e, ranges[i]);
    }
  }

  /** The plain answer: the unfinished writers, ever submitted, that overlap one of the ranges. */
  ghost function Scan(history: set<Write>, done: set<nat>, ranges: seq<Range>): set<nat> {
    set e | e in history && e.2 !in done && Hits(e, ranges) :: e.2
  }

  predicate InTile(e: Write, t: int) { FirstTile(e.0) <= t <= LastTile(e.1) }

  predicate Listed(table: map<int, seq<Write>>, t: int, e: Write) { t in table && e in table[t] }

  /** Every unfinished write is listed in every tile it touches; nothing foreign is listed. */
  ghost predicate Holds(table: map<int, seq<Write>>, history: set<Write>, done: set<nat>) {
    && (forall e, t {:trigger Listed(table, t, e)} :: e in history && e.2 !in done && InTile(e, t) ==> Listed(table, t, e))
    && (forall e, t {:trigger Listed(table, t, e)} :: Listed(table, t, e) ==> e in history && InTile(e, t))
  }

  /** The entries of one tile whose command is not done, in list order. */
  function Alive(es: seq<Write>, commands: seq<Command>): (r: seq<Write>)
    requires forall e :: e in es ==> e.2 < |commands|
    ensures forall e :: e in r <==> e in es && !commands[e.2].done
  {
    if es == [] then []
    else
      assert es == [es[0]] + es[1..];
      (if commands[es[0].2].done then [] else [es[0]]) + Alive(es[1..], commands)
  }

  /** Replace one tile's list by its unfinished entries; drop an empty list. */
  function Purged(table: map<int, seq<Write>>, t: int, remaining: seq<Write>): map<int, seq<Write>> {
    if remaining == [] then table - {t} else table[t := remaining]
  }

  lemma PurgeKeeps(table: map<int, seq<Write>>, history: set<Write>, done: set<nat>, t: int, remaining: seq<Write>)
    requires Holds(table, history, done)
    requires forall e :: e in remaining <==> Listed(table, t, e) && e.2 !in done
    ensures Holds(Purged(table, t, remaining), history, done)
    ensures forall e :: e in remaining <==> e in history && e.2 !in done && InTile(e, t)
  {
    var now := Purged(table, t, remaining);
    forall e, u ensures Listed(now, u, e) <==> if u == t then e in remaining else Listed(table, u, e) {}
    forall e ensures e in remaining <==> e in history && e.2 !in done && InTile(e, t) {
      assert Listed(table, t, e) || !Listed(table, t, e);
    }
  }

  /** The plain answer on bytes. */
  ghost function PendingWriters(history: set<Write>, done: set<nat>, ranges: seq<Range>): set<nat> {
    set e | e in history && e.2 !in done && Touches(e, ranges) :: e.2
  }

  /** Scanning coalesced ranges finds exactly the pending writers of the named bytes. */
  lemma ScanIsPending(history: set<Write>, done: set<nat>, merged: seq<Range>, ranges: seq<Range>)
    requires forall i :: 0 <= i < |merged| ==> merged[i].1 > 0
    requires forall e :: e in history ==> e.0 < e.1
    requires forall x :: Bytes(merged, x) <==> Bytes(ranges, x)
    ensures Scan(history, done, merged) == PendingWriters(history, done, ranges)
  {
    forall e | e in history ensures Hits(e, merged) <==> Touches(e, ranges) { HitsAreTouches(e, merged); }
  }

  /** An access: its committing command, what it reads and writes, and which commands had
      finished when it was submitted. */
  datatype Access = Access(command: nat, read: seq<Range>, written: seq<Range>, finished: set<nat>)

  /** Command c writes byte x. */
  ghost predicate Wrote(history: set<Write>, c: nat, x: int) { exists e :: e in history && e.2 == c && e.0 <= x < e.1 }

  /** A later access reads a byte that an earlier one writes. */
  ghost predicate Conflict(writer: Access, reader: Access) {
    exists x :: Bytes(writer.written, x) && Bytes(reader.read, x)
  }

  /** The reader's submission saw the writer finished, or captured it. */
  ghost predicate Guards(writer: Access, reader: Access, required: map<nat, set<nat>>) {
    writer.command in reader.finished || (reader.command in required && writer.command in required[reader.command])
  }

  /** While a new write is being listed: it stands in its tiles below t, and nothing else changed. */
  ghost predicate HoldsUpTo(table: map<int, seq<Write>>, history: set<Write>, done: set<nat>, e: Write, t: int) {
    && (forall f, u {:trigger Listed(table, u, f)} :: f in history && f.2 !in done && InTile(f, u) ==> Listed(table, u, f))
    && (forall f, u {:trigger Listed(table, u, f)} :: Listed(table, u, f) ==>
          (f in history && InTile(f, u)) || (f == e && FirstTile(e.0) <= u < t))
    && (forall u {:trigger Listed(table, u, e)} :: FirstTile(e.0) <= u < t ==> Listed(table, u, e))
  }

  lemma HoldsAll(table: map<int, seq<Write>>, history: set<Write>, done: set<nat>, e: Write)
    requires HoldsUpTo(table, history, done, e, LastTile(e.1) + 1)
    ensures Holds(table, history + {e}, done)
  {
  }

  lemma ListInTile(table: map<int, seq<Write>>, history: set<Write>, done: set<nat>, e: Write, t: int, remaining: seq<Write>)
    requires HoldsUpTo(table, history, done, e, t) && FirstTile(e.0) <= t
    requires forall f :: f in remaining <==> Listed(table, t, f) && f.2 !in done
    ensures HoldsUpTo(table[t := remaining + [e]], history, done, e, t + 1)
  {
    var now := table[t := remaining + [e]];
    forall f, u ensures Listed(now, u, f) <==> if u == t then f in remaining || f == e else Listed(table, u, f) {}
  }

  class Hardware {
    const streams: Streams
    var pendingWriters: map<int, seq<Write>>
    var required: map<nat, set<nat>>      // the writers each committing command captured
    ghost var history: set<Write>
    ghost var accesses: seq<Access>

    ghost predicate Valid()
      reads this, streams, streams.device
    {
      && streams.Valid() && |streams.tails| > 0
      && Holds(pendingWriters, history, Ran(streams.device.order))
      && forall e :: e in history ==> e.0 < e.1 && e.2 < |streams.device.commands|
    }

    constructor (streamCount: nat)
      requires streamCount > 0
      ensures Valid() && fresh(streams) && fresh(streams.device) && accesses == [] && required == map[]
      ensures |streams.tails| == streamCount
    {
      streams := new Streams(streamCount);
      pendingWriters, required, history, accesses := map[], map[], {}, [];
    }

    /** Read one tile and drop its finished entries. */
    method Purge(t: int) returns (remaining: seq<Write>)
      requires Valid()
      modifies this`pendingWriters
      ensures Valid()
      ensures forall e :: e in remaining <==> e in history && e.2 !in streams.device.order && InTile(e, t)
    {
      var entries := if t in pendingWriters then pendingWriters[t] else [];
      forall e | e in entries ensures e.2 < |streams.device.commands| { assert Listed(pendingWriters, t, e); }
      remaining := Alive(entries, streams.device.commands);
      PurgeKeeps(pendingWriters, history, Ran(streams.device.order), t, remaining);
      if remaining != [] {
        pendingWriters := pendingWriters[t := remaining];
      } else {
        pendingWriters := pendingWriters - {t};
      }
    }

    /** Walk the tiles of one range. */
    method ScanRange(range: Range) returns (found: set<nat>)
      requires Valid() && range.1 > 0
      modifies this`pendingWriters
      ensures Valid()
      ensures found == Scan(history, Ran(streams.device.order), [range])
    {
      var first, last := FirstTile(range.0), LastTile(range.0 + range.1);
      found := {};
      for t := first to last + 1
        invariant Valid()
        invariant found == Met(history, Ran(streams.device.order), range, t)
      {
        var remaining := Purge(t);
        NextTile(history, Ran(streams.device.order), range, t, remaining);
        found := found + Overlapping(remaining, range);
      }
      AllMet(history, Ran(streams.device.order), range);
    }

    /** Which commands still write what the given ranges name. */
    method Writers(ranges: seq<Range>) returns (commands: set<nat>)
      requires Valid() && forall i :: 0 <= i < |ranges| ==> ranges[i].1 > 0
      modifies this`pendingWriters
      ensures Valid()
      ensures commands == Scan(history, Ran(streams.device.order), ranges)
    {
      commands := {};
      for i := 0 to |ranges|
        invariant Valid()
        invariant commands == Scan(history, Ran(streams.device.order), ranges[..i])
      {
        var found := ScanRange(ranges[i]);
        ScanAppend(history, Ran(streams.device.order), ranges, i);
        commands := commands + found;
      }
      assert ranges[..|ranges|] == ranges;
    }

    /** List a new write in every tile it touches. */
    method List(e: Write)
      requires Valid() && e.0 < e.1 && e.2 < |streams.device.commands|
      modifies this`pendingWriters, this`history
      ensures Valid() && history == old(history) + {e}
    {
      for t := FirstTile(e.0) to LastTile(e.1) + 1
        invariant history == old(history)
        invariant HoldsUpTo(pendingWriters, history, Ran(streams.device.order), e, t)
      {
        var entries := if t in pendingWriters then pendingWriters[t] else [];
        forall f | f in entries ensures f.2 < |streams.device.commands| { assert Listed(pendingWriters, t, f); }
        var remaining := Alive(entries, streams.device.commands);
        ListInTile(pendingWriters, history, Ran(streams.device.order), e, t, remaining);
        pendingWriters := pendingWriters[t := remaining + [e]];
      }
      HoldsAll(pendingWriters, history, Ran(streams.device.order), e);
      history := history + {e};
    }

    method ListAll(command: nat, merged: seq<Range>)
      requires Valid() && command < |streams.device.commands| && forall i :: 0 <= i < |merged| ==> merged[i].1 > 0
      modifies this`pendingWriters, this`history
      ensures Valid() && history == old(history) + WritesOf(command, merged)
    {
      for i := 0 to |merged|
        invariant Valid() && history == old(history) + WritesOf(command, merged[..i])
      {
        List((merged[i].0, merged[i].0 + merged[i].1, command));
        WritesAppend(command, merged, i);
      }
      assert merged[..|merged|] == merged;
    }

    ghost predicate Tracked()
      reads this, streams, streams.device
    {
      && Valid() && TrackedBy(accesses, history, required, |streams.device.commands|)
      && Checked(accesses, required, streams.device.order)
    }

    /** Submit one access: a begin command that poisons what it writes, and a command that
        commits it after checking that its captured writers are done. */
    method SubmitAccess(s: nat, name: string, readRanges: seq<Range>, writeRanges: seq<Range>) returns (command: nat)
      requires Tracked() && s < |streams.tails|
      modifies this, streams, streams.device
      ensures Tracked() && |streams.tails| == old(|streams.tails|)
      ensures command == |old(streams.device.commands)| + 1
      ensures required == old(required)[command := PendingWriters(old(history), Ran(streams.device.order), readRanges)]
      ensures accesses == old(accesses) + [Access(command, readRanges, writeRanges, Ran(streams.device.order))]
      ensures streams.device.order == old(streams.device.order) && old(streams.device.deps) <= streams.device.deps
    {
      hide Ran, Legal, Counted, Linked, ReadyOnce, Timed, Heap, Marked, Fifo, Holds, Bytes, TrackedBy, Checked, CheckedOne, Recorded, Scan, PendingWriters;
      var readMerged := MergeRanges(readRanges);
      var writeMerged := MergeRanges(writeRanges);
      var needed := Writers(readMerged);
      ScanIsPending(history, Ran(streams.device.order), readMerged, readRanges);
      ghost var was, before, deps, n := history, required, streams.device.deps, |streams.device.commands|;
      var started := streams.Submit(s, name, []);
      command := streams.Submit(s, name, []);
      required := required[command := needed];
      ghost var reader := Access(command, readRanges, writeRanges, Ran(streams.device.order));
      ListAll(command, writeMerged);
      WritesCover(history, writeMerged, reader);
      TrackedNext(accesses, was, history, before, n, reader);
      CheckedNext(accesses, was, before, needed, streams.device.order, deps, reader);
      accesses := accesses + [reader];
    }

    /** Run the earliest runnable command; a commit first checks its captured writers. A reader
        that its streams order behind all of them can never be the one that fails. */
    method Execute() returns (r: Outcome)
      requires Tracked() && streams.device.ready != []
      modifies streams.device
      ensures streams.device.deps == old(streams.device.deps) && |streams.device.commands| == |old(streams.device.commands)|
      ensures r.Completed? ==> Tracked() && |streams.device.order| == |old(streams.device.order)| + 1
      ensures r.EarlyRead? ==> r.reader in required && r.writer in required[r.reader] && !Waits(streams.device.deps, r.writer, r.reader)
    {
      var c := streams.device.ready[0].1;
      ghost var order := streams.device.order;
      if c in required {
        var open := required[c];
        while open != {}
          invariant open <= required[c]
          invariant forall w :: w in required[c] && w !in open ==> w in order
          decreases open
        {
          var w :| w in open;
          open := open - {w};
          if w >= |streams.device.commands| || !streams.device.commands[w].done {
            RunnableIsFree(streams.device.commands, streams.device.deps, order, streams.device.ready);
            NotBehind(order, streams.device.deps, w, c);
            return EarlyRead(c, w);
          }
        }
      }
      var step := streams.device.Step();
      if step.Err? { return Failed(step.error); }
      CheckedStep(accesses, required, order, c);
      r := Completed;
    }

    /** Run everything. A run that raises nothing committed every access after all earlier
        submitted writers of the bytes it reads. */
    method RunAll() returns (r: Outcome)
      requires Tracked()
      modifies streams.device
      ensures streams.device.deps == old(streams.device.deps)
      ensures r.Completed? ==> Complete(streams.device.order, streams.device.deps)
      ensures r.Completed? ==> forall i, j :: 0 <= i < j < |accesses| && Conflict(accesses[i], accesses[j]) ==>
        CommitsBefore(streams.device.order, accesses[i].command, accesses[j].command)
      ensures r.EarlyRead? ==> r.reader in required && r.writer in required[r.reader] && !Waits(streams.device.deps, r.writer, r.reader)
    {
      hide Conflict, Waits;
      while streams.device.ready != []
        invariant Tracked() && streams.device.deps == old(streams.device.deps)
        decreases |streams.device.commands| - |streams.device.order|
      {
        LegalIsShort(streams.device.order, streams.device.deps);
        r := Execute();
        if !r.Completed? { return; }
        LegalIsShort(streams.device.order, streams.device.deps);
      }
      r := Completed;
      AllDone(streams.device);
      EveryReaderWaited(accesses, history, required, streams.device.order, streams.device.deps);
    }
  }

  datatype Outcome = Completed | EarlyRead(reader: nat, writer: nat) | Failed(error: OrderingError)

  lemma AllDone(device: Device)
    requires device.Valid() && device.ready == []
    ensures Complete(device.order, device.deps)
  {
    forall c | 0 <= c < |device.commands| ensures c in device.order {
      if c !in device.order { SomeReady(device.commands, device.deps, device.order, device.ready, c); }
    }
  }

  /** The writer is done by the time the reader commits. */
  ghost predicate CommitsBefore(order: seq<nat>, writer: nat, reader: nat) {
    reader in order && forall k :: 0 <= k < |order| && order[k] == reader ==> writer in order[..k]
  }

  /** Whatever committed so far found its writers finished. */
  ghost predicate Checked(accesses: seq<Access>, required: map<nat, set<nat>>, order: seq<nat>) {
    forall j :: 0 <= j < |accesses| ==> CheckedOne(accesses[j], required, order)
  }

  ghost predicate CheckedOne(reader: Access, required: map<nat, set<nat>>, order: seq<nat>) {
    && reader.command in required && reader.finished <= Ran(order)
    && forall k :: 0 <= k < |order| && order[k] == reader.command ==>
         reader.finished <= Ran(order[..k]) && required[reader.command] <= Ran(order[..k])
  }

  lemma CheckedNext(accesses: seq<Access>, history: set<Write>, required: map<nat, set<nat>>, needed: set<nat>, order: seq<nat>, deps: seq<set<nat>>, reader: Access)
    requires Checked(accesses, required, order) && reader.command == |deps| + 1 && reader.finished == Ran(order)
    requires Legal(order, deps) && TrackedBy(accesses, history, required, |deps|)
    ensures Checked(accesses + [reader], required[|deps| + 1 := needed], order)
  {
    hide Ran;
    var more, now := accesses + [reader], required[|deps| + 1 := needed];
    forall j | 0 <= j < |more| ensures CheckedOne(more[j], now, order) {
      if j < |accesses| { assert CheckedOne(accesses[j], required, order); }
    }
  }

  lemma CheckedStep(accesses: seq<Access>, required: map<nat, set<nat>>, order: seq<nat>, c: nat)
    requires Checked(accesses, required, order) && c !in order
    requires c in required ==> required[c] <= Ran(order)
    ensures Checked(accesses, required, order + [c])
  {
    var next := order + [c];
    forall j | 0 <= j < |accesses| ensures CheckedOne(accesses[j], required, next) {
      assert CheckedOne(accesses[j], required, order);
      forall k | 0 <= k < |next| && next[k] == accesses[j].command
        ensures accesses[j].finished <= Ran(next[..k]) && required[accesses[j].command] <= Ran(next[..k])
      {
        assert next[..k] == order[..k];
        if k == |order| { assert order[..k] == order; }
      }
    }
  }

  /** A captured writer that is unfinished when its reader is runnable is not ordered before it. */
  lemma NotBehind(order: seq<nat>, deps: seq<set<nat>>, w: nat, c: nat)
    requires Submitted(deps) && Legal(order, deps) && c < |deps| && c !in order && w !in order
    requires forall d :: d in deps[c] ==> d in order
    ensures !Waits(deps, w, c)
  {
    if Waits(deps, w, c) {
      LegalNext(order, deps, c);
      WaitsRunsLater(order + [c], deps, w, |order|);
    }
  }

  /** Checked submissions and checked commits add up: every conflicting writer came first. */
  lemma EveryReaderWaited(accesses: seq<Access>, history: set<Write>, required: map<nat, set<nat>>, order: seq<nat>, deps: seq<set<nat>>)
    requires TrackedBy(accesses, history, required, |deps|) && Checked(accesses, required, order) && Complete(order, deps)
    ensures forall i, j :: 0 <= i < j < |accesses| && Conflict(accesses[i], accesses[j]) ==>
      CommitsBefore(order, accesses[i].command, accesses[j].command)
  {
    forall i, j | 0 <= i < j < |accesses| && Conflict(accesses[i], accesses[j])
      ensures CommitsBefore(order, accesses[i].command, accesses[j].command)
    {
      assert Safe(accesses[i], accesses[j], required) && CheckedOne(accesses[j], required, order);
    }
  }

  /** Every access so far: its writes are in the history, and each later reader of its bytes
      either found it finished or captured it. */
  ghost predicate TrackedBy(accesses: seq<Access>, history: set<Write>, required: map<nat, set<nat>>, n: nat) {
    && (forall i :: 0 <= i < |accesses| ==> accesses[i].command < n)
    && (forall i, j :: 0 <= i < j < |accesses| ==> accesses[i].command < accesses[j].command)
    && (forall c :: c in required ==> c < n)
    && (forall i :: 0 <= i < |accesses| ==> Recorded(accesses[i], history))
    && (forall i, j :: 0 <= i < j < |accesses| ==> Safe(accesses[i], accesses[j], required))
  }

  ghost predicate Recorded(writer: Access, history: set<Write>) {
    forall x :: Bytes(writer.written, x) ==> Wrote(history, writer.command, x)
  }

  ghost predicate Safe(writer: Access, reader: Access, required: map<nat, set<nat>>) {
    Conflict(writer, reader) ==> Guards(writer, reader, required)
  }

  lemma RecordedLater(writer: Access, history: set<Write>, more: set<Write>)
    requires Recorded(writer, history) && history <= more
    ensures Recorded(writer, more)
  {
    forall x | Bytes(writer.written, x) ensures Wrote(more, writer.command, x) {
      assert Wrote(history, writer.command, x);
    }
  }

  lemma TrackedNext(accesses: seq<Access>, was: set<Write>, history: set<Write>, required: map<nat, set<nat>>, n: nat, reader: Access)
    requires TrackedBy(accesses, was, required, n) && was <= history && reader.command == n + 1
    requires Recorded(reader, history)
    ensures TrackedBy(accesses + [reader], history, required[n + 1 := PendingWriters(was, reader.finished, reader.read)], n + 2)
  {
    hide Recorded, Conflict, Guards, PendingWriters;
    var more := accesses + [reader];
    var now := required[n + 1 := PendingWriters(was, reader.finished, reader.read)];
    forall i | 0 <= i < |more| ensures Recorded(more[i], history) {
      if i < |accesses| { RecordedLater(accesses[i], was, history); }
    }
    forall i, j | 0 <= i < j < |more| ensures Safe(more[i], more[j], now) {
      if j < |accesses| {
        SafeLater(accesses[i], accesses[j], required, now);
      } else if Conflict(accesses[i], reader) {
        PendingOrDone(was, reader.finished, accesses[i], reader, now);
      }
    }
  }

  lemma SafeLater(writer: Access, reader: Access, required: map<nat, set<nat>>, now: map<nat, set<nat>>)
    requires Safe(writer, reader, required)
    requires reader.command in required ==> reader.command in now && now[reader.command] == required[reader.command]
    ensures Safe(writer, reader, now)
  {
  }

  /** The writes of one access, as the table lists them. */
  ghost function WritesOf(command: nat, merged: seq<Range>): set<Write> {
    set i | 0 <= i < |merged| :: (merged[i].0, merged[i].0 + merged[i].1, command)
  }

  lemma WritesAppend(command: nat, merged: seq<Range>, i: nat)
    requires i < |merged|
    ensures WritesOf(command, merged[..i + 1]) == WritesOf(command, merged[..i]) + {(merged[i].0, merged[i].0 + merged[i].1, command)}
  {
    var more, less := merged[..i + 1], merged[..i];
    forall e | e in WritesOf(command, more) ensures e in WritesOf(command, less) + {(merged[i].0, merged[i].0 + merged[i].1, command)} {
      var k :| 0 <= k < |more| && e == (more[k].0, more[k].0 + more[k].1, command);
      if k < i { assert less[k] == more[k]; }
    }
    forall e | e in WritesOf(command, less) ensures e in WritesOf(command, more) {
      var k :| 0 <= k < |less| && e == (less[k].0, less[k].0 + less[k].1, command);
      assert more[k] == less[k];
    }
    assert more[i] == merged[i];
  }

  lemma WritesCover(history: set<Write>, merged: seq<Range>, writer: Access)
    requires WritesOf(writer.command, merged) <= history
    requires forall x :: Bytes(merged, x) <==> Bytes(writer.written, x)
    ensures Recorded(writer, history)
  {
    forall x | Bytes(writer.written, x) ensures Wrote(history, writer.command, x) {
      assert Bytes(merged, x);
      var i :| 0 <= i < |merged| && Contains(merged[i], x);
      assert (merged[i].0, merged[i].0 + merged[i].1, writer.command) in WritesOf(writer.command, merged);
    }
  }

  /** A conflicting earlier writer is either finished or among the pending writers. */
  lemma PendingOrDone(history: set<Write>, done: set<nat>, writer: Access, reader: Access, required: map<nat, set<nat>>)
    requires Conflict(writer, reader) && reader.finished == done
    requires reader.command in required && required[reader.command] == PendingWriters(history, done, reader.read)
    requires Recorded(writer, history)
    ensures Guards(writer, reader, required)
  {
    var x :| Bytes(writer.written, x) && Bytes(reader.read, x);
    assert Wrote(history, writer.command, x);
    var e :| e in history && e.2 == writer.command && e.0 <= x < e.1;
    assert Touches(e, reader.read);
  }

  lemma ScanAppend(history: set<Write>, done: set<nat>, ranges: seq<Range>, i: nat)
    requires i < |ranges|
    ensures Scan(history, done, ranges[..i + 1]) == Scan(history, done, ranges[..i]) + Scan(history, done, [ranges[i]])
  {
    forall e ensures Hits(e, ranges[..i + 1]) <==> Hits(e, ranges[..i]) || Hits(e, [ranges[i]]) {
      var more := ranges[..i + 1];
      if Hits(e, more) {
        var k :| 0 <= k < |more| && Hit(e, more[k]);
        if k < i { assert ranges[..i][k] == more[k]; } else { assert [ranges[i]][0] == more[k]; }
      }
      if Hits(e, ranges[..i]) {
        var k :| 0 <= k < i && Hit(e, ranges[..i][k]);
        assert more[k] == ranges[..i][k];
      }
      if Hits(e, [ranges[i]]) { assert more[i] == ranges[i]; }
    }
  }

  /** The unfinished writers that overlap a range and share one of its tiles below t with it. */
  ghost function Met(history: set<Write>, done: set<nat>, range: Range, t: int): set<nat> {
    set e | e in history && e.2 !in done && Hit(e, range) && FirstTile(e.0) < t && FirstTile(range.0) < t :: e.2
  }

  lemma TilesMeet(e: Write, range: Range)
    requires e.0 < e.1 && range.1 > 0 && Hit(e, range)
    ensures FirstTile(e.0) <= LastTile(range.0 + range.1) && FirstTile(range.0) <= LastTile(e.1)
    ensures FirstTile(e.0) <= LastTile(e.1)
  {
    var t := SharedTile(e.0, e.1, range.0, range.0 + range.1);
  }

  lemma NextTile(history: set<Write>, done: set<nat>, range: Range, t: int, remaining: seq<Write>)
    requires range.1 > 0 && FirstTile(range.0) <= t && forall e :: e in history ==> e.0 < e.1
    requires forall e :: e in remaining <==> e in history && e.2 !in done && InTile(e, t)
    ensures Met(history, done, range, t + 1) == Met(history, done, range, t) + Overlapping(remaining, range)
  {
    forall c | c in Met(history, done, range, t + 1)
      ensures c in Met(history, done, range, t) + Overlapping(remaining, range)
    {
      var e :| e in history && e.2 !in done && Hit(e, range) && FirstTile(e.0) < t + 1 && e.2 == c;
      TilesMeet(e, range);
      if !(FirstTile(e.0) < t && FirstTile(range.0) < t) { assert InTile(e, t) && e in remaining; }
    }
  }

  lemma AllMet(history: set<Write>, done: set<nat>, range: Range)
    requires range.1 > 0 && forall e :: e in history ==> e.0 < e.1
    ensures Met(history, done, range, LastTile(range.0 + range.1) + 1) == Scan(history, done, [range])
  {
    forall c | c in Scan(history, done, [range]) ensures c in Met(history, done, range, LastTile(range.0 + range.1) + 1) {
      var e :| e in history && e.2 !in done && Hits(e, [range]) && e.2 == c;
      TilesMeet(e, range);
    }
    forall c | c in Met(history, done, range, LastTile(range.0 + range.1) + 1) ensures c in Scan(history, done, [range]) {
      var e :| e in history && e.2 !in done && Hit(e, range) && e.2 == c;
      assert [range][0] == range;
      assert Hits(e, [range]);
    }
  }

  /** The commands of the listed writes that overlap a range. */
  function Overlapping(es: seq<Write>, range: Range): set<nat> {
    set e | e in es && Hit(e, range) :: e.2
  }
}

/** The write-back store itself: each lock region as a method that changes the fields in place,
    proved equal to its event in the retention protocol. */
module Writeback {
  import opened Basics
  import opened CheckpointTypes
  import opened Sums
  import opened RetentionModel
  import opened RetentionSafety
  import opened RetentionRuns
  import opened RetentionTheorems

  class CheckpointWritebackStore {
    const limit: nat
    var manifests: map<Identity, nat>
    var records: map<Identity, nat>
    var cells: map<nat, Retention>
    var charges: map<PageObj, nat>
    var used: int
    var closed: bool
    var fatal: bool
    var monitor: Monitor
    var refs: multiset<PageObj>   // the references this store holds on allocator pages
    var ledger: map<nat, Lease>   // the leases still outstanding, in whoever's hands they are
    ghost var drops: multiset<nat>
    var next: nat

    ghost function Model(): Store
      reads this
    {
      Store(limit, manifests, records, cells, charges, used, closed, fatal, monitor, ledger, refs, drops, next)
    }

    constructor (limit: nat)
      ensures Model() == Fresh(limit)
    {
      this.limit := limit;
      manifests, records, cells, charges, used := map[], map[], map[], map[], 0;
      closed, fatal, monitor := false, false, NotStarted;
      refs, ledger, drops, next := multiset{}, map[], multiset{}, 0;
    }

    // -------------------------------------------------------------- accounting helpers

    /** Charge every owner once, paying its bytes only if it had no lease. */
    method ChargeLocked(owners: set<PageObj>)
      modifies `charges, `used
      ensures charges == Charged(old(charges), owners)
      ensures used == old(used) + Sum(owners - old(charges).Keys, Bytes)
    {
      var todo := owners;
      while todo != {}
        invariant todo <= owners
        invariant charges == Charged(old(charges), owners - todo)
        invariant used == old(used) + Sum((owners - todo) - old(charges).Keys, Bytes)
        decreases todo
      {
        var page :| page in todo;
        ghost var done := owners - todo;
        if page !in charges {
          SumExtract(done + {page} - old(charges).Keys, Bytes, page);
          assert done + {page} - old(charges).Keys - {page} == done - old(charges).Keys;
          used := used + page.bytes;
          charges := charges[page := 1];
        } else {
          assert page in old(charges);
          assert done + {page} - old(charges).Keys == done - old(charges).Keys;
          charges := charges[page := charges[page] + 1];
        }
        todo := todo - {page};
        assert owners - todo == done + {page};
      }
      assert owners - {} == owners;
    }

    /** Take one lease off every owner and give its bytes back with the last one. */
    method UnchargeLocked(owners: set<PageObj>) returns (released: nat)
      requires owners <= charges.Keys
      requires forall p :: p in charges ==> charges[p] > 0
      modifies `charges, `used
      ensures charges == Uncharged(old(charges), owners)
      ensures released == Sum(LastLease(old(charges), owners), Bytes)
      ensures used == old(used) - released
    {
      hide Uncharged, LastLease, Sum;
      released := 0;
      var todo := owners;
      NothingUncharged(charges);
      assert owners - todo == {};
      while todo != {}
        invariant todo <= owners
        invariant charges == Uncharged(old(charges), owners - todo)
        invariant released == Sum(LastLease(old(charges), owners - todo), Bytes)
        invariant used == old(used) - released
        decreases todo
      {
        var page :| page in todo;
        ghost var done := owners - todo;
        UnchargeStep(old(charges), done, page);
        if charges[page] == 1 {
          used := used - page.bytes;
          released := released + page.bytes;
          charges := charges - {page};
        } else {
          charges := charges[page := charges[page] - 1];
        }
        todo := todo - {page};
        assert owners - todo == done + {page};
      }
      assert owners - {} == owners;
    }

    /** The bytes a lease would add to the budget. */
    method AddedBytes(owners: set<PageObj>) returns (added: nat)
      ensures added == Sum(owners - charges.Keys, Bytes)
    {
      added := 0;
      var todo := owners;
      while todo != {}
        invariant todo <= owners
        invariant added == Sum((owners - todo) - charges.Keys, Bytes)
        decreases todo
      {
        var page :| page in todo;
        ghost var done := owners - todo;
        if page !in charges {
          SumExtract(done + {page} - charges.Keys, Bytes, page);
          assert done + {page} - charges.Keys - {page} == done - charges.Keys;
          added := added + page.bytes;
        } else {
          assert done + {page} - charges.Keys == done - charges.Keys;
        }
        todo := todo - {page};
        assert owners - todo == done + {page};
      }
      assert owners - {} == owners;
    }

    /** Drop one reference per entry of both groups. */
    method ReleaseGroups(groups: Groups)
      requires PagesOf(groups) <= refs
      modifies `refs
      ensures refs == old(refs) - PagesOf(groups)
    {
      refs := DropReferences(refs, groups[0]);
      refs := DropReferences(refs, groups[1]);
    }

    // -------------------------------------------------------------- publication

    /** The publication's own acquisition has taken these references, under a lease nobody used before.
        They stay owned through everything other threads do, until this publication commits. */
    method TakeReferences(groups: Groups) returns (lease: nat)
      requires Valid(Model())
      modifies this
      ensures Valid(Model()) && Follows(old(Model()), Acquire(groups), Model())
      ensures lease !in old(ledger) && lease !in cells
      ensures OwnUntilCommit(Model(), lease, Lease(groups, Acquired))
    {
      hide Valid, Possible, After, PagesOf, OwnUntilCommit;
      ghost var s := Model();
      NothingNamed(s);
      lease := next;
      refs := refs + PagesOf(groups);
      ledger := ledger[lease := Lease(groups, Acquired)];
      next := next + 1;
      StepKeepsValid(s, Acquire(groups));
      TakenIsOwn(Model(), lease);
    }

    /** List the record and charge its owners; a spill thread that cannot start undoes both. */
    method Protect(lease: nat, identity: Identity, owners: set<PageObj>, starts: bool) returns (accepted: bool)
      requires Valid(Model()) && identity !in records
      modifies `charges, `used, `records, `monitor
      ensures accepted <==> (old(monitor).NotStarted? ==> starts)
      ensures accepted ==>
        && records == old(records)[identity := lease]
        && charges == Charged(old(charges), owners)
        && used == old(used) + Sum(owners - old(charges).Keys, Bytes)
        && monitor == (if old(monitor).NotStarted? then Idle else old(monitor))
      ensures !accepted ==>
        records == old(records) && charges == old(charges) && used == old(used) && monitor == old(monitor)
    {
      hide Valid, Sum, Charged, Uncharged, LastLease;
      Positive(Model());
      ChargeLocked(owners);
      records := records[identity := lease];
      accepted := true;
      if monitor.NotStarted? {
        if starts {
          monitor := Idle;
        } else {
          records := records - {identity};
          assert records == old(records);
          ChargeUndone(old(charges), owners);
          ChargedKeys(old(charges), owners);
          var _ := UnchargeLocked(owners);
          accepted := false;
        }
      }
    }

    /** Protect a complete offer that fits the budget. */
    method Admit(lease: nat, identity: Identity, owners: set<PageObj>, complete: bool, starts: bool) returns (accepted: bool)
      requires Valid(Model()) && identity !in records
      modifies `charges, `used, `records, `monitor
      ensures accepted <==> complete && old(used) + Sum(owners - old(charges).Keys, Bytes) <= limit && (old(monitor).NotStarted? ==> starts)
      ensures accepted ==>
        && records == old(records)[identity := lease]
        && charges == Charged(old(charges), owners)
        && used == old(used) + Sum(owners - old(charges).Keys, Bytes)
        && monitor == (if old(monitor).NotStarted? then Idle else old(monitor))
      ensures !accepted ==>
        records == old(records) && charges == old(charges) && used == old(used) && monitor == old(monitor)
    {
      hide Valid, Sum, Charged;
      accepted := false;
      var added := AddedBytes(owners);
      if complete && used + added <= limit {
        accepted := Protect(lease, identity, owners, starts);
      }
    }

    /** The lock region of a publication: refuse, or protect the complete paired offer within budget. */
    method PublishRegion(lease: nat, identity: Identity, groups: Groups, complete: bool, starts: bool)
      returns (accepted: bool)
      requires Valid(Model())
      requires lease in ledger && ledger[lease] == Lease(groups, Acquired)
      modifies this
      ensures Valid(Model()) && Follows(old(Model()), Commit(lease, identity, complete, starts), Model())
      ensures accepted <==> ledger[lease].stage.Protected?
    {
      hide Valid, Sum, Charged, Owners, PagesOf, PageIndex, Follows;
      ghost var s := Model();
      accepted := false;
      if !closed && identity !in records {
        accepted := Admit(lease, identity, Owners(groups), complete, starts);
        manifests := manifests[identity := lease];
      }
      if accepted {
        cells := cells[lease := Retention(identity, lease, groups, false, map[], false, PageIndex(groups))];
        ledger := ledger[lease := Lease(groups, Protected)];
      } else {
        ledger := ledger[lease := Lease(groups, Refused)];
      }
      CommitFollows(s, lease, identity, complete, starts);
    }

    /** What a refused publication does on its way out. */
    method ReleaseRefusedLease(lease: nat, groups: Groups)
      requires Valid(Model())
      requires lease in ledger && ledger[lease] == Lease(groups, Refused)
      modifies this
      ensures Valid(Model()) && Follows(old(Model()), ReleaseRefused(lease), Model())
    {
      hide Valid, PagesOf;
      ghost var s := Model();
      HeldByStore(Model(), lease);
      ReleaseGroups(groups);
      ledger := ledger - {lease};
      drops := drops + multiset{lease};
      StepKeepsValid(s, ReleaseRefused(lease));
    }

    // -------------------------------------------------------------- forgetting and notifications

    /** Tombstone every matching offer; the leases of live records go to retirement. */
    method ForgetRegion(req: string, generation: Option<int>)
      requires Valid(Model())
      modifies this
      ensures Valid(Model()) && Follows(old(Model()), Forget(req, generation), Model())
    {
      hide Valid, ForgetKeys, PagesOf;
      ghost var s := Model();
      ForgetNone(s);
      var todo := manifests.Keys;
      ghost var done: set<Identity> := {};
      while todo != {}
        invariant todo !! done && done <= Doomed(s, req, generation)
        invariant Doomed(s, req, generation) <= done + todo && todo <= s.manifests.Keys
        invariant Model() == ForgetKeys(s, done)
        decreases todo
      {
        var key :| key in todo;
        if key.req == req && (generation.None? || key.generation == generation.value) {
          ForgetKey(key, s, done);
          done := done + {key};
        }
        todo := todo - {key};
      }
      assert done == Doomed(s, req, generation);
      StepKeepsValid(s, Forget(req, generation));
    }

    method ForgetKey(key: Identity, ghost s: Store, ghost done: set<Identity>)
      requires Valid(s) && key in s.manifests && key !in done && Model() == ForgetKeys(s, done)
      modifies `manifests, `records, `cells, `ledger
      ensures Model() == ForgetKeys(s, done + {key})
    {
      hide Valid, ForgetKeys, PagesOf;
      ForgetOne(s, done, key);
      manifests := manifests - {key};
      if key in records {
        var record := records[key];
        records := records - {key};
        cells := cells[record := Tombstone(cells[record])];
        if record in ledger && ledger[record].stage.Protected? {
          ledger := ledger[record := ledger[record].(stage := Queued)];
        }
      }
    }

    /** The first of the two lock regions of a restore notification. */
    method RestoreRegion(identity: Identity, attempt: int, event: RestoreEvent) returns (retire: bool)
      requires Valid(Model())
      modifies `cells
      ensures Valid(Model()) && Follows(old(Model()), Notify(identity, attempt, event), Model())
      ensures retire <==> (identity in records && records[identity] in old(cells)
                           && Retires(old(cells)[records[identity]].attempts, attempt, event))
    {
      hide Accounted, Watched, DroppedOnce, Follows;
      NotifyFollows(Model(), identity, attempt, event);
      retire := false;
      if identity !in records { return; }
      assert RecordLinked(Model(), identity);
      var r := records[identity];
      var record := cells[r];
      var events: set<RestoreEvent>;
      if event == Begin {
        events := if attempt in record.attempts then record.attempts[attempt] else {};
      } else if attempt in record.attempts {
        events := record.attempts[attempt];
      } else {
        assert cells[r := record.(attempts := record.attempts)] == cells;
        return;
      }
      events := events + {event};
      retire := Admitted in events && Ack in events && Failed !in events;
      var attempts := record.attempts[attempt := events];
      if Failed in events && Ack in events {
        attempts := attempts - {attempt};
        assert attempts == record.attempts - {attempt};
      }
      cells := cells[r := record.(attempts := attempts)];
    }

    /** The retained lookup under the lock. */
    method RetainedLookup(identity: Identity, retentionId: nat, group: nat, source: CheckpointPage)
      returns (page: Option<PageObj>)
      requires Valid(Model())
      ensures page == RetainedPage(Model(), identity, retentionId, group, source)
      ensures page.Some? ==> page.value in refs && page.value in charges
    {
      page := None;
      if identity in records {
        assert RecordLinked(Model(), identity);
        var record := cells[records[identity]];
        if record.retentionId == retentionId && (group, source) in record.pages {
          page := Some(record.pages[(group, source)]);
          RetainedPageIsLeased(Model(), identity, retentionId, group, source);
        }
      }
    }

    // -------------------------------------------------------------- retirement

    /** Retirement, first step: references only, outside the lock. */
    method RetireReferences(lease: nat, groups: Groups)
      requires Valid(Model())
      requires lease in ledger && ledger[lease] == Lease(groups, Queued)
      modifies this
      ensures Valid(Model()) && Follows(old(Model()), RetireRelease(lease), Model())
    {
      hide Valid, PagesOf;
      ghost var s := Model();
      HeldByStore(Model(), lease);
      ReleaseGroups(groups);
      ledger := ledger[lease := Lease(groups, Released)];
      drops := drops + multiset{lease};
      StepKeepsValid(s, RetireRelease(lease));
    }

    /** Retirement, second step: the charge, under the lock. */
    method RetireCharge(lease: nat, groups: Groups) returns (released: nat)
      requires Valid(Model())
      requires lease in ledger && ledger[lease] == Lease(groups, Released)
      modifies this
      ensures Valid(Model()) && Follows(old(Model()), RetireUncharge(lease), Model())
      ensures released == old(used) - used
    {
      hide Valid, Sum, Uncharged, LastLease;
      ghost var s := Model();
      OwnersAreCharged(Model(), lease);
      Positive(Model());
      released := UnchargeLocked(Owners(groups));
      ledger := ledger - {lease};
      StepKeepsValid(s, RetireUncharge(lease));
    }

    // -------------------------------------------------------------- the monitor

    /** The monitor looks for a record that is neither spilled, cancelled nor being restored. */
    method PickRecord() returns (record: Option<nat>)
      requires Valid(Model())
      ensures record.None? ==> forall r: nat :: !Eligible(Model(), r)
      ensures record.Some? ==> Eligible(Model(), record.value)
    {
      hide Valid;
      record := None;
      var todo := records.Keys;
      while todo != {}
        invariant todo <= records.Keys
        invariant forall k :: k in records.Keys - todo ==> !Eligible(Model(), records[k])
        decreases todo
      {
        var key :| key in todo;
        RecordHasCell(Model(), key);
        var r := cells[records[key]];
        if !r.remote && !r.cancelled && r.attempts == map[] {
          return Some(records[key]);
        }
        todo := todo - {key};
      }
    }

    /** The monitor takes its own lease on the pages of the record it picked. */
    method SelectRegion(record: nat)
      requires Valid(Model()) && monitor.Idle? && Eligible(Model(), record)
      modifies this
      ensures Valid(Model()) && Follows(old(Model()), Select(record), Model())
      ensures used == old(used)
    {
      hide Valid, Sum, Charged, Owners, PagesOf;
      ghost var s := Model();
      SelectKeeps(s, record);
      var groups := cells[record].groups;
      refs := refs + PagesOf(groups);
      ChargeLocked(Owners(groups));
      ledger := ledger[next := Lease(groups, Snapshot)];
      monitor := Spilling(record, next);
      next := next + 1;
      StepKeepsValid(s, Select(record));
    }

    /** A spill came back: publish the remote copy unless the record was cancelled meanwhile,
        and hand both leases to retirement. */
    method SpillReturned(remote: bool)
      requires Valid(Model()) && monitor.Spilling?
      modifies this
      ensures Valid(Model()) && Follows(old(Model()), if remote then SpillConfirmed else SpillDeferred, Model())
    {
      hide Accounted, Linked, DroppedOnce, Follows;
      ReturnFollows(Model(), remote);
      var r, snapshot := monitor.record, monitor.snapshot;
      if remote && !cells[r].cancelled {
        cells := cells[r := cells[r].(remote := true, groups := NOTHING, pages := map[])];
        if r in ledger && ledger[r].stage.Protected? {
          ledger := ledger[r := ledger[r].(stage := Queued)];
        }
      }
      ledger := ledger[snapshot := ledger[snapshot].(stage := Queued)];
      monitor := Idle;
    }

    /** Native completion is unknown: keep the snapshot, stop the monitor. No later step of any thread
        gives the snapshot's pages back or takes them off the budget. */
    method SpillLost()
      requires Valid(Model()) && monitor.Spilling?
      modifies this
      ensures Valid(Model()) && Follows(old(Model()), SpillUnknown, Model())
      ensures OwnForGood(Model(), old(monitor.snapshot), Lease(old(ledger)[old(monitor.snapshot)].groups, Quarantined))
    {
      hide Accounted, Linked, DroppedOnce, Possible, After, OwnForGood;
      ghost var s := Model();
      var snapshot := monitor.snapshot;
      ledger := ledger[snapshot := ledger[snapshot].(stage := Quarantined)];
      fatal := true;
      monitor := Exited;
      StepKeepsValid(s, SpillUnknown);
      QuarantinedIsOwn(Model(), snapshot);
    }

    /** The monitor sees the shutdown, or dies of an unexpected error. */
    method MonitorStops(failed: bool) returns (ghost e: Event)
      requires Valid(Model()) && (monitor.Idle? || (failed && monitor.Spilling?))
      requires failed || closed || fatal
      modifies this
      ensures Valid(Model()) && Follows(old(Model()), e, Model()) && e in {MonitorExit, MonitorCrash, SpillCrashed}
      ensures monitor.Exited? && (!failed ==> e == MonitorExit)
    {
      hide Accounted, Linked, DroppedOnce;
      e := if !failed then MonitorExit else if monitor.Idle? then MonitorCrash else SpillCrashed;
      StepKeepsValid(Model(), e);
      if monitor.Spilling? {
        ledger := ledger[monitor.snapshot := ledger[monitor.snapshot].(stage := Queued)];
      }
      monitor := Exited;
      fatal := fatal || failed;
    }

    // -------------------------------------------------------------- other threads

    /** One lock region, or one half of a retire job, of some other thread. */
    method OtherThread() returns (ghost did: seq<Event>)
      requires Valid(Model())
      modifies this
      ensures Valid(Model()) && Possible(old(Model()), did) && After(old(Model()), did) == Model()
    {
      hide Valid, Possible, After, Follows;
      ghost var s := Model();
      NoEvent(s);
      did := [];
      var publisher: bool := *;
      if publisher {
        did := Publisher();
      } else {
        did := MonitorOrRetirement();
      }
    }

    /** A publisher, a canceller or a restoring connector. */
    method Publisher() returns (ghost did: seq<Event>)
      requires Valid(Model())
      modifies this
      ensures Valid(Model()) && Possible(old(Model()), did) && After(old(Model()), did) == Model()
    {
      hide Valid, Possible, After, Follows, OwnUntilCommit;
      ghost var s := Model();
      NoEvent(s);
      did := [];
      var what: int, lease: nat, groups: Groups := *, *, *;
      var identity: Identity, generation: Option<int>, attempt: int, event: RestoreEvent, complete: bool, starts: bool := *, *, *, *, *, *;
      if what == 0 {
        var _ := TakeReferences(groups);
        OneEvent(s, Acquire(groups), Model());
        did := [Acquire(groups)];
      } else if what == 1 && lease in ledger && ledger[lease].stage == Acquired {
        var _ := PublishRegion(lease, identity, ledger[lease].groups, complete, starts);
        OneEvent(s, Commit(lease, identity, complete, starts), Model());
        did := [Commit(lease, identity, complete, starts)];
      } else if what == 2 && lease in ledger && ledger[lease].stage == Refused {
        ReleaseRefusedLease(lease, ledger[lease].groups);
        OneEvent(s, ReleaseRefused(lease), Model());
        did := [ReleaseRefused(lease)];
      } else if what == 3 {
        ForgetRegion(identity.req, generation);
        OneEvent(s, Forget(identity.req, generation), Model());
        did := [Forget(identity.req, generation)];
      } else if what == 4 {
        var _ := RestoreRegion(identity, attempt, event);
        OneEvent(s, Notify(identity, attempt, event), Model());
        did := [Notify(identity, attempt, event)];
      }
    }

    /** The monitor's next step, or a retire job's. */
    method MonitorOrRetirement() returns (ghost did: seq<Event>)
      requires Valid(Model())
      modifies this
      ensures Valid(Model()) && Possible(old(Model()), did) && After(old(Model()), did) == Model()
    {
      hide Valid, Possible, After, Follows, OwnForGood;
      ghost var s := Model();
      NoEvent(s);
      did := [];
      var what: int, lease: nat := *, *;
      if what == 0 && lease in ledger && ledger[lease].stage == Queued {
        RetireReferences(lease, ledger[lease].groups);
        OneEvent(s, RetireRelease(lease), Model());
        did := [RetireRelease(lease)];
      } else if what == 1 && lease in ledger && ledger[lease].stage == Released {
        var _ := RetireCharge(lease, ledger[lease].groups);
        OneEvent(s, RetireUncharge(lease), Model());
        did := [RetireUncharge(lease)];
      } else if what == 2 && monitor.Idle? {
        var record := PickRecord();
        if record.None? { return; }
        SelectRegion(record.value);
        OneEvent(s, Select(record.value), Model());
        did := [Select(record.value)];
      } else if monitor.Spilling? {
        did := SpillEnds();
      }
    }

    /** A spill in flight comes back, is lost, or fails without touching native memory. */
    method SpillEnds() returns (ghost did: seq<Event>)
      requires Valid(Model()) && monitor.Spilling?
      modifies this
      ensures Valid(Model()) && Possible(old(Model()), did) && After(old(Model()), did) == Model()
      ensures monitor.Idle? || monitor.Exited?
    {
      hide Valid, Possible, After, OwnForGood;
      ghost var s := Model();
      var outcome: int := *;
      ghost var e: Event;
      if outcome == 0 {
        SpillLost();
        e := SpillUnknown;
      } else if outcome == 1 {
        e := MonitorStops(true);
      } else {
        var remote: bool := *;
        SpillReturned(remote);
        e := if remote then SpillConfirmed else SpillDeferred;
      }
      OneEvent(s, e, Model());
      did := [e];
    }

    /** Whatever other threads do before this one enters the lock again. */
    method OtherThreads() returns (ghost run: seq<Event>)
      requires Valid(Model())
      modifies this
      ensures Valid(Model()) && Possible(old(Model()), run) && After(old(Model()), run) == Model()
    {
      hide Valid, Possible, After;
      ghost var s := Model();
      NoEvent(s);
      run := [];
      var steps: int := *;
      if steps <= 0 { return; }
      for i := 0 to steps
        invariant Valid(Model()) && Possible(s, run) && After(s, run) == Model()
      {
        var did := OtherThread();
        RunJoin(s, run, did);
        run := run + did;
      }
    }

    // -------------------------------------------------------------- shutdown

    /** Stop accepting offers, forget every offer listed at that moment, and join the monitor, while any
        other thread may run between any two steps. Whatever they do, no offer and no record is left and
        the monitor has stopped; the shutdown is unsafe exactly when the monitor died. Closing itself gives
        back neither references nor charges: that is left to the retire jobs. */
    method Close() returns (safe: bool, ghost run: seq<Event>)
      requires Valid(Model())
      modifies this
      ensures Valid(Model()) && closed && manifests == map[] && records == map[]
      ensures monitor.NotStarted? || monitor.Exited?
      ensures Possible(old(Model()), run) && After(old(Model()), run) == Model()
      ensures OnlyForgets(run) ==> refs == old(refs) && charges == old(charges) && used == old(used)
      ensures safe <==> !fatal
    {
      hide Valid, Possible, After, Follows, OnlyForgets;
      ghost var s := Model();
      closed := true;
      var identities := manifests.Keys;
      ClosedIsValid(s);
      OneEvent(s, Event.Close, Model());
      run := [Event.Close];
      while identities != {}
        invariant Valid(Model()) && closed && manifests.Keys <= identities
        invariant Possible(s, run) && After(s, run) == Model()
        decreases identities
      {
        var identity, did := ForgetListed(identities);
        RunJoin(s, run, did);
        run := run + did;
        identities := identities - {identity};
      }
      NoOffersNoRecords(Model());
      ghost var last := JoinMonitor();
      RunJoin(s, run, last);
      run := run + last;
      if OnlyForgets(run) { ForgetsKeepPages(s, run); }
      safe := !fatal;
    }

    /** One iteration of the shutdown: other threads, then one forget. */
    method ForgetListed(identities: set<Identity>) returns (identity: Identity, ghost did: seq<Event>)
      requires Valid(Model()) && closed && manifests.Keys <= identities && identities != {}
      modifies this
      ensures identity in identities
      ensures Valid(Model()) && closed && manifests.Keys <= identities - {identity}
      ensures Possible(old(Model()), did) && After(old(Model()), did) == Model()
    {
      hide Valid, Possible, After, Follows;
      ghost var s := Model();
      var others := OtherThreads();
      ClosedOnlyShrinks(s, others);
      identity :| identity in identities;
      ghost var t := Model();
      ForgetRegion(identity.req, Some(identity.generation));
      ForgetsOne(t, Model(), identity);
      OneEvent(t, Forget(identity.req, Some(identity.generation)), Model());
      RunJoin(s, others, [Forget(identity.req, Some(identity.generation))]);
      did := others + [Forget(identity.req, Some(identity.generation))];
    }

    /** Wait for the monitor thread: it finishes its spill, sees the shutdown and stops. */
    method JoinMonitor() returns (ghost run: seq<Event>)
      requires Valid(Model()) && closed && manifests == map[]
      modifies this
      ensures Valid(Model()) && closed && manifests == map[] && records == map[]
      ensures Possible(old(Model()), run) && After(old(Model()), run) == Model()
      ensures monitor.NotStarted? || monitor.Exited?
    {
      hide Valid, Possible, After;
      ghost var s := Model();
      run := OtherThreads();
      if monitor.Spilling? {
        var did := SpillEnds();
        RunJoin(s, run, did);
        run := run + did;
      }
      if monitor.Idle? {
        ghost var t := Model();
        ClosedOnlyShrinks(s, run);
        var e := MonitorStops(false);
        OneEvent(t, e, Model());
        RunJoin(s, run, [e]);
        run := run + [e];
      }
      ClosedOnlyShrinks(s, run);
      NoOffersNoRecords(Model());
    }
  }

  lemma NoEvent(s: Store)
    ensures Possible(s, []) && After(s, []) == s
  {
  }

  lemma OneEvent(s: Store, e: Event, t: Store)
    requires Follows(s, e, t)
    ensures Possible(s, [e]) && After(s, [e]) == t
  {
    hide Next, Enabled;
    RunOf(s, e);
  }

  lemma ForgetsOne(s: Store, t: Store, k: Identity)
    requires Follows(s, Forget(k.req, Some(k.generation)), t)
    ensures t.manifests.Keys <= s.manifests.Keys - {k} && t.closed == s.closed
  {
  }

  lemma CommitFollows(s: Store, n: nat, k: Identity, complete: bool, starts: bool)
    requires Valid(s) && n in s.ledger && s.ledger[n].stage.Acquired?
    ensures var t := CommitRegion(s, n, k, complete, starts);
      Valid(t) && Follows(s, Commit(n, k, complete, starts), t)
  {
    hide Valid, CommitRegion;
    StepKeepsValid(s, Commit(n, k, complete, starts));
  }

  lemma NotifyFollows(s: Store, k: Identity, attempt: int, event: RestoreEvent)
    requires Valid(s)
    ensures Valid(Notified(s, k, attempt, event)) && Follows(s, Notify(k, attempt, event), Notified(s, k, attempt, event))
  {
    hide Valid, Notified;
    StepKeepsValid(s, Notify(k, attempt, event));
  }

  lemma ReturnFollows(s: Store, remote: bool)
    requires Valid(s) && s.monitor.Spilling?
    ensures var t := SpillOver(if remote then Confirm(s) else s, Idle);
      Valid(t) && Follows(s, if remote then SpillConfirmed else SpillDeferred, t)
  {
    hide Accounted, Linked, DroppedOnce, Confirm;
    StepKeepsValid(s, if remote then SpillConfirmed else SpillDeferred);
  }

  lemma NothingNamed(s: Store)
    requires Valid(s)
    ensures s.next !in s.ledger && s.next !in s.cells
  {
    NextUnused(s);
  }

  lemma ClosedIsValid(s: Store)
    requires Valid(s)
    ensures Valid(s.(closed := true)) && Follows(s, Event.Close, s.(closed := true))
  {
    StepKeepsValid(s, Event.Close);
  }

  lemma NoOffersNoRecords(s: Store)
    requires Valid(s) && s.manifests.Keys <= {}
    ensures s.manifests == map[] && s.records == map[]
  {
    forall k ensures k !in s.records { assert k in s.records ==> RecordLinked(s, k); }
  }

  lemma Positive(s: Store)
    requires Valid(s)
    ensures forall p :: p in s.charges ==> s.charges[p] > 0
  {
  }

  lemma ChargedKeys(charges: map<PageObj, nat>, owners: set<PageObj>)
    requires forall p :: p in charges ==> charges[p] > 0
    ensures owners <= Charged(charges, owners).Keys
    ensures forall p :: p in Charged(charges, owners) ==> Charged(charges, owners)[p] > 0
  {
  }

  lemma OwnersAreCharged(s: Store, n: nat)
    requires Valid(s) && n in s.ledger && s.ledger[n].stage.Charges()
    ensures Owners(s.ledger[n].groups) <= s.charges.Keys
  {
    forall p | p in Owners(s.ledger[n].groups) ensures p in s.charges { LeasedIsCharged(s, n, p); }
  }

  lemma HeldByStore(s: Store, n: nat)
    requires Valid(s) && n in s.ledger && s.ledger[n].stage.Holds()
    ensures PagesOf(s.ledger[n].groups) <= s.refs
  {
    LeasedIsHeld(s, n);
  }

  lemma RecordHasCell(s: Store, k: Identity)
    requires Valid(s) && k in s.records
    ensures s.records[k] in s.cells
  {
    assert RecordLinked(s, k);
  }

  lemma ForgetNone(s: Store)
    ensures ForgetKeys(s, {}) == s
  {
    assert RecordsOf(s, {}) == {};
  }

  lemma NothingUncharged(charges: map<PageObj, nat>)
    ensures Uncharged(charges, {}) == charges && LastLease(charges, {}) == {} && Sum({}, Bytes) == 0
  {
  }

  /** Taking the lease off one more owner. */
  lemma UnchargeStep(charges: map<PageObj, nat>, done: set<PageObj>, page: PageObj)
    requires page in charges && page !in done && forall p :: p in charges ==> charges[p] > 0
    ensures page in Uncharged(charges, done) && Uncharged(charges, done)[page] == charges[page]
    ensures Uncharged(charges, done + {page}) ==
      if charges[page] == 1 then Uncharged(charges, done) - {page} else Uncharged(charges, done)[page := charges[page] - 1]
    ensures Sum(LastLease(charges, done + {page}), Bytes) ==
      Sum(LastLease(charges, done), Bytes) + if charges[page] == 1 then page.bytes else 0
  {
    hide Sum;
    if charges[page] == 1 {
      assert LastLease(charges, done + {page}) == LastLease(charges, done) + {page};
      SumExtract(LastLease(charges, done + {page}), Bytes, page);
      assert LastLease(charges, done + {page}) - {page} == LastLease(charges, done);
    } else {
      assert LastLease(charges, done + {page}) == LastLease(charges, done);
    }
  }

  /** Forgetting one more key extends what has been forgotten so far. */
  lemma ForgetOne(s: Store, done: set<Identity>, key: Identity)
    requires Valid(s) && key in s.manifests && key !in done
    ensures var t := ForgetKeys(s, done);
      ForgetKeys(s, done + {key}) == Untracked(t, key)
    ensures key in ForgetKeys(s, done).manifests
    ensures var t := ForgetKeys(s, done); key in t.records ==> t.records[key] in t.cells
  {
    hide Accounted, Watched, DroppedOnce;
    var t := ForgetKeys(s, done);
    if key in s.records {
      assert RecordLinked(s, key);
      var r := s.records[key];
      forall k | k in done && k in s.records ensures s.records[k] != r { assert RecordLinked(s, k); }
      NextGone(s, done, key);
    } else {
      assert RecordsOf(s, done + {key}) == RecordsOf(s, done);
      assert s.manifests - (done + {key}) == t.manifests - {key};
      assert s.records - (done + {key}) == t.records;
    }
  }

  /** One iteration of the forgetting loop. */
  function Untracked(t: Store, key: Identity): Store {
    if key !in t.records || t.records[key] !in t.cells then t.(manifests := t.manifests - {key})
    else
      var r := t.records[key];
      t.(manifests := t.manifests - {key},
         records := t.records - {key},
         cells := t.cells[r := Tombstone(t.cells[r])],
         ledger := if Guarded(t, r) then t.ledger[r := t.ledger[r].(stage := Queued)] else t.ledger)
  }

  lemma NextGone(s: Store, done: set<Identity>, key: Identity)
    requires key in s.records && key !in done && s.records[key] in s.cells
    requires forall k :: k in done && k in s.records ==> s.records[k] != s.records[key]
    ensures ForgetKeys(s, done + {key}) == Untracked(ForgetKeys(s, done), key)
  {
    var t, u, r := ForgetKeys(s, done), ForgetKeys(s, done + {key}), s.records[key];
    assert RecordsOf(s, done + {key}) == RecordsOf(s, done) + {r};
    assert r !in RecordsOf(s, done);
    assert u.manifests == t.manifests - {key};
    assert u.records == t.records - {key};
    assert u.cells == t.cells[r := Tombstone(t.cells[r])];
    assert u.ledger == if Guarded(t, r) then t.ledger[r := t.ledger[r].(stage := Queued)] else t.ledger;
  }
}

/** The retention invariant over every run, and what it means for owners, budgets and shutdown. */
module RetentionRuns {
  import opened Basics
  import opened CheckpointTypes
  import opened Sums
  import opened RetentionModel
  import opened RetentionSafety

  // ---------------------------------------------------------------- links, step by step

  /** A step that changes one lease, and no cell or record, keeps the links. */
  lemma LeaseStep(s: Store, t: Store, n: nat)
    requires Linked(s)
    requires t.records == s.records && t.manifests.Keys >= s.manifests.Keys && t.cells == s.cells && t.next >= s.next
    requires n in t.ledger ==> t.ledger.Keys == s.ledger.Keys + {n} && LeaseLinked(t, n)
    requires n !in t.ledger ==> t.ledger.Keys == s.ledger.Keys - {n}
    requires forall m :: m in t.ledger && m != n ==> t.ledger[m] == s.ledger[m]
    requires Guarded(s, n) == Guarded(t, n) == false
    ensures Linked(t)
  {
    forall k | k in t.records ensures RecordLinked(t, k) { assert RecordLinked(s, k); }
    forall r | r in t.cells ensures CellLinked(t, r) { assert CellLinked(s, r); }
    forall m | m in t.ledger ensures LeaseLinked(t, m) {
      if m != n { assert LeaseLinked(s, m); }
    }
  }

  lemma AcceptLinks(s: Store, n: nat, k: Identity)
    requires Linked(s) && n in s.ledger && s.ledger[n].stage.Acquired? && k !in s.records
    ensures Linked(Accept(s, n, k))
  {
    var t := Accept(s, n, k);
    assert LeaseLinked(s, n);
    forall j | j in t.records ensures RecordLinked(t, j) {
      if j != k { assert RecordLinked(s, j); }
    }
    forall r | r in t.cells ensures CellLinked(t, r) {
      if r != n { assert CellLinked(s, r); }
    }
    forall m | m in t.ledger ensures LeaseLinked(t, m) {
      if m != n { assert LeaseLinked(s, m); }
    }
  }

  /** A record is listed under one identity only. */
  lemma NamesOne(s: Store, keys: set<Identity>, j: Identity)
    requires Linked(s) && j in s.records
    ensures s.records[j] in RecordsOf(s, keys) <==> j in keys
  {
    assert RecordLinked(s, j);
    forall k | k in s.records && s.records[k] == s.records[j] ensures k == j { assert RecordLinked(s, k); }
  }

  lemma ForgetLinks(s: Store, keys: set<Identity>)
    requires Linked(s)
    ensures Linked(ForgetKeys(s, keys))
  {
    var t := ForgetKeys(s, keys);
    var gone := RecordsOf(s, keys);
    forall j | j in t.records ensures RecordLinked(t, j) {
      assert RecordLinked(s, j);
      NamesOne(s, keys, j);
    }
    forall r | r in t.cells ensures CellLinked(t, r) {
      assert CellLinked(s, r);
      var k := s.cells[r].identity;
      if k in s.records && s.records[k] == r { NamesOne(s, keys, k); }
      if r in gone {
        var j :| j in keys && j in s.records && s.records[j] == r;
        assert RecordLinked(s, j);
      }
    }
    forall m | m in t.ledger ensures LeaseLinked(t, m) { assert LeaseLinked(s, m); }
  }

  lemma NotifiedLinks(s: Store, k: Identity, attempt: int, event: RestoreEvent)
    requires Linked(s)
    ensures Linked(Notified(s, k, attempt, event))
  {
    var t := Notified(s, k, attempt, event);
    forall j | j in t.records ensures RecordLinked(t, j) { assert RecordLinked(s, j); }
    forall r | r in t.cells ensures CellLinked(t, r) { assert CellLinked(s, r); }
    forall m | m in t.ledger ensures LeaseLinked(t, m) { assert LeaseLinked(s, m); }
  }

  lemma ConfirmLinks(s: Store)
    requires Linked(s) && s.monitor.Spilling? && s.monitor.record in s.cells
    ensures Linked(Confirm(s))
  {
    var t := Confirm(s);
    var i := s.monitor.record;
    assert CellLinked(s, i);
    forall j | j in t.records ensures RecordLinked(t, j) { assert RecordLinked(s, j); }
    forall r | r in t.cells ensures CellLinked(t, r) { assert CellLinked(s, r); }
    forall m | m in t.ledger ensures LeaseLinked(t, m) { assert LeaseLinked(s, m); }
  }

  // ---------------------------------------------------------------- monitor and drops, step by step

  ghost predicate Kept(s: Store) {
    Watched(s) && DroppedOnce(s)
  }

  lemma TakeKept(s: Store, groups: Groups)
    requires Kept(s) && s.next !in s.ledger
    ensures Kept(Take(s, groups))
  {
  }

  lemma AcceptKept(s: Store, n: nat, k: Identity)
    requires Kept(s) && n in s.ledger && s.ledger[n].stage.Acquired?
    ensures Kept(Accept(s, n, k))
  {
  }

  lemma CommitRefusedKept(s: Store, n: nat, manifests: map<Identity, nat>)
    requires Kept(s) && n in s.ledger && s.ledger[n].stage.Acquired?
    ensures Kept(s.(ledger := s.ledger[n := s.ledger[n].(stage := Refused)], manifests := manifests))
  {
  }

  lemma RefuseKept(s: Store, n: nat)
    requires Kept(s) && n in s.ledger && s.ledger[n].stage.Refused? && n < s.next
    ensures Kept(Refuse(s, n))
  {
  }

  lemma ForgetKept(s: Store, keys: set<Identity>)
    requires Kept(s)
    ensures Kept(ForgetKeys(s, keys))
  {
  }

  lemma ReleaseKept(s: Store, n: nat)
    requires Kept(s) && n in s.ledger && s.ledger[n].stage.Queued? && n < s.next
    ensures Kept(Release(s, n))
  {
  }

  lemma UnchargeKept(s: Store, n: nat)
    requires Kept(s) && n in s.ledger && s.ledger[n].stage.Released? && n < s.next
    ensures Kept(Uncharge(s, n))
  {
  }

  lemma SelectKept(s: Store, r: nat)
    requires Kept(s) && s.monitor.Idle? && r in s.cells && s.next !in s.ledger && s.next !in s.cells
    ensures Kept(Selected(s, r))
  {
  }

  lemma SpillOverKept(s: Store, pc: Monitor)
    requires Kept(s) && s.monitor.Spilling? && (pc.Idle? || pc.Exited?)
    ensures Kept(SpillOver(s, pc))
  {
  }

  lemma ConfirmKept(s: Store)
    requires Kept(s) && s.monitor.Spilling?
    ensures Kept(Confirm(s))
  {
  }

  lemma IsolatedKept(s: Store)
    requires Kept(s) && s.monitor.Spilling?
    ensures Kept(Isolated(s))
  {
  }

  // ---------------------------------------------------------------- the whole invariant, step by step

  lemma NextUnused(s: Store)
    requires Linked(s)
    ensures s.next !in s.ledger && s.next !in s.cells
  {
    assert s.next in s.ledger ==> LeaseLinked(s, s.next);
    assert s.next in s.cells ==> CellLinked(s, s.next);
  }

  lemma TakeKeeps(s: Store, groups: Groups)
    requires Valid(s)
    ensures Valid(Take(s, groups))
  {
    hide Accounted, Watched, DroppedOnce;
    NextUnused(s);
    TakeAccounts(s, groups);
    TakeKept(s, groups);
    LeaseStep(s, Take(s, groups), s.next);
  }

  lemma AcceptKeeps(s: Store, n: nat, k: Identity)
    requires Valid(s) && n in s.ledger && s.ledger[n].stage.Acquired? && k !in s.records && Fits(s, s.ledger[n].groups)
    ensures Valid(Accept(s, n, k))
  {
    hide Accounted, Watched, DroppedOnce, Linked, Accept, Fits;
    AcceptAccounts(s, n, k);
    AcceptLinks(s, n, k);
    AcceptKept(s, n, k);
  }

  lemma CommitRefusedKeeps(s: Store, n: nat, manifests: map<Identity, nat>)
    requires Valid(s) && n in s.ledger && s.ledger[n].stage.Acquired? && s.manifests.Keys <= manifests.Keys
    ensures Valid(s.(ledger := s.ledger[n := s.ledger[n].(stage := Refused)], manifests := manifests))
  {
    hide Accounted, Watched, DroppedOnce, RecordLinked, CellLinked;
    var ledger := s.ledger[n := s.ledger[n].(stage := Refused)];
    assert LeaseLinked(s, n);
    RestageAccounts(s, n, Refused);
    OnlyLedgerCounts(s.(ledger := ledger), s.(ledger := ledger, manifests := manifests));
    CommitRefusedKept(s, n, manifests);
    LeaseStep(s, s.(ledger := ledger, manifests := manifests), n);
  }

  lemma CommitKeeps(s: Store, n: nat, k: Identity, complete: bool, starts: bool)
    requires Valid(s) && n in s.ledger && s.ledger[n].stage.Acquired?
    ensures Valid(CommitRegion(s, n, k, complete, starts))
  {
    hide Valid, Fits, Accept;
    if !s.closed && k !in s.records && complete && Fits(s, s.ledger[n].groups) && (s.monitor.NotStarted? ==> starts) {
      AcceptKeeps(s, n, k);
    } else {
      CommitRefusedKeeps(s, n, if s.closed || k in s.records then s.manifests else s.manifests[k := n]);
    }
  }

  lemma RefuseKeeps(s: Store, n: nat)
    requires Valid(s) && n in s.ledger && s.ledger[n].stage.Refused?
    ensures Valid(Refuse(s, n))
  {
    hide Accounted, Watched, DroppedOnce;
    assert LeaseLinked(s, n);
    RefuseAccounts(s, n);
    RefuseKept(s, n);
    LeaseStep(s, Refuse(s, n), n);
  }

  lemma ForgetKeeps(s: Store, keys: set<Identity>)
    requires Valid(s)
    ensures Valid(ForgetKeys(s, keys))
  {
    hide Accounted, Watched, DroppedOnce, ForgetKeys;
    ForgetAccounts(s, keys);
    ForgetLinks(s, keys);
    ForgetKept(s, keys);
  }

  lemma ReleaseKeeps(s: Store, n: nat)
    requires Valid(s) && n in s.ledger && s.ledger[n].stage.Queued?
    ensures Valid(Release(s, n))
  {
    hide Accounted, Watched, DroppedOnce;
    assert LeaseLinked(s, n);
    ReleaseAccounts(s, n);
    ReleaseKept(s, n);
    LeaseStep(s, Release(s, n), n);
  }

  lemma UnchargeKeeps(s: Store, n: nat)
    requires Valid(s) && n in s.ledger && s.ledger[n].stage.Released?
    ensures Valid(Uncharge(s, n))
  {
    hide Accounted, Watched, DroppedOnce;
    assert LeaseLinked(s, n);
    UnchargeAccounts(s, n);
    UnchargeKept(s, n);
    LeaseStep(s, Uncharge(s, n), n);
  }

  lemma NotifiedKeeps(s: Store, k: Identity, attempt: int, event: RestoreEvent)
    requires Valid(s)
    ensures Valid(Notified(s, k, attempt, event))
  {
    OnlyLedgerCounts(s, Notified(s, k, attempt, event));
    NotifiedLinks(s, k, attempt, event);
  }

  lemma SelectKeeps(s: Store, r: nat)
    requires Valid(s) && s.monitor.Idle? && Eligible(s, r)
    ensures Valid(Selected(s, r))
    ensures Selected(s, r).used == s.used
  {
    hide Accounted, Watched, DroppedOnce;
    NextUnused(s);
    assert CellLinked(s, r);
    OwnersCharged(s, r);
    SelectAccounts(s, r);
    SelectKept(s, r);
    LeaseStep(s, Selected(s, r), s.next);
  }

  lemma SpillOverKeeps(s: Store, pc: Monitor)
    requires Valid(s) && s.monitor.Spilling? && (pc.Idle? || pc.Exited?)
    ensures Valid(SpillOver(s, pc))
  {
    hide Accounted, DroppedOnce;
    var n := s.monitor.snapshot;
    assert LeaseLinked(s, n);
    RestageAccounts(s, n, Queued);
    OnlyLedgerCounts(s.(ledger := s.ledger[n := s.ledger[n].(stage := Queued)]), SpillOver(s, pc));
    SpillOverKept(s, pc);
    LeaseStep(s, SpillOver(s, pc), n);
  }

  lemma ConfirmAccounts(s: Store)
    requires Accounted(s) && s.monitor.Spilling? && s.monitor.record in s.cells
    ensures Accounted(Confirm(s))
  {
    hide Accounted;
    var r := s.monitor.record;
    if Guarded(s, r) && !s.cells[r].cancelled {
      RestageAccounts(s, r, Queued);
      OnlyLedgerCounts(s.(ledger := Confirm(s).ledger), Confirm(s));
    } else {
      OnlyLedgerCounts(s, Confirm(s));
    }
  }

  lemma ConfirmKeeps(s: Store)
    requires Valid(s) && s.monitor.Spilling?
    ensures Valid(Confirm(s)) && Confirm(s).monitor == s.monitor
  {
    hide Accounted, DroppedOnce;
    ConfirmAccounts(s);
    ConfirmLinks(s);
    ConfirmKept(s);
  }

  lemma IsolatedKeeps(s: Store)
    requires Valid(s) && s.monitor.Spilling?
    ensures Valid(Isolated(s))
  {
    hide Accounted, DroppedOnce;
    var n := s.monitor.snapshot;
    assert LeaseLinked(s, n);
    RestageAccounts(s, n, Quarantined);
    OnlyLedgerCounts(s.(ledger := s.ledger[n := s.ledger[n].(stage := Quarantined)]), Isolated(s));
    IsolatedKept(s);
    LeaseStep(s, Isolated(s), n);
  }

  /** Flags and the monitor's own exit touch nothing that is counted. */
  lemma FlagsKeep(s: Store, closed: bool, fatal: bool, monitor: Monitor)
    requires Valid(s) && (s.fatal ==> fatal)
    requires monitor == s.monitor || (s.monitor.Idle? && monitor.Exited?)
    ensures Valid(s.(closed := closed, fatal := fatal, monitor := monitor))
  {
    var t := s.(closed := closed, fatal := fatal, monitor := monitor);
    OnlyLedgerCounts(s, t);
    forall k | k in t.records ensures RecordLinked(t, k) { assert RecordLinked(s, k); }
    forall r | r in t.cells ensures CellLinked(t, r) { assert CellLinked(s, r); }
    forall m | m in t.ledger ensures LeaseLinked(t, m) { assert LeaseLinked(s, m); }
  }

  /** Every lock region, and every step taken outside the lock, keeps the invariant. */
  lemma StepKeepsValid(s: Store, e: Event)
    requires Valid(s) && Enabled(s, e)
    ensures Valid(Next(s, e))
  {
    hide Accounted, DroppedOnce, Linked;
    match e
    case Acquire(groups) => TakeKeeps(s, groups);
    case Commit(n, k, complete, starts) => CommitKeeps(s, n, k, complete, starts);
    case ReleaseRefused(n) => RefuseKeeps(s, n);
    case Forget(req, generation) => ForgetKeeps(s, Doomed(s, req, generation));
    case RetireRelease(n) => ReleaseKeeps(s, n);
    case RetireUncharge(n) => UnchargeKeeps(s, n);
    case Notify(k, attempt, event) => NotifiedKeeps(s, k, attempt, event);
    case Select(r) => SelectKeeps(s, r);
    case SpillConfirmed => ConfirmKeeps(s); SpillOverKeeps(Confirm(s), Idle);
    case SpillDeferred => SpillOverKeeps(s, Idle);
    case SpillUnknown => IsolatedKeeps(s);
    case SpillCrashed => SpillOverKeeps(s, Exited); FlagsKeep(SpillOver(s, Exited), s.closed, true, Exited);
    case Close => FlagsKeep(s, true, s.fatal, s.monitor);
    case MonitorExit => FlagsKeep(s, s.closed, s.fatal, Exited);
    case MonitorCrash => FlagsKeep(s, s.closed, true, Exited);
  }
}

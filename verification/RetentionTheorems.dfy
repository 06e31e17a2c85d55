/** What the retention invariant gives over whole runs: owners, budgets, notifications, shutdown. */
module RetentionTheorems {
  import opened Basics
  import opened CheckpointTypes
  import opened Sums
  import opened RetentionModel
  import opened RetentionSafety
  import opened RetentionRuns

  // ---------------------------------------------------------------- every reachable state

  lemma FreshIsValid(limit: nat)
    ensures Valid(Fresh(limit))
  {
  }

  /** The invariant holds in every state of every run. */
  lemma {:induction false} RunKeepsValid(s: Store, run: seq<Event>)
    requires Valid(s) && Possible(s, run)
    ensures Valid(After(s, run))
    decreases |run|
  {
    hide Valid;
    if run != [] {
      StepKeepsValid(s, run[0]);
      RunKeepsValid(Next(s, run[0]), run[1..]);
    }
  }

  /** The leases a page is charged for: live records, spills, retirements and quarantine. */
  ghost function HoldersOf(ledger: map<nat, Lease>, p: PageObj): set<nat> {
    set n | n in ledger && ledger[n].stage.Charges() && p in PagesOf(ledger[n].groups)
  }

  lemma OneCharge(l: Lease, p: PageObj)
    ensures ChargedPages(l)[p] == if l.stage.Charges() && p in PagesOf(l.groups) then 1 else 0
  {
    assert p in Owners(l.groups) <==> p in PagesOf(l.groups);
  }

  lemma {:induction false} GatherCounts(ledger: map<nat, Lease>, p: PageObj)
    ensures Gather(ledger, ChargedPages)[p] == |HoldersOf(ledger, p)|
    decreases |ledger.Keys|
  {
    if ledger.Keys != {} {
      var k :| k in ledger.Keys;
      var rest := ledger - {k};
      GatherExtract(ledger, ChargedPages, k);
      OneCharge(ledger[k], p);
      GatherCounts(rest, p);
      assert HoldersOf(rest, p) == HoldersOf(ledger, p) - {k};
    }
  }

  /** In every reachable state the budget counts each charged page once, however many leases
      hold it; a page's count is the number of those leases; and the budget is respected. */
  lemma BudgetIsExact(limit: nat, run: seq<Event>, p: PageObj)
    requires Possible(Fresh(limit), run)
    ensures var s := After(Fresh(limit), run);
      && s.used == Sum(s.charges.Keys, Bytes)
      && s.used <= limit
      && Count(s.charges, p) == |HoldersOf(s.ledger, p)|
      && (p in s.charges <==> HoldersOf(s.ledger, p) != {})
  {
    hide Next, Linked, Watched, DroppedOnce;
    FreshIsValid(limit);
    RunKeepsValid(Fresh(limit), run);
    var s := After(Fresh(limit), run);
    LimitStays(Fresh(limit), run);
    GatherCounts(s.ledger, p);
  }

  lemma {:induction false} LimitStays(s: Store, run: seq<Event>)
    requires Possible(s, run)
    ensures After(s, run).limit == s.limit && After(s, run).next >= s.next
    decreases |run|
  {
    if run != [] {
      LimitStep(s, run[0]);
      LimitStays(Next(s, run[0]), run[1..]);
    }
  }

  lemma LimitStep(s: Store, e: Event)
    requires Enabled(s, e)
    ensures Next(s, e).limit == s.limit && Next(s, e).next >= s.next
  {
  }

  lemma {:induction false} RunJoin(s: Store, a: seq<Event>, b: seq<Event>)
    requires Possible(s, a) && Possible(After(s, a), b)
    ensures Possible(s, a + b) && After(s, a + b) == After(After(s, a), b)
    decreases |a|
  {
    hide Next, Enabled;
    if a == [] {
      assert a + b == b;
    } else {
      RunJoin(Next(s, a[0]), a[1..], b);
      assert (a + b)[0] == a[0] && (a + b)[1..] == a[1..] + b;
    }
  }

  lemma RunOf(s: Store, e: Event)
    requires Enabled(s, e)
    ensures Possible(s, [e]) && After(s, [e]) == Next(s, e)
  {
    hide Next, Enabled;
    assert Possible(Next(s, e), []) && After(Next(s, e), []) == Next(s, e);
    assert [e][1..] == [];
  }

  // ---------------------------------------------------------------- references

  /** No lease ever gives its references back twice, and a lease that left the ledger gave them back. */
  lemma ReleasedExactlyOnce(limit: nat, run: seq<Event>, n: nat)
    requires Possible(Fresh(limit), run)
    ensures var s := After(Fresh(limit), run);
      && s.drops[n] <= 1
      && (n < s.next && n !in s.ledger ==> s.drops[n] == 1)
      && (n in s.ledger && s.ledger[n].stage.Holds() ==> s.drops[n] == 0 && PagesOf(s.ledger[n].groups) <= s.refs)
  {
    FreshIsValid(limit);
    RunKeepsValid(Fresh(limit), run);
    var s := After(Fresh(limit), run);
    if n in s.ledger && s.ledger[n].stage.Holds() {
      assert LeaseLinked(s, n);
      LeasedIsHeld(s, n);
    }
  }

  /** The lease keeps its references, owned and not yet given back. */
  ghost predicate StillHolds(t: Store, n: nat, l: Lease) {
    n in t.ledger && t.ledger[n] == l && t.drops[n] == 0 && PagesOf(l.groups) <= t.refs
  }

  /** The owners of a spill with unknown completion are never given back, whatever happens next. */
  lemma {:induction false} QuarantineIsForever(s: Store, run: seq<Event>, n: nat)
    requires Valid(s) && Possible(s, run)
    requires n in s.ledger && s.ledger[n].stage.Quarantined?
    ensures StillHolds(After(s, run), n, s.ledger[n])
    ensures Owners(s.ledger[n].groups) <= After(s, run).charges.Keys
    decreases |run|
  {
    hide Next, Possible;
    if run == [] {
      Holding(s, n);
      forall p | p in Owners(s.ledger[n].groups) ensures p in s.charges { LeasedIsCharged(s, n, p); }
    } else {
      OneStep(s, run);
      OthersLeaveIt(s, run[0], n);
      StepKeepsValid(s, run[0]);
      QuarantineIsForever(Next(s, run[0]), run[1..], n);
    }
  }

  lemma OneStep(s: Store, run: seq<Event>)
    requires run != []
    ensures Possible(s, run) <==> Enabled(s, run[0]) && Possible(Next(s, run[0]), run[1..])
  {
  }

  lemma Holding(s: Store, n: nat)
    requires Valid(s) && n in s.ledger && s.ledger[n].stage.Holds()
    ensures StillHolds(s, n, s.ledger[n])
  {
    assert LeaseLinked(s, n);
    LeasedIsHeld(s, n);
  }

  /** A publication's references are its own until its own commit, whatever other threads do. */
  lemma {:induction false} TakenUntilCommit(s: Store, run: seq<Event>, n: nat)
    requires Valid(s) && Possible(s, run)
    requires n in s.ledger && s.ledger[n].stage.Acquired?
    requires forall i :: 0 <= i < |run| ==> !Commits(run[i], n)
    ensures StillHolds(After(s, run), n, s.ledger[n])
    decreases |run|
  {
    hide Next, Possible, Valid;
    if run == [] {
      Holding(s, n);
    } else {
      OneStep(s, run);
      assert !Commits(run[0], n);
      ValidParts(s);
      OthersLeaveIt(s, run[0], n);
      StepKeepsValid(s, run[0]);
      TakenUntilCommit(Next(s, run[0]), run[1..], n);
    }
  }

  lemma ValidParts(s: Store)
    requires Valid(s)
    ensures Linked(s) && Watched(s)
  {
  }

  predicate Commits(e: Event, n: nat) { e.Commit? && e.lease == n }

  /** Every run from here that does not commit lease n leaves its references owned. */
  ghost predicate OwnUntilCommit(s: Store, n: nat, l: Lease) {
    forall run {:trigger After(s, run)} :: Possible(s, run) && (forall i :: 0 <= i < |run| ==> !Commits(run[i], n)) ==>
      StillHolds(After(s, run), n, l)
  }

  /** Every run from here leaves the references of lease n owned and its owners charged. */
  ghost predicate OwnForGood(s: Store, n: nat, l: Lease) {
    forall run {:trigger After(s, run)} :: Possible(s, run) ==>
      StillHolds(After(s, run), n, l) && Owners(l.groups) <= After(s, run).charges.Keys
  }

  lemma TakenIsOwn(s: Store, n: nat)
    requires Valid(s) && n in s.ledger && s.ledger[n].stage.Acquired?
    ensures OwnUntilCommit(s, n, s.ledger[n])
  {
    hide Valid, Possible, After, StillHolds;
    forall run | Possible(s, run) && forall i :: 0 <= i < |run| ==> !Commits(run[i], n)
      ensures StillHolds(After(s, run), n, s.ledger[n])
    {
      TakenUntilCommit(s, run, n);
    }
  }

  lemma QuarantinedIsOwn(s: Store, n: nat)
    requires Valid(s) && n in s.ledger && s.ledger[n].stage.Quarantined?
    ensures OwnForGood(s, n, s.ledger[n])
  {
    hide Valid, Possible, After, StillHolds;
    forall run | Possible(s, run)
      ensures StillHolds(After(s, run), n, s.ledger[n]) && Owners(s.ledger[n].groups) <= After(s, run).charges.Keys
    {
      QuarantineIsForever(s, run, n);
    }
  }

  /** Nobody else touches a lease that is in quarantine or not yet committed. */
  lemma OthersLeaveIt(s: Store, e: Event, n: nat)
    requires Linked(s) && Watched(s) && Enabled(s, e)
    requires n in s.ledger && (s.ledger[n].stage.Quarantined? || (s.ledger[n].stage.Acquired? && !Commits(e, n)))
    ensures n in Next(s, e).ledger && Next(s, e).ledger[n] == s.ledger[n]
  {
    hide RecordLinked, CellLinked, PageIndex, Charged, Uncharged, LastLease, Owners, PagesOf, Attempts, CommitRegion, ForgetKeys, Confirm;
    NextUnused(s);
    hide Linked;
    match e {
      case Commit(m, k, complete, starts) => CommitKeepsOthers(s, m, k, complete, starts, n);
      case Forget(req, generation) => ForgetKeepsOthers(s, Doomed(s, req, generation), n);
      case SpillConfirmed => ConfirmKeepsOthers(s, n);
      case _ =>
    }
  }

  lemma CommitKeepsOthers(s: Store, m: nat, k: Identity, complete: bool, starts: bool, n: nat)
    requires m in s.ledger && n in s.ledger && m != n
    ensures var t := CommitRegion(s, m, k, complete, starts); n in t.ledger && t.ledger[n] == s.ledger[n]
  {
    hide Fits, Charged, Owners, PageIndex, Sum;
  }

  lemma ForgetKeepsOthers(s: Store, keys: set<Identity>, n: nat)
    requires n in s.ledger && !s.ledger[n].stage.Protected?
    ensures n in ForgetKeys(s, keys).ledger && ForgetKeys(s, keys).ledger[n] == s.ledger[n]
  {
  }

  lemma ConfirmKeepsOthers(s: Store, n: nat)
    requires s.monitor.Spilling? && s.monitor.record in s.cells && n in s.ledger && !s.ledger[n].stage.Protected?
    ensures n in Confirm(s).ledger && Confirm(s).ledger[n] == s.ledger[n]
    ensures Confirm(s).monitor == s.monitor && (s.monitor.snapshot in s.ledger ==> s.monitor.snapshot in Confirm(s).ledger)
  {
  }

  /** What the retained lookup answers: the page of a live record with the asker's retention id. */
  function RetainedPage(s: Store, identity: Identity, retentionId: nat, group: nat, source: CheckpointPage): Option<PageObj> {
    if identity in s.records && s.records[identity] in s.cells
       && s.cells[s.records[identity]].retentionId == retentionId
       && (group, source) in s.cells[s.records[identity]].pages
    then Some(s.cells[s.records[identity]].pages[(group, source)])
    else None
  }

  lemma {:induction false} IndexIsHeld(group: nat, held: seq<Entry>, key: (nat, CheckpointPage))
    requires key in IndexOf(group, held)
    ensures key.0 == group && (key.1, IndexOf(group, held)[key]) in held
  {
    var k := |held| - 1;
    if key != (group, held[k].0) { IndexIsHeld(group, held[..k], key); }
  }

  /** A retained lookup only takes a further reference to a page whose protecting lease still stands. */
  lemma RetainedPageIsLeased(s: Store, identity: Identity, retentionId: nat, group: nat, source: CheckpointPage)
    requires Valid(s)
    requires RetainedPage(s, identity, retentionId, group, source).Some?
    ensures var p := RetainedPage(s, identity, retentionId, group, source).value;
      && retentionId in s.ledger && s.ledger[retentionId].stage.Protected?
      && group < 2 && (source, p) in s.ledger[retentionId].groups[group]
      && p in s.refs && p in s.charges
  {
    var r := s.records[identity];
    assert CellLinked(s, r);
    var p := RetainedPage(s, identity, retentionId, group, source).value;
    var groups := s.cells[r].groups;
    var key := (group, source);
    if key in IndexOf(1, groups[1]) { IndexIsHeld(1, groups[1], key); } else { IndexIsHeld(0, groups[0], key); }
    assert (source, p) in groups[group];
    EntryIsPage(groups, group, (source, p));
    LeasedIsHeld(s, r);
    LeasedIsCharged(s, r, p);
  }

  lemma EntryIsPage(groups: Groups, group: nat, e: Entry)
    requires group < 2 && e in groups[group]
    ensures e.1 in PagesOf(groups)
  {
    var i :| 0 <= i < |groups[group]| && groups[group][i] == e;
    assert Pages(groups[group])[i] == e.1;
    assert e.1 in Pages(groups[group]);
  }

  // ---------------------------------------------------------------- shutdown

  /** Once closed, no record or offer is ever added again. */
  lemma {:induction false} ClosedOnlyShrinks(s: Store, run: seq<Event>)
    requires s.closed && Possible(s, run)
    ensures After(s, run).closed
    ensures After(s, run).manifests.Keys <= s.manifests.Keys
    decreases |run|
  {
    if run != [] {
      ClosedStep(s, run[0]);
      ClosedOnlyShrinks(Next(s, run[0]), run[1..]);
    }
  }

  lemma ClosedStep(s: Store, e: Event)
    requires s.closed && Enabled(s, e)
    ensures Next(s, e).closed && Next(s, e).manifests.Keys <= s.manifests.Keys
  {
  }

  /** Closing, forgetting and the monitor's exit give back neither references nor charges. */
  predicate OnlyForgets(run: seq<Event>) {
    forall i :: 0 <= i < |run| ==> run[i].Close? || run[i].Forget? || run[i].MonitorExit?
  }

  lemma {:induction false} ForgetsKeepPages(s: Store, run: seq<Event>)
    requires Possible(s, run) && OnlyForgets(run)
    ensures var t := After(s, run); t.refs == s.refs && t.charges == s.charges && t.used == s.used && t.drops == s.drops
    decreases |run|
  {
    if run != [] {
      assert run[0].Close? || run[0].Forget? || run[0].MonitorExit?;
      ForgetsKeepPages(Next(s, run[0]), run[1..]);
    }
  }

  /** Forgetting one identity after closing removes it for good. */
  lemma {:induction false} ForgottenStaysForgotten(s: Store, run: seq<Event>, k: Identity)
    requires s.closed && Possible(s, run)
    requires Forget(k.req, Some(k.generation)) in run
    ensures k !in After(s, run).manifests
    decreases |run|
  {
    ClosedStep(s, run[0]);
    if run[0] == Forget(k.req, Some(k.generation)) {
      ClosedOnlyShrinks(Next(s, run[0]), run[1..]);
    } else {
      ForgottenStaysForgotten(Next(s, run[0]), run[1..], k);
    }
  }

  /** Nothing outstanding but the leases of live records. */
  ghost predicate Settled(s: Store) {
    forall n :: n in s.ledger ==> s.ledger[n].stage.Protected?
  }

  /** Shutdown: close, forget every identity listed at that moment, let every other step interleave
      freely, and let publications, the spill and the retire jobs finish without a quarantine.
      Then nothing is owned, nothing is charged, and every lease ever taken was dropped once. */
  lemma ShutdownLeavesNothing(s: Store, run: seq<Event>)
    requires Valid(s) && s.closed && Possible(s, run)
    requires forall k :: k in s.manifests ==> Forget(k.req, Some(k.generation)) in run
    requires Settled(After(s, run))
    ensures var t := After(s, run);
      && t.records == map[] && t.ledger == map[]
      && t.used == 0 && t.charges == map[] && t.refs == multiset{}
      && forall n: nat :: n < t.next ==> t.drops[n] == 1
  {
    var t := After(s, run);
    RunKeepsValid(s, run);
    ClosedOnlyShrinks(s, run);
    forall k | k in s.manifests ensures k !in t.manifests { ForgottenStaysForgotten(s, run, k); }
    assert t.manifests.Keys == {};
    NothingOwned(t);
  }

  lemma NothingOwned(t: Store)
    requires Valid(t) && t.manifests.Keys == {} && Settled(t)
    ensures t.records == map[] && t.ledger == map[]
    ensures t.used == 0 && t.charges == map[] && t.refs == multiset{}
    ensures forall n: nat :: n < t.next ==> t.drops[n] == 1
  {
    forall k ensures k !in t.records { assert k in t.records ==> RecordLinked(t, k); }
    assert t.records == map[];
    forall n ensures n !in t.ledger { assert n in t.ledger ==> LeaseLinked(t, n) && (n in t.cells ==> CellLinked(t, n)); }
    assert t.ledger == map[];
    forall p ensures p !in t.charges { assert Count(t.charges, p) == Gather(t.ledger, ChargedPages)[p]; }
    assert t.charges == map[];
  }

  // ---------------------------------------------------------------- finishing what is outstanding

  /** The stages a lease still has to leave before it is settled. */
  function Steps(l: Lease): multiset<Stage> {
    match l.stage
    case Acquired => multiset{Acquired, Refused}
    case Refused => multiset{Refused}
    case Snapshot => multiset{Snapshot, Queued, Released}
    case Queued => multiset{Queued, Released}
    case Released => multiset{Released}
    case _ => multiset{}
  }

  /** Work still owed by publishers, the monitor and the retirement executor. */
  ghost function Owed(s: Store): nat {
    |Gather(s.ledger, Steps)|
  }

  /** The steps that finish a publication, a spill or a retirement once the store is closed. */
  predicate Finishing(e: Event) {
    e.Commit? || e.ReleaseRefused? || e.SpillDeferred? || e.RetireRelease? || e.RetireUncharge?
  }

  ghost predicate NoQuarantine(s: Store) {
    forall n :: n in s.ledger ==> !s.ledger[n].stage.Quarantined?
  }

  lemma OwedSet(s: Store, t: Store, n: nat)
    requires n in s.ledger
    ensures t.ledger == s.ledger - {n} ==> Owed(t) + |Steps(s.ledger[n])| == Owed(s)
    ensures n in t.ledger && t.ledger == s.ledger[n := t.ledger[n]] ==>
      Owed(t) + |Steps(s.ledger[n])| == Owed(s) + |Steps(t.ledger[n])|
  {
    GatherExtract(s.ledger, Steps, n);
    if n in t.ledger && t.ledger == s.ledger[n := t.ledger[n]] { GatherUpdate(s.ledger, Steps, n, t.ledger[n]); }
  }

  /** Every finishing step of a closed store leaves less to do, and starts nothing new. */
  lemma FinishingDecreases(s: Store, e: Event)
    requires Valid(s) && s.closed && NoQuarantine(s) && Enabled(s, e) && Finishing(e)
    ensures Owed(Next(s, e)) < Owed(s)
    ensures Next(s, e).closed && NoQuarantine(Next(s, e))
  {
    hide Accounted, DroppedOnce, Linked, Gather, Owed, Next, Steps;
    var n := if e.SpillDeferred? then s.monitor.snapshot else e.lease;
    FinishingMoves(s, e, n);
    OwedSet(s, Next(s, e), n);
  }

  /** It takes one lease one stage on. */
  lemma FinishingMoves(s: Store, e: Event, n: nat)
    requires Watched(s) && s.closed && NoQuarantine(s) && Enabled(s, e) && Finishing(e)
    requires n == if e.SpillDeferred? then s.monitor.snapshot else e.lease
    ensures var t := Next(s, e);
      && n in s.ledger && t.closed
      && (t.ledger == s.ledger - {n} || (n in t.ledger && t.ledger == s.ledger[n := t.ledger[n]]))
      && |Steps(s.ledger[n])| > (if n in t.ledger then |Steps(t.ledger[n])| else 0)
      && (n in t.ledger ==> !t.ledger[n].stage.Quarantined?)
  {
    hide Charged, Uncharged, LastLease, PagesOf, Owners, CommitRegion, SpillOver, Steps;
    StepsLeft(s.ledger[n]);
    if e.Commit? {
      ClosedRefuses(s, n, e.identity, e.complete, e.starts);
    } else if e.SpillDeferred? {
      SpillMoves(s);
    }
  }

  lemma StepsLeft(l: Lease)
    ensures l.stage.Acquired? ==> |Steps(l)| > |Steps(l.(stage := Refused))|
    ensures l.stage.Refused? || l.stage.Released? ==> |Steps(l)| > 0
    ensures l.stage.Snapshot? ==> |Steps(l)| > |Steps(l.(stage := Queued))|
    ensures l.stage.Queued? ==> |Steps(l)| > |Steps(l.(stage := Released))|
  {
  }

  lemma ClosedRefuses(s: Store, n: nat, k: Identity, complete: bool, starts: bool)
    requires s.closed && n in s.ledger
    ensures CommitRegion(s, n, k, complete, starts) == s.(ledger := s.ledger[n := s.ledger[n].(stage := Refused)])
  {
  }

  lemma SpillMoves(s: Store)
    requires s.monitor.Spilling? && s.monitor.snapshot in s.ledger
    ensures SpillOver(s, Idle).ledger == s.ledger[s.monitor.snapshot := s.ledger[s.monitor.snapshot].(stage := Queued)]
    ensures SpillOver(s, Idle).closed == s.closed
  {
  }

  /** While something is outstanding, some finishing step can be taken. */
  lemma SomeFinishing(s: Store) returns (e: Event)
    requires Valid(s) && NoQuarantine(s) && !Settled(s)
    ensures Finishing(e) && Enabled(s, e)
  {
    var n :| n in s.ledger && !s.ledger[n].stage.Protected?;
    match s.ledger[n].stage
    case Acquired => e := Commit(n, Identity("", 0), false, false);
    case Refused => e := ReleaseRefused(n);
    case Snapshot => e := SpillDeferred;
    case Queued => e := RetireRelease(n);
    case _ => e := RetireUncharge(n);
  }

  /** So a closed store without quarantine cannot finish for ever: no run of finishing steps is longer
      than what was owed. */
  lemma {:induction false} FinishingIsBounded(s: Store, run: seq<Event>)
    requires Valid(s) && s.closed && NoQuarantine(s) && Possible(s, run)
    requires forall i :: 0 <= i < |run| ==> Finishing(run[i])
    ensures |run| + Owed(After(s, run)) <= Owed(s)
    decreases |run|
  {
    hide Valid, NoQuarantine, Owed;
    if run != [] {
      FinishingDecreases(s, run[0]);
      StepKeepsValid(s, run[0]);
      FinishingIsBounded(Next(s, run[0]), run[1..]);
    }
  }

  /** And it cannot get stuck before it is settled: taking finishing steps until none is left always
      ends with every lease settled. */
  lemma {:induction false} SettlesFrom(s: Store) returns (run: seq<Event>)
    requires Valid(s) && s.closed && NoQuarantine(s)
    ensures Possible(s, run) && Settled(After(s, run))
    ensures forall i :: 0 <= i < |run| ==> Finishing(run[i])
    decreases Owed(s)
  {
    hide Valid, NoQuarantine, Owed, Next, Enabled;
    if Settled(s) {
      run := [];
    } else {
      var e := SomeFinishing(s);
      FinishingDecreases(s, e);
      StepKeepsValid(s, e);
      var rest := SettlesFrom(Next(s, e));
      run := [e] + rest;
      assert run[1..] == rest;
    }
  }

  /** A closed store that forgot its offers can always be brought down to nothing. */
  lemma ShutdownCanFinish(s: Store) returns (run: seq<Event>)
    requires Valid(s) && s.closed && NoQuarantine(s) && s.manifests == map[]
    ensures Possible(s, run) && forall i :: 0 <= i < |run| ==> Finishing(run[i])
    ensures var t := After(s, run);
      && t.ledger == map[] && t.used == 0 && t.charges == map[] && t.refs == multiset{}
      && forall n: nat :: n < t.next ==> t.drops[n] == 1
  {
    run := SettlesFrom(s);
    ShutdownLeavesNothing(s, run);
  }

  // ---------------------------------------------------------------- notifications and reused identities

  predicate Forgets(e: Event, k: Identity) {
    e.Forget? && e.req == k.req && (e.generation.None? || e.generation.value == k.generation)
  }

  /** This commit lists a new record under k. */
  ghost predicate Accepts(s: Store, e: Event, k: Identity)
    requires Enabled(s, e)
  {
    e.Commit? && e.identity == k && Next(s, e).ledger[e.lease].stage.Protected?
  }

  predicate ForgottenIn(run: seq<Event>, k: Identity) {
    exists i :: 0 <= i < |run| && Forgets(run[i], k)
  }

  /** k was accepted during the run and not forgotten after that. */
  ghost predicate AcceptedIn(s: Store, run: seq<Event>, k: Identity)
    requires Possible(s, run)
    decreases |run|
  {
    run != [] && ((Accepts(s, run[0], k) && !ForgottenIn(run[1..], k)) || AcceptedIn(Next(s, run[0]), run[1..], k))
  }

  lemma CommitNames(s: Store, n: nat, j: Identity, complete: bool, starts: bool, k: Identity)
    requires Valid(s) && n in s.ledger && s.ledger[n].stage.Acquired?
    ensures var t := CommitRegion(s, n, j, complete, starts);
      && (k in s.records ==> k in t.records && t.records[k] == s.records[k] && !(j == k && t.ledger[n].stage.Protected?))
      && (k in t.records <==> k in s.records || (j == k && t.ledger[n].stage.Protected?))
      && (k !in s.records && k in t.records ==> t.records[k] == n && n !in s.cells)
      && s.cells.Keys <= t.cells.Keys
  {
    hide Accounted, DroppedOnce, Watched, Fits, Sum, Charged, PageIndex, Owners;
    assert LeaseLinked(s, n);
  }

  /** What one event does to the record an identity names. */
  lemma StepNames(s: Store, e: Event, k: Identity)
    requires Valid(s) && Enabled(s, e)
    ensures k in Next(s, e).records <==> (k in s.records && !Forgets(e, k)) || Accepts(s, e, k)
    ensures k in s.records && !Forgets(e, k) ==> Next(s, e).records[k] == s.records[k]
    ensures Accepts(s, e, k) ==> k !in s.records && Next(s, e).records[k] !in s.cells
    ensures s.cells.Keys <= Next(s, e).cells.Keys
  {
    hide Valid, CommitRegion, Attempts, PageIndex, Charged, Uncharged, LastLease, Owners, PagesOf, Sum, Tombstone;
    if e.Commit? {
      CommitNames(s, e.lease, e.identity, e.complete, e.starts, k);
    } else if e.Forget? {
      ForgetNames(s, e.req, e.generation, k);
    }
  }

  lemma ForgetNames(s: Store, req: string, generation: Option<int>, k: Identity)
    requires Valid(s)
    ensures var t := ForgetKeys(s, Doomed(s, req, generation));
      && (k in t.records <==> k in s.records && !Forgets(Forget(req, generation), k))
      && (k in t.records ==> t.records[k] == s.records[k])
      && t.cells.Keys == s.cells.Keys
  {
    hide Accounted, DroppedOnce, Watched;
    if k in s.records { assert RecordLinked(s, k); }
  }

  /** Over a run an identity keeps its record until it is forgotten, and afterwards names the record
      of its last acceptance, which is a new one. */
  lemma {:induction false} RunNames(s: Store, run: seq<Event>, k: Identity)
    requires Valid(s) && Possible(s, run)
    ensures k in After(s, run).records <==> (k in s.records && !ForgottenIn(run, k)) || AcceptedIn(s, run, k)
    ensures k in s.records && !ForgottenIn(run, k) ==> After(s, run).records[k] == s.records[k] && !AcceptedIn(s, run, k)
    ensures AcceptedIn(s, run, k) ==> After(s, run).records[k] !in s.cells
    decreases |run|
  {
    hide Valid, Next, Enabled, Accepts;
    if run != [] {
      var t := Next(s, run[0]);
      StepNames(s, run[0], k);
      StepKeepsValid(s, run[0]);
      RunNames(t, run[1..], k);
      assert ForgottenIn(run, k) <==> Forgets(run[0], k) || ForgottenIn(run[1..], k) by { ForgottenSplit(run, k); }
    }
  }

  lemma ForgottenSplit(run: seq<Event>, k: Identity)
    requires run != []
    ensures ForgottenIn(run, k) <==> Forgets(run[0], k) || ForgottenIn(run[1..], k)
  {
    if ForgottenIn(run, k) {
      var i :| 0 <= i < |run| && Forgets(run[i], k);
      if i > 0 { assert run[1..][i - 1] == run[i]; }
    }
    if ForgottenIn(run[1..], k) {
      var i :| 0 <= i < |run[1..]| && Forgets(run[1..][i], k);
      assert run[i + 1] == run[1..][i];
    }
  }

  /** A forget of exactly this identity cancels record r now. */
  ghost predicate Cancels(s: Store, k: Identity, r: nat) {
    r in s.cells && !s.cells[r].cancelled && Next(s, Forget(k.req, Some(k.generation))).cells[r].cancelled
  }

  /** It cancels the record the identity names, and no other. */
  lemma CancelsTheNamed(s: Store, k: Identity, r: nat)
    requires Valid(s)
    ensures Cancels(s, k, r) <==> k in s.records && s.records[k] == r
  {
    hide Accounted, DroppedOnce, Watched;
    var doomed := Doomed(s, k.req, Some(k.generation));
    var gone := RecordsOf(s, doomed);
    assert forall j :: j in doomed ==> j == k;
    if k in s.records {
      assert RecordLinked(s, k);
      assert k in doomed && s.records[k] in gone;
      assert CellLinked(s, s.records[k]);
    }
  }

  /** The join of record r and the forget it calls for are two lock regions. Whatever runs in between,
      the forget cancels r exactly when k was not forgotten in between, and cancels another record
      exactly when k was accepted again in between and not forgotten after that. */
  lemma LateForget(s: Store, run: seq<Event>, k: Identity)
    requires Valid(s) && Possible(s, run) && k in s.records
    ensures Cancels(After(s, run), k, s.records[k]) <==> !ForgottenIn(run, k)
    ensures (exists q :: q != s.records[k] && Cancels(After(s, run), k, q)) <==> AcceptedIn(s, run, k)
    ensures AcceptedIn(s, run, k) ==> ForgottenIn(run, k)
  {
    hide Next, Enabled, Accounted, DroppedOnce, Watched, Cancels, ForgottenIn, AcceptedIn;
    var t := After(s, run);
    RunKeepsValid(s, run);
    RunNames(s, run, k);
    assert RecordLinked(s, k);
    forall q ensures Cancels(t, k, q) <==> k in t.records && t.records[k] == q { CancelsTheNamed(t, k, q); }
    if AcceptedIn(s, run, k) {
      assert Cancels(t, k, t.records[k]) && t.records[k] != s.records[k];
    }
  }

  ghost predicate Follows(s: Store, e: Event, t: Store) {
    Enabled(s, e) && t == Next(s, e)
  }

  /** A trace of states certifies a run. */
  lemma {:induction false} Traced(trace: seq<Store>, run: seq<Event>)
    requires |trace| == |run| + 1
    requires forall i :: 0 <= i < |run| ==> Follows(trace[i], run[i], trace[i + 1])
    ensures Possible(trace[0], run)
    ensures After(trace[0], run) == trace[|run|]
    decreases |run|
  {
    hide Next, Enabled;
    if run != [] {
      assert Follows(trace[0], run[0], trace[1]);
      Traced(trace[1..], run[1..]);
    }
  }

  // ---------------------------------------------------------------- a run in which the identity is reused

  const K := Identity("r", 1)

  /** One page per group, each of four bytes: a paired offer that just fits a budget of eight. */
  const P0 := PageObj(0, 4)
  const P1 := PageObj(1, 4)
  const S0 := CheckpointPage(0, 1, 10)
  const S1 := CheckpointPage(0, 1, 11)
  const OFFER: Groups := [[(S0, P0)], [(S1, P1)]]
  const BUDGET := 8

  function Cell(r: nat, attempts: map<int, set<RestoreEvent>>): Retention {
    Retention(K, r, OFFER, false, attempts, false, map[(0, S0) := P0, (1, S1) := P1])
  }

  /** The offer is protected as record 0 and has seen these notifications. */
  function Live(attempts: map<int, set<RestoreEvent>>): Store {
    Store(BUDGET, map[K := 0], map[K := 0], map[0 := Cell(0, attempts)], map[P0 := 1, P1 := 1], 8, false, false, Idle,
          map[0 := Lease(OFFER, Protected)], multiset{P0, P1}, multiset{}, 1)
  }

  /** Attempt 7 has completed the join of record 0. */
  function JoinedStore(): Store {
    Live(map[7 := {Begin, Admitted, Ack}])
  }

  function Publication(lease: nat): seq<Event> {
    [Acquire(OFFER), Commit(lease, K, true, true)]
  }

  function Attempt(a: int): seq<Event> {
    [Notify(K, a, Begin), Notify(K, a, Admitted), Notify(K, a, Ack)]
  }

  function Between(): seq<Event> {
    [Forget("r", Some(1))] + Publication(1)
  }

  lemma OfferPages()
    ensures PagesOf(OFFER) == multiset{P0, P1} && Owners(OFFER) == {P0, P1}
    ensures PageIndex(OFFER) == map[(0, S0) := P0, (1, S1) := P1]
  {
    assert Pages(OFFER[0]) == [P0] && Pages(OFFER[1]) == [P1];
    assert IndexOf(0, OFFER[0]) == map[(0, S0) := P0] by { assert IndexOf(0, []) == map[]; }
    assert IndexOf(1, OFFER[1]) == map[(1, S1) := P1] by { assert IndexOf(1, []) == map[]; }
  }

  lemma TwoPages()
    ensures Sum({P0, P1}, Bytes) == 8 && Sum({}, Bytes) == 0
  {
    SumExtract({P0, P1}, Bytes, P0);
    assert {P0, P1} - {P0} == {P1};
    SumExtract({P1}, Bytes, P1);
    assert {P1} - {P1} == {};
  }

  lemma Unions()
    ensures {} + {Begin} == {Begin}
    ensures {Begin} + {Admitted} == {Begin, Admitted}
    ensures {Begin, Admitted} + {Ack} == {Begin, Admitted, Ack}
  {
  }

  lemma NotifyLive(a: map<int, set<RestoreEvent>>, event: RestoreEvent, b: map<int, set<RestoreEvent>>)
    requires Attempts(a, 7, event) == b
    ensures Follows(Live(a), Notify(K, 7, event), Live(b))
  {
    assert Notified(Live(a), K, 7, event).cells == Live(b).cells;
  }

  lemma CompleteJoin()
    ensures Attempts(map[], 7, Begin) == map[7 := {Begin}]
    ensures Attempts(map[7 := {Begin}], 7, Admitted) == map[7 := {Begin, Admitted}]
    ensures Attempts(map[7 := {Begin, Admitted}], 7, Ack) == map[7 := {Begin, Admitted, Ack}]
  {
    Unions();
    assert map[7 := {Begin}][7 := {Begin, Admitted}] == map[7 := {Begin, Admitted}];
    assert map[7 := {Begin, Admitted}][7 := {Begin, Admitted, Ack}] == map[7 := {Begin, Admitted, Ack}];
  }

  lemma PublishLive()
    ensures Follows(Fresh(BUDGET), Acquire(OFFER), Take(Fresh(BUDGET), OFFER))
    ensures Follows(Take(Fresh(BUDGET), OFFER), Commit(0, K, true, true), Live(map[]))
  {
    hide Sum, PageIndex, PagesOf, Owners;
    OfferPages();
    TwoPages();
    var s := Take(Fresh(BUDGET), OFFER);
    assert {P0, P1} - s.charges.Keys == {P0, P1};
    assert Charged(map[], {P0, P1}) == map[P0 := 1, P1 := 1];
    assert s.ledger[0] == Lease(OFFER, Acquired);
    assert Accept(s, 0, K) == Live(map[]);
  }

  /** With a positive budget and a non-empty paired offer, a publication and a complete attempt lead
      to a joined record. */
  lemma JoinIsReachable()
    ensures Possible(Fresh(BUDGET), Publication(0) + Attempt(7))
    ensures After(Fresh(BUDGET), Publication(0) + Attempt(7)) == JoinedStore()
  {
    hide Follows, Next, Enabled;
    PublishLive();
    CompleteJoin();
    NotifyLive(map[], Begin, map[7 := {Begin}]);
    NotifyLive(map[7 := {Begin}], Admitted, map[7 := {Begin, Admitted}]);
    NotifyLive(map[7 := {Begin, Admitted}], Ack, map[7 := {Begin, Admitted, Ack}]);
    Traced([Fresh(BUDGET), Take(Fresh(BUDGET), OFFER), Live(map[]), Live(map[7 := {Begin}]),
            Live(map[7 := {Begin, Admitted}]), JoinedStore()],
           Publication(0) + Attempt(7));
  }

  /** The store once the identity was forgotten: the first lease waits for retirement, still charged. */
  function ForgottenStore(): Store {
    JoinedStore().(manifests := map[], records := map[], cells := map[0 := Tombstone(JoinedStore().cells[0])],
                   ledger := map[0 := Lease(OFFER, Queued)])
  }

  /** The store once the identity was published again, over the same pages. */
  function ReusedStore(): Store {
    Store(BUDGET, map[K := 1], map[K := 1], map[0 := Tombstone(JoinedStore().cells[0]), 1 := Cell(1, map[])],
          map[P0 := 2, P1 := 2], 8, false, false, Idle,
          map[0 := Lease(OFFER, Queued), 1 := Lease(OFFER, Protected)], multiset{P0, P0, P1, P1}, multiset{}, 2)
  }

  lemma ForgetJoined()
    ensures Follows(JoinedStore(), Forget("r", Some(1)), ForgottenStore())
  {
    var t := JoinedStore();
    assert Doomed(t, "r", Some(1)) == {K};
    assert RecordsOf(t, {K}) == {0};
    assert ForgetKeys(t, {K}) == ForgottenStore();
  }

  lemma TakeAgain()
    ensures Follows(ForgottenStore(), Acquire(OFFER), Take(ForgottenStore(), OFFER))
  {
    hide PageIndex, PagesOf, Owners, Tombstone;
  }

  lemma PublishAgain()
    ensures Follows(Take(ForgottenStore(), OFFER), Commit(1, K, true, true), ReusedStore())
  {
    hide Sum, PageIndex, PagesOf, Owners, Tombstone, Charged;
    OfferPages();
    TwoPages();
    var s := Take(ForgottenStore(), OFFER);
    assert {P0, P1} - s.charges.Keys == {};
    ChargeAgain(s.charges);
    assert s.ledger[1] == Lease(OFFER, Acquired);
    assert Accept(s, 1, K) == ReusedStore();
  }

  lemma ChargeAgain(charges: map<PageObj, nat>)
    requires charges == map[P0 := 1, P1 := 1]
    ensures Charged(charges, {P0, P1}) == map[P0 := 2, P1 := 2]
  {
  }

  lemma ReuseIsPossible()
    ensures Possible(JoinedStore(), Between()) && After(JoinedStore(), Between()) == ReusedStore()
  {
    hide Follows, Next, Enabled;
    ForgetJoined();
    TakeAgain();
    PublishAgain();
    Traced([JoinedStore(), ForgottenStore(), Take(ForgottenStore(), OFFER), ReusedStore()], Between());
  }

  /** From the reachable joined state the identity can be forgotten and published again before the
      joiner's own forget runs; that forget then cancels record 1, which saw no notification. */
  lemma LateForgetRetiresANewRecord()
    ensures Retires(map[7 := {Begin, Admitted}], 7, Ack)
    ensures Possible(JoinedStore(), Between()) && After(JoinedStore(), Between()) == ReusedStore()
    ensures ReusedStore().cells[1].attempts == map[] && Cancels(ReusedStore(), K, 1)
  {
    hide Next, Enabled, Valid, Cancels, Possible, After;
    assert Retires(map[7 := {Begin, Admitted}], 7, Ack) by { Unions(); }
    JoinIsReachable();
    ReuseIsPossible();
    FreshIsValid(BUDGET);
    RunKeepsValid(Fresh(BUDGET), Publication(0) + Attempt(7));
    RunKeepsValid(JoinedStore(), Between());
    CancelsTheNamed(ReusedStore(), K, 1);
  }
}

/** The retention protocol of the checkpoint write-back store, one event per lock region.

    Every publication and every spill takes a lease on page objects. A lease first takes
    references, is then charged against the byte budget, later drops its references and
    finally its charge. The ledger records the stage of every lease still outstanding. */
module RetentionModel {
  import opened Basics
  import opened CheckpointTypes
  import opened Sums

  datatype Identity = Identity(req: string, generation: int)

  datatype RestoreEvent = Begin | Admitted | Ack | Failed

  /** Where a lease is between taking its references and giving everything back. */
  datatype Stage =
    | Acquired     // taken by a publication that has not committed yet
    | Refused      // the publication was refused: only references to give back
    | Protected    // owned by a live record
    | Snapshot     // owned by the monitor while it spills
    | Queued       // handed to retirement, nothing given back yet
    | Released     // references given back, charge still standing
    | Quarantined  // native completion unknown: never given back
  {
    predicate Holds() { !Released? }
    predicate Charges() { !Acquired? && !Refused? }
  }

  datatype Lease = Lease(groups: Groups, stage: Stage)

  datatype Retention = Retention(
    identity: Identity,
    retentionId: nat,
    groups: Groups,
    remote: bool,
    attempts: map<int, set<RestoreEvent>>,
    cancelled: bool,
    pages: map<(nat, CheckpointPage), PageObj>)

  datatype Monitor = NotStarted | Idle | Spilling(record: nat, snapshot: nat) | Exited

  /** A record is named by the lease its publication took; so is its retention id. */
  datatype Store = Store(
    limit: nat,
    manifests: map<Identity, nat>,
    records: map<Identity, nat>,
    cells: map<nat, Retention>,
    charges: map<PageObj, nat>,
    used: int,
    closed: bool,
    fatal: bool,
    monitor: Monitor,
    ledger: map<nat, Lease>,
    refs: multiset<PageObj>,
    drops: multiset<nat>,
    next: nat)

  datatype Event =
    | Acquire(groups: Groups)
    | Commit(lease: nat, identity: Identity, complete: bool, starts: bool)
    | ReleaseRefused(lease: nat)
    | Forget(req: string, generation: Option<int>)
    | RetireRelease(lease: nat)
    | RetireUncharge(lease: nat)
    | Notify(identity: Identity, attempt: int, event: RestoreEvent)
    | Select(record: nat)
    | SpillConfirmed
    | SpillDeferred
    | SpillUnknown
    | SpillCrashed
    | Close
    | MonitorExit
    | MonitorCrash

  // ---------------------------------------------------------------- accounting

  ghost function Bytes(p: PageObj): nat { p.bytes }

  function Count(charges: map<PageObj, nat>, p: PageObj): nat {
    if p in charges then charges[p] else 0
  }

  /** One more lease on each owner. */
  function Charged(charges: map<PageObj, nat>, owners: set<PageObj>): map<PageObj, nat> {
    map p | p in charges.Keys + owners :: Count(charges, p) + (if p in owners then 1 else 0)
  }

  /** The owners whose last lease is going away. */
  function LastLease(charges: map<PageObj, nat>, owners: set<PageObj>): set<PageObj> {
    set p | p in owners && Count(charges, p) == 1
  }

  /** One lease less on each owner; an owner without leases is no longer charged. */
  function Uncharged(charges: map<PageObj, nat>, owners: set<PageObj>): map<PageObj, nat> {
    map p | p in charges.Keys - LastLease(charges, owners) ::
      if p in owners && charges[p] > 0 then charges[p] - 1 else charges[p]
  }

  function ChargedPages(l: Lease): multiset<PageObj> {
    if l.stage.Charges() then multiset(Owners(l.groups)) else multiset{}
  }

  function HeldPages(l: Lease): multiset<PageObj> {
    if l.stage.Holds() then PagesOf(l.groups) else multiset{}
  }

  /** The page index a record keeps for its own sources; a later entry wins. */
  function PageIndex(groups: Groups): map<(nat, CheckpointPage), PageObj> {
    IndexOf(0, groups[0]) + IndexOf(1, groups[1])
  }

  function IndexOf(group: nat, held: seq<Entry>): map<(nat, CheckpointPage), PageObj> {
    if held == [] then map[]
    else IndexOf(group, held[..|held| - 1])[(group, held[|held| - 1].0) := held[|held| - 1].1]
  }

  // ---------------------------------------------------------------- transitions

  function Doomed(s: Store, req: string, generation: Option<int>): set<Identity> {
    set k | k in s.manifests && k.req == req && (generation.None? || k.generation == generation.value)
  }

  function RecordsOf(s: Store, keys: set<Identity>): set<nat> {
    set k | k in keys && k in s.records :: s.records[k]
  }

  function Tombstone(r: Retention): Retention {
    r.(cancelled := true, groups := NOTHING, pages := map[])
  }

  /** Drop the offers under these keys and hand their live leases to retirement. */
  function ForgetKeys(s: Store, keys: set<Identity>): Store {
    var gone := RecordsOf(s, keys);
    s.(manifests := s.manifests - keys,
       records := s.records - keys,
       cells := map r | r in s.cells :: if r in gone then Tombstone(s.cells[r]) else s.cells[r],
       ledger := map n | n in s.ledger ::
         if n in gone && s.ledger[n].stage.Protected? then s.ledger[n].(stage := Queued) else s.ledger[n])
  }

  ghost predicate Fits(s: Store, groups: Groups) {
    s.used + Sum(Owners(groups) - s.charges.Keys, Bytes) <= s.limit
  }

  /** What the publication's lock region does once the offer is accepted. */
  ghost function Accept(s: Store, lease: nat, identity: Identity): Store
    requires lease in s.ledger
  {
    var groups := s.ledger[lease].groups;
    s.(manifests := s.manifests[identity := lease],
       records := s.records[identity := lease],
       cells := s.cells[lease := Retention(identity, lease, groups, false, map[], false, PageIndex(groups))],
       charges := Charged(s.charges, Owners(groups)),
       used := s.used + Sum(Owners(groups) - s.charges.Keys, Bytes),
       monitor := if s.monitor.NotStarted? then Idle else s.monitor,
       ledger := s.ledger[lease := Lease(groups, Protected)])
  }

  ghost function CommitRegion(s: Store, lease: nat, identity: Identity, complete: bool, starts: bool): Store
    requires lease in s.ledger
  {
    var refused := s.(ledger := s.ledger[lease := s.ledger[lease].(stage := Refused)]);
    if s.closed || identity in s.records then refused
    else if complete && Fits(s, s.ledger[lease].groups) && (s.monitor.NotStarted? ==> starts) then
      Accept(s, lease, identity)
    else refused.(manifests := s.manifests[identity := lease])
  }

  function Joined(attempts: map<int, set<RestoreEvent>>, attempt: int, event: RestoreEvent): Option<set<RestoreEvent>> {
    if event.Begin? then Some((if attempt in attempts then attempts[attempt] else {}) + {Begin})
    else if attempt in attempts then Some(attempts[attempt] + {event})
    else None
  }

  /** The attempts left after one notification. */
  function Attempts(attempts: map<int, set<RestoreEvent>>, attempt: int, event: RestoreEvent): map<int, set<RestoreEvent>> {
    match Joined(attempts, attempt, event)
    case None => attempts
    case Some(seen) => if {Failed, Ack} <= seen then attempts - {attempt} else attempts[attempt := seen]
  }

  /** Does this notification complete the join that retires the record? */
  predicate Retires(attempts: map<int, set<RestoreEvent>>, attempt: int, event: RestoreEvent) {
    var seen := Joined(attempts, attempt, event);
    seen.Some? && {Admitted, Ack} <= seen.value && Failed !in seen.value
  }

  predicate Eligible(s: Store, record: nat) {
    && record in s.records.Values
    && record in s.cells
    && !s.cells[record].remote
    && !s.cells[record].cancelled
    && s.cells[record].attempts == map[]
  }

  /** The snapshot goes to retirement and the monitor moves on. */
  function SpillOver(s: Store, pc: Monitor): Store
    requires s.monitor.Spilling? && s.monitor.snapshot in s.ledger
  {
    s.(ledger := s.ledger[s.monitor.snapshot := s.ledger[s.monitor.snapshot].(stage := Queued)], monitor := pc)
  }

  /** A confirmed spill publishes the remote copy and lets go of the record's own pages. */
  function Confirm(s: Store): Store
    requires s.monitor.Spilling? && s.monitor.record in s.cells
  {
    var r := s.monitor.record;
    if s.cells[r].cancelled then s
    else s.(cells := s.cells[r := s.cells[r].(remote := true, groups := NOTHING, pages := map[])],
            ledger := if r in s.ledger && s.ledger[r].stage.Protected?
                      then s.ledger[r := s.ledger[r].(stage := Queued)] else s.ledger)
  }

  ghost predicate Enabled(s: Store, e: Event) {
    match e
    case Acquire(_) => true
    case Commit(n, _, _, _) => n in s.ledger && s.ledger[n].stage.Acquired?
    case ReleaseRefused(n) => n in s.ledger && s.ledger[n].stage.Refused?
    case Forget(_, _) => true
    case RetireRelease(n) => n in s.ledger && s.ledger[n].stage.Queued?
    case RetireUncharge(n) => n in s.ledger && s.ledger[n].stage.Released?
    case Notify(_, _, _) => true
    case Select(r) => s.monitor.Idle? && Eligible(s, r)
    case SpillConfirmed => s.monitor.Spilling? && s.monitor.record in s.cells && s.monitor.snapshot in s.ledger
    case SpillDeferred => s.monitor.Spilling? && s.monitor.snapshot in s.ledger
    case SpillUnknown => s.monitor.Spilling? && s.monitor.snapshot in s.ledger
    case SpillCrashed => s.monitor.Spilling? && s.monitor.snapshot in s.ledger
    case Close => true
    case MonitorExit => s.monitor.Idle? && (s.closed || s.fatal)
    case MonitorCrash => s.monitor.Idle?
  }

  /** A publication takes references before it enters the lock. */
  function Take(s: Store, groups: Groups): Store {
    s.(ledger := s.ledger[s.next := Lease(groups, Acquired)], refs := s.refs + PagesOf(groups), next := s.next + 1)
  }

  /** A refused publication gives its references back. */
  function Refuse(s: Store, n: nat): Store
    requires n in s.ledger
  {
    s.(refs := s.refs - PagesOf(s.ledger[n].groups), ledger := s.ledger - {n}, drops := s.drops + multiset{n})
  }

  /** First half of retirement: references only. */
  function Release(s: Store, n: nat): Store
    requires n in s.ledger
  {
    s.(refs := s.refs - PagesOf(s.ledger[n].groups),
       ledger := s.ledger[n := s.ledger[n].(stage := Released)],
       drops := s.drops + multiset{n})
  }

  /** Second half of retirement: the charge. */
  ghost function Uncharge(s: Store, n: nat): Store
    requires n in s.ledger
  {
    var owners := Owners(s.ledger[n].groups);
    s.(used := s.used - Sum(LastLease(s.charges, owners), Bytes),
       charges := Uncharged(s.charges, owners),
       ledger := s.ledger - {n})
  }

  function Notified(s: Store, identity: Identity, attempt: int, event: RestoreEvent): Store {
    if identity in s.records && s.records[identity] in s.cells then
      var r := s.records[identity];
      s.(cells := s.cells[r := s.cells[r].(attempts := Attempts(s.cells[r].attempts, attempt, event))])
    else s
  }

  /** The monitor takes its own lease on the pages of the record it is about to spill. */
  ghost function Selected(s: Store, r: nat): Store
    requires r in s.cells
  {
    var groups := s.cells[r].groups;
    s.(refs := s.refs + PagesOf(groups),
       charges := Charged(s.charges, Owners(groups)),
       used := s.used + Sum(Owners(groups) - s.charges.Keys, Bytes),
       ledger := s.ledger[s.next := Lease(groups, Snapshot)],
       monitor := Spilling(r, s.next),
       next := s.next + 1)
  }

  /** Completion is unknown: the snapshot is kept for good. */
  function Isolated(s: Store): Store
    requires s.monitor.Spilling? && s.monitor.snapshot in s.ledger
  {
    s.(ledger := s.ledger[s.monitor.snapshot := s.ledger[s.monitor.snapshot].(stage := Quarantined)],
       monitor := Exited, fatal := true)
  }

  ghost function Next(s: Store, e: Event): Store
    requires Enabled(s, e)
  {
    match e
    case Acquire(groups) => Take(s, groups)
    case Commit(n, identity, complete, starts) => CommitRegion(s, n, identity, complete, starts)
    case ReleaseRefused(n) => Refuse(s, n)
    case Forget(req, generation) => ForgetKeys(s, Doomed(s, req, generation))
    case RetireRelease(n) => Release(s, n)
    case RetireUncharge(n) => Uncharge(s, n)
    case Notify(identity, attempt, event) => Notified(s, identity, attempt, event)
    case Select(r) => Selected(s, r)
    case SpillConfirmed => SpillOver(Confirm(s), Idle)
    case SpillDeferred => SpillOver(s, Idle)
    case SpillUnknown => Isolated(s)
    case SpillCrashed => SpillOver(s, Exited).(fatal := true)
    case Close => s.(closed := true)
    case MonitorExit => s.(monitor := Exited)
    case MonitorCrash => s.(monitor := Exited, fatal := true)
  }

  ghost predicate Possible(s: Store, run: seq<Event>)
    decreases |run|
  {
    run == [] || (Enabled(s, run[0]) && Possible(Next(s, run[0]), run[1..]))
  }

  ghost function After(s: Store, run: seq<Event>): Store
    requires Possible(s, run)
    decreases |run|
  {
    if run == [] then s else After(Next(s, run[0]), run[1..])
  }

  function Fresh(limit: nat): Store {
    Store(limit, map[], map[], map[], map[], 0, false, false, NotStarted, map[], multiset{}, multiset{}, 0)
  }

  // ---------------------------------------------------------------- invariant

  /** Bytes and counts agree with the outstanding leases. */
  ghost predicate Accounted(s: Store) {
    && s.used == Sum(s.charges.Keys, Bytes)
    && s.used <= s.limit
    && (forall p :: p in s.charges ==> s.charges[p] > 0)
    && (forall p :: Count(s.charges, p) == Gather(s.ledger, ChargedPages)[p])
    && s.refs == Gather(s.ledger, HeldPages)
  }

  /** Each lease ever taken has dropped its references once, or still holds them. */
  ghost predicate DroppedOnce(s: Store) {
    forall n: nat :: s.drops[n] == if n < s.next && !(n in s.ledger && s.ledger[n].stage.Holds()) then 1 else 0
  }

  predicate Guarded(s: Store, r: nat) {
    r in s.ledger && s.ledger[r].stage.Protected?
  }

  /** A live record's pages are protected by its lease exactly until its spill is confirmed. */
  predicate RecordLinked(s: Store, k: Identity)
    requires k in s.records
  {
    var r := s.records[k];
    && k in s.manifests
    && r in s.cells
    && s.cells[r].identity == k
    && (s.cells[r].remote <==> !Guarded(s, r))
  }

  /** A record object mirrors its lease, and is cancelled exactly once it is no longer listed. */
  predicate CellLinked(s: Store, r: nat)
    requires r in s.cells
  {
    var cell := s.cells[r];
    && r < s.next
    && cell.groups == (if Guarded(s, r) then s.ledger[r].groups else NOTHING)
    && cell.pages == PageIndex(cell.groups)
    && cell.retentionId == r
    && (cell.cancelled <==> !(cell.identity in s.records && s.records[cell.identity] == r))
    && (cell.cancelled ==> !Guarded(s, r))
  }

  /** Only record objects own protected leases, and a fresh lease has no record yet. */
  predicate LeaseLinked(s: Store, n: nat)
    requires n in s.ledger
  {
    && n < s.next
    && (s.ledger[n].stage.Protected? ==> n in s.cells)
    && (s.ledger[n].stage.Acquired? || s.ledger[n].stage.Snapshot? ==> n !in s.cells)
  }

  ghost predicate Linked(s: Store) {
    && (forall k {:trigger RecordLinked(s, k)} :: k in s.records ==> RecordLinked(s, k))
    && (forall r {:trigger CellLinked(s, r)} :: r in s.cells ==> CellLinked(s, r))
    && (forall n {:trigger LeaseLinked(s, n)} :: n in s.ledger ==> LeaseLinked(s, n))
  }

  /** The monitor owns exactly the snapshot it is spilling. */
  ghost predicate Watched(s: Store) {
    && (s.monitor.Spilling? ==>
          && s.monitor.record in s.cells
          && s.monitor.snapshot in s.ledger
          && s.ledger[s.monitor.snapshot].stage.Snapshot?)
    && (forall n :: n in s.ledger && s.ledger[n].stage.Snapshot? ==> s.monitor.Spilling? && s.monitor.snapshot == n)
    && (forall n :: n in s.ledger && s.ledger[n].stage.Quarantined? ==> s.fatal)
    && (s.monitor.NotStarted? ==> s.records == map[])
  }

  ghost predicate Valid(s: Store) {
    Accounted(s) && DroppedOnce(s) && Linked(s) && Watched(s)
  }
}

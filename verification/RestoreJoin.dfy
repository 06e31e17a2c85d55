/** The restore join: which notification retires a record, told without the attempt table. */
module RestoreJoin {
  import opened Basics
  import opened CheckpointTypes
  import opened RetentionModel
  import opened RetentionRuns
  import opened RetentionTheorems
  import opened Sums

  type Log = seq<(int, RestoreEvent)>

  /** The attempt table a record holds after a log of notifications. */
  function Table(log: Log): map<int, set<RestoreEvent>>
  {
    if log == [] then map[]
    else Attempts(Table(log[..|log| - 1]), log[|log| - 1].0, log[|log| - 1].1)
  }

  /** What attempt a reported in the notifications b to i, both included. */
  function Reported(log: Log, a: int, b: nat, i: nat): set<RestoreEvent>
    requires i < |log|
  {
    set j | b <= j <= i && log[j].0 == a :: log[j].1
  }

  /** Failure and acknowledgement were both reported since b: the attempt begun there is over. */
  predicate Over(log: Log, a: int, b: nat, i: nat)
    requires i < |log|
  {
    {Failed, Ack} <= Reported(log, a, b, i)
  }

  /** Notification b opens attempt a: it begins it, and whatever opened it before is over by then. */
  predicate Opens(log: Log, a: int, b: nat)
    requires b < |log|
    decreases b
  {
    log[b] == (a, Begin) && forall c: nat {:trigger Opens(log, a, c)} :: c < b && Opens(log, a, c) ==> Over(log, a, c, b - 1)
  }

  /** Attempt a is open after the whole log: something opened it and it is not over. */
  ghost predicate Open(log: Log, a: int) {
    exists b: nat {:trigger Opens(log, a, b)} :: b < |log| && Opens(log, a, b) && !Over(log, a, b, |log| - 1)
  }

  lemma TableStep(log: Log, i: nat)
    requires i < |log|
    ensures Table(log[..i + 1]) == Attempts(Table(log[..i]), log[i].0, log[i].1)
  {
    assert log[..i + 1][..i] == log[..i];
  }

  lemma ReportedStep(log: Log, a: int, b: nat, i: nat)
    requires b <= i < |log| && (i > 0 ==> i - 1 < |log|)
    ensures Reported(log, a, b, i) ==
      (if i > b then Reported(log, a, b, i - 1) else {}) + (if log[i].0 == a then {log[i].1} else {})
  {
  }

  /** Notification b makes an entry for an attempt that has none. */
  predicate Enters(log: Log, a: int, b: nat)
    requires b < |log|
  {
    log[b] == (a, Begin) && a !in Table(log[..b])
  }

  /** An entry was made by some notification and is what the attempt reported since. */
  lemma {:induction false} EntryIsReported(log: Log, a: int, i: nat) returns (b: nat)
    requires i < |log| && a in Table(log[..i + 1])
    ensures b <= i && Enters(log, a, b) && Table(log[..i + 1])[a] == Reported(log, a, b, i)
    ensures !Over(log, a, b, i)
  {
    TableStep(log, i);
    if a in Table(log[..i]) && i > 0 {
      b := EntryIsReported(log, a, i - 1);
      ReportedStep(log, a, b, i);
    } else {
      b := i;
      ReportedStep(log, a, i, i);
    }
  }

  /** Conversely, an entry stays until the attempt is over. */
  lemma {:induction false} EntryStays(log: Log, a: int, b: nat, i: nat)
    requires b <= i < |log| && Enters(log, a, b) && !Over(log, a, b, i)
    ensures a in Table(log[..i + 1]) && Table(log[..i + 1])[a] == Reported(log, a, b, i)
    decreases i
  {
    TableStep(log, i);
    ReportedStep(log, a, b, i);
    if i > b { EntryStays(log, a, b, i - 1); }
  }

  /** The table's entries are made exactly by the notifications that open an attempt. */
  lemma {:induction false} EntersIffOpens(log: Log, a: int, b: nat)
    requires b < |log|
    ensures Enters(log, a, b) <==> Opens(log, a, b)
    decreases b
  {
    hide Over, Table;
    forall c: nat | c < b ensures Enters(log, a, c) <==> Opens(log, a, c) { EntersIffOpens(log, a, c); }
    if b == 0 {
      assert log[..0] == [] && a !in Table(log[..0]) by { EmptyTable(log[..0]); }
    } else if a in Table(log[..b]) {
      var c := EntryIsReported(log, a, b - 1);
      assert Opens(log, a, c) && !Over(log, a, c, b - 1);
    } else {
      forall c: nat | c < b && Opens(log, a, c) ensures Over(log, a, c, b - 1) {
        if !Over(log, a, c, b - 1) { EntryStays(log, a, c, b - 1); }
      }
    }
  }

  lemma EmptyTable(log: Log)
    ensures log == [] ==> Table(log) == map[]
  {
  }

  /** An attempt has an entry exactly while it is open, as the notifications alone tell; the entry is what
      it reported since it was opened. Other attempts, duplicates and order do not matter. */
  lemma EntryIffOpen(log: Log, a: int)
    ensures a in Table(log) <==> Open(log, a)
    ensures forall b: nat {:trigger Opens(log, a, b)} :: b < |log| && Opens(log, a, b) && !Over(log, a, b, |log| - 1) ==>
      a in Table(log) && Table(log)[a] == Reported(log, a, b, |log| - 1)
  {
    hide Over, Opens, Enters, Table;
    EmptyTable(log);
    var i := |log| - 1;
    assert log[..|log|] == log;
    forall b: nat | b < |log| && Opens(log, a, b) && !Over(log, a, b, i)
      ensures a in Table(log) && Table(log)[a] == Reported(log, a, b, i)
    {
      EntersIffOpens(log, a, b);
      EntryStays(log, a, b, i);
    }
    if a in Table(log) {
      var b := EntryIsReported(log, a, i);
      EntersIffOpens(log, a, b);
    }
  }

  /** The attempt of the last notification is open, has reported both admission and acknowledgement
      since it was opened, and no failure. */
  ghost predicate Joins(log: Log) {
    log != [] &&
    var a, i := log[|log| - 1].0, |log| - 1;
    exists b: nat {:trigger Opens(log, a, b)} :: b <= i && Opens(log, a, b)
      && {Admitted, Ack} <= Reported(log, a, b, i) && Failed !in Reported(log, a, b, i)
  }

  /** A notification retires the record exactly when its own attempt was opened by some earlier
      (or this) notification and has since reported both admission and acknowledgement, and no failure. */
  lemma RetiresExactlyWhenJoined(log: Log)
    requires log != []
    ensures var n := log[|log| - 1]; Retires(Table(log[..|log| - 1]), n.0, n.1) <==> Joins(log)
  {
    hide Opens, Enters, Table;
    var i := |log| - 1;
    var a := log[i].0;
    assert log[..i + 1] == log;
    TableStep(log, i);
    EntryIffOpen(log, a);
    var before := Table(log[..i]);
    if Retires(before, a, log[i].1) {
      assert a in Table(log);
      var b: nat :| b < |log| && Opens(log, a, b) && !Over(log, a, b, i);
    }
    if b: nat :| b <= i && Opens(log, a, b) && {Admitted, Ack} <= Reported(log, a, b, i) && Failed !in Reported(log, a, b, i) {
      assert !Over(log, a, b, i);
    }
  }

  /** The notifications a record receives in a run while its identity names it. */
  ghost function Delivered(s: Store, run: seq<Event>, r: nat): Log
    requires Possible(s, run)
    decreases |run|
  {
    if run == [] then [] else
      (match run[0]
       case Notify(k, a, e) => if k in s.records && s.records[k] == r && r in s.cells then [(a, e)] else []
       case _ => [])
      + Delivered(Next(s, run[0]), run[1..], r)
  }

  /** Running a table on through a log. */
  function Through(table: map<int, set<RestoreEvent>>, log: Log): map<int, set<RestoreEvent>>
    decreases |log|
  {
    if log == [] then table else Through(Attempts(table, log[0].0, log[0].1), log[1..])
  }

  lemma {:induction false} ThroughTable(pre: Log, log: Log)
    ensures Through(Table(pre), log) == Table(pre + log)
    decreases |log|
  {
    if log == [] {
      assert pre + log == pre;
    } else {
      var more := pre + [log[0]];
      assert more[..|pre|] == pre;
      ThroughTable(more, log[1..]);
      assert pre + log == more + log[1..];
    }
  }

  /** The table of record r, empty while there is no such record. */
  function TableOf(s: Store, r: nat): map<int, set<RestoreEvent>> {
    if r in s.cells then s.cells[r].attempts else map[]
  }

  lemma CellStep(s: Store, e: Event, r: nat)
    requires Linked(s) && Enabled(s, e)
    ensures r in s.cells ==> r in Next(s, e).cells
    ensures TableOf(Next(s, e), r) ==
      if e.Notify? && e.identity in s.records && s.records[e.identity] == r && r in s.cells
      then Attempts(s.cells[r].attempts, e.attempt, e.event) else TableOf(s, r)
  {
    hide Attempts, Linked, TableOf, CommitRegion, ForgetKeys, Notified, Confirm, Take, Refuse, Release, Uncharge, Selected, SpillOver, Isolated;
    match e {
      case Commit(n, k, complete, starts) => CommitCell(s, n, k, complete, starts, r);
      case Forget(req, generation) => ForgetCell(s, Doomed(s, req, generation), r);
      case Notify(k, a, event) => NotifiedCell(s, k, a, event, r);
      case SpillConfirmed => ConfirmCell(s, r);
      case _ => OtherCells(s, e); SameCells(s, Next(s, e), r);
    }
  }

  lemma OtherCells(s: Store, e: Event)
    requires Enabled(s, e) && !e.Commit? && !e.Forget? && !e.Notify? && !e.SpillConfirmed?
    ensures Next(s, e).cells == s.cells
  {
    hide Charged, Uncharged, LastLease, PagesOf, Owners, Sum;
    match e {
      case Acquire(groups) => assert Take(s, groups).cells == s.cells;
      case ReleaseRefused(n) => assert Refuse(s, n).cells == s.cells;
      case RetireRelease(n) => assert Release(s, n).cells == s.cells;
      case RetireUncharge(n) => assert Uncharge(s, n).cells == s.cells;
      case Select(r) => assert Selected(s, r).cells == s.cells;
      case SpillDeferred => assert SpillOver(s, Idle).cells == s.cells;
      case SpillUnknown => assert Isolated(s).cells == s.cells;
      case SpillCrashed => assert SpillOver(s, Exited).cells == s.cells;
      case _ =>
    }
  }

  lemma SameCells(s: Store, t: Store, r: nat)
    requires t.cells == s.cells
    ensures TableOf(t, r) == TableOf(s, r)
  {
  }

  lemma ForgetCell(s: Store, keys: set<Identity>, r: nat)
    ensures r in ForgetKeys(s, keys).cells <==> r in s.cells
    ensures TableOf(ForgetKeys(s, keys), r) == TableOf(s, r)
  {
  }

  lemma NotifiedCell(s: Store, k: Identity, a: int, event: RestoreEvent, r: nat)
    ensures r in Notified(s, k, a, event).cells <==> r in s.cells
    ensures TableOf(Notified(s, k, a, event), r) ==
      if k in s.records && s.records[k] == r && r in s.cells then Attempts(s.cells[r].attempts, a, event) else TableOf(s, r)
  {
    hide Attempts;
  }

  lemma ConfirmCell(s: Store, r: nat)
    requires s.monitor.Spilling? && s.monitor.record in s.cells
    requires s.monitor.snapshot in s.ledger
    ensures r in SpillOver(Confirm(s), Idle).cells <==> r in s.cells
    ensures TableOf(SpillOver(Confirm(s), Idle), r) == TableOf(s, r)
  {
  }

  lemma CommitCell(s: Store, n: nat, k: Identity, complete: bool, starts: bool, r: nat)
    requires Linked(s) && n in s.ledger && s.ledger[n].stage.Acquired?
    ensures r in s.cells ==> r in CommitRegion(s, n, k, complete, starts).cells
    ensures TableOf(CommitRegion(s, n, k, complete, starts), r) == TableOf(s, r)
  {
    hide Fits, PageIndex, Charged;
    assert LeaseLinked(s, n);
  }

  /** A record's table is exactly the notifications delivered to it. */
  lemma {:induction false} TableIsDelivered(s: Store, run: seq<Event>, r: nat)
    requires Valid(s) && Possible(s, run)
    ensures TableOf(After(s, run), r) == Through(TableOf(s, r), Delivered(s, run, r))
    decreases |run|
  {
    hide Valid, Linked, TableOf, Enabled, Next;
    if run != [] {
      var t := Next(s, run[0]);
      assert Linked(s) by { ValidParts(s); }
      CellStep(s, run[0], r);
      StepKeepsValid(s, run[0]);
      TableIsDelivered(t, run[1..], r);
      var rest := Delivered(t, run[1..], r);
      var first := Delivered(s, run, r)[..|Delivered(s, run, r)| - |rest|];
      assert Delivered(s, run, r) == first + rest;
      if first != [] {
        assert ([first[0]] + rest)[1..] == rest;
        assert TableOf(s, r) == s.cells[r].attempts by { TableOfCell(s, r); }
      }
    }
  }

  lemma TableOfCell(s: Store, r: nat)
    requires r in s.cells
    ensures TableOf(s, r) == s.cells[r].attempts
  {
  }

  /** In any run, a notification retires the record exactly when the notifications delivered to that
      record, this one included, complete a join. */
  lemma RetiresExactlyWhenDelivered(limit: nat, run: seq<Event>, r: nat, a: int, event: RestoreEvent)
    requires Possible(Fresh(limit), run) && r in After(Fresh(limit), run).cells
    ensures Retires(After(Fresh(limit), run).cells[r].attempts, a, event) <==> Joins(Delivered(Fresh(limit), run, r) + [(a, event)])
  {
    hide Valid, Possible, After, Next, Enabled, Delivered, Joins, Retires;
    var log := Delivered(Fresh(limit), run, r);
    FreshIsValid(limit);
    TableIsDelivered(Fresh(limit), run, r);
    ThroughTable([], log);
    assert [] + log == log;
    var more := log + [(a, event)];
    assert more[..|more| - 1] == log;
    RetiresExactlyWhenJoined(more);
  }

  /** The monitor may start to spill a live record exactly while every attempt delivered to it is over. */
  lemma SpillsOnlyBetweenAttempts(limit: nat, run: seq<Event>, r: nat)
    requires Possible(Fresh(limit), run) && r in After(Fresh(limit), run).cells
    ensures var t, log := After(Fresh(limit), run), Delivered(Fresh(limit), run, r);
      Enabled(t, Select(r)) <==>
        && t.monitor.Idle? && r in t.records.Values && !t.cells[r].remote && !t.cells[r].cancelled
        && AllOver(log)
  {
    hide Valid, Delivered, AllOver, Possible, After, Next;
    var log := Delivered(Fresh(limit), run, r);
    FreshIsValid(limit);
    TableIsDelivered(Fresh(limit), run, r);
    ThroughTable([], log);
    assert [] + log == log;
    NoEntryIffOver(log);
  }

  /** Every opening of every attempt is over by the end of the log. */
  ghost predicate AllOver(log: Log) {
    forall a, b: nat {:trigger Opens(log, a, b)} :: b < |log| && Opens(log, a, b) ==> Over(log, a, b, |log| - 1)
  }

  lemma NoKeys<V>(table: map<int, V>)
    requires forall a: int :: a !in table
    ensures table == map[]
  {
    assert forall a :: a !in table.Keys;
  }

  lemma NoEntryIffOver(log: Log)
    ensures Table(log) == map[] <==> AllOver(log)
  {
    hide Opens, Over, Table;
    if AllOver(log) {
      forall a: int ensures a !in Table(log) { EntryIffOpen(log, a); }
      NoKeys(Table(log));
    }
    if Table(log) == map[] {
      forall a, b: nat | b < |log| && Opens(log, a, b) ensures Over(log, a, b, |log| - 1) { EntryIffOpen(log, a); }
    }
  }
}

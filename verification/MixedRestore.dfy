/** Restores that join local sources with pages confirmed in the remote store. */
module MixedRestore {
  import opened Basics
  import opened CheckpointTypes
  import opened Coverage
  import opened Assembly
  import opened LocalCheckpoint
  import opened MixedPlans
  import opened MixedAssembly
  import opened MixedManifest

  /** The remote windows recorded by a spill: both groups tile the same canonical range. */
  ghost predicate Persisted(remote: seq<seq<CheckpointPage>>, base: int, total: int) {
    |remote| == 2 && Tiles(remote[0], base, total) && Tiles(remote[1], base, total)
  }

  /** Hold local sources for one canonical window; the source index only moves forward. */
  method HoldWindow(store: LocalCheckpointStore, group: nat, sources: seq<CheckpointPage>, from: nat, left: int, right: int)
    returns (held: seq<Entry>, index: nat, cursor: int, failure: Option<Failure>)
    requires left < right && from <= |sources|
    requires forall j :: 0 <= j < from ==> sources[j].end <= left
    modifies store`refs, store`missed
    ensures store.refs == old(store.refs) + PagesIn(held) && old(store.missed) <= store.missed
    ensures Chain(held, left, right) && left <= cursor == Reach(held, left, right) <= right
    ensures from <= index <= |sources| && From(held, sources)
    ensures forall j :: 0 <= j < index ==> sources[j].end <= cursor
    ensures failure.None? && cursor < right && Sorted(sources) ==> Blocked(sources, group, cursor, store.missed)
    ensures failure.Some? ==> LookupFailed(failure.value)
  {
    hide Chain, PagesIn, From;
    NothingFrom(sources);
    held, index, cursor, failure := [], from, left, None;
    NoEntries(left, right);
    while index < |sources|
      invariant from <= index <= |sources|
      invariant store.refs == old(store.refs) + PagesIn(held) && old(store.missed) <= store.missed
      invariant Chain(held, left, right) && left <= cursor == Reach(held, left, right) && cursor <= right
      invariant forall j :: 0 <= j < index ==> sources[j].end <= cursor
      invariant From(held, sources)
      decreases |sources| - index, right - cursor
    {
      var source := sources[index];
      if source.end <= cursor {
        index := index + 1;
        continue;
      }
      if source.start > cursor || cursor >= right { return; }
      var r := store.GetPage(group, source);
      if r.Err? { failure := Some(r.error); return; }
      if r.value.None? { return; }
      PagesAppend(held, (source, r.value.value));
      FromAppend(held, (source, r.value.value), sources);
      ChainAppend(held, (source, r.value.value), left, right);
      held := held + [(source, r.value.value)];
      cursor := Min(right, source.end);
    }
  }

  lemma NothingFrom(sources: seq<CheckpointPage>)
    ensures From([], sources)
  {
  }

  lemma FromAppend(held: seq<Entry>, e: Entry, sources: seq<CheckpointPage>)
    requires From(held, sources) && e.0 in sources
    ensures From(held + [e], sources)
  {
  }

  /** What the remote store is asked about: the windows that could not be held. */
  ghost predicate Asked(plans: seq<Plan>, missing: seq<nat>) {
    forall i :: 0 <= i < |plans| && plans[i].held == [] ==> plans[i].descriptor.key in missing
  }

  /** A window is left to the remote store only where local sources end, or one was looked up in vain. */
  ghost predicate HeldIfPossible(plans: seq<Plan>, sources: seq<CheckpointPage>, group: nat, missed: set<(nat, CheckpointPage)>) {
    forall i :: 0 <= i < |plans| && plans[i].held == [] ==> GapIn(plans[i].left, plans[i].right, sources, group, missed)
  }

  ghost predicate GapIn(left: int, right: int, sources: seq<CheckpointPage>, group: nat, missed: set<(nat, CheckpointPage)>) {
    exists t :: left <= t < right && Blocked(sources, group, t, missed)
  }

  lemma HeldIfPossibleAppend(plans: seq<Plan>, p: Plan, sources: seq<CheckpointPage>, group: nat,
                             missed: set<(nat, CheckpointPage)>, more: set<(nat, CheckpointPage)>)
    requires HeldIfPossible(plans, sources, group, missed) && missed <= more
    requires p.held == [] ==> GapIn(p.left, p.right, sources, group, more)
    ensures HeldIfPossible(plans + [p], sources, group, more)
  {
    forall i | 0 <= i < |plans| && plans[i].held == [] ensures GapIn(plans[i].left, plans[i].right, sources, group, more) {
      assert GapIn(plans[i].left, plans[i].right, sources, group, missed);
      var t :| plans[i].left <= t < plans[i].right && Blocked(sources, group, t, missed);
      BlockedLonger(sources, group, t, missed, more);
    }
  }

  /** Every entry stands for a local source of its group or for a remote window of it. */
  ghost predicate Origin(held: seq<Entry>, sources: seq<CheckpointPage>, remote: seq<CheckpointPage>) {
    forall i :: 0 <= i < |held| ==> held[i].0 in sources || held[i].0 in remote
  }

  lemma OriginAppend(held: seq<Entry>, entries: seq<Entry>, q: Request, plan: Plan)
    requires Origin(held, q.sources, q.remote) && PlanOk(plan, q)
    requires entries == plan.held || (forall i :: 0 <= i < |entries| ==> entries[i].0 == plan.descriptor)
    ensures Origin(held + entries, q.sources, q.remote)
  {
    hide Chain;
  }

  function RequestOf(m: Manifest, group: nat, remote: seq<CheckpointPage>, end: int): Request
    requires group < 2
  {
    Request(m.prefixEnd, end, m.groups[group], remote)
  }

  /** Plan one group window by window: a window is held locally as a whole, or left to the remote store. */
  method PlanGroup(store: LocalCheckpointStore, m: Manifest, group: nat, remote: seq<CheckpointPage>, base: int, end: int)
    returns (plans: seq<Plan>, missing: seq<nat>, failure: Option<Failure>)
    requires group < 2 && base <= m.prefixEnd && Tiles(remote, base, m.total)
    modifies store`refs, store`missed
    ensures store.refs == old(store.refs) + PlanPages(plans)
    ensures Planned(plans, RequestOf(m, group, remote, end)) && Asked(plans, missing)
    ensures m.prefixEnd <= PlannedEnd(plans, m.prefixEnd) <= Max(m.prefixEnd, end)
    ensures failure.None? && end <= m.total ==> end <= PlannedEnd(plans, m.prefixEnd)
    ensures failure.None? && Sorted(m.groups[group]) ==> HeldIfPossible(plans, m.groups[group], group, store.missed)
    ensures (failure.Some? ==> LookupFailed(failure.value)) && old(store.missed) <= store.missed
  {
    hide Planned, PlanOk, PagesIn, Chain, Reach, PlanPages, From, Sorted, GapIn, HeldIfPossible, Asked;
    ghost var q := RequestOf(m, group, remote, end);
    plans, missing, failure := [], [], None;
    var index := 0;
    NoPlans(q, group, store.missed);
    for k := 0 to |remote|
      invariant index <= |m.groups[group]| && failure.None?
      invariant forall j :: 0 <= j < index ==> m.groups[group][j].end <= PlannedEnd(plans, m.prefixEnd)
      invariant store.refs == old(store.refs) + PlanPages(plans) && old(store.missed) <= store.missed
      invariant Planned(plans, q) && Asked(plans, missing)
      invariant Sorted(m.groups[group]) ==> HeldIfPossible(plans, m.groups[group], group, store.missed)
      invariant PlannedEnd(plans, m.prefixEnd) == Max(m.prefixEnd, Min(end, Begin(remote, k, base)))
    {
      var descriptor := remote[k];
      assert descriptor.start == Begin(remote, k, base) < descriptor.end == Begin(remote, k + 1, base);
      var left, right := Max(m.prefixEnd, descriptor.start), Min(end, descriptor.end);
      if left < right {
        ghost var missed := store.missed;
        var held, next, failed := HoldWhole(store, group, m.groups[group], index, left, right);
        index := next;
        var plan := Plan(descriptor, held, left, right);
        PlanAppend(plans, plan);
        PlanIsOk(plan, q);
        PlannedAppend(plans, plan, q);
        if failed.None? && Sorted(m.groups[group]) {
          HeldIfPossibleAppend(plans, plan, m.groups[group], group, missed, store.missed);
        }
        AskedAppend(plans, plan, missing);
        missing := if held == [] then missing + [descriptor.key] else missing;
        plans, failure := plans + [plan], failed;
        if failure.Some? { return; }
      }
    }
  }

  lemma AskedAppend(plans: seq<Plan>, p: Plan, missing: seq<nat>)
    requires Asked(plans, missing)
    ensures Asked(plans + [p], if p.held == [] then missing + [p.descriptor.key] else missing)
  {
  }

  lemma PlanIsOk(p: Plan, q: Request)
    requires p.descriptor in q.remote && p.left < p.right
    requires p.left == Max(q.prefixEnd, p.descriptor.start) && p.right == Min(q.end, p.descriptor.end)
    requires p.held != [] ==> From(p.held, q.sources) && Chain(p.held, p.left, p.right) && Reach(p.held, p.left, p.right) == p.right
    ensures PlanOk(p, q)
  {
  }

  /** Hold a window completely or not at all. */
  method HoldWhole(store: LocalCheckpointStore, group: nat, sources: seq<CheckpointPage>, from: nat, left: int, right: int)
    returns (held: seq<Entry>, index: nat, failure: Option<Failure>)
    requires left < right && from <= |sources|
    requires forall j :: 0 <= j < from ==> sources[j].end <= left
    modifies store`refs, store`missed
    ensures store.refs == old(store.refs) + PagesIn(held) && old(store.missed) <= store.missed
    ensures held != [] ==> From(held, sources) && Chain(held, left, right) && Reach(held, left, right) == right
    ensures from <= index <= |sources| && forall j :: 0 <= j < index ==> sources[j].end <= right
    ensures failure.None? && held == [] && Sorted(sources) ==> GapIn(left, right, sources, group, store.missed)
    ensures failure.Some? ==> LookupFailed(failure.value)
  {
    hide PagesIn, Chain, Blocked, Sorted;
    var cursor: int;
    held, index, cursor, failure := HoldWindow(store, group, sources, from, left, right);
    if failure.Some? || cursor != right {
      store.ReleaseList(held);
      held := [];
      EmptyHeld(held);
    }
  }

  lemma NoPlans(q: Request, group: nat, missed: set<(nat, CheckpointPage)>)
    ensures Planned([], q) && PlanPages([]) == multiset{} && Asked([], []) && HeldIfPossible([], q.sources, group, missed)
  {
  }

  lemma EmptyHeld(held: seq<Entry>)
    ensures held == [] ==> PagesIn(held) == multiset{}
  {
  }

  lemma HeldCovers(p: Plan, q: Request)
    requires PlanOk(p, q)
    ensures p.held != [] ==> Covers(p.held, p.left, p.right)
  {
    if p.held != [] { ChainCovers(p.held, p.left, p.right); }
  }

  /** What became of one planned window: its entries, a stop at an unavailable page, or an error. */
  datatype Outcome = Taken(entries: seq<Entry>) | Unavailable | Broken(failure: Failure)

  /** Take over what is held for a window, or load its page. */
  method TakeWindow(store: LocalCheckpointStore, plan: Plan, present: set<nat>, probe: bool) returns (outcome: Outcome)
    requires PagesIn(plan.held) <= store.refs
    requires plan.descriptor.start <= plan.left && plan.right <= plan.descriptor.end
    requires plan.held != [] ==> Covers(plan.held, plan.left, plan.right)
    modifies store`refs, store`lost
    ensures old(store.lost) <= store.lost
    ensures outcome.Taken? && !probe ==> Windows(outcome.entries) == Part(plan)
    ensures outcome.Broken? ==> LookupFailed(outcome.failure)
    ensures outcome.Taken? ==>
      && store.refs + PagesIn(plan.held) == old(store.refs) + PagesIn(outcome.entries)
      && (!probe ==> Covers(outcome.entries, plan.left, plan.right))
      && (outcome.entries == plan.held || forall i :: 0 <= i < |outcome.entries| ==> outcome.entries[i].0 == plan.descriptor)
    ensures !outcome.Taken? ==> store.refs == old(store.refs)
    ensures outcome.Unavailable? ==> plan.descriptor.key in store.lost
  {
    hide PagesIn, Covers;
    if plan.held != [] {
      return Taken(plan.held);
    }
    EmptyHeld(plan.held);
    if plan.descriptor.key !in present {
      store.lost := store.lost + {plan.descriptor.key};
      return Unavailable;
    }
    if probe {
      return Taken([]);
    }
    var page, failure := LoadPage(store);
    if failure.Some? { return Broken(failure.value); }
    if page.None? {
      store.lost := store.lost + {plan.descriptor.key};
      return Unavailable;
    }
    var e := (plan.descriptor, page.value);
    OneCovers(e, plan.left, plan.right);
    OnePage(e);
    outcome := Taken([e]);
  }

  lemma OnePage(e: Entry)
    ensures PagesIn([e]) == multiset{e.1}
  {
    PagesAppend([], e);
    assert [] + [e] == [e];
  }

  /** Move planned windows over, or load them, up to the first one that is neither held nor present. */
  method LoadGroup(store: LocalCheckpointStore, plans: seq<Plan>, a: int, present: set<nat>, probe: bool, ghost q: Request)
    returns (held: seq<Entry>, rest: seq<Plan>, cursor: int, failure: Option<Failure>, ghost taken: seq<Plan>)
    requires a == q.prefixEnd && Planned(plans, q) && PlanPages(plans) <= store.refs
    modifies store`refs, store`lost
    ensures store.refs + PlanPages(plans) == old(store.refs) + PagesIn(held) + PlanPages(rest)
    ensures old(store.lost) <= store.lost
    ensures q.prefixEnd <= cursor <= Max(q.prefixEnd, PlannedEnd(plans, q.prefixEnd))
    ensures failure.None? && cursor < PlannedEnd(plans, q.prefixEnd) ==> LostAt(q.remote, cursor, store.lost)
    ensures TakenOver(held, cursor, probe, q, taken) && taken <= plans && (failure.Some? ==> LookupFailed(failure.value))
  {
    hide PagesIn, Covers, PlanPages, LostAt, PlanOk, Part, Listed, TakenOver;
    held, cursor, failure := [], a, None;
    var k := 0;
    rest, taken := plans, [];
    NothingTaken(q, probe);
    while k < |plans|
      invariant k <= |plans| && rest == plans[k..] && taken == plans[..k]
      invariant store.refs + PlanPages(plans) == old(store.refs) + PagesIn(held) + PlanPages(rest)
      invariant old(store.lost) <= store.lost
      invariant cursor == PlannedEnd(taken, q.prefixEnd)
      invariant q.prefixEnd <= cursor <= Max(q.prefixEnd, PlannedEnd(plans, q.prefixEnd))
      invariant TakenOver(held, cursor, probe, q, taken)
    {
      var plan := plans[k];
      PlannedParts(plans, q, k);
      HeldCovers(plan, q);
      RightBound(plans, q, k);
      HeadPlan(plans, k);
      StillOwned(store.refs, PlanPages(plans), old(store.refs), PagesIn(held), PagesIn(plan.held), PlanPages(plans[k + 1..]));
      ghost var refs := store.refs;
      var outcome := TakeWindow(store, plan, present, probe);
      match outcome
      case Broken(f) =>
        failure := Some(f);
        return;
      case Unavailable =>
        LostHere(q.remote, plan.descriptor, cursor, store.lost);
        return;
      case Taken(entries) =>
        PagesConcat(held, entries);
        TakenAppend(held, cursor, probe, q, taken, plan, entries);
        Swapped(refs, store.refs, PlanPages(plans), old(store.refs), PagesIn(held), PagesIn(plan.held), PlanPages(plans[k + 1..]), PagesIn(entries));
        held := held + entries;
        cursor := plan.right;
        assert plans[..k + 1] == plans[..k] + [plan];
        k := k + 1;
        rest, taken := plans[k..], plans[..k];
    }
  }

  /** What was taken over of a plan: the entries listed for its windows, which cover the range they reach.
      A probe loads nothing, so it only lists what was held. */
  ghost predicate TakenOver(held: seq<Entry>, cursor: int, probe: bool, q: Request, taken: seq<Plan>) {
    && Planned(taken, q) && cursor == PlannedEnd(taken, q.prefixEnd)
    && Origin(held, q.sources, q.remote)
    && (!probe ==> Windows(held) == Listed(taken) && Covers(held, q.prefixEnd, cursor))
  }

  lemma NothingTaken(q: Request, probe: bool)
    ensures TakenOver([], q.prefixEnd, probe, q, []) && PagesIn([]) == multiset{}
  {
  }

  lemma TakenAppend(held: seq<Entry>, cursor: int, probe: bool, q: Request, taken: seq<Plan>, plan: Plan, entries: seq<Entry>)
    requires TakenOver(held, cursor, probe, q, taken) && PlanOk(plan, q) && plan.left == cursor
    requires entries == plan.held || (forall i :: 0 <= i < |entries| ==> entries[i].0 == plan.descriptor)
    requires !probe ==> Windows(entries) == Part(plan) && Covers(entries, plan.left, plan.right)
    ensures TakenOver(held + entries, plan.right, probe, q, taken + [plan])
  {
    hide Covers, Planned, PlanOk, Origin, Part;
    OriginAppend(held, entries, q, plan);
    PlannedAppend(taken, plan, q);
    if !probe {
      CoversJoin(held, entries, q.prefixEnd, plan.left, plan.right);
      ListedAppend(taken, plan);
      assert Windows(held + entries) == Windows(held) + Windows(entries);
    }
  }

  lemma PlannedParts(plans: seq<Plan>, q: Request, k: nat)
    requires Planned(plans, q) && k < |plans|
    ensures PlanOk(plans[k], q) && plans[k].left == PlannedEnd(plans[..k], q.prefixEnd)
    ensures plans[k].descriptor in q.remote
    ensures plans[k].descriptor.start <= plans[k].left < plans[k].right <= plans[k].descriptor.end
  {
  }

  lemma Swapped(refs: multiset<PageObj>, now: multiset<PageObj>, all: multiset<PageObj>, before: multiset<PageObj>,
                held: multiset<PageObj>, next: multiset<PageObj>, later: multiset<PageObj>, taken: multiset<PageObj>)
    requires refs + all == before + held + (next + later) && now + next == refs + taken
    ensures now + all == before + (held + taken) + later
  {
    forall p ensures (now + all)[p] == (before + (held + taken) + later)[p] {
      assert (refs + all)[p] == (before + held + (next + later))[p];
      assert (now + next)[p] == (refs + taken)[p];
    }
  }

  /** What a caller owns minus what it has spent still contains the next window. */
  lemma StillOwned(refs: multiset<PageObj>, all: multiset<PageObj>, before: multiset<PageObj>,
                   held: multiset<PageObj>, next: multiset<PageObj>, later: multiset<PageObj>)
    requires refs + all == before + held + (next + later) && all <= before
    ensures next <= refs
  {
    forall p ensures next[p] <= refs[p] { assert (refs + all)[p] == (before + held + (next + later))[p]; }
  }

  /** The remote window over the frontier could not be had. */
  ghost predicate LostAt(remote: seq<CheckpointPage>, cursor: int, lost: set<nat>) {
    exists d :: d in remote && d.start <= cursor < d.end && d.key in lost
  }

  lemma LostHere(remote: seq<CheckpointPage>, d: CheckpointPage, cursor: int, lost: set<nat>)
    requires d in remote && d.start <= cursor < d.end && d.key in lost
    ensures LostAt(remote, cursor, lost)
  {
  }

  lemma OneCovers(e: Entry, left: int, right: int)
    requires e.0.start <= left && right <= e.0.end
    ensures Covers([e], left, right)
  {
    forall t | left <= t < right ensures Covered([e], t) { assert [e][0].0.start <= t < [e][0].0.end; }
  }

  lemma HeadPlan(plans: seq<Plan>, k: nat)
    requires k < |plans|
    ensures PlanPages(plans[k..]) == PagesIn(plans[k].held) + PlanPages(plans[k + 1..])
  {
    hide PagesIn;
    PlanConcat([plans[k]], plans[k + 1..]);
    assert plans[k..] == [plans[k]] + plans[k + 1..];
    PlanAppend([], plans[k]);
    assert [] + [plans[k]] == [plans[k]];
  }

  /** A remote read: an owned page, an explicit absence or refused allocation, or a transport error. */
  method LoadPage(store: LocalCheckpointStore) returns (page: Option<PageObj>, failure: Option<Failure>)
    modifies store`refs
    ensures failure.Some? ==> page.None?
    ensures page.None? ==> store.refs == old(store.refs)
    ensures page.Some? ==> store.refs == old(store.refs) + multiset{page.value}
    ensures failure.Some? ==> LookupFailed(failure.value)
  {
    page, failure := None, None;
    var outcome: int := *;
    if outcome == 0 {
      failure := Some(Transport);
    } else if outcome == 1 {
      var loaded: PageObj := *;
      store.refs := store.refs + multiset{loaded};
      page := Some(loaded);
    }
  }

  method ReleasePlans(store: LocalCheckpointStore, plans: seq<Plan>)
    requires PlanPages(plans) <= store.refs
    modifies store`refs
    ensures store.refs == old(store.refs) - PlanPages(plans)
  {
    hide PagesIn;
    for k := 0 to |plans|
      invariant PlanPages(plans[k..]) <= store.refs
      invariant store.refs == old(store.refs) - PlanPages(plans) + PlanPages(plans[k..])
    {
      HeadPlan(plans, k);
      store.ReleaseList(plans[k].held);
    }
  }

  /** A mixed acquisition. A normal exit hands over exactly one reference per returned entry; outside
      probe mode both groups cover the frontier, and what each returns is what is listed for the windows
      taken over, cut back to it; the frontier only stops short of the end where the remote store could
      not provide a window. Any other exit leaves every count as it was. */
  method MixedAcquire(store: LocalCheckpointStore, m: Manifest, remote: seq<seq<CheckpointPage>>, base: int, end: int, probe: bool)
    returns (r: Result<(int, Groups), Failure>, ghost taken: seq<seq<Plan>>)
    requires base <= m.prefixEnd && Persisted(remote, base, m.total)
    modifies store`refs, store`missed, store`lost
    ensures r.Err? ==> store.refs == old(store.refs) && LookupFailed(r.error)
    ensures r.Ok? ==> store.refs == old(store.refs) + PagesOf(r.value.1)
    ensures r.Ok? ==> MixedPrefix(m, end, probe, r.value.0, r.value.1)
    ensures r.Ok? ==> Acquired(m, remote, end, probe, r.value.0, r.value.1, taken)
    ensures r.Ok? && r.value.0 < end <= m.total ==>
      LostAt(remote[0], r.value.0, store.lost) || LostAt(remote[1], r.value.0, store.lost)
    ensures r.Ok? && Sorted(m.groups[0]) && Sorted(m.groups[1]) ==> forall g: nat :: g < 2 ==> HeldIfPossible(taken[g], m.groups[g], g, store.missed)
  {
    hide PagesOf, PlanPages, LostAt, Planned, MixedPrefix, Tiles, Sorted, HeldIfPossible, Acquired;
    taken := [];
    var plans0, plans1, present, failure := PlanBoth(store, m, remote, base, end);
    if failure.Some? { return Err(failure.value), []; }
    r, taken := FinishMixed(store, m, plans0, plans1, present, end, probe, remote, old(store.refs));
    if r.Ok? && Sorted(m.groups[0]) && Sorted(m.groups[1]) {
      HeldIfPossibleTake(plans0, taken[0], m.groups[0], 0, store.missed, store.missed);
      HeldIfPossibleTake(plans1, taken[1], m.groups[1], 1, store.missed, store.missed);
    }
  }

  /** The first half: plan both groups and ask the remote store for what could not be held. */
  method PlanBoth(store: LocalCheckpointStore, m: Manifest, remote: seq<seq<CheckpointPage>>, base: int, end: int)
    returns (plans0: seq<Plan>, plans1: seq<Plan>, present: set<nat>, failure: Option<Failure>)
    requires base <= m.prefixEnd && Persisted(remote, base, m.total)
    modifies store`refs, store`missed
    ensures failure.Some? ==> store.refs == old(store.refs) && LookupFailed(failure.value)
    ensures failure.None? ==>
      && store.refs == old(store.refs) + PlanPages(plans0) + PlanPages(plans1)
      && Planned(plans0, RequestOf(m, 0, remote[0], end)) && Planned(plans1, RequestOf(m, 1, remote[1], end))
      && m.prefixEnd <= PlannedEnd(plans0, m.prefixEnd) <= Max(m.prefixEnd, end)
      && m.prefixEnd <= PlannedEnd(plans1, m.prefixEnd) <= Max(m.prefixEnd, end)
      && (end <= m.total ==> end <= PlannedEnd(plans0, m.prefixEnd) && end <= PlannedEnd(plans1, m.prefixEnd))
      && (Sorted(m.groups[0]) ==> HeldIfPossible(plans0, m.groups[0], 0, store.missed))
      && (Sorted(m.groups[1]) ==> HeldIfPossible(plans1, m.groups[1], 1, store.missed))
  {
    hide PagesIn, PlanPages, Planned, Tiles, Sorted, HeldIfPossible, Asked, PlannedEnd;
    present := {};
    plans1 := [];
    var missing0;
    plans0, missing0, failure := PlanGroup(store, m, 0, remote[0], base, end);
    if failure.Some? {
      ReleasePlans(store, plans0);
      return;
    }
    ghost var missed0 := store.missed;
    var missing1;
    plans1, missing1, failure := PlanGroup(store, m, 1, remote[1], base, end);
    if Sorted(m.groups[0]) { HeldIfPossibleTake(plans0, plans0, m.groups[0], 0, missed0, store.missed); }
    if failure.None? {
      present, failure := Probe(missing0 + missing1);
    }
    if failure.Some? {
      BothGone(old(store.refs), PlanPages(plans0), PlanPages(plans1));
      ReleasePlans(store, plans0);
      ReleasePlans(store, plans1);
    }
  }

  lemma HeldIfPossibleTake(plans: seq<Plan>, taken: seq<Plan>, sources: seq<CheckpointPage>, group: nat,
                           missed: set<(nat, CheckpointPage)>, more: set<(nat, CheckpointPage)>)
    requires HeldIfPossible(plans, sources, group, missed) && taken <= plans && missed <= more
    ensures HeldIfPossible(taken, sources, group, more)
  {
    forall i | 0 <= i < |taken| && taken[i].held == [] ensures GapIn(taken[i].left, taken[i].right, sources, group, more) {
      assert taken[i] == plans[i];
      assert GapIn(plans[i].left, plans[i].right, sources, group, missed);
      var t :| plans[i].left <= t < plans[i].right && Blocked(sources, group, t, missed);
      BlockedLonger(sources, group, t, missed, more);
    }
  }

  /** The remote store's answer for the missing keys, or a transport error. */
  method Probe(keys: seq<nat>) returns (present: set<nat>, failure: Option<Failure>)
    ensures forall k :: k in present ==> k in keys
    ensures failure.Some? ==> LookupFailed(failure.value)
  {
    var some: set<nat> := *;
    present := set k | k in keys && k in some;
    var reachable: bool := *;
    failure := if reachable then None else Some(Transport);
  }

  /** Both groups cover the frontier they share. */
  ghost predicate MixedPrefix(m: Manifest, end: int, probe: bool, common: int, groups: Groups) {
    && m.prefixEnd <= common <= Max(m.prefixEnd, end)
    && (!probe ==> Covers(groups[0], m.prefixEnd, common) && Covers(groups[1], m.prefixEnd, common))
  }

  /** What one group hands over: the entries listed for the windows taken over, cut back to the frontier. */
  ghost predicate HandedOver(held: seq<Entry>, common: int, probe: bool, q: Request, taken: seq<Plan>) {
    && Planned(taken, q) && common <= PlannedEnd(taken, q.prefixEnd)
    && Origin(held, q.sources, q.remote)
    && (!probe ==> Windows(held) == Before(Listed(taken), common))
  }

  /** What a mixed acquisition hands over; the frontier is where the shorter of the two groups ends. */
  ghost predicate Acquired(m: Manifest, remote: seq<seq<CheckpointPage>>, end: int, probe: bool, common: int, groups: Groups,
                           taken: seq<seq<Plan>>)
    requires |remote| == 2
  {
    && |taken| == 2
    && common == Min(PlannedEnd(taken[0], m.prefixEnd), PlannedEnd(taken[1], m.prefixEnd))
    && forall g: nat {:trigger taken[g]} :: g < 2 ==> HandedOver(groups[g], common, probe, RequestOf(m, g, remote[g], end), taken[g])
  }

  lemma MixedPair(m: Manifest, remote: seq<seq<CheckpointPage>>, end: int, probe: bool, common: int, first: seq<Entry>, second: seq<Entry>,
                  taken0: seq<Plan>, taken1: seq<Plan>)
    requires |remote| == 2 && m.prefixEnd <= common <= Max(m.prefixEnd, end)
    requires common == Min(PlannedEnd(taken0, m.prefixEnd), PlannedEnd(taken1, m.prefixEnd))
    requires !probe ==> Covers(first, m.prefixEnd, common) && Covers(second, m.prefixEnd, common)
    requires HandedOver(first, common, probe, RequestOf(m, 0, remote[0], end), taken0)
    requires HandedOver(second, common, probe, RequestOf(m, 1, remote[1], end), taken1)
    ensures MixedPrefix(m, end, probe, common, [first, second])
    ensures Acquired(m, remote, end, probe, common, [first, second], [taken0, taken1])
    ensures PagesOf([first, second]) == PagesIn(first) + PagesIn(second)
  {
    hide HandedOver, PlannedEnd;
  }

  /** The second half of a mixed acquisition: take over or load windows, pair, give the rest back. */
  method FinishMixed(store: LocalCheckpointStore, m: Manifest, plans0: seq<Plan>, plans1: seq<Plan>, present: set<nat>,
                     end: int, probe: bool, ghost remote: seq<seq<CheckpointPage>>, ghost before: multiset<PageObj>)
    returns (r: Result<(int, Groups), Failure>, ghost taken: seq<seq<Plan>>)
    requires |remote| == 2
    requires Planned(plans0, RequestOf(m, 0, remote[0], end)) && Planned(plans1, RequestOf(m, 1, remote[1], end))
    requires m.prefixEnd <= PlannedEnd(plans0, m.prefixEnd) <= Max(m.prefixEnd, end)
    requires m.prefixEnd <= PlannedEnd(plans1, m.prefixEnd) <= Max(m.prefixEnd, end)
    requires end <= m.total ==> end <= PlannedEnd(plans0, m.prefixEnd) && end <= PlannedEnd(plans1, m.prefixEnd)
    requires store.refs == before + PlanPages(plans0) + PlanPages(plans1)
    modifies store`refs, store`lost
    ensures r.Err? ==> store.refs == before && LookupFailed(r.error)
    ensures r.Ok? ==> store.refs == before + PagesOf(r.value.1)
    ensures r.Ok? ==> MixedPrefix(m, end, probe, r.value.0, r.value.1)
    ensures r.Ok? ==> Acquired(m, remote, end, probe, r.value.0, r.value.1, taken)
    ensures r.Ok? ==> |taken| == 2 && taken[0] <= plans0 && taken[1] <= plans1
    ensures r.Ok? && r.value.0 < end <= m.total ==>
      LostAt(remote[0], r.value.0, store.lost) || LostAt(remote[1], r.value.0, store.lost)
  {
    hide PagesIn, PagesOf, PlanPages, LostAt, Planned, MixedPrefix, Acquired, TakenOver;
    taken := [];
    var first, end0, broken0, taken0 := LoadOwned(store, plans0, m.prefixEnd, present, probe, RequestOf(m, 0, remote[0], end), before + PlanPages(plans1));
    if broken0.Some? {
      store.ReleaseList(first);
      ReleasePlans(store, plans1);
      assert store.refs == before;
      return Err(broken0.value), [];
    }
    r, taken := FinishSecond(store, m, first, end0, plans1, present, end, probe, remote, taken0, before);
  }

  /** The same for the second group, then the pairing. */
  method FinishSecond(store: LocalCheckpointStore, m: Manifest, first: seq<Entry>, end0: int, plans1: seq<Plan>, present: set<nat>,
                      end: int, probe: bool, ghost remote: seq<seq<CheckpointPage>>, ghost taken0: seq<Plan>, ghost before: multiset<PageObj>)
    returns (r: Result<(int, Groups), Failure>, ghost taken: seq<seq<Plan>>)
    requires |remote| == 2 && Planned(plans1, RequestOf(m, 1, remote[1], end))
    requires TakenOver(first, end0, probe, RequestOf(m, 0, remote[0], end), taken0)
    requires m.prefixEnd <= end0 <= Max(m.prefixEnd, end)
    requires m.prefixEnd <= PlannedEnd(plans1, m.prefixEnd) <= Max(m.prefixEnd, end)
    requires end <= m.total ==> end <= PlannedEnd(plans1, m.prefixEnd)
    requires end0 < end <= m.total ==> LostAt(remote[0], end0, store.lost)
    requires store.refs == before + PagesIn(first) + PlanPages(plans1)
    modifies store`refs, store`lost
    ensures r.Err? ==> store.refs == before && LookupFailed(r.error)
    ensures r.Ok? ==> store.refs == before + PagesOf(r.value.1)
    ensures r.Ok? ==> MixedPrefix(m, end, probe, r.value.0, r.value.1)
    ensures r.Ok? ==> Acquired(m, remote, end, probe, r.value.0, r.value.1, taken)
    ensures r.Ok? ==> |taken| == 2 && taken[0] == taken0 && taken[1] <= plans1
    ensures r.Ok? && r.value.0 < end <= m.total ==>
      LostAt(remote[0], r.value.0, store.lost) || LostAt(remote[1], r.value.0, store.lost)
  {
    hide PagesIn, PagesOf, PlanPages, LostAt, Planned, MixedPrefix, Acquired, TakenOver;
    taken := [];
    ghost var lost0 := store.lost;
    var second, end1, broken1, taken1 := LoadSecond(store, first, plans1, m.prefixEnd, present, probe, RequestOf(m, 1, remote[1], end), before);
    if broken1.Some? { return Err(broken1.value), []; }
    LostLonger(remote[0], end0, lost0, store.lost);
    var common, groups := PairMixed(store, m, first, end0, second, end1, end, probe, remote, taken0, taken1);
    Exchanged(before, PagesIn(first), PagesIn(second), PagesOf(groups));
    taken := [taken0, taken1];
    r := Ok((common, groups));
  }

  /** Load the second group; an error gives back the first as well. */
  method LoadSecond(store: LocalCheckpointStore, first: seq<Entry>, plans: seq<Plan>, a: int, present: set<nat>, probe: bool,
                    ghost q: Request, ghost before: multiset<PageObj>)
    returns (second: seq<Entry>, cursor: int, failure: Option<Failure>, ghost taken: seq<Plan>)
    requires a == q.prefixEnd <= PlannedEnd(plans, a) && Planned(plans, q)
    requires store.refs == before + PagesIn(first) + PlanPages(plans)
    modifies store`refs, store`lost
    ensures failure.Some? ==> store.refs == before && LookupFailed(failure.value)
    ensures failure.None? ==> store.refs == before + PagesIn(first) + PagesIn(second)
    ensures old(store.lost) <= store.lost
    ensures a <= cursor <= PlannedEnd(plans, a)
    ensures failure.None? && cursor < PlannedEnd(plans, a) ==> LostAt(q.remote, cursor, store.lost)
    ensures TakenOver(second, cursor, probe, q, taken) && taken <= plans
  {
    hide PagesIn, PlanPages, LostAt, Planned, TakenOver;
    second, cursor, failure, taken := LoadOwned(store, plans, a, present, probe, q, before + PagesIn(first));
    if failure.Some? {
      BothGone(before, PagesIn(first), PagesIn(second));
      store.ReleaseList(first);
      store.ReleaseList(second);
    }
  }

  lemma BothGone(before: multiset<PageObj>, first: multiset<PageObj>, second: multiset<PageObj>)
    ensures first <= before + first + second
    ensures second <= before + first + second - first
    ensures before + first + second - first - second == before
  {
  }

  /** Load one group and give back the windows behind the first unavailable one. */
  method LoadOwned(store: LocalCheckpointStore, plans: seq<Plan>, a: int, present: set<nat>, probe: bool,
                   ghost q: Request, ghost other: multiset<PageObj>)
    returns (held: seq<Entry>, cursor: int, failure: Option<Failure>, ghost taken: seq<Plan>)
    requires a == q.prefixEnd <= PlannedEnd(plans, a) && Planned(plans, q)
    requires store.refs == other + PlanPages(plans)
    modifies store`refs, store`lost
    ensures store.refs == other + PagesIn(held)
    ensures old(store.lost) <= store.lost
    ensures a <= cursor <= PlannedEnd(plans, a)
    ensures failure.None? && cursor < PlannedEnd(plans, a) ==> LostAt(q.remote, cursor, store.lost)
    ensures TakenOver(held, cursor, probe, q, taken) && taken <= plans && (failure.Some? ==> LookupFailed(failure.value))
  {
    hide PagesIn, PlanPages, LostAt, Planned, TakenOver;
    var rest: seq<Plan>;
    held, rest, cursor, failure, taken := LoadGroup(store, plans, a, present, probe, q);
    Settled(store.refs, other, PlanPages(plans), PagesIn(held) + PlanPages(rest));
    ReleasePlans(store, rest);
  }

  lemma Settled(refs: multiset<PageObj>, other: multiset<PageObj>, spent: multiset<PageObj>, gained: multiset<PageObj>)
    requires refs + spent == other + spent + gained
    ensures refs == other + gained
  {
    forall p ensures refs[p] == (other + gained)[p] { assert (refs + spent)[p] == (other + spent + gained)[p]; }
  }

  /** Cut both groups back to the frontier they share. */
  method PairMixed(store: LocalCheckpointStore, m: Manifest, first: seq<Entry>, end0: int, second: seq<Entry>, end1: int, end: int, probe: bool,
                   ghost remote: seq<seq<CheckpointPage>>, ghost taken0: seq<Plan>, ghost taken1: seq<Plan>)
    returns (common: int, groups: Groups)
    requires PagesIn(first) + PagesIn(second) <= store.refs
    requires m.prefixEnd <= end0 <= Max(m.prefixEnd, end) && m.prefixEnd <= end1 <= Max(m.prefixEnd, end)
    requires |remote| == 2
    requires TakenOver(first, end0, probe, RequestOf(m, 0, remote[0], end), taken0)
    requires TakenOver(second, end1, probe, RequestOf(m, 1, remote[1], end), taken1)
    modifies store`refs
    ensures common == Min(end0, end1)
    ensures store.refs == old(store.refs) - PagesIn(first) - PagesIn(second) + PagesOf(groups)
    ensures MixedPrefix(m, end, probe, common, groups)
    ensures Acquired(m, remote, end, probe, common, groups, [taken0, taken1])
  {
    hide PagesIn, PagesOf, Covers, MixedPrefix, Acquired, TakenOver, HandedOver, PlannedEnd;
    common := Min(end0, end1);
    TakenEnd(first, end0, probe, RequestOf(m, 0, remote[0], end), taken0);
    TakenEnd(second, end1, probe, RequestOf(m, 1, remote[1], end), taken1);
    var kept0 := TrimTaken(store, first, end0, common, probe, RequestOf(m, 0, remote[0], end), taken0);
    var kept1 := TrimTaken(store, second, end1, common, probe, RequestOf(m, 1, remote[1], end), taken1);
    MixedPair(m, remote, end, probe, common, kept0, kept1, taken0, taken1);
    groups := [kept0, kept1];
  }

  lemma TakenEnd(held: seq<Entry>, cursor: int, probe: bool, q: Request, taken: seq<Plan>)
    requires TakenOver(held, cursor, probe, q, taken)
    ensures cursor == PlannedEnd(taken, q.prefixEnd)
  {
  }

  lemma LostLonger(remote: seq<CheckpointPage>, cursor: int, lost: set<nat>, more: set<nat>)
    requires lost <= more
    ensures LostAt(remote, cursor, lost) ==> LostAt(remote, cursor, more)
  {
  }

  method TrimTaken(store: LocalCheckpointStore, held: seq<Entry>, reached: int, common: int, probe: bool,
                   ghost q: Request, ghost taken: seq<Plan>) returns (kept: seq<Entry>)
    requires PagesIn(held) <= store.refs && common <= reached
    requires TakenOver(held, reached, probe, q, taken)
    modifies store`refs
    ensures store.refs == old(store.refs) - PagesIn(held) + PagesIn(kept)
    ensures !probe ==> Covers(kept, q.prefixEnd, common)
    ensures HandedOver(kept, common, probe, q, taken)
  {
    hide PagesIn;
    kept := store.Trim(held, common);
    assert kept == held[..|kept|];
    TrimHandsOver(held, kept, reached, common, probe, q, taken);
  }

  lemma TrimHandsOver(held: seq<Entry>, kept: seq<Entry>, reached: int, common: int, probe: bool, q: Request, taken: seq<Plan>)
    requires TakenOver(held, reached, probe, q, taken) && common <= reached
    requires |kept| <= |held| && kept == held[..|kept|] && Windows(kept) == Before(Windows(held), common)
    requires forall i :: |kept| <= i < |held| ==> held[i].0.start >= common
    ensures !probe ==> Covers(kept, q.prefixEnd, common)
    ensures HandedOver(kept, common, probe, q, taken)
  {
    hide Planned, Covers, Windows, Before;
    forall i | 0 <= i < |kept| ensures kept[i].0 in q.sources || kept[i].0 in q.remote { assert kept[i] == held[i]; }
    if !probe {
      CoversShorter(held, q.prefixEnd, reached, common);
      CoversWithoutTail(held, |kept|, q.prefixEnd, common);
    }
  }

  /** Nothing is cut back where the windows taken over end. */
  lemma BeforeEnd(taken: seq<Plan>, q: Request)
    requires Planned(taken, q)
    ensures Before(Listed(taken), PlannedEnd(taken, q.prefixEnd)) == Listed(taken)
  {
    hide Planned, Listed, Part;
    if taken != [] {
      ListedEnds(taken, q);
      LastStartsBelow(taken, q);
    } else {
      assert Listed(taken) == [] by { NothingListed(); }
    }
  }

  lemma NothingListed()
    ensures Listed([]) == []
  {
  }

  lemma LastStartsBelow(taken: seq<Plan>, q: Request)
    requires Planned(taken, q) && taken != []
    ensures Last(taken[|taken| - 1]).start < PlannedEnd(taken, q.prefixEnd)
  {
    var p := taken[|taken| - 1];
    assert PlanOk(p, q);
    if p.held != [] { assert Extends(p.held, |p.held| - 1, p.left, p.right); }
  }

  /** A mixed acquisition that reached the asked end can be re-cut, unless a source of the offer straddles
      a canonical boundary. */
  lemma AcquiredReassembles(m: Manifest, remote: seq<seq<CheckpointPage>>, end: int, groups: Groups, taken: seq<seq<Plan>>, g: nat)
    requires |remote| == 2 && g < 2 && m.prefixEnd < end && Acquired(m, remote, end, false, end, groups, taken)
    ensures Planned(taken[g], RequestOf(m, g, remote[g], end)) && PlannedEnd(taken[g], m.prefixEnd) == end
    ensures Windows(groups[g]) == Listed(taken[g])
    ensures Sequential(m.groups[g]) && NoSourceStraddles(RequestOf(m, g, remote[g], end)) ==> Recuttable(groups[g], m.prefixEnd, end)
  {
    hide Planned, Listed, Before, Recuttable, NoSourceStraddles, Sequential;
    var q := RequestOf(m, g, remote[g], end);
    assert HandedOver(groups[g], end, false, q, taken[g]);
    EndIsReached(taken[g], q);
    BeforeEnd(taken[g], q);
    if Sequential(q.sources) && NoSourceStraddles(q) { MixedRestoreReassembles(taken[g], q, groups[g]); }
  }

  /** A mixed acquisition of a whole offer in which no local lookup missed can be re-cut at all canonical
      windows if and only if no source straddles a boundary between two of them. */
  lemma HitsOnlyRecutIff(m: Manifest, remote: seq<seq<CheckpointPage>>, base: int, end: int, groups: Groups, taken: seq<seq<Plan>>,
                         g: nat, missed: set<(nat, CheckpointPage)>)
    requires |remote| == 2 && g < 2 && m.prefixEnd < end && Acquired(m, remote, end, false, end, groups, taken)
    requires HeldIfPossible(taken[g], m.groups[g], g, missed) && forall s :: s in m.groups[g] ==> (g, s) !in missed
    requires Whole(RequestOf(m, g, remote[g], end)) && Tiles(remote[g], base, m.total) && remote[g] != [] && base <= m.prefixEnd < remote[g][0].end
    ensures Windows(groups[g]) == Listed(taken[g])
    ensures AllCutOut(taken[g], RequestOf(m, g, remote[g], end), base) <==> NoSourceStraddles(RequestOf(m, g, remote[g], end))
  {
    hide Planned, Listed, Recuttable, NoSourceStraddles, Sequential, AllCutOut, HandedOver;
    AcquiredReassembles(m, remote, end, groups, taken, g);
    AllAreHeld(taken[g], RequestOf(m, g, remote[g], end), g, missed);
    HeldRecutsIff(taken[g], RequestOf(m, g, remote[g], end), base, m.total);
  }

  lemma AllAreHeld(taken: seq<Plan>, q: Request, group: nat, missed: set<(nat, CheckpointPage)>)
    requires Planned(taken, q) && Whole(q)
    requires HeldIfPossible(taken, q.sources, group, missed) && forall s :: s in q.sources ==> (group, s) !in missed
    ensures AllHeld(taken)
  {
    forall i | 0 <= i < |taken| ensures taken[i].held != [] {
      RightBound(taken, q, i);
      forall t | taken[i].left <= t < taken[i].right ensures !Blocked(q.sources, group, t, missed) { NotBlocked(q, t, group, missed); }
      assert !GapIn(taken[i].left, taken[i].right, q.sources, group, missed);
    }
  }

  lemma NotBlocked(q: Request, t: int, group: nat, missed: set<(nat, CheckpointPage)>)
    requires Whole(q) && q.prefixEnd <= t < q.end && forall s :: s in q.sources ==> (group, s) !in missed
    ensures !Blocked(q.sources, group, t, missed)
  {
    var k := ContiguousFind(q.sources, |q.sources|, t);
    assert q.sources[k] in q.sources;
  }

  lemma EndIsReached(taken: seq<Plan>, q: Request)
    requires Planned(taken, q) && q.prefixEnd < q.end <= PlannedEnd(taken, q.prefixEnd)
    ensures PlannedEnd(taken, q.prefixEnd) == q.end
  {
    RightBound(taken, q, |taken| - 1);
  }

  /** The remote windows an acquisition may come to use: those confirmed before it, or meanwhile. */
  function Confirmed(remote: Option<seq<seq<CheckpointPage>>>, later: Option<seq<seq<CheckpointPage>>>): seq<seq<CheckpointPage>> {
    if remote.Some? then remote.value else if later.Some? then later.value else [[], []]
  }

  /** The reason a frontier lies before the end: a local source ends or was looked up in vain, or a
      remote window was absent or could not be loaded. */
  ghost predicate StopsFor(m: Manifest, common: int, used: seq<seq<CheckpointPage>>, store: LocalCheckpointStore)
    requires |used| == 2
    reads store
  {
    || Stopped(m, common, store.missed)
    || LostAt(used[0], common, store.lost) || LostAt(used[1], common, store.lost)
  }

  /** Both groups can be re-cut up to the end, unless sources overlap or straddle a window in use. */
  ghost predicate Reassembles(m: Manifest, end: int, groups: Groups, used: seq<seq<CheckpointPage>>)
    requires |used| == 2
  {
    forall g: nat {:trigger groups[g]} :: g < 2 && Sequential(m.groups[g]) && NoSourceStraddles(RequestOf(m, g, used[g], end)) ==>
      Recuttable(groups[g], m.prefixEnd, end)
  }

  /** The lookup of the write-back store: local while nothing is persisted or the cache is frozen;
      otherwise local first, and again against the remote windows when a spill was confirmed meanwhile. */
  method AcquireCheckpoint(store: LocalCheckpointStore, m: Manifest, frozen: bool, remote: Option<seq<seq<CheckpointPage>>>,
                           later: Option<seq<seq<CheckpointPage>>>, base: int, end: int, probe: bool)
    returns (r: Result<(int, Groups), Failure>)
    requires base <= m.prefixEnd
    requires remote.Some? ==> Persisted(remote.value, base, m.total)
    requires later.Some? ==> Persisted(later.value, base, m.total)
    modifies store`refs, store`missed, store`lost
    ensures r.Err? ==> store.refs == old(store.refs) && LookupFailed(r.error)
    ensures r.Ok? ==> store.refs == old(store.refs) + PagesOf(r.value.1)
    ensures r.Ok? ==> MixedPrefix(m, end, probe, r.value.0, r.value.1)
    ensures r.Ok? ==> forall g :: 0 <= g < 2 ==> Origin(r.value.1[g], m.groups[g], Confirmed(remote, later)[g])
    ensures r.Ok? && frozen ==> PairedPrefix(m, end, r.value.0, r.value.1)
    ensures r.Ok? && r.value.0 < end <= m.total && Sorted(m.groups[0]) && Sorted(m.groups[1]) ==>
      StopsFor(m, r.value.0, Confirmed(remote, later), store)
    ensures r.Ok? && !probe && r.value.0 == end && m.prefixEnd < end ==> Reassembles(m, end, r.value.1, Confirmed(remote, later))
  {
    hide PagesOf, Covers, Chain, From, MixedPrefix, Acquired, Origin, Sorted, Stopped, LostAt, PairedPrefix, Reassembles, Tiles;
    if frozen || remote.None? {
      r := store.Acquire(m, end);
      if r.Err? { return; }
      LocalIsMixed(m, end, probe, r.value.0, r.value.1, Confirmed(remote, later));
      if frozen || r.value.0 == end || later.None? { return; }
      store.ReleaseGroups(r.value.1);
      assert store.refs == old(store.refs);
      r := AcquireAgain(store, m, later.value, base, end, probe);
    } else {
      r := AcquireAgain(store, m, remote.value, base, end, probe);
    }
  }

  method AcquireAgain(store: LocalCheckpointStore, m: Manifest, remote: seq<seq<CheckpointPage>>, base: int, end: int, probe: bool)
    returns (r: Result<(int, Groups), Failure>)
    requires base <= m.prefixEnd && Persisted(remote, base, m.total)
    modifies store`refs, store`missed, store`lost
    ensures r.Err? ==> store.refs == old(store.refs) && LookupFailed(r.error)
    ensures r.Ok? ==> store.refs == old(store.refs) + PagesOf(r.value.1)
    ensures r.Ok? ==> MixedPrefix(m, end, probe, r.value.0, r.value.1)
    ensures r.Ok? ==> forall g :: 0 <= g < 2 ==> Origin(r.value.1[g], m.groups[g], remote[g])
    ensures r.Ok? && r.value.0 < end <= m.total ==>
      LostAt(remote[0], r.value.0, store.lost) || LostAt(remote[1], r.value.0, store.lost)
    ensures r.Ok? && !probe && r.value.0 == end && m.prefixEnd < end ==> Reassembles(m, end, r.value.1, remote)
  {
    hide PagesOf, MixedPrefix, LostAt, Acquired, Origin, Tiles, Sorted, HeldIfPossible, Reassembles;
    ghost var taken;
    r, taken := MixedAcquire(store, m, remote, base, end, probe);
    if r.Ok? { AcquiredGives(m, remote, end, probe, r.value.0, r.value.1, taken); }
  }

  lemma AcquiredGives(m: Manifest, remote: seq<seq<CheckpointPage>>, end: int, probe: bool, common: int, groups: Groups, taken: seq<seq<Plan>>)
    requires |remote| == 2 && Acquired(m, remote, end, probe, common, groups, taken)
    ensures forall g :: 0 <= g < 2 ==> Origin(groups[g], m.groups[g], remote[g])
    ensures !probe && common == end && m.prefixEnd < end ==> Reassembles(m, end, groups, remote)
  {
    hide Origin, NoSourceStraddles, Sequential, Recuttable, Planned, Listed, Before, PlannedEnd;
    forall g: nat | g < 2 ensures Origin(groups[g], m.groups[g], remote[g]) {
      assert HandedOver(groups[g], common, probe, RequestOf(m, g, remote[g], end), taken[g]);
    }
    if !probe && common == end && m.prefixEnd < end {
      AcquiredReassembles(m, remote, end, groups, taken, 0);
      AcquiredReassembles(m, remote, end, groups, taken, 1);
    }
  }

  lemma LocalIsMixed(m: Manifest, end: int, probe: bool, common: int, groups: Groups, used: seq<seq<CheckpointPage>>)
    requires PairedPrefix(m, end, common, groups) && |used| == 2
    ensures MixedPrefix(m, end, probe, common, groups)
    ensures forall g :: 0 <= g < 2 ==> Origin(groups[g], m.groups[g], used[g])
    ensures common == end ==> Reassembles(m, end, groups, used)
  {
    hide Covers, Chain, Recuttable, Sequential, NoSourceStraddles;
    if common == end {
      forall g: nat | g < 2 && Sequential(m.groups[g]) ensures Recuttable(groups[g], m.prefixEnd, end) {
        PairedRecuts(m, end, common, groups, g);
      }
    }
  }

  /** Probing coverage leaves no reference behind. */
  method Available(store: LocalCheckpointStore, m: Manifest, frozen: bool, remote: Option<seq<seq<CheckpointPage>>>,
                   later: Option<seq<seq<CheckpointPage>>>, base: int, end: int) returns (r: Result<int, Failure>)
    requires base <= m.prefixEnd
    requires remote.Some? ==> Persisted(remote.value, base, m.total)
    requires later.Some? ==> Persisted(later.value, base, m.total)
    modifies store`refs, store`missed, store`lost
    ensures store.refs == old(store.refs)
    ensures r.Ok? ==> m.prefixEnd <= r.value <= Max(m.prefixEnd, m.total)
  {
    hide PagesOf, Covers, Reassembles, StopsFor, Origin, PairedPrefix, Tiles;
    var got := AcquireCheckpoint(store, m, frozen, remote, later, base, Min(end, m.total), true);
    if got.Err? { return Err(got.error); }
    store.ReleaseGroups(got.value.1);
    r := Ok(got.value.0);
  }
}

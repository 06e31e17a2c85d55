/** Acquisition of checkpoint pages: the references every exit leaves behind, and the frontier
    both groups are held up to. Cache, remote store and allocator answer arbitrarily. */
module LocalCheckpoint {
  import opened Basics
  import opened CheckpointTypes
  import opened Coverage
  import opened Assembly

  datatype Failure = Invalid | Hole | Miss(frontier: int) | NoMemory | Transport | UnknownCompletion

  /** The errors of a lookup: an invalid page or a broken transport, never a refused allocation or a hole. */
  predicate LookupFailed(f: Failure) { f.Invalid? || f.Transport? }

  /** An offer: accepted history length, resident prefix and the sources of both groups. */
  datatype Offer = Offer(total: nat, prefixEnd: nat, groups: seq<seq<CheckpointPage>>)

  type Manifest = m: Offer | |m.groups| == 2 witness Offer(0, 0, [[], []])

  /** The windows left once those that start at or beyond a frontier were dropped from the end. */
  function Before(ws: seq<CheckpointPage>, frontier: int): seq<CheckpointPage>
  {
    if ws == [] || ws[|ws| - 1].start < frontier then ws else Before(ws[..|ws| - 1], frontier)
  }

  lemma BeforeStep(held: seq<Entry>, frontier: int)
    requires held != [] && held[|held| - 1].0.start >= frontier
    ensures Before(Windows(held), frontier) == Before(Windows(held[..|held| - 1]), frontier)
  {
    assert Windows(held)[..|held| - 1] == Windows(held[..|held| - 1]);
  }

  lemma BeforeDone(held: seq<Entry>, frontier: int)
    requires held == [] || held[|held| - 1].0.start < frontier
    ensures Before(Windows(held), frontier) == Windows(held)
  {
  }

  lemma NoEntries(a: int, limit: int)
    ensures Chain([], a, limit) && PagesIn([]) == multiset{}
  {
  }

  /** No source reaches past the cursor, or the one that does was looked up in vain. */
  ghost predicate Blocked(sources: seq<CheckpointPage>, group: nat, cursor: int, missed: set<(nat, CheckpointPage)>) {
    || (forall s :: s in sources ==> !(s.start <= cursor < s.end))
    || (exists s :: s in sources && s.start <= cursor < s.end && (group, s) in missed)
  }

  ghost predicate Sorted(sources: seq<CheckpointPage>) {
    forall i, j :: 0 <= i < j < |sources| ==> sources[i].start <= sources[j].start
  }

  class LocalCheckpointStore {
    var refs: multiset<PageObj>                    // references this operation's caller owns
    ghost var missed: set<(nat, CheckpointPage)>   // local lookups that found nothing
    ghost var lost: set<nat>                       // remote keys that were absent or could not be loaded
    var quarantine: seq<PageObj>                   // pages whose transfer may still be running

    constructor ()
      ensures refs == multiset{} && missed == {} && lost == {} && quarantine == []
    {
      refs, missed, lost, quarantine := multiset{}, {}, {}, [];
    }

    /** Drop the reference of every entry. */
    method ReleaseList(held: seq<Entry>)
      requires PagesIn(held) <= refs
      modifies `refs
      ensures refs == old(refs) - PagesIn(held)
    {
      refs := DropReferences(refs, held);
    }

    method ReleaseGroups(groups: Groups)
      requires PagesOf(groups) <= refs
      modifies `refs
      ensures refs == old(refs) - PagesOf(groups)
    {
      ReleaseList(groups[0]);
      ReleaseList(groups[1]);
    }

    /** Look a source up in the cache: an owned reference, a miss, or an invalid page given back. */
    method GetPage(group: nat, source: CheckpointPage) returns (r: Result<Option<PageObj>, Failure>)
      modifies `refs, `missed
      ensures r.Err? ==> refs == old(refs) && missed == old(missed) && r.error == Invalid
      ensures r.Ok? && r.value.Some? ==> refs == old(refs) + multiset{r.value.value} && missed == old(missed)
      ensures r.Ok? && r.value.None? ==> refs == old(refs) && missed == old(missed) + {(group, source)}
    {
      var found: bool := *;
      if !found {
        missed := missed + {(group, source)};
        return Ok(None);
      }
      var page: PageObj := *;
      refs := refs + multiset{page};
      var valid: bool := *;
      if !valid {
        refs := refs - multiset{page};
        return Err(Invalid);
      }
      return Ok(Some(page));
    }

    // -------------------------------------------------------------- purely local acquisition

    /** Hold a greedy chain of one group's sources from the prefix towards the end. */
    method Collect(group: nat, sources: seq<CheckpointPage>, prefixEnd: int, end: int)
      returns (held: seq<Entry>, cursor: int, failure: Option<Failure>)
      modifies `refs, `missed
      ensures refs == old(refs) + PagesIn(held) && old(missed) <= missed
      ensures Chain(held, prefixEnd, end) && cursor == Reach(held, prefixEnd, end) && From(held, sources)
      ensures failure.None? && cursor < end && Sorted(sources) ==> Blocked(sources, group, cursor, missed)
      ensures failure.Some? ==> LookupFailed(failure.value)
    {
      hide Chain, PagesIn;
      held, cursor, failure := [], prefixEnd, None;
      NoEntries(prefixEnd, end);
      var i := 0;
      while i < |sources|
        invariant 0 <= i <= |sources|
        invariant refs == old(refs) + PagesIn(held) && old(missed) <= missed
        invariant Chain(held, prefixEnd, end) && cursor == Reach(held, prefixEnd, end) && From(held, sources)
        invariant forall j :: 0 <= j < i ==> sources[j].end <= cursor || end <= cursor
      {
        var source := sources[i];
        if source.end <= cursor {
          i := i + 1;
          continue;
        }
        if source.start > cursor || cursor >= end { return; }
        var r := GetPage(group, source);
        if r.Err? { failure := Some(r.error); return; }
        if r.value.None? { return; }
        PagesAppend(held, (source, r.value.value));
        ChainAppend(held, (source, r.value.value), prefixEnd, end);
        held := held + [(source, r.value.value)];
        cursor := Min(source.end, end);
        i := i + 1;
      }
    }

    /** Let go of trailing windows that start at or beyond the paired frontier. */
    method Trim(held: seq<Entry>, common: int) returns (kept: seq<Entry>)
      requires PagesIn(held) <= refs
      modifies `refs
      ensures kept <= held && refs == old(refs) - PagesIn(held) + PagesIn(kept)
      ensures kept != [] ==> kept[|kept| - 1].0.start < common
      ensures forall i :: |kept| <= i < |held| ==> held[i].0.start >= common
      ensures Windows(kept) == Before(Windows(held), common)
    {
      hide PagesIn, Before, Windows;
      kept := held;
      while kept != [] && kept[|kept| - 1].0.start >= common
        invariant kept <= held && refs == old(refs) - PagesIn(held) + PagesIn(kept)
        invariant Before(Windows(kept), common) == Before(Windows(held), common)
        invariant forall i :: |kept| <= i < |held| ==> held[i].0.start >= common
        decreases |kept|
      {
        var k := |kept| - 1;
        assert kept == kept[..k] + [kept[k]];
        PagesAppend(kept[..k], kept[k]);
        BeforeStep(kept, common);
        refs := refs - multiset{kept[k].1};
        kept := kept[..k];
      }
      BeforeDone(kept, common);
    }

    /** Cut one group's chain back to the paired frontier. */
    method TrimChain(held: seq<Entry>, a: int, limit: int, common: int, sources: seq<CheckpointPage>) returns (kept: seq<Entry>)
      requires PagesIn(held) <= refs
      requires Chain(held, a, limit) && common <= Reach(held, a, limit) && From(held, sources)
      modifies `refs
      ensures refs == old(refs) - PagesIn(held) + PagesIn(kept)
      ensures Chain(kept, a, limit) && Covers(kept, a, common) && From(kept, sources)
      ensures kept != [] ==> kept[|kept| - 1].0.start < common
    {
      kept := Trim(held, common);
      assert kept == held[..|kept|];
      ChainCovers(held, a, limit);
      CoversWithoutTail(held, |kept|, a, common);
      ChainPrefix(held, |kept|, a, limit);
    }

    /** Hold the paired contiguous prefix of both groups. A normal exit hands over exactly one
        reference per entry and both groups cover the frontier; any other exit leaves no trace. */
    method Acquire(m: Manifest, end: int) returns (r: Result<(int, Groups), Failure>)
      modifies `refs, `missed
      ensures old(missed) <= missed
      ensures r.Err? ==> refs == old(refs) && LookupFailed(r.error)
      ensures r.Ok? ==> refs == old(refs) + PagesOf(r.value.1) && PairedPrefix(m, end, r.value.0, r.value.1)
      ensures r.Ok? && r.value.0 < end && Sorted(m.groups[0]) && Sorted(m.groups[1]) ==> Stopped(m, r.value.0, missed)
    {
      hide Covers, Chain, Blocked, From, PagesIn, PagesOf, Sorted, PairedPrefix, Stopped, Reach;
      var first, second, failure := CollectBoth(m, end);
      if failure.Some? { return Err(failure.value); }
      ghost var before := refs;
      var common, groups := Settle(m, end, first, second);
      Exchanged(old(refs), PagesIn(first), PagesIn(second), PagesOf(groups));
      assert before == old(refs) + PagesIn(first) + PagesIn(second);
      r := Ok((common, groups));
    }

    /** Collect both groups; an error in either gives everything back. */
    method CollectBoth(m: Manifest, end: int) returns (first: seq<Entry>, second: seq<Entry>, failure: Option<Failure>)
      modifies `refs, `missed
      ensures old(missed) <= missed
      ensures failure.Some? ==> refs == old(refs) && LookupFailed(failure.value)
      ensures failure.None? ==>
        && refs == old(refs) + PagesIn(first) + PagesIn(second)
        && Chain(first, m.prefixEnd, end) && From(first, m.groups[0])
        && Chain(second, m.prefixEnd, end) && From(second, m.groups[1])
      ensures failure.None? && Sorted(m.groups[0]) && Sorted(m.groups[1]) ==>
        var common := Min(Reach(first, m.prefixEnd, end), Reach(second, m.prefixEnd, end));
        common < end ==> Stopped(m, common, missed)
    {
      hide Chain, Blocked, From, PagesIn, Sorted, Stopped, Reach;
      var end0, end1;
      second := [];
      first, end0, failure := Collect(0, m.groups[0], m.prefixEnd, end);
      if failure.Some? {
        ReleaseList(first);
        return;
      }
      ghost var missed0 := missed;
      second, end1, failure := Collect(1, m.groups[1], m.prefixEnd, end);
      if failure.Some? {
        ReleaseList(first);
        ReleaseList(second);
        return;
      }
      StopsBelow(m, end0, end1, missed0, missed);
    }

    /** Cut both groups back to the frontier they share. */
    method Settle(m: Manifest, end: int, first: seq<Entry>, second: seq<Entry>) returns (common: int, groups: Groups)
      requires PagesIn(first) + PagesIn(second) <= refs
      requires Chain(first, m.prefixEnd, end) && From(first, m.groups[0])
      requires Chain(second, m.prefixEnd, end) && From(second, m.groups[1])
      modifies `refs
      ensures common == Min(Reach(first, m.prefixEnd, end), Reach(second, m.prefixEnd, end))
      ensures refs == old(refs) - PagesIn(first) - PagesIn(second) + PagesOf(groups)
      ensures PairedPrefix(m, end, common, groups)
    {
      hide Covers, Chain, From, PagesIn, PagesOf, PairedPrefix, Reach;
      common := Min(Reach(first, m.prefixEnd, end), Reach(second, m.prefixEnd, end));
      ChainBounds(first, m.prefixEnd, end);
      ChainBounds(second, m.prefixEnd, end);
      var kept0 := TrimChain(first, m.prefixEnd, end, common, m.groups[0]);
      var kept1 := TrimChain(second, m.prefixEnd, end, common, m.groups[1]);
      groups := [kept0, kept1];
      PagesPair(kept0, kept1);
      PairUp(m, end, common, kept0, kept1);
    }
  }

  /** Both groups hold a chain that covers the resident prefix up to the common frontier. */
  ghost predicate PairedPrefix(m: Manifest, end: int, common: int, groups: Groups) {
    && m.prefixEnd <= common <= Max(m.prefixEnd, end)
    && forall g :: 0 <= g < 2 ==>
         && Covers(groups[g], m.prefixEnd, common)
         && Chain(groups[g], m.prefixEnd, end)
         && From(groups[g], m.groups[g])
         && (groups[g] != [] ==> groups[g][|groups[g]| - 1].0.start < common)
  }

  /** What a local acquisition of sources that do not overlap hands over can be re-cut: for whatever windows
      tile the canonical range up to the frontier, all of them can be cut out exactly when the first one
      reaches the first held source, as it does whenever it reaches past the resident prefix. */
  lemma LocalRestoreReassembles(m: Manifest, end: int, common: int, groups: Groups, g: nat, windows: seq<CheckpointPage>, base: int)
    requires PairedPrefix(m, end, common, groups) && g < 2 && Sequential(m.groups[g])
    requires base <= m.prefixEnd < common && Tiles(windows, base, common)
    ensures windows != [] && groups[g] != [] && groups[g][0].0.start <= m.prefixEnd
    ensures Recut(Windows(groups[g]), windows, base, m.prefixEnd) <==>
      groups[g][0].0.start <= base || windows[0].end > groups[g][0].0.start
    ensures windows[0].end > m.prefixEnd ==> Recut(Windows(groups[g]), windows, base, m.prefixEnd)
  {
    PairedRecuts(m, end, common, groups, g);
    RecutIff(groups[g], windows, base, m.prefixEnd, common);
  }

  lemma PairedRecuts(m: Manifest, end: int, common: int, groups: Groups, g: nat)
    requires PairedPrefix(m, end, common, groups) && g < 2 && Sequential(m.groups[g])
    ensures Recuttable(groups[g], m.prefixEnd, common)
  {
    var held := groups[g];
    ChainIsContiguous(held, m.groups[g], m.prefixEnd, end);
    if m.prefixEnd < common {
      assert Covered(held, common - 1);
      var i :| 0 <= i < |held| && held[i].0.start <= common - 1 < held[i].0.end;
      assert Extends(held, 0, m.prefixEnd, end);
      if i < |held| - 1 { ContiguousOrder(Windows(held), i, |held| - 1); }
    }
  }

  lemma PairUp(m: Manifest, end: int, common: int, first: seq<Entry>, second: seq<Entry>)
    requires m.prefixEnd <= common <= Max(m.prefixEnd, end)
    requires Covers(first, m.prefixEnd, common) && Chain(first, m.prefixEnd, end) && From(first, m.groups[0])
    requires Covers(second, m.prefixEnd, common) && Chain(second, m.prefixEnd, end) && From(second, m.groups[1])
    requires first != [] ==> first[|first| - 1].0.start < common
    requires second != [] ==> second[|second| - 1].0.start < common
    ensures PairedPrefix(m, end, common, [first, second])
  {
  }

  lemma StopsBelow(m: Manifest, end0: int, end1: int, missed: set<(nat, CheckpointPage)>, more: set<(nat, CheckpointPage)>)
    requires missed <= more
    ensures Blocked(m.groups[0], 0, end0, missed) && end0 <= end1 ==> Stopped(m, end0, more)
    ensures Blocked(m.groups[1], 1, end1, more) ==> Stopped(m, end1, more)
  {
    BlockedLonger(m.groups[0], 0, end0, missed, more);
  }

  lemma Exchanged(owned: multiset<PageObj>, first: multiset<PageObj>, second: multiset<PageObj>, kept: multiset<PageObj>)
    ensures owned + first + second - first - second + kept == owned + kept
    ensures first + second <= owned + first + second
  {
  }

  lemma PagesPair(a: seq<Entry>, b: seq<Entry>)
    ensures PagesOf([a, b]) == PagesIn(a) + PagesIn(b)
  {
  }

  /** Some group could not be held past the frontier. */
  ghost predicate Stopped(m: Manifest, common: int, missed: set<(nat, CheckpointPage)>) {
    Blocked(m.groups[0], 0, common, missed) || Blocked(m.groups[1], 1, common, missed)
  }

  lemma BlockedLonger(sources: seq<CheckpointPage>, group: nat, cursor: int,
                      missed: set<(nat, CheckpointPage)>, more: set<(nat, CheckpointPage)>)
    requires missed <= more
    ensures Blocked(sources, group, cursor, missed) ==> Blocked(sources, group, cursor, more)
  {
  }
}

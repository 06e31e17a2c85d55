/** Building canonical pages for a restore or a spill: who owns each reference on every exit, and when a
    page cannot be cut out of what is held. */
module CanonicalPages {
  import opened Basics
  import opened CheckpointTypes
  import opened Assembly
  import opened Coverage
  import opened LocalCheckpoint
  import opened MixedManifest
  import opened MixedRestore

  /** One operation's allocation budget: it may reclaim cache capacity once. */
  class AllocationRetry {
    var reclaimed: bool
    ghost var reclaims: nat

    ghost predicate Valid()
      reads this
    {
      reclaims == if reclaimed then 1 else 0
    }

    constructor ()
      ensures Valid() && !reclaimed
    {
      reclaimed, reclaims := false, 0;
    }

    /** Allocate; on refusal reclaim once per operation and try once more. */
    method Reserve(store: LocalCheckpointStore) returns (r: Result<PageObj, Failure>)
      requires Valid()
      modifies this, store`refs
      ensures Valid() && old(reclaims) <= reclaims <= 1
      ensures r.Ok? ==> store.refs == old(store.refs) + multiset{r.value}
      ensures r.Err? ==> store.refs == old(store.refs) && r.error != Hole
      ensures reclaims > old(reclaims) ==> !old(reclaimed)
    {
      r := Allocate(store);
      if r != Err(NoMemory) || reclaimed { return; }
      reclaimed, reclaims := true, reclaims + 1;
      var freed: bool := *;
      if freed { r := Allocate(store); }
    }
  }

  /** An allocation or a prefix load: an owned page, a refusal, or another error. */
  method Allocate(store: LocalCheckpointStore) returns (r: Result<PageObj, Failure>)
    modifies store`refs
    ensures r.Ok? ==> store.refs == old(store.refs) + multiset{r.value}
    ensures r.Err? ==> store.refs == old(store.refs) && r.error != Hole
  {
    var outcome: int := *;
    if outcome == 0 { return Err(NoMemory); }
    if outcome == 1 { return Err(Invalid); }
    if outcome == 2 { return Err(UnknownCompletion); }
    var page: PageObj := *;
    store.refs := store.refs + multiset{page};
    r := Ok(page);
  }

  /** How a canonical page came about. */
  datatype Means = ByReference | FromCache | ByAssembly

  /** One owned page for a canonical window: an exact source shared by reference, the cached canonical
      page, or a page assembled from sources that cover the window once. Any failure leaves every count as
      it was; a hole is reported exactly where the selected sources have one. */
  method BuildPage(store: LocalCheckpointStore, budget: AllocationRetry, served: seq<Entry>, start: int, end: int,
                   base: int, prefixEnd: int, exact: bool) returns (r: Result<PageObj, Failure>, ghost selected: seq<Entry>, ghost means: Means)
    requires budget.Valid()
    modifies store`refs, budget
    ensures budget.Valid() && old(budget.reclaims) <= budget.reclaims
    ensures r.Ok? ==> store.refs == old(store.refs) + multiset{r.value}
    ensures r.Err? ==> store.refs == old(store.refs)
    ensures Windows(selected) == Overlapping(Windows(served), start, end) && forall e :: e in selected ==> e in served
    ensures |selected| == 1 && selected[0].0.start == start && selected[0].0.end == end && exact ==> means.ByReference?
    ensures means.ByReference? ==> |selected| == 1 && selected[0].0.start == start && selected[0].0.end == end && r == Ok(selected[0].1)
    ensures r.Ok? && means.ByAssembly? ==> Accepted(Pieces(Windows(selected), start, base, prefixEnd), start, end)
    ensures r == Err(Hole) ==> !Accepted(Pieces(Windows(selected), start, base, prefixEnd), start, end)
  {
    hide Accepted, Overlapping;
    var chosen := Filter(served, start, end);
    selected, means := chosen, ByReference;
    if |chosen| == 1 && chosen[0].0.start == start && chosen[0].0.end == end && exact {
      store.refs := store.refs + multiset{chosen[0].1};
      return Ok(chosen[0].1), selected, means;
    }
    var cached: bool := *;
    if cached {
      var page: PageObj := *;
      store.refs := store.refs + multiset{page};
      return Ok(page), selected, FromCache;
    }
    means := ByAssembly;
    r := AssemblePage(store, budget, Windows(chosen), start, end, base, prefixEnd);
  }

  /** Load the resident prefix when the window needs it, allocate, assemble; the prefix is always given back. */
  method AssemblePage(store: LocalCheckpointStore, budget: AllocationRetry, selected: seq<CheckpointPage>, start: int, end: int,
                      base: int, prefixEnd: int) returns (r: Result<PageObj, Failure>)
    requires budget.Valid()
    modifies store`refs, budget
    ensures budget.Valid() && old(budget.reclaims) <= budget.reclaims
    ensures r.Ok? ==> store.refs == old(store.refs) + multiset{r.value}
    ensures r.Err? ==> store.refs == old(store.refs)
    ensures r.Ok? ==> Accepted(Pieces(selected, start, base, prefixEnd), start, end)
    ensures r == Err(Hole) ==> !Accepted(Pieces(selected, start, base, prefixEnd), start, end)
  {
    hide Accepted;
    var pieces := Pieces(selected, start, base, prefixEnd);
    if pieces == selected {
      r := AllocateAndFill(store, budget, pieces, start, end);
      return;
    }
    var prefix := budget.Reserve(store);
    if prefix.Err? { return prefix; }
    ghost var owned := store.refs;
    r := AllocateAndFill(store, budget, pieces, start, end);
    store.refs := store.refs - multiset{prefix.value};
    assert owned == old(store.refs) + multiset{prefix.value};
  }

  /** Allocate the page and copy into it; sources with a hole or an overlap, which the coverage loop of
      PlaneCopy.PlanSpans finds, and a failed copy give it back. */
  method AllocateAndFill(store: LocalCheckpointStore, budget: AllocationRetry, pieces: seq<CheckpointPage>, start: int, end: int)
    returns (r: Result<PageObj, Failure>)
    requires budget.Valid()
    modifies store`refs, budget
    ensures budget.Valid() && old(budget.reclaims) <= budget.reclaims
    ensures r.Ok? ==> store.refs == old(store.refs) + multiset{r.value} && Accepted(pieces, start, end)
    ensures r.Err? ==> store.refs == old(store.refs)
    ensures r == Err(Hole) ==> !Accepted(pieces, start, end)
  {
    hide Accepted;
    r := budget.Reserve(store);
    if r.Err? { return; }
    var accepted := Accepted(pieces, start, end);
    var copied: bool := *;
    if !accepted || !copied {
      store.refs := store.refs - multiset{r.value};
      r := Err(if accepted then Invalid else Hole);
    }
  }

  /** The proposed windows start with one that ends before the first held source. */
  ghost predicate ShortStart(held: seq<Entry>, plan: seq<CheckpointPage>, base: int) {
    held != [] && plan != [] && base < held[0].0.start && plan[0].end <= held[0].0.start
  }

  /** A window that continues a tiling from the base can be cut out of what is held, unless the tiling
      starts short of it. */
  lemma WindowFits(held: seq<Entry>, plan: seq<CheckpointPage>, i: nat, base: int, prefixEnd: int, total: int)
    requires Recuttable(held, prefixEnd, total) && base <= prefixEnd < total
    requires i < |plan| && base <= plan[i].start < plan[i].end <= total
    requires if i == 0 then plan[i].start == base else plan[0].end <= plan[i].start
    requires !ShortStart(held, plan, base)
    ensures CutsOut(Windows(held), plan[i].start, plan[i].end, base, prefixEnd)
  {
    hide CutsOut, Contiguous;
    var w := plan[i];
    if held[0].0.start <= w.start {
      InnerCutsOut(Windows(held), w.start, w.end, base, prefixEnd);
    } else {
      BoundaryCutsOut(Windows(held), base, w.end, prefixEnd);
    }
  }

  /** One group of a spill: build, persist and give back one page per proposed window. The proposal comes
      from the token hasher and is checked window by window for gaps. */
  method SpillGroup(store: LocalCheckpointStore, budget: AllocationRetry, held: seq<Entry>, plan: seq<CheckpointPage>,
                    base: int, prefixEnd: int, total: int)
    returns (remote: seq<CheckpointPage>, withdrawn: bool, failure: Option<Failure>)
    requires budget.Valid() && base <= prefixEnd <= total && store.quarantine == []
    modifies store`refs, store`quarantine, budget
    ensures budget.Valid()
    ensures failure.None? && !withdrawn ==> Tiles(remote, base, total)
    ensures store.refs == old(store.refs) + multiset(store.quarantine) && |store.quarantine| <= 1
    ensures store.quarantine != [] ==> failure == Some(UnknownCompletion)
    ensures failure == Some(Hole) && Recuttable(held, prefixEnd, total) && prefixEnd < total ==> ShortStart(held, plan, base)
  {
    hide Tiles, Recuttable, CutsOut, ShortStart, Accepted;
    remote, withdrawn, failure := [], false, None;
    TilesNothing(base);
    var covered := base;
    var selector := new SourceSelector(held, base);
    for i := 0 to |plan|
      invariant budget.Valid() && store.quarantine == [] && store.refs == old(store.refs)
      invariant selector.Valid() && selector.sources == held && selector.served <= covered && fresh(selector)
      invariant Tiles(remote, base, covered) && base <= covered
      invariant i > 0 ==> plan[0].end <= covered
      invariant i == 0 ==> covered == base
    {
      var stopped: bool := *;
      if stopped { withdrawn := true; return; }
      var w := plan[i];
      if w.start != covered || !(w.start < w.end <= total) { failure := Some(Invalid); return; }
      var exact: bool := *;
      var page := BuildServed(store, budget, selector, plan, i, base, prefixEnd, total, exact);
      if page.Err? {
        failure := Some(page.error);
        return;
      }
      stopped := *;
      if stopped {
        store.refs := store.refs - multiset{page.value};
        withdrawn := true;
        return;
      }
      var put: int := *;
      if put == 0 {
        store.quarantine := store.quarantine + [page.value];
        failure := Some(UnknownCompletion);
        return;
      }
      store.refs := store.refs - multiset{page.value};
      if put == 1 { failure := Some(Transport); return; }
      TilesAppend(remote, w, base, covered);
      remote := remote + [w];
      covered := w.end;
    }
    if covered != total { failure := Some(Invalid); }
  }

  lemma TilesNothing(a: int)
    ensures Tiles([], a, a)
  {
  }

  /** Build the page of one proposed window from what the selector serves it. */
  method BuildServed(store: LocalCheckpointStore, budget: AllocationRetry, selector: SourceSelector, plan: seq<CheckpointPage>, i: nat,
                     base: int, prefixEnd: int, ghost total: int, exact: bool) returns (r: Result<PageObj, Failure>)
    requires budget.Valid() && selector.Valid() && i < |plan|
    requires selector.served <= plan[i].start && base <= plan[i].start < plan[i].end <= total && base <= prefixEnd
    requires if i == 0 then plan[i].start == base else plan[0].end <= plan[i].start
    modifies store`refs, budget, selector
    ensures budget.Valid() && selector.Valid() && selector.served == plan[i].start
    ensures r.Ok? ==> store.refs == old(store.refs) + multiset{r.value}
    ensures r.Err? ==> store.refs == old(store.refs)
    ensures r == Err(Hole) && Recuttable(selector.sources, prefixEnd, total) && prefixEnd < total ==> ShortStart(selector.sources, plan, base)
  {
    hide Recuttable, ShortStart, Accepted, Served, Overlapping, Pieces;
    var w := plan[i];
    var served := selector.Select(w.start, w.end);
    ghost var selected, means;
    r, selected, means := BuildPage(store, budget, served, w.start, w.end, base, prefixEnd, exact);
    if r == Err(Hole) && Recuttable(selector.sources, prefixEnd, total) && prefixEnd < total && !ShortStart(selector.sources, plan, base) {
      WindowFits(selector.sources, plan, i, base, prefixEnd, total);
    }
  }

  /** A spill of both groups. On success the descriptors of both groups tile the canonical range to the
      end of the accepted history; on any known outcome every page it built was given back; with unknown
      completion at most the page in flight stays owned, in quarantine. Groups that can be re-cut never
      show a hole, unless a proposal starts short of its group. */
  method Spill(store: LocalCheckpointStore, groups: Groups, plans: seq<seq<CheckpointPage>>, prefixEnd: nat, total: nat, chunk: nat)
    returns (remote: Option<seq<seq<CheckpointPage>>>, failure: Option<Failure>)
    requires chunk > 0 && prefixEnd <= total && store.quarantine == [] && |plans| == 2
    modifies store`refs, store`quarantine
    ensures remote.Some? ==> failure.None? && |remote.value| == 2
    ensures remote.Some? ==> forall g :: 0 <= g < 2 ==> Tiles(remote.value[g], prefixEnd / chunk * chunk, total)
    ensures store.refs == old(store.refs) + multiset(store.quarantine) && |store.quarantine| <= 1
    ensures store.quarantine != [] ==> failure == Some(UnknownCompletion)
    ensures failure == Some(Hole) && prefixEnd < total && Recuttable(groups[0], prefixEnd, total) && Recuttable(groups[1], prefixEnd, total) ==>
      exists g :: 0 <= g < 2 && ShortStart(groups[g], plans[g], prefixEnd / chunk * chunk)
  {
    hide Tiles, Recuttable, ShortStart;
    remote, failure := None, None;
    var base := prefixEnd / chunk * chunk;
    BaseBefore(prefixEnd, chunk);
    var budget := new AllocationRetry();
    var first, withdrawn, failed := SpillGroup(store, budget, groups[0], plans[0], base, prefixEnd, total);
    if withdrawn || failed.Some? { failure := failed; return; }
    var second, withdrawn1, failed1 := SpillGroup(store, budget, groups[1], plans[1], base, prefixEnd, total);
    if withdrawn1 || failed1.Some? { failure := failed1; return; }
    remote := Some([first, second]);
  }

  lemma BaseBefore(prefixEnd: nat, chunk: nat)
    requires chunk > 0
    ensures 0 <= prefixEnd / chunk * chunk <= prefixEnd
  {
  }

  /** The cache's own copies of the normalized pages, as many as it still has. */
  method Installed(store: LocalCheckpointStore, keys: nat) returns (pages: seq<PageObj>)
    modifies store`refs
    ensures |pages| <= keys && store.refs == old(store.refs) + multiset(pages)
  {
    pages := [];
    for i := 0 to keys
      invariant |pages| == i && store.refs == old(store.refs) + multiset(pages)
    {
      var more: bool := *;
      if !more { return; }
      var page: PageObj := *;
      pages := pages + [page];
      store.refs := store.refs + multiset{page};
    }
  }

  /** One group of a normalization: owned built pages, then owned installed pages. */
  method NormalizeGroup(store: LocalCheckpointStore, budget: AllocationRetry, held: seq<Entry>, plan: seq<CheckpointPage>,
                        base: int, prefixEnd: int, total: int)
    returns (owners: seq<PageObj>, windows: seq<CheckpointPage>, covered: int, failure: Option<Failure>)
    requires budget.Valid() && base <= prefixEnd && base <= total
    modifies store`refs, budget
    ensures budget.Valid()
    ensures store.refs == old(store.refs) + multiset(owners)
    ensures base <= covered <= total
    ensures failure.None? ==> Tiles(windows, base, total) && |owners| == 2 * |windows|
    ensures failure == Some(Hole) && Recuttable(held, prefixEnd, total) && prefixEnd < total ==> ShortStart(held, plan, base)
  {
    hide Tiles, Recuttable, CutsOut, ShortStart, Accepted;
    owners, windows, covered, failure := [], [], base, None;
    TilesNothing(base);
    var selector := new SourceSelector(held, base);
    for i := 0 to |plan|
      invariant budget.Valid()
      invariant selector.Valid() && selector.sources == held && selector.served <= covered && fresh(selector)
      invariant store.refs == old(store.refs) + multiset(owners)
      invariant Tiles(windows, base, covered) && base <= covered <= total && |owners| == |windows|
      invariant i > 0 ==> plan[0].end <= covered
      invariant i == 0 ==> covered == base
    {
      var w := plan[i];
      if w.start != covered || !(w.start < w.end <= total) { failure := Some(Invalid); return; }
      var exact: bool := *;
      var page := BuildServed(store, budget, selector, plan, i, base, prefixEnd, total, exact);
      if page.Err? { failure := Some(page.error); return; }
      owners := owners + [page.value];
      TilesAppend(windows, w, base, covered);
      windows := windows + [w];
      covered := w.end;
    }
    if covered != total { failure := Some(Invalid); return; }
    var submitted: bool := *;
    if !submitted { failure := Some(Transport); return; }
    var installed := Installed(store, |windows|);
    owners := owners + installed;
    if |installed| != |windows| {
      failure := Some(Miss(windows[|installed|].start));
      return;
    }
    var validated: bool := *;
    if !validated { failure := Some(Invalid); }
  }

  /** The proposed windows of every group reach past the resident prefix at once. */
  predicate ReachesPast(plans: seq<seq<CheckpointPage>>, prefixEnd: int)
    requires |plans| == 2
  {
    (plans[0] != [] ==> plans[0][0].end > prefixEnd) && (plans[1] != [] ==> plans[1][0].end > prefixEnd)
  }

  /** Sources that neither overlap nor straddle a boundary of the remote windows in use. */
  ghost predicate Regular(m: Manifest, end: int, used: seq<seq<CheckpointPage>>)
    requires |used| == 2
  {
    forall g: nat {:trigger m.groups[g]} :: g < 2 ==> Sequential(m.groups[g]) && NoSourceStraddles(RequestOf(m, g, used[g], end))
  }

  /** Acquire and normalize, locally or mixed with remote pages: on success one owned reference per returned
      owner, both groups cut along windows that tile the canonical range; on failure nothing is kept, and a
      refused allocation is reported as a miss before the end of the history. A normalization of regular
      sources never fails for a hole or an overlap, as long as the first proposed window reaches past the
      resident prefix. */
  method Normalize(store: LocalCheckpointStore, m: Manifest, plans: seq<seq<CheckpointPage>>, tokens: nat, chunk: nat, frozen: bool,
                   remote: Option<seq<seq<CheckpointPage>>>, later: Option<seq<seq<CheckpointPage>>>)
    returns (r: Result<(int, seq<PageObj>), Failure>, ghost windows: seq<seq<CheckpointPage>>)
    requires chunk > 0 && |plans| == 2
    requires remote.Some? ==> Persisted(remote.value, m.prefixEnd / chunk * chunk, m.total)
    requires later.Some? ==> Persisted(later.value, m.prefixEnd / chunk * chunk, m.total)
    modifies store`refs, store`missed, store`lost
    ensures r.Err? ==> store.refs == old(store.refs)
    ensures r.Ok? ==>
      && r.value.0 == m.prefixEnd / chunk * chunk
      && store.refs == old(store.refs) + multiset(r.value.1)
      && |windows| == 2 && Tiles(windows[0], r.value.0, tokens) && Tiles(windows[1], r.value.0, tokens)
      && |r.value.1| == 2 * (|windows[0]| + |windows[1]|)
    ensures r.Err? ==> r.error != NoMemory
    ensures r == Err(Hole) && m.prefixEnd < tokens && Regular(m, tokens, Confirmed(remote, later)) ==> !ReachesPast(plans, m.prefixEnd)
  {
    hide Tiles, PagesOf, Regular, Reassembles, Origin, StopsFor, PairedPrefix, ShortStart, MixedPrefix, ReachesPast, Recuttable;
    windows := [];
    var base := m.prefixEnd / chunk * chunk;
    BaseBefore(m.prefixEnd, chunk);
    var got := AcquireCheckpoint(store, m, frozen, remote, later, base, tokens, false);
    if got.Err? { return Err(got.error), []; }
    var (common, groups) := got.value;
    PrefixStarts(m, tokens, common, groups);
    if common != tokens {
      store.ReleaseGroups(groups);
      assert store.refs == old(store.refs);
      return Err(Miss(common)), [];
    }
    r, windows := NormalizeHeld(store, groups, plans, base, m.prefixEnd, tokens);
    if r == Err(Hole) && m.prefixEnd < tokens && Regular(m, tokens, Confirmed(remote, later)) {
      RegularRecuts(m, tokens, groups, Confirmed(remote, later));
      ShortIsShort(groups, plans, base, m.prefixEnd, tokens);
    }
  }

  /** Normalize what was acquired, and give the acquired references back in any case. */
  method NormalizeHeld(store: LocalCheckpointStore, groups: Groups, plans: seq<seq<CheckpointPage>>, base: int, prefixEnd: int, tokens: int)
    returns (r: Result<(int, seq<PageObj>), Failure>, ghost windows: seq<seq<CheckpointPage>>)
    requires base <= prefixEnd && base <= tokens && |plans| == 2 && PagesOf(groups) <= store.refs
    modifies store`refs
    ensures r.Err? ==> store.refs == old(store.refs) - PagesOf(groups) && !r.error.NoMemory?
    ensures r.Ok? ==>
      && r.value.0 == base
      && store.refs == old(store.refs) - PagesOf(groups) + multiset(r.value.1)
      && |windows| == 2 && Tiles(windows[0], base, tokens) && Tiles(windows[1], base, tokens)
      && |r.value.1| == 2 * (|windows[0]| + |windows[1]|)
    ensures r == Err(Hole) && prefixEnd < tokens && Recuttable(groups[0], prefixEnd, tokens) && Recuttable(groups[1], prefixEnd, tokens) ==>
      ShortStart(groups[0], plans[0], base) || ShortStart(groups[1], plans[1], base)
  {
    hide Tiles, PagesOf, Recuttable, ShortStart;
    ghost var windows0, windows1;
    r, windows0, windows1 := NormalizePair(store, groups, plans, base, prefixEnd, tokens);
    store.ReleaseGroups(groups);
    windows := [windows0, windows1];
  }

  lemma PrefixStarts(m: Manifest, end: int, common: int, groups: Groups)
    requires MixedPrefix(m, end, false, common, groups)
    ensures m.prefixEnd <= common
  {
  }

  lemma RegularRecuts(m: Manifest, end: int, groups: Groups, used: seq<seq<CheckpointPage>>)
    requires |used| == 2 && Regular(m, end, used) && Reassembles(m, end, groups, used)
    ensures Recuttable(groups[0], m.prefixEnd, end) && Recuttable(groups[1], m.prefixEnd, end)
  {
    hide Sequential, NoSourceStraddles, Recuttable;
    assert Sequential(m.groups[0]) && Sequential(m.groups[1]);
    assert groups[0] == groups[0] && groups[1] == groups[1];
  }

  lemma ShortIsShort(groups: Groups, plans: seq<seq<CheckpointPage>>, base: int, prefixEnd: int, end: int)
    requires |plans| == 2 && prefixEnd < end
    requires Recuttable(groups[0], prefixEnd, end) && Recuttable(groups[1], prefixEnd, end)
    requires ShortStart(groups[0], plans[0], base) || ShortStart(groups[1], plans[1], base)
    ensures !ReachesPast(plans, prefixEnd)
  {
  }

  /** Both groups, or nothing. */
  method NormalizePair(store: LocalCheckpointStore, groups: Groups, plans: seq<seq<CheckpointPage>>, base: int, prefixEnd: int, tokens: int)
    returns (r: Result<(int, seq<PageObj>), Failure>, ghost windows0: seq<CheckpointPage>, ghost windows1: seq<CheckpointPage>)
    requires base <= prefixEnd && base <= tokens && |plans| == 2
    modifies store`refs
    ensures r.Err? ==> store.refs == old(store.refs) && !r.error.NoMemory?
    ensures r.Ok? ==> r.value.0 == base && store.refs == old(store.refs) + multiset(r.value.1)
    ensures r.Ok? ==> Tiles(windows0, base, tokens) && Tiles(windows1, base, tokens)
    ensures r.Ok? ==> |r.value.1| == 2 * (|windows0| + |windows1|)
    ensures r == Err(Hole) && prefixEnd < tokens && Recuttable(groups[0], prefixEnd, tokens) && Recuttable(groups[1], prefixEnd, tokens) ==>
      ShortStart(groups[0], plans[0], base) || ShortStart(groups[1], plans[1], base)
  {
    hide Tiles, Recuttable, ShortStart;
    var budget := new AllocationRetry();
    var covered: int;
    var owners, failure;
    windows1 := [];
    owners, windows0, covered, failure := NormalizeGroup(store, budget, groups[0], plans[0], base, prefixEnd, tokens);
    if failure.None? {
      var more: seq<PageObj>;
      more, windows1, covered, failure := NormalizeGroup(store, budget, groups[1], plans[1], base, prefixEnd, tokens);
      owners := owners + more;
    }
    if failure.Some? {
      DropAll(store, owners);
      r := Err(if failure.value.NoMemory? then Miss(Min(covered, tokens - 1)) else failure.value);
    } else {
      r := Ok((base, owners));
    }
  }

  method DropAll(store: LocalCheckpointStore, pages: seq<PageObj>)
    requires multiset(pages) <= store.refs
    modifies store`refs
    ensures store.refs == old(store.refs) - multiset(pages)
  {
    for i := 0 to |pages|
      invariant store.refs == old(store.refs) - multiset(pages[..i])
    {
      assert pages[..i + 1] == pages[..i] + [pages[i]];
      assert pages == pages[..i + 1] + pages[i + 1..];
      store.refs := store.refs - multiset{pages[i]};
    }
    assert pages[..|pages|] == pages;
  }
}

/** The plan of a mixed acquisition: canonical windows in order, each held from local sources as a
    whole or left to the remote store, and the entry list that comes of it. */
module MixedPlans {
  import opened CheckpointTypes
  import opened Coverage
  import opened Assembly

  /** One canonical window of a mixed acquisition: what is held locally for it, if anything. */
  datatype Plan = Plan(descriptor: CheckpointPage, held: seq<Entry>, left: int, right: int)

  /** What one group of a mixed acquisition works from. */
  datatype Request = Request(prefixEnd: int, end: int, sources: seq<CheckpointPage>, remote: seq<CheckpointPage>)

  function PlanPages(plans: seq<Plan>): multiset<PageObj>
  {
    if plans == [] then multiset{} else PlanPages(plans[..|plans| - 1]) + PagesIn(plans[|plans| - 1].held)
  }

  lemma PlanAppend(plans: seq<Plan>, p: Plan)
    ensures PlanPages(plans + [p]) == PlanPages(plans) + PagesIn(p.held)
  {
    assert (plans + [p])[..|plans|] == plans;
  }

  lemma {:induction false} PlanConcat(a: seq<Plan>, b: seq<Plan>)
    ensures PlanPages(a + b) == PlanPages(a) + PlanPages(b)
  {
    if b == [] {
      assert a + b == a;
    } else {
      var k := |b| - 1;
      assert a + b == (a + b[..k]) + [b[k]];
      PlanAppend(a + b[..k], b[k]);
      PlanConcat(a, b[..k]);
    }
  }

  /** How far the planned windows reach. */
  function PlannedEnd(plans: seq<Plan>, a: int): int {
    if plans == [] then a else plans[|plans| - 1].right
  }

  /** A canonical window cut to the asked range, and a greedy chain of whole sources over all of it, or nothing. */
  ghost predicate PlanOk(p: Plan, q: Request) {
    && p.descriptor in q.remote
    && p.left == Max(q.prefixEnd, p.descriptor.start) && p.right == Min(q.end, p.descriptor.end) && p.left < p.right
    && (p.held != [] ==> From(p.held, q.sources) && Chain(p.held, p.left, p.right) && Reach(p.held, p.left, p.right) == p.right)
  }

  /** The planned windows follow each other from the resident prefix on. */
  ghost predicate Planned(plans: seq<Plan>, q: Request) {
    && (forall i :: 0 <= i < |plans| ==> PlanOk(plans[i], q))
    && (plans != [] ==> plans[0].left == q.prefixEnd)
    && (forall i :: 0 < i < |plans| ==> plans[i].left == plans[i - 1].right)
  }

  lemma PlannedAppend(plans: seq<Plan>, p: Plan, q: Request)
    requires Planned(plans, q) && PlanOk(p, q) && p.left == PlannedEnd(plans, q.prefixEnd)
    ensures Planned(plans + [p], q)
  {
  }

  lemma PlannedTake(plans: seq<Plan>, q: Request, k: nat)
    requires Planned(plans, q) && k <= |plans|
    ensures Planned(plans[..k], q)
  {
  }

  lemma {:induction false} RightBound(plans: seq<Plan>, q: Request, k: nat)
    requires Planned(plans, q) && k < |plans|
    ensures q.prefixEnd <= plans[k].left < plans[k].right <= PlannedEnd(plans, q.prefixEnd) <= q.end
    decreases |plans| - k
  {
    assert PlanOk(plans[k], q);
    if k + 1 < |plans| { RightBound(plans, q, k + 1); }
  }

  /** What one planned window contributes: its held sources, or the remote page. */
  function Part(p: Plan): seq<CheckpointPage> {
    if p.held != [] then Windows(p.held) else [p.descriptor]
  }

  /** The entry list of a group once every planned window was taken over or loaded. */
  function Listed(plans: seq<Plan>): seq<CheckpointPage>
  {
    if plans == [] then [] else Listed(plans[..|plans| - 1]) + Part(plans[|plans| - 1])
  }

  lemma ListedAppend(plans: seq<Plan>, p: Plan)
    ensures Listed(plans + [p]) == Listed(plans) + Part(p)
  {
    assert (plans + [p])[..|plans|] == plans;
  }
}

/** Safety of the retention protocol over every run. */
module RetentionSafety {
  import opened Basics
  import opened CheckpointTypes
  import opened Sums
  import opened RetentionModel

  // ---------------------------------------------------------------- accounting steps

  /** How one ledger entry moves the two sums. */
  lemma LedgerSet(ledger: map<nat, Lease>, n: nat, l: Lease)
    ensures Gather(ledger[n := l], ChargedPages) == ChargedPages(l) + Gather(ledger - {n}, ChargedPages)
    ensures Gather(ledger[n := l], HeldPages) == HeldPages(l) + Gather(ledger - {n}, HeldPages)
    ensures n in ledger ==>
      && Gather(ledger, ChargedPages) == ChargedPages(ledger[n]) + Gather(ledger - {n}, ChargedPages)
      && Gather(ledger, HeldPages) == HeldPages(ledger[n]) + Gather(ledger - {n}, HeldPages)
    ensures n !in ledger ==> ledger - {n} == ledger
  {
    GatherUpdate(ledger, ChargedPages, n, l);
    GatherUpdate(ledger, HeldPages, n, l);
    if n in ledger {
      GatherExtract(ledger, ChargedPages, n);
      GatherExtract(ledger, HeldPages, n);
    }
  }

  /** Charging adds exactly the bytes of pages that had no lease before. */
  lemma ChargeBytes(charges: map<PageObj, nat>, owners: set<PageObj>)
    ensures Sum(Charged(charges, owners).Keys, Bytes) ==
            Sum(charges.Keys, Bytes) + Sum(owners - charges.Keys, Bytes)
  {
    assert Charged(charges, owners).Keys == charges.Keys + (owners - charges.Keys);
    SumUnion(charges.Keys, owners - charges.Keys, Bytes);
  }

  /** Uncharging gives back exactly the bytes of pages losing their last lease. */
  lemma UnchargeBytes(charges: map<PageObj, nat>, owners: set<PageObj>)
    ensures Sum(Uncharged(charges, owners).Keys, Bytes) + Sum(LastLease(charges, owners), Bytes) ==
            Sum(charges.Keys, Bytes)
  {
    var gone := LastLease(charges, owners);
    assert gone <= charges.Keys;
    assert Uncharged(charges, owners).Keys == charges.Keys - gone;
    SumUnion(charges.Keys - gone, gone, Bytes);
    assert charges.Keys == (charges.Keys - gone) + gone;
  }

  /** Charging then uncharging the same owners changes nothing. */
  lemma ChargeUndone(charges: map<PageObj, nat>, owners: set<PageObj>)
    requires forall p :: p in charges ==> charges[p] > 0
    ensures Uncharged(Charged(charges, owners), owners) == charges
    ensures LastLease(Charged(charges, owners), owners) == owners - charges.Keys
  {
  }

  /** Leases changed only in ways that keep both contributions leave the sums alone. */
  lemma LedgerSame(a: map<nat, Lease>, b: map<nat, Lease>)
    requires a.Keys == b.Keys
    requires forall n :: n in a ==> ChargedPages(a[n]) == ChargedPages(b[n]) && HeldPages(a[n]) == HeldPages(b[n])
    ensures Gather(a, ChargedPages) == Gather(b, ChargedPages)
    ensures Gather(a, HeldPages) == Gather(b, HeldPages)
  {
    GatherSame(a, b, ChargedPages);
    GatherSame(a, b, HeldPages);
  }

  /** Every page of a charged lease is charged; a protected record's pages never add bytes twice. */
  lemma LeasedIsCharged(s: Store, n: nat, p: PageObj)
    requires Accounted(s) && n in s.ledger && s.ledger[n].stage.Charges() && p in PagesOf(s.ledger[n].groups)
    ensures p in s.charges
  {
    GatherExtract(s.ledger, ChargedPages, n);
    assert p in Owners(s.ledger[n].groups);
    assert ChargedPages(s.ledger[n])[p] == 1;
    assert Count(s.charges, p) > 0;
  }

  /** The references of a holding lease are among those the store owns. */
  lemma LeasedIsHeld(s: Store, n: nat)
    requires Accounted(s) && n in s.ledger && s.ledger[n].stage.Holds()
    ensures PagesOf(s.ledger[n].groups) <= s.refs
  {
    GatherExtract(s.ledger, HeldPages, n);
  }

  // ---------------------------------------------------------------- accounting, step by step

  /** One lease changes; counts and references follow its contribution. */
  lemma Moved(s: Store, t: Store, n: nat, l: Lease)
    requires Accounted(s)
    requires t.ledger == s.ledger[n := l]
    requires forall p :: Count(t.charges, p) + Charge(s, n)[p] == Count(s.charges, p) + ChargedPages(l)[p]
    requires forall p :: p in t.charges ==> t.charges[p] > 0
    requires t.refs + Hold(s, n) == s.refs + HeldPages(l)
    requires t.used == Sum(t.charges.Keys, Bytes) && t.used <= t.limit
    ensures Accounted(t)
  {
    LedgerSet(s.ledger, n, l);
    var rest := s.ledger - {n};
    var others := Gather(rest, HeldPages);
    assert s.refs == Hold(s, n) + others;
    Cancel(t.refs, HeldPages(l) + others, Hold(s, n));
    forall p ensures Count(t.charges, p) == Gather(t.ledger, ChargedPages)[p] {
      assert Count(s.charges, p) == Charge(s, n)[p] + Gather(rest, ChargedPages)[p];
    }
  }

  lemma Cancel(a: multiset<PageObj>, b: multiset<PageObj>, c: multiset<PageObj>)
    requires a + c == b + c
    ensures a == b
  {
    forall p ensures a[p] == b[p] { assert (a + c)[p] == (b + c)[p]; }
  }

  /** One lease leaves; counts and references lose its contribution. */
  lemma Left(s: Store, t: Store, n: nat)
    requires Accounted(s) && n in s.ledger
    requires t.ledger == s.ledger - {n}
    requires forall p :: Count(t.charges, p) + Charge(s, n)[p] == Count(s.charges, p)
    requires forall p :: p in t.charges ==> t.charges[p] > 0
    requires t.refs + Hold(s, n) == s.refs
    requires t.used == Sum(t.charges.Keys, Bytes) && t.used <= t.limit
    ensures Accounted(t)
  {
    LedgerSet(s.ledger, n, s.ledger[n]);
    Cancel(t.refs, Gather(t.ledger, HeldPages), Hold(s, n));
    forall p ensures Count(t.charges, p) == Gather(t.ledger, ChargedPages)[p] {
      assert Count(s.charges, p) == Charge(s, n)[p] + Gather(t.ledger, ChargedPages)[p];
    }
  }

  ghost function Charge(s: Store, n: nat): multiset<PageObj> {
    if n in s.ledger then ChargedPages(s.ledger[n]) else multiset{}
  }

  ghost function Hold(s: Store, n: nat): multiset<PageObj> {
    if n in s.ledger then HeldPages(s.ledger[n]) else multiset{}
  }

  lemma TakeAccounts(s: Store, groups: Groups)
    requires Accounted(s) && s.next !in s.ledger
    ensures Accounted(Take(s, groups))
  {
    Moved(s, Take(s, groups), s.next, Lease(groups, Acquired));
  }

  lemma AcceptAccounts(s: Store, n: nat, k: Identity)
    requires Accounted(s) && n in s.ledger && s.ledger[n].stage.Acquired? && Fits(s, s.ledger[n].groups)
    ensures Accounted(Accept(s, n, k))
  {
    hide PageIndex, PagesOf, Owners, Gather, LastLease, Uncharged;
    var groups := s.ledger[n].groups;
    ChargeBytes(s.charges, Owners(groups));
    Moved(s, Accept(s, n, k), n, Lease(groups, Protected));
  }

  lemma RefuseAccounts(s: Store, n: nat)
    requires Accounted(s) && n in s.ledger && s.ledger[n].stage.Refused?
    ensures Accounted(Refuse(s, n))
  {
    LeasedIsHeld(s, n);
    Left(s, Refuse(s, n), n);
  }

  lemma ReleaseAccounts(s: Store, n: nat)
    requires Accounted(s) && n in s.ledger && s.ledger[n].stage.Queued?
    ensures Accounted(Release(s, n))
  {
    LeasedIsHeld(s, n);
    Moved(s, Release(s, n), n, s.ledger[n].(stage := Released));
  }

  lemma UnchargeAccounts(s: Store, n: nat)
    requires Accounted(s) && n in s.ledger && s.ledger[n].stage.Released?
    ensures Accounted(Uncharge(s, n))
  {
    var owners := Owners(s.ledger[n].groups);
    UnchargeBytes(s.charges, owners);
    forall p | p in owners ensures p in s.charges { LeasedIsCharged(s, n, p); }
    Left(s, Uncharge(s, n), n);
  }

  /** Moving a lease between stages that hold and charge alike costs nothing. */
  lemma RestageAccounts(s: Store, n: nat, stage: Stage)
    requires Accounted(s) && n in s.ledger
    requires s.ledger[n].stage.Holds() == stage.Holds() && s.ledger[n].stage.Charges() == stage.Charges()
    ensures Accounted(s.(ledger := s.ledger[n := s.ledger[n].(stage := stage)]))
  {
    var l := s.ledger[n].(stage := stage);
    Moved(s, s.(ledger := s.ledger[n := l]), n, l);
  }

  lemma ForgetLedger(s: Store, keys: set<Identity>)
    ensures Gather(ForgetKeys(s, keys).ledger, ChargedPages) == Gather(s.ledger, ChargedPages)
    ensures Gather(ForgetKeys(s, keys).ledger, HeldPages) == Gather(s.ledger, HeldPages)
  {
    var t := ForgetKeys(s, keys).ledger;
    forall n | n in s.ledger
      ensures ChargedPages(s.ledger[n]) == ChargedPages(t[n]) && HeldPages(s.ledger[n]) == HeldPages(t[n])
    {
      Requeued(s.ledger[n]);
    }
    LedgerSame(s.ledger, t);
  }

  lemma Requeued(l: Lease)
    ensures l.stage.Protected? ==>
      && ChargedPages(l.(stage := Queued)) == ChargedPages(l)
      && HeldPages(l.(stage := Queued)) == HeldPages(l)
  {
  }

  lemma ForgetAccounts(s: Store, keys: set<Identity>)
    requires Accounted(s)
    ensures Accounted(ForgetKeys(s, keys))
  {
    ForgetLedger(s, keys);
  }

  /** The accounting does not depend on records, manifests, the monitor or shutdown flags. */
  lemma OnlyLedgerCounts(s: Store, t: Store)
    requires Accounted(s)
    requires t.ledger == s.ledger && t.charges == s.charges && t.used == s.used && t.limit == s.limit && t.refs == s.refs
    ensures Accounted(t)
  {
  }

  /** A record's own lease already charges every page it would hand to a spill. */
  lemma OwnersCharged(s: Store, r: nat)
    requires Accounted(s) && r in s.cells
    requires s.cells[r].groups != NOTHING ==> r in s.ledger && s.ledger[r].stage.Protected? && s.cells[r].groups == s.ledger[r].groups
    ensures Owners(s.cells[r].groups) <= s.charges.Keys
  {
    forall p | p in Owners(s.cells[r].groups) ensures p in s.charges {
      if s.cells[r].groups != NOTHING { LeasedIsCharged(s, r, p); }
    }
  }

  /** So a spill adds leases but no bytes. */
  lemma SelectAccounts(s: Store, r: nat)
    requires Accounted(s) && s.next !in s.ledger && r in s.cells
    requires Owners(s.cells[r].groups) <= s.charges.Keys
    ensures Accounted(Selected(s, r))
    ensures Selected(s, r).used == s.used
  {
    var groups := s.cells[r].groups;
    var t := Selected(s, r);
    assert Owners(groups) - s.charges.Keys == {};
    assert t.charges.Keys == s.charges.Keys;
    Moved(s, t, s.next, Lease(groups, Snapshot));
  }
}

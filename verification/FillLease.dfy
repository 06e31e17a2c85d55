/** The lease that keeps completed CPU pages alive for a native reader. */
module FillLease {

  /** A page object, by identity. */
  type Page = nat

  /** The references held on pages. */
  class Ledger {
    var refs: multiset<Page>

    constructor ()
      ensures refs == multiset{}
    {
      refs := multiset{};
    }
  }

  /** The pages named by a list. */
  function Named(pages: seq<Page>): set<Page> { set p | p in pages }

  /** One entry for every page, in order of first appearance. */
  function Distinct(pages: seq<Page>): seq<Page> {
    if pages == [] then []
    else
      var front, last := pages[..|pages| - 1], pages[|pages| - 1];
      if last in front then Distinct(front) else Distinct(front) + [last]
  }

  /** Deduplication counts every page exactly once. */
  lemma {:induction false} DistinctOnce(pages: seq<Page>)
    ensures multiset(Distinct(pages)) == multiset(Named(pages))
    ensures Named(Distinct(pages)) == Named(pages)
    decreases |pages|
  {
    if pages != [] {
      var front, last := pages[..|pages| - 1], pages[|pages| - 1];
      DistinctOnce(front);
      assert pages == front + [last];
      if last in front {
        assert Named(pages) == Named(front);
      } else {
        assert Named(pages) == Named(front) + {last};
        assert Named(Distinct(front) + [last]) == Named(Distinct(front)) + {last};
      }
    }
  }

  lemma DistinctMembers(pages: seq<Page>)
    ensures forall p :: p in Distinct(pages) <==> p in pages
  {
    DistinctOnce(pages);
    forall p ensures p in Distinct(pages) <==> p in pages {
      assert p in Named(Distinct(pages)) <==> p in Named(pages);
    }
  }

  class LayerwiseCPUFillLease {
    var pages: seq<Page>
    const ledger: Ledger

    constructor (ledger: Ledger)
      ensures this.ledger == ledger && pages == []
    {
      this.ledger, pages := ledger, [];
    }

    /** Take one reference a page, however often it was passed; an unusable page undoes all of it. */
    method Retain(given: seq<Page>, usable: Page -> bool) returns (ok: bool)
      requires pages == []
      modifies this, ledger
      ensures ok <==> forall p :: p in given ==> usable(p)
      ensures ok ==> multiset(pages) == multiset(Named(given)) && ledger.refs == old(ledger.refs) + multiset(pages)
      ensures !ok ==> ledger.refs == old(ledger.refs) && pages == []
    {
      hide Distinct, Named;
      var once := Distinct(given);
      DistinctOnce(given);
      DistinctMembers(given);
      ok := HoldAll(once, usable);
      assert ok <==> forall p :: p in once ==> usable(p);
    }

    /** Take the pages one by one, or none of them. */
    method HoldAll(once: seq<Page>, usable: Page -> bool) returns (ok: bool)
      requires pages == []
      modifies this, ledger
      ensures ok <==> forall p :: p in once ==> usable(p)
      ensures ok ==> pages == once && ledger.refs == old(ledger.refs) + multiset(once)
      ensures !ok ==> ledger.refs == old(ledger.refs) && pages == []
    {
      for i := 0 to |once|
        invariant pages == once[..i]
        invariant ledger.refs == old(ledger.refs) + multiset(once[..i])
        invariant forall p :: p in once[..i] ==> usable(p)
      {
        if !usable(once[i]) {
          Release();
          return false;
        }
        Hold(once[i]);
        assert once[..i + 1] == once[..i] + [once[i]];
      }
      assert once[..|once|] == once;
      ok := true;
    }

    method Hold(page: Page)
      modifies this, ledger
      ensures pages == old(pages) + [page] && ledger.refs == old(ledger.refs) + multiset{page}
    {
      ledger.refs := ledger.refs + multiset{page};
      pages := pages + [page];
    }

    /** Give everything back once; releasing again does nothing. */
    method Release()
      requires multiset(pages) <= ledger.refs
      modifies this, ledger
      ensures pages == [] && ledger.refs == old(ledger.refs) - multiset(old(pages))
    {
      var held := pages;
      pages := [];
      for i := 0 to |held|
        invariant pages == [] && ledger.refs == old(ledger.refs) - multiset(held[..i])
      {
        assert held[..i + 1] == held[..i] + [held[i]];
        ledger.refs := ledger.refs - multiset{held[i]};
      }
      assert held[..|held|] == held;
    }
  }
}

/** Checkpoint windows, page objects and the paired lists a lease holds. */
module CheckpointTypes {

  /** A logical token window and the cache key its page is stored under. */
  datatype CheckpointPage = CheckpointPage(start: int, end: int, key: nat)

  /** An allocator page object: its identity and its constant physical size. */
  datatype PageObj = PageObj(id: nat, bytes: nat)

  /** One held reference: the window it was taken for and the page itself. */
  type Entry = (CheckpointPage, PageObj)

  /** The two KV groups of one lease, in group order. */
  type Groups = g: seq<seq<Entry>> | |g| == 2 witness [[], []]

  const NOTHING: Groups := [[], []]

  /** The page objects of one list, entry by entry. */
  function Pages(held: seq<Entry>): (r: seq<PageObj>)
  {
    seq(|held|, i requires 0 <= i < |held| => held[i].1)
  }

  /** The windows of one list, entry by entry. */
  function Windows(held: seq<Entry>): (r: seq<CheckpointPage>)
  {
    seq(|held|, i requires 0 <= i < |held| => held[i].0)
  }

  /** The references of one list, counted with multiplicity. */
  function PagesIn(held: seq<Entry>): multiset<PageObj> {
    multiset(Pages(held))
  }

  /** The references of both groups. */
  function PagesOf(groups: Groups): multiset<PageObj> {
    PagesIn(groups[0]) + PagesIn(groups[1])
  }

  /** The distinct page objects of a lease: what byte accounting is keyed by. */
  function Owners(groups: Groups): set<PageObj> {
    set p | p in PagesOf(groups)
  }

  /** Drop one reference per entry. */
  method DropReferences(owned: multiset<PageObj>, held: seq<Entry>) returns (left: multiset<PageObj>)
    requires PagesIn(held) <= owned
    ensures left == owned - PagesIn(held)
  {
    left := owned;
    for i := 0 to |held|
      invariant left == owned - PagesIn(held[..i])
    {
      PagesAppend(held[..i], held[i]);
      assert held[..i + 1] == held[..i] + [held[i]];
      PagesConcat(held[..i + 1], held[i + 1..]);
      assert held == held[..i + 1] + held[i + 1..];
      left := left - multiset{held[i].1};
    }
    assert held[..|held|] == held;
  }

  lemma PagesConcat(a: seq<Entry>, b: seq<Entry>)
    ensures PagesIn(a + b) == PagesIn(a) + PagesIn(b)
  {
    assert Pages(a + b) == Pages(a) + Pages(b);
  }

  lemma PagesAppend(held: seq<Entry>, e: Entry)
    ensures PagesIn(held + [e]) == PagesIn(held) + multiset{e.1}
  {
    assert Pages(held + [e]) == Pages(held) + [e.1];
  }
}

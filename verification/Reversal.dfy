/** Reversal chains: an entry, its reversal, the reversal of that, and so on. */
module Reversal {
  import opened Money
  import opened Sums
  import opened Ledger
  import opened Kernel

  predicate LinkSound(l: Ledger, i: EntryId)
    requires i < |l.entries|
  {
    l.entries[i].reversalOf.Some? ==>
      var j := l.entries[i].reversalOf.value;
      && j < i && l.entries[j].status == REVERSED && InBooks(l.entries[i])
      && l.entries[i].lines == SwappedLines(l.entries[j].lines)
  }

  predicate ReversedBy(l: Ledger, j: EntryId, i: EntryId) {
    i < |l.entries| && l.entries[i].reversalOf == Some(j)
  }

  ghost predicate HasReversal(l: Ledger, j: EntryId) {
    exists i: EntryId :: ReversedBy(l, j, i)
  }

  /** Links point back to a REVERSED entry with the swapped lines, no entry is reversed
      twice, and every REVERSED entry has its reversal. */
  ghost predicate Linked(l: Ledger) {
    && (forall i :: 0 <= i < |l.entries| ==> LinkSound(l, i))
    && (forall i: EntryId, k: EntryId, j: EntryId :: ReversedBy(l, j, i) && ReversedBy(l, j, k) ==> i == k)
    && (forall j: EntryId :: j < |l.entries| && l.entries[j].status == REVERSED ==> HasReversal(l, j))
  }

  lemma LinksKept(l: Ledger, c: Change, after: Ledger)
    requires Linked(l) && Makes(l, c, after)
    ensures Linked(after)
  {
    hide NearlyBalanced, Imbalance, SwappedLines, Counted, Placed, WithPeriod;
    forall i | 0 <= i < |after.entries|
      ensures LinkSound(after, i)
    {
      if i < |l.entries| {
        assert LinkSound(l, i);
      }
    }
    var last := if c.Reverses? then |l.entries| else |after.entries|;
    forall i: EntryId, j: EntryId
      ensures ReversedBy(after, j, i) <==> ReversedBy(l, j, i) || (i == last && c.Reverses? && j == c.id)
    {
    }
    if c.Reverses? {
      forall i: EntryId
        ensures !ReversedBy(l, c.id, i)
      {
        if i < |l.entries| {
          assert LinkSound(l, i);
        }
      }
    }
    forall j: EntryId | j < |after.entries| && after.entries[j].status == REVERSED
      ensures HasReversal(after, j)
    {
      if c.Reverses? && j == c.id {
        assert ReversedBy(after, j, last);
      } else {
        assert HasReversal(l, j);
        var i: EntryId :| ReversedBy(l, j, i);
        assert ReversedBy(after, j, i);
      }
    }
  }

  // ---- Chains ----

  ghost function Reverser(l: Ledger, j: EntryId): (i: EntryId)
    requires Linked(l) && j < |l.entries| && l.entries[j].status == REVERSED
    ensures ReversedBy(l, j, i) && j < i
  {
    assert HasReversal(l, j);
    var i: EntryId :| ReversedBy(l, j, i);
    assert LinkSound(l, i);
    i
  }

  /** r, its reversal, the reversal of that, and so on. */
  ghost function Chain(l: Ledger, r: EntryId): (chain: seq<EntryId>)
    requires Linked(l) && r < |l.entries|
    ensures |chain| > 0 && chain[0] == r
    ensures forall k :: 0 <= k < |chain| ==> chain[k] < |l.entries|
    decreases |l.entries| - r
  {
    if l.entries[r].status == REVERSED then [r] + Chain(l, Reverser(l, r)) else [r]
  }

  function Root(l: Ledger, i: EntryId): EntryId
    decreases i
  {
    if i < |l.entries| && l.entries[i].reversalOf.Some? && l.entries[i].reversalOf.value < i
    then Root(l, l.entries[i].reversalOf.value) else i
  }

  function Alternate(lines: seq<Line>, k: nat): seq<Line> {
    if k % 2 == 0 then lines else SwappedLines(lines)
  }

  lemma SwapTwice(lines: seq<Line>)
    ensures SwappedLines(SwappedLines(lines)) == lines
  {
  }

  /** Every member but the last is REVERSED, consecutive members are linked, and the lines
      alternate between the first member's lines and their swap. */
  lemma {:induction false} ChainAlternates(l: Ledger, r: EntryId, k: nat)
    requires Linked(l) && r < |l.entries| && k < |Chain(l, r)|
    ensures
      var chain := Chain(l, r);
      && (l.entries[chain[k]].status == REVERSED <==> k < |chain| - 1)
      && (k > 0 ==> ReversedBy(l, chain[k - 1], chain[k]) && chain[k - 1] < chain[k] && InBooks(l.entries[chain[k]]))
      && l.entries[chain[k]].lines == Alternate(l.entries[r].lines, k)
    decreases |l.entries| - r
  {
    if k > 0 {
      var next := Reverser(l, r);
      ChainAlternates(l, next, k - 1);
      assert LinkSound(l, next);
      SwapTwice(l.entries[r].lines);
    }
  }

  /** The chains of the entries that reverse nothing are disjoint and cover the journal. */
  lemma {:induction false} ChainsPartition(l: Ledger, r: EntryId, i: EntryId)
    requires Linked(l) && r < |l.entries| && i < |l.entries| && l.entries[r].reversalOf == None
    ensures i in Chain(l, r) <==> Root(l, i) == r
    decreases i
  {
    var chain := Chain(l, r);
    assert LinkSound(l, i);
    if l.entries[i].reversalOf.Some? {
      var j := l.entries[i].reversalOf.value;
      ChainsPartition(l, r, j);
      if j in chain {
        var k :| 0 <= k < |chain| && chain[k] == j;
        ChainAlternates(l, r, k);
        ChainAlternates(l, r, k + 1);
        assert ReversedBy(l, j, i) && ReversedBy(l, j, chain[k + 1]);
      }
      if i in chain {
        var k :| 0 <= k < |chain| && chain[k] == i;
        ChainAlternates(l, r, k);
      }
    } else if i in chain {
      var k :| 0 <= k < |chain| && chain[k] == i;
      ChainAlternates(l, r, k);
    }
  }

  // ---- Nets ----

  /** Selects lines by entity, account and dimensions, as every query of the ledger does. */
  type Filter = (EntityId, AccountId, Dimensions) -> bool

  function SelectedNet(f: Filter, line: Line): int {
    if f(line.entity, line.account, line.dims) then line.debit - line.credit else 0
  }

  function Selected(f: Filter): Line -> int {
    (line: Line) => SelectedNet(f, line)
  }

  function Net(lines: seq<Line>, f: Filter): int {
    Sum(lines, Selected(f))
  }

  lemma SwapNegates(lines: seq<Line>, f: Filter)
    ensures Net(SwappedLines(lines), f) == -Net(lines, f)
  {
    var swapped := SwappedLines(lines);
    forall i | 0 <= i < |lines|
      ensures Selected(f)(swapped[i]) == -Selected(f)(lines[i])
    {
      assert SelectedNet(f, Swapped(lines[i])) == -SelectedNet(f, lines[i]);
    }
    SumNegated(swapped, lines, Selected(f), Selected(f));
  }

  function NetOfEntries(l: Ledger, ids: seq<EntryId>, f: Filter): int
    requires forall k :: 0 <= k < |ids| ==> ids[k] < |l.entries|
  {
    if ids == [] then 0 else Net(l.entries[ids[0]].lines, f) + NetOfEntries(l, ids[1..], f)
  }

  /** A chain nets to its first entry or to nothing, by the parity of its length. */
  lemma {:induction false} ChainNet(l: Ledger, r: EntryId, f: Filter)
    requires Linked(l) && r < |l.entries|
    ensures NetOfEntries(l, Chain(l, r), f) == if |Chain(l, r)| % 2 == 1 then Net(l.entries[r].lines, f) else 0
    decreases |l.entries| - r
  {
    if l.entries[r].status == REVERSED {
      var next := Reverser(l, r);
      ChainNet(l, next, f);
      assert LinkSound(l, next);
      SwapNegates(l.entries[r].lines, f);
      assert Chain(l, r)[1..] == Chain(l, next);
    } else {
      assert Chain(l, r)[1..] == [];
    }
  }

  // ---- The books as a whole ----

  /** How many reversals lie between an entry and the one that started its chain. */
  function Depth(l: Ledger, i: EntryId): nat
    decreases i
  {
    if i < |l.entries| && l.entries[i].reversalOf.Some? && l.entries[i].reversalOf.value < i
    then Depth(l, l.entries[i].reversalOf.value) + 1 else 0
  }

  function Identity(n: int): int { n }

  function BooksNets(l: Ledger, f: Filter): seq<int> {
    seq(|l.entries|, i requires 0 <= i < |l.entries| =>
      if InBooks(l.entries[i]) then Net(l.entries[i].lines, f) else 0)
  }

  function StandingNet(l: Ledger, i: EntryId, f: Filter): int
    requires i < |l.entries|
  {
    if l.entries[i].status == POSTED && Depth(l, i) % 2 == 0 then Net(l.entries[i].lines, f) else 0
  }

  function StandingNets(l: Ledger, f: Filter): seq<int> {
    seq(|l.entries|, i requires 0 <= i < |l.entries| => StandingNet(l, i, f))
  }

  /** POSTED and REVERSED entries together net to what the POSTED entries at even depth say. */
  ghost predicate BooksStand(l: Ledger, f: Filter) {
    Sum(BooksNets(l, f), Identity) == Sum(StandingNets(l, f), Identity)
  }

  lemma {:induction false} DepthKept(l: Ledger, c: Change, after: Ledger, i: EntryId)
    requires Makes(l, c, after) && i < |l.entries|
    ensures Depth(after, i) == Depth(l, i)
    decreases i
  {
    if l.entries[i].reversalOf.Some? && l.entries[i].reversalOf.value < i {
      DepthKept(l, c, after, l.entries[i].reversalOf.value);
    }
  }

  lemma BooksAfterReversal(l: Ledger, id: EntryId, e: Entry, after: Ledger, f: Filter)
    requires Makes(l, Reverses(id, e), after)
    ensures BooksNets(after, f) == BooksNets(l, f) + [-Net(l.entries[id].lines, f)]
  {
    SwapNegates(l.entries[id].lines, f);
  }

  lemma ReversalDepth(l: Ledger, id: EntryId, e: Entry, after: Ledger)
    requires Makes(l, Reverses(id, e), after)
    ensures Depth(after, |l.entries|) == Depth(l, id) + 1
  {
    DepthKept(l, Reverses(id, e), after, id);
  }

  lemma NewStandingNet(l: Ledger, id: EntryId, e: Entry, after: Ledger, f: Filter)
    requires Makes(l, Reverses(id, e), after)
    ensures StandingNet(after, |l.entries|, f) == if Depth(l, id) % 2 == 1 then -Net(l.entries[id].lines, f) else 0
  {
    hide Net, Depth, SwappedLines;
    ReversalDepth(l, id, e, after);
    SwapNegates(l.entries[id].lines, f);
  }

  lemma OldStandingNet(l: Ledger, id: EntryId, e: Entry, after: Ledger, f: Filter, i: EntryId)
    requires Makes(l, Reverses(id, e), after) && i < |l.entries|
    ensures StandingNet(after, i, f) == if i == id then 0 else StandingNet(l, i, f)
  {
    hide Net, Depth, SwappedLines;
    DepthKept(l, Reverses(id, e), after, i);
  }

  lemma StandingAfterReversal(l: Ledger, id: EntryId, e: Entry, after: Ledger, f: Filter)
    requires Makes(l, Reverses(id, e), after)
    ensures StandingNets(after, f) ==
            StandingNets(l, f)[id := 0] + [if Depth(l, id) % 2 == 1 then -Net(l.entries[id].lines, f) else 0]
  {
    forall i: EntryId | i < |after.entries|
      ensures StandingNets(after, f)[i] ==
              if i == id then 0
              else if i < |l.entries| then StandingNets(l, f)[i]
              else if Depth(l, id) % 2 == 1 then -Net(l.entries[id].lines, f) else 0
    {
      if i < |l.entries| {
        OldStandingNet(l, id, e, after, f, i);
      } else {
        NewStandingNet(l, id, e, after, f);
      }
    }
  }

  lemma BooksStandReversed(l: Ledger, id: EntryId, e: Entry, after: Ledger, f: Filter)
    requires BooksStand(l, f) && Makes(l, Reverses(id, e), after)
    ensures BooksStand(after, f)
  {
    var books, standing := BooksNets(l, f), StandingNets(l, f);
    var net := Net(l.entries[id].lines, f);
    assert |standing| == |l.entries|;
    hide Net, Sum, Depth, BooksNets, StandingNets;
    BooksAfterReversal(l, id, e, after, f);
    StandingAfterReversal(l, id, e, after, f);
    SumAppend(books, -net, Identity);
    SumUpdate(standing, id, 0, Identity);
    SumAppend(standing[id := 0], if Depth(l, id) % 2 == 1 then -net else 0, Identity);
  }

  lemma BooksStandPosted(l: Ledger, id: EntryId, e: Entry, after: Ledger, f: Filter)
    requires Linked(l) && BooksStand(l, f) && Makes(l, Posts(id, e), after)
    ensures BooksStand(after, f)
  {
    var books, standing := BooksNets(l, f), StandingNets(l, f);
    var net := Net(e.lines, f);
    assert LinkSound(l, id);
    forall i | 0 <= i < |l.entries|
      ensures Depth(after, i) == Depth(l, i)
    {
      DepthKept(l, Posts(id, e), after, i);
    }
    assert BooksNets(after, f) == books[id := net];
    assert StandingNets(after, f) == standing[id := net];
    SumUpdate(books, id, net, Identity);
    SumUpdate(standing, id, net, Identity);
  }

  /** No other change moves an old entry; a new one weighs the same in both. */
  lemma BooksStandOtherwise(l: Ledger, c: Change, after: Ledger, f: Filter)
    requires BooksStand(l, f) && Makes(l, c, after) && !c.Reverses? && !c.Posts?
    ensures BooksStand(after, f)
  {
    var books, standing := BooksNets(l, f), StandingNets(l, f);
    forall i | 0 <= i < |l.entries|
      ensures Depth(after, i) == Depth(l, i)
    {
      DepthKept(l, c, after, i);
    }
    if c.Drafts? || c.Enters? {
      var net := if c.Drafts? then 0 else Net(c.entry.lines, f);
      assert Depth(after, |l.entries|) == 0;
      assert BooksNets(after, f) == books + [net];
      assert StandingNets(after, f) == standing + [net];
      SumAppend(books, net, Identity);
      SumAppend(standing, net, Identity);
    } else {
      assert BooksNets(after, f) == books;
      assert StandingNets(after, f) == standing;
    }
  }

  lemma BooksStandKept(l: Ledger, c: Change, after: Ledger, f: Filter)
    requires Linked(l) && BooksStand(l, f) && Makes(l, c, after)
    ensures BooksStand(after, f)
  {
    match c
    case Reverses(id, e) => BooksStandReversed(l, id, e, after, f);
    case Posts(id, e) => BooksStandPosted(l, id, e, after, f);
    case _ => BooksStandOtherwise(l, c, after, f);
  }
}

/** The greedy first-fit matching of statement lines to book lines. */
module Matching {
  import opened Money
  import opened Sums
  import opened Calendar
  import opened Ledger

  const AMOUNT_TOLERANCE := 1   // 0.01
  const DATE_WINDOW_DAYS := 5

  /** A journal line, by its entry and its place in the entry. */
  datatype LineRef = LineRef(entry: EntryId, index: nat)

  /** Positive amounts are deposits, negative ones withdrawals; time is in milliseconds. */
  datatype StatementItem = StatementItem(id: nat, time: int, amount: int)

  datatype BookItem = BookItem(ref: LineRef, time: int, debit: int, credit: int)

  datatype Pair = Pair(statement: StatementItem, book: BookItem)

  /** The side of the book line that a statement amount is compared with. */
  function Side(amount: int, debit: int, credit: int): int {
    if amount > 0 then debit else credit
  }

  predicate Compatible(s: StatementItem, b: BookItem) {
    && IntAbs(Side(s.amount, b.debit, b.credit) - IntAbs(s.amount)) <= AMOUNT_TOLERANCE
    && IntAbs(s.time - b.time) <= DATE_WINDOW_DAYS * MS_PER_DAY
  }

  /** Array.find: the first compatible book line, or the length when there is none. */
  function FirstFit(s: StatementItem, available: seq<BookItem>): (i: nat)
    ensures i <= |available|
    ensures i < |available| ==> Compatible(s, available[i])
    ensures forall k :: 0 <= k < i ==> !Compatible(s, available[k])
  {
    if available == [] then 0
    else if Compatible(s, available[0]) then 0
    else 1 + FirstFit(s, available[1..])
  }

  function Greedy(unmatched: seq<StatementItem>, available: seq<BookItem>): seq<Pair>
    decreases |unmatched|
  {
    if unmatched == [] then []
    else
      var i := FirstFit(unmatched[0], available);
      if i < |available| then [Pair(unmatched[0], available[i])] + Greedy(unmatched[1..], Without(available, i))
      else Greedy(unmatched[1..], available)
  }

  /** The loop of autoMatch: find, record, splice. */
  method MatchAll(unmatched: seq<StatementItem>, candidates: seq<BookItem>)
    returns (pairs: seq<Pair>, matchedCount: nat)
    ensures pairs == Greedy(unmatched, candidates) && matchedCount == |pairs|
  {
    var available := candidates;
    pairs, matchedCount := [], 0;
    for k := 0 to |unmatched|
      invariant pairs + Greedy(unmatched[k..], available) == Greedy(unmatched, candidates)
      invariant matchedCount == |pairs|
    {
      var line := unmatched[k];
      assert unmatched[k..][0] == line && unmatched[k..][1..] == unmatched[k + 1..];
      var i := 0;
      while i < |available| && !Compatible(line, available[i])
        invariant i <= |available|
        invariant forall j :: 0 <= j < i ==> !Compatible(line, available[j])
      {
        i := i + 1;
      }
      assert i == FirstFit(line, available);
      if i < |available| {
        pairs := pairs + [Pair(line, available[i])];
        available := Without(available, i);
        matchedCount := matchedCount + 1;
      }
    }
    assert unmatched[|unmatched|..] == [];
  }

  // ---- A matching, and a maximal one ----

  predicate DistinctStatements(s: seq<StatementItem>) {
    forall j, k :: 0 <= j < k < |s| ==> s[j] != s[k]
  }

  predicate DistinctBooks(s: seq<BookItem>) {
    forall j, k :: 0 <= j < k < |s| ==> s[j] != s[k]
  }

  /** pairs uses each line of either side at most once, and only compatible ones. */
  predicate IsMatching(pairs: seq<Pair>, unmatched: seq<StatementItem>, candidates: seq<BookItem>) {
    && (forall p :: p in pairs ==> p.statement in unmatched && p.book in candidates && Compatible(p.statement, p.book))
    && (forall j, k :: 0 <= j < k < |pairs| ==>
          pairs[j].statement != pairs[k].statement && pairs[j].book != pairs[k].book)
  }

  predicate UsesStatement(pairs: seq<Pair>, s: StatementItem) {
    exists k :: 0 <= k < |pairs| && pairs[k].statement == s
  }

  predicate UsesBook(pairs: seq<Pair>, b: BookItem) {
    exists k :: 0 <= k < |pairs| && pairs[k].book == b
  }

  /** Greedy matches each line at most once, and every pair passes both tests. */
  lemma {:induction false} GreedyIsMatching(unmatched: seq<StatementItem>, available: seq<BookItem>)
    requires DistinctStatements(unmatched) && DistinctBooks(available)
    ensures IsMatching(Greedy(unmatched, available), unmatched, available)
    decreases |unmatched|
  {
    if unmatched != [] {
      var i := FirstFit(unmatched[0], available);
      if i < |available| {
        GreedyIsMatching(unmatched[1..], Without(available, i));
      } else {
        GreedyIsMatching(unmatched[1..], available);
      }
    }
  }

  /** No leftover statement line is compatible with a leftover book line. */
  lemma {:induction false} GreedyIsMaximal(unmatched: seq<StatementItem>, available: seq<BookItem>, s: StatementItem,
                                           b: BookItem)
    requires s in unmatched && b in available && Compatible(s, b)
    ensures UsesStatement(Greedy(unmatched, available), s) || UsesBook(Greedy(unmatched, available), b)
    decreases |unmatched|
  {
    var pairs := Greedy(unmatched, available);
    var i := FirstFit(unmatched[0], available);
    if i < |available| {
      var rest := Greedy(unmatched[1..], Without(available, i));
      assert pairs[0] == Pair(unmatched[0], available[i]);
      if s != unmatched[0] && b != available[i] {
        GreedyIsMaximal(unmatched[1..], Without(available, i), s, b);
        if UsesStatement(rest, s) {
          var k :| 0 <= k < |rest| && rest[k].statement == s;
          assert pairs[k + 1].statement == s;
        } else {
          var k :| 0 <= k < |rest| && rest[k].book == b;
          assert pairs[k + 1].book == b;
        }
      }
    } else {
      GreedyIsMaximal(unmatched[1..], available, s, b);
    }
  }

  lemma {:induction false} GreedyDrawsFrom(unmatched: seq<StatementItem>, available: seq<BookItem>)
    ensures forall p :: p in Greedy(unmatched, available) ==>
              p.statement in unmatched && p.book in available && Compatible(p.statement, p.book)
    decreases |unmatched|
  {
    if unmatched != [] {
      var i := FirstFit(unmatched[0], available);
      GreedyDrawsFrom(unmatched[1..], if i < |available| then Without(available, i) else available);
    }
  }

  predicate ListedBefore<T(==)>(s: seq<T>, x: T, y: T) {
    exists i, j :: 0 <= i < j < |s| && s[i] == x && s[j] == y
  }

  lemma StillBefore(available: seq<BookItem>, i: nat, c: BookItem, b: BookItem)
    requires DistinctBooks(available) && i < |available| && c != available[i]
    requires b in Without(available, i) && ListedBefore(available, c, b)
    ensures DistinctBooks(Without(available, i)) && ListedBefore(Without(available, i), c, b)
  {
    var rest := Without(available, i);
    assert forall j :: 0 <= j < |rest| ==> rest[j] == available[if j < i then j else j + 1];
    var x, y :| 0 <= x < y < |available| && available[x] == c && available[y] == b;
    assert y != i;
    assert rest[if x < i then x else x - 1] == c && rest[if y < i then y else y - 1] == b;
  }

  lemma NothingFitsBefore(s: StatementItem, available: seq<BookItem>, c: BookItem)
    requires DistinctBooks(available) && FirstFit(s, available) < |available| && Compatible(s, c)
    ensures !ListedBefore(available, c, available[FirstFit(s, available)])
  {
    hide Compatible;
  }

  /** One of the first k pairs has taken the book line. */
  predicate TakenBefore(pairs: seq<Pair>, k: nat, c: BookItem) {
    exists j :: 0 <= j < k && j < |pairs| && pairs[j].book == c
  }

  lemma TakenLater(first: Pair, rest: seq<Pair>, k: nat, c: BookItem)
    requires TakenBefore(rest, k, c) || (first.book == c)
    ensures TakenBefore([first] + rest, k + 1, c)
  {
    var pairs := [first] + rest;
    if first.book == c {
      assert pairs[0].book == c;
    } else {
      var j :| 0 <= j < k && j < |rest| && rest[j].book == c;
      assert pairs[j + 1].book == c;
    }
  }

  /** A statement line takes the first book line that fits it, unless a statement line before it took that one. */
  lemma {:induction false} GreedyTakesFirst(unmatched: seq<StatementItem>, available: seq<BookItem>, k: nat,
                                            c: BookItem)
    requires DistinctBooks(available) && k < |Greedy(unmatched, available)|
    requires Compatible(Greedy(unmatched, available)[k].statement, c)
    requires ListedBefore(available, c, Greedy(unmatched, available)[k].book)
    ensures TakenBefore(Greedy(unmatched, available), k, c)
    decreases |unmatched|
  {
    hide Compatible, ListedBefore, TakenBefore, DistinctBooks, FirstFit, Without;
    var i := FirstFit(unmatched[0], available);
    if i == |available| {
      GreedyTakesFirst(unmatched[1..], available, k, c);
    } else if k == 0 {
      NothingFitsBefore(unmatched[0], available, c);
    } else {
      var first, rest := Pair(unmatched[0], available[i]), Greedy(unmatched[1..], Without(available, i));
      if c != available[i] {
        GreedyDrawsFrom(unmatched[1..], Without(available, i));
        assert rest[k - 1] in rest;
        StillBefore(available, i, c, rest[k - 1].book);
        GreedyTakesFirst(unmatched[1..], Without(available, i), k - 1, c);
      }
      TakenLater(first, rest, k - 1, c);
    }
  }

  /** The statement lines are taken in the order of the list. */
  lemma {:induction false} GreedyTakesInTurn(unmatched: seq<StatementItem>, available: seq<BookItem>, j: nat, k: nat)
    requires j < k < |Greedy(unmatched, available)|
    ensures
      var pairs := Greedy(unmatched, available);
      ListedBefore(unmatched, pairs[j].statement, pairs[k].statement)
    decreases |unmatched|
  {
    hide Compatible;
    var i := FirstFit(unmatched[0], available);
    var pairs := Greedy(unmatched, available);
    var left := if i < |available| then Without(available, i) else available;
    var rest := Greedy(unmatched[1..], left);
    var moved := if i < |available| then 1 else 0;
    assert pairs[k] == rest[k - moved] && rest[k - moved] in rest;
    if j < moved {
      GreedyDrawsFrom(unmatched[1..], left);
      var y :| 0 <= y < |unmatched[1..]| && unmatched[1..][y] == pairs[k].statement;
      assert unmatched[0] == pairs[0].statement && unmatched[y + 1] == pairs[k].statement;
    } else {
      GreedyTakesInTurn(unmatched[1..], left, j - moved, k - moved);
      var x, y :| 0 <= x < y < |unmatched[1..]| && unmatched[1..][x] == rest[j - moved].statement
                  && unmatched[1..][y] == rest[k - moved].statement;
      assert unmatched[x + 1] == pairs[j].statement && unmatched[y + 1] == pairs[k].statement;
    }
  }

  // ---- Half of the best ----

  /** A one-to-one image of pairs in a set is no larger than the set. */
  lemma {:induction false} OneToOne<T>(pairs: set<Pair>, key: Pair -> T, keys: set<T>)
    requires forall p :: p in pairs ==> key(p) in keys
    requires forall p, q :: p in pairs && q in pairs && key(p) == key(q) ==> p == q
    ensures |pairs| <= |keys|
    decreases pairs
  {
    if pairs != {} {
      var p :| p in pairs;
      OneToOne(pairs - {p}, key, keys - {key(p)});
    }
  }

  lemma {:induction false} SetNoLarger<T>(s: seq<T>)
    ensures |set x | x in s| <= |s|
  {
    if s != [] {
      SetNoLarger(s[1..]);
      assert (set x | x in s) == {s[0]} + set x | x in s[1..];
    }
  }

  lemma {:induction false} SetAsLarge(pairs: seq<Pair>)
    requires forall j, k :: 0 <= j < k < |pairs| ==> pairs[j] != pairs[k]
    ensures |set p | p in pairs| == |pairs|
  {
    if pairs != [] {
      SetAsLarge(pairs[1..]);
      assert (set p | p in pairs) == {pairs[0]} + set p | p in pairs[1..];
    }
  }

  function StatementOf(p: Pair): StatementItem { p.statement }

  function BookOf(p: Pair): BookItem { p.book }

  function Statements(pairs: seq<Pair>): (s: seq<StatementItem>)
    ensures |s| == |pairs|
  {
    seq(|pairs|, k requires 0 <= k < |pairs| => pairs[k].statement)
  }

  function Books(pairs: seq<Pair>): (s: seq<BookItem>)
    ensures |s| == |pairs|
  {
    seq(|pairs|, k requires 0 <= k < |pairs| => pairs[k].book)
  }

  lemma UsedIsListed(pairs: seq<Pair>, p: Pair)
    ensures UsesStatement(pairs, p.statement) ==> p.statement in Statements(pairs)
    ensures UsesBook(pairs, p.book) ==> p.book in Books(pairs)
  {
    forall k | 0 <= k < |pairs|
      ensures pairs[k].statement in Statements(pairs) && pairs[k].book in Books(pairs)
    {
      assert Statements(pairs)[k] == pairs[k].statement && Books(pairs)[k] == pairs[k].book;
    }
  }

  /** In a matching, a pair is determined by its statement line, and by its book line. */
  lemma KeysDecide(pairs: seq<Pair>, unmatched: seq<StatementItem>, candidates: seq<BookItem>)
    requires IsMatching(pairs, unmatched, candidates)
    ensures forall p, q :: p in pairs && q in pairs && (StatementOf(p) == StatementOf(q) || BookOf(p) == BookOf(q)) ==>
          p == q
    ensures forall j, k :: 0 <= j < k < |pairs| ==> pairs[j] != pairs[k]
  {
    hide Compatible;
  }

  /** Pairs that each use one of these statement lines or one of these book lines, and share neither. */
  lemma CountBySides(pairs: set<Pair>, statements: set<StatementItem>, books: set<BookItem>)
    requires forall p :: p in pairs ==> StatementOf(p) in statements || BookOf(p) in books
    requires forall p, q :: p in pairs && q in pairs && (StatementOf(p) == StatementOf(q) || BookOf(p) == BookOf(q)) ==>
          p == q
    ensures |pairs| <= |statements| + |books|
  {
    hide StatementOf, BookOf;
    var left := set p | p in pairs && StatementOf(p) in statements;
    var right := pairs - left;
    OneToOne(left, StatementOf, statements);
    OneToOne(right, BookOf, books);
    assert pairs == left + right;
  }

  lemma MaximalUses(unmatched: seq<StatementItem>, candidates: seq<BookItem>, p: Pair)
    requires p.statement in unmatched && p.book in candidates && Compatible(p.statement, p.book)
    ensures StatementOf(p) in Statements(Greedy(unmatched, candidates))
            || BookOf(p) in Books(Greedy(unmatched, candidates))
  {
    hide Compatible, Greedy;
    GreedyIsMaximal(unmatched, candidates, p.statement, p.book);
    UsedIsListed(Greedy(unmatched, candidates), p);
  }

  /** Every matching of the same lines has at most twice as many pairs as the greedy one. */
  lemma GreedyIsHalfOfBest(unmatched: seq<StatementItem>, candidates: seq<BookItem>, best: seq<Pair>)
    requires DistinctStatements(unmatched) && DistinctBooks(candidates)
    requires IsMatching(best, unmatched, candidates)
    ensures |best| <= 2 * |Greedy(unmatched, candidates)|
  {
    var greedy := Greedy(unmatched, candidates);
    KeysDecide(best, unmatched, candidates);
    forall p | p in best
      ensures StatementOf(p) in Statements(greedy) || BookOf(p) in Books(greedy)
    {
      hide Statements, Books, StatementOf, BookOf;
      MaximalUses(unmatched, candidates, p);
    }
    hide *;
    CountBySides(set p | p in best, set s | s in Statements(greedy), set b | b in Books(greedy));
    SetNoLarger(Statements(greedy));
    SetNoLarger(Books(greedy));
    SetAsLarge(best);
  }

  // ---- A second run ----

  lemma {:induction false} NothingFits(unmatched: seq<StatementItem>, available: seq<BookItem>)
    requires forall s, b :: s in unmatched && b in available ==> !Compatible(s, b)
    ensures Greedy(unmatched, available) == []
    decreases |unmatched|
  {
    if unmatched != [] {
      assert forall b :: b in available ==> !Compatible(unmatched[0], b);
      assert FirstFit(unmatched[0], available) == |available|;
      NothingFits(unmatched[1..], available);
    }
  }

  /** Whatever the order of the leftovers, an immediate second run matches nothing. */
  lemma SecondRunMatchesNothing(unmatched: seq<StatementItem>, candidates: seq<BookItem>,
                                restStatements: seq<StatementItem>, restBooks: seq<BookItem>)
    requires forall s :: s in restStatements ==> s in unmatched && !UsesStatement(Greedy(unmatched, candidates), s)
    requires forall b :: b in restBooks ==> b in candidates && !UsesBook(Greedy(unmatched, candidates), b)
    ensures Greedy(restStatements, restBooks) == []
  {
    forall s, b | s in restStatements && b in restBooks
      ensures !Compatible(s, b)
    {
      if Compatible(s, b) {
        GreedyIsMaximal(unmatched, candidates, s, b);
      }
    }
    NothingFits(restStatements, restBooks);
  }
}

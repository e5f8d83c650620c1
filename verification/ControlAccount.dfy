/** The balance of an account in the books, and which calls of the engine move it. */
module ControlAccount {
  import opened Money
  import opened Sums
  import opened Ledger
  import opened Kernel
  import opened Reversal

  /** Credits minus debits of the lines a filter selects, over every entry in the books. */
  function Owed(l: Ledger, f: Filter): int {
    -Sum(BooksNets(l, f), Identity)
  }

  ghost predicate Only(f: Filter, a: AccountId) {
    forall entity, account, dims :: f(entity, account, dims) ==> account == a
  }

  function OnAccount(a: AccountId): Filter {
    (_: EntityId, account: AccountId, _: Dimensions) => account == a
  }

  /** What a change enters in the books. */
  function Entered(c: Change, f: Filter): int {
    if c.Posts? || c.Enters? || c.Reverses? then Net(c.entry.lines, f) else 0
  }

  lemma ChangeMoves(l: Ledger, c: Change, after: Ledger, f: Filter)
    requires Makes(l, c, after)
    ensures Owed(after, f) == Owed(l, f) - Entered(c, f)
  {
    hide Net, Sum, Placed, NearlyBalanced, Imbalance, SwappedLines, Counted, WithPeriod, PeriodOf;
    var books := BooksNets(l, f);
    match c
    case Posts(id, e) =>
      SumUpdate(books, id, Net(e.lines, f), Identity);
      assert BooksNets(after, f) == books[id := Net(e.lines, f)];
    case Enters(e) =>
      SumAppend(books, Net(e.lines, f), Identity);
      assert BooksNets(after, f) == books + [Net(e.lines, f)];
    case Reverses(id, e) =>
      SumAppend(books, Net(e.lines, f), Identity);
      assert BooksNets(after, f) == books + [Net(e.lines, f)];
    case Drafts(e) =>
      SumAppend(books, 0, Identity);
      assert BooksNets(after, f) == books + [0];
    case _ =>
      assert BooksNets(after, f) == books;
  }

  predicate Avoids(lines: seq<Line>, a: AccountId) {
    forall line :: line in lines ==> line.account != a
  }

  lemma AvoidedNet(lines: seq<Line>, a: AccountId, f: Filter)
    requires Avoids(lines, a) && Only(f, a)
    ensures Net(lines, f) == 0
  {
    forall line | line in lines
      ensures Selected(f)(line) == 0
    {
      assert SelectedNet(f, line) == 0;
    }
    SumZero(lines, Selected(f));
  }

  /** The call brings no line on the account into the books. */
  predicate Spares(l: Ledger, s: Step, a: AccountId) {
    match s.op
    case OpPostSystem(input, _) => forall line :: line in input.lines ==> line.account != a
    case OpPost(id) => id < |l.entries| ==> Avoids(l.entries[id].lines, a)
    case OpReverse(id, _, _) => id < |l.entries| ==> Avoids(l.entries[id].lines, a)
    case _ => true
  }

  lemma StoredAvoid(entity: EntityId, lines: seq<LineInput>, a: AccountId)
    requires forall line :: line in lines ==> line.account != a
    ensures Avoids(StoreLines(entity, lines), a)
  {
    forall line | line in StoreLines(entity, lines)
      ensures line.account != a
    {
      var i :| 0 <= i < |lines| && StoreLines(entity, lines)[i] == line;
      assert lines[i] in lines;
    }
  }

  lemma SwappedAvoid(lines: seq<Line>, a: AccountId)
    requires Avoids(lines, a)
    ensures Avoids(SwappedLines(lines), a)
  {
    forall line | line in SwappedLines(lines)
      ensures line.account != a
    {
      var i :| 0 <= i < |lines| && SwappedLines(lines)[i] == line;
      assert lines[i] in lines;
    }
  }

  lemma SparedEnters(l: Ledger, s: Step, a: AccountId)
    requires Spares(l, s, a)
    ensures
      var c := ChangeOf(l, s);
      c.Posts? || c.Enters? || c.Reverses? ==> Avoids(c.entry.lines, a)
  {
    var c := ChangeOf(l, s);
    StepMakes(l, s);
    hide Avoids, StoreLines, SwappedLines, NearlyBalanced, Imbalance, Balanced, NoZeroLines, LinesPostable;
    if c.Enters? {
      StoredAvoid(s.op.input.entity, s.op.input.lines, a);
    } else if c.Reverses? {
      SwappedAvoid(l.entries[c.id].lines, a);
    }
  }

  /** A call that spares the account leaves its balance alone. */
  lemma SparedUnmoved(l: Ledger, s: Step, a: AccountId, f: Filter)
    requires Spares(l, s, a) && Only(f, a)
    ensures Owed(Apply(l, s).ledger, f) == Owed(l, f)
  {
    var c := ChangeOf(l, s);
    SparedEnters(l, s, a);
    StepMakes(l, s);
    ChangeMoves(l, c, Apply(l, s).ledger, f);
    if c.Posts? || c.Enters? || c.Reverses? {
      AvoidedNet(c.entry.lines, a, f);
    }
  }

  /** A system entry moves a balance by its stored lines, when it is accepted. */
  lemma SystemEntryMoves(l: Ledger, master: Master, input: EntryInput, user: UserId, f: Filter)
    ensures
      var o := PostSystem(l, master, input, user);
      Owed(o.ledger, f) == Owed(l, f) - if o.result.Ok? then Net(StoreLines(input.entity, input.lines), f) else 0
  {
    hide Balanced, NoZeroLines, LinesPostable, StoreLines, NearlyBalanced, Net, Placed, Owed;
    var s := Step(master, OpPostSystem(input, user));
    StepMakes(l, s);
    ChangeMoves(l, ChangeOf(l, s), Apply(l, s).ledger, f);
  }

  // ---- Lines ----

  lemma StoredConcat(entity: EntityId, s: seq<LineInput>, t: seq<LineInput>, f: Filter)
    ensures Net(StoreLines(entity, s + t), f) == Net(StoreLines(entity, s), f) + Net(StoreLines(entity, t), f)
  {
    assert StoreLines(entity, s + t) == StoreLines(entity, s) + StoreLines(entity, t);
    SumConcat(StoreLines(entity, s), StoreLines(entity, t), Selected(f));
  }

  lemma StoredSingle(entity: EntityId, line: LineInput, f: Filter)
    ensures Net(StoreLines(entity, [line]), f)
            == if f(entity, line.account, line.dims) then Store(line.debit) - Store(line.credit) else 0
  {
    assert StoreLines(entity, [line]) == [StoreLine(entity, line)];
    SumAppend([], StoreLine(entity, line), Selected(f));
    assert [] + [StoreLine(entity, line)] == [StoreLine(entity, line)];
    assert SelectedNet(f, StoreLine(entity, line)) == Selected(f)(StoreLine(entity, line));
  }
}

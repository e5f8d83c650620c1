/** The eight operations of the posting engine change the journal in seven ways.
Each invariant is proved of those changes once, and holds after every run. */
module Kernel {
  import opened Money
  import opened Sums
  import opened Ledger

  // ---- Changes ----

  datatype Change =
    | Opens(key: PeriodKey)                     // at most a new open period
    | Drafts(entry: Entry)                      // a new draft
    | Moves(id: EntryId, entry: Entry)          // an unresolved entry is submitted, approved or rejected
    | Posts(id: EntryId, entry: Entry)          // an approved entry enters the books
    | Enters(entry: Entry)                      // a system entry is created in the books
    | Reverses(id: EntryId, entry: Entry)       // a posted entry is reversed by a new one
    | Locks(key: PeriodKey)

  /** e sits in its own month, and its lines in its own entity, none of them on both sides. */
  predicate Placed(e: Entry) {
    && e.period == PeriodOf(e.entity, e.entryDate)
    && forall line :: line in e.lines ==> line.entity == e.entity && !(line.debit > 0 && line.credit > 0)
  }

  /** e is in the books under the next number of its entity and year. */
  predicate TakesNextNumber(l: Ledger, e: Entry) {
    && e.status == POSTED
    && e.number == Numbered(e.entryDate.year, Counter(l, e.entity, e.entryDate.year) + 1)
  }

  /** Debits minus credits of stored lines: zero when they balance to the cent. */
  function Imbalance(lines: seq<Line>): int {
    Sum(lines, DebitOf) - Sum(lines, CreditOf)
  }

  /** The tolerance of half a cent, plus at most half a cent of rounding on either side of each line. */
  predicate NearlyBalanced(lines: seq<Line>) {
    2 * IntAbs(Imbalance(lines)) <= 1 + 2 * |lines|
  }

  function Counted(l: Ledger, e: Entry): map<(EntityId, int), nat> {
    l.counters[(e.entity, e.entryDate.year) := Counter(l, e.entity, e.entryDate.year) + 1]
  }

  predicate Makes(l: Ledger, c: Change, after: Ledger) {
    match c
    case Opens(key) =>
      && after.entries == l.entries && after.counters == l.counters
      && (after.periods == l.periods || after.periods == WithPeriod(l.periods, key))
    case Drafts(e) =>
      && after == Ledger(l.entries + [e], WithPeriod(l.periods, e.period), l.counters)
      && Placed(e) && e.status == DRAFT && e.number == Unnumbered && e.reversalOf == None
      && after.periods[e.period] != LOCKED && NearlyBalanced(e.lines)
    case Moves(id, e) =>
      && id < |l.entries| && after == l.(entries := l.entries[id := e])
      && Unresolved(l.entries[id]) && (Unresolved(e) || e.status == REJECTED)
      && e == l.entries[id].(status := e.status, approvedBy := e.approvedBy)
    case Posts(id, e) =>
      && id < |l.entries| && after == Ledger(l.entries[id := e], l.periods, Counted(l, e))
      && l.entries[id].status == APPROVED && TakesNextNumber(l, e)
      && e == l.entries[id].(status := e.status, number := e.number)
      && e.period in l.periods && l.periods[e.period] == OPEN
      && Imbalance(e.lines) == 0
    case Enters(e) =>
      && after == Ledger(l.entries + [e], WithPeriod(l.periods, e.period), Counted(l, e))
      && Placed(e) && TakesNextNumber(l, e) && e.reversalOf == None
      && e.approvedBy == Some(e.createdBy) && NearlyBalanced(e.lines)
      && after.periods[e.period] == OPEN
    case Reverses(id, e) =>
      && id < |l.entries| && l.entries[id].status == POSTED
      && after == Ledger(l.entries[id := l.entries[id].(status := REVERSED)] + [e],
                         WithPeriod(l.periods, e.period), Counted(l, e))
      && e.period == PeriodOf(e.entity, e.entryDate) && e.entity == l.entries[id].entity
      && TakesNextNumber(l, e) && e.reversalOf == Some(id) && e.approvedBy == Some(e.createdBy)
      && e.lines == SwappedLines(l.entries[id].lines)
      && after.periods[e.period] == OPEN
    case Locks(key) =>
      && key in l.periods && after == l.(periods := l.periods[key := LOCKED])
      && forall i :: 0 <= i < |l.entries| && l.entries[i].period == key ==> !Unresolved(l.entries[i])
  }

  function ChangeOf(l: Ledger, s: Step): Change {
    var o := Apply(l, s);
    match o.result
    case Err(_) =>
      Opens(if s.op.OpCreateDraft? then PeriodOf(s.op.input.entity, s.op.input.entryDate) else PeriodKey(0, 0, 0))
    case Ok(id) =>
      if s.op.OpLockPeriod? then Locks(s.op.key)
      else if id >= |o.ledger.entries| then Opens(PeriodKey(0, 0, 0))
      else
        var e := o.ledger.entries[id];
        match s.op
        case OpCreateDraft(_, _) => Drafts(e)
        case OpPost(_) => Posts(id, e)
        case OpReverse(original, _, _) => Reverses(original, e)
        case OpPostSystem(_, _) => Enters(e)
        case _ => Moves(id, e)
  }

  /** Lines that pass the checks are stored nearly balanced, in their entity, and one-sided. */
  lemma StoredSound(entity: EntityId, lines: seq<LineInput>)
    requires Balanced(lines) && NoZeroLines(lines)
    ensures NearlyBalanced(StoreLines(entity, lines))
    ensures forall line :: line in StoreLines(entity, lines) ==>
          line.entity == entity && !(line.debit > 0 && line.credit > 0)
  {
    var stored := StoreLines(entity, lines);
    SumRounded(lines, stored, InputDebit, DebitOf);
    SumRounded(lines, stored, InputCredit, CreditOf);
    forall line | line in stored
      ensures line.entity == entity && !(line.debit > 0 && line.credit > 0)
    {
      var i :| 0 <= i < |stored| && stored[i] == line;
      assert lines[i] in lines;
    }
  }

  lemma CreateDraftMakes(l: Ledger, s: Step)
    requires s.op.OpCreateDraft?
    ensures Makes(l, ChangeOf(l, s), Apply(l, s).ledger)
  {
    if Balanced(s.op.input.lines) && NoZeroLines(s.op.input.lines) {
      StoredSound(s.op.input.entity, s.op.input.lines);
    }
  }

  lemma PostMakes(l: Ledger, s: Step)
    requires s.op.OpPost?
    ensures Makes(l, ChangeOf(l, s), Apply(l, s).ledger)
  {
  }

  lemma ReverseMakes(l: Ledger, s: Step)
    requires s.op.OpReverse?
    ensures Makes(l, ChangeOf(l, s), Apply(l, s).ledger)
  {
  }

  lemma PostSystemMakes(l: Ledger, s: Step)
    requires s.op.OpPostSystem?
    ensures Makes(l, ChangeOf(l, s), Apply(l, s).ledger)
  {
    if Balanced(s.op.input.lines) && NoZeroLines(s.op.input.lines) {
      StoredSound(s.op.input.entity, s.op.input.lines);
    }
  }

  lemma ReviewMakes(l: Ledger, s: Step)
    requires s.op.OpSubmit? || s.op.OpApprove? || s.op.OpReject? || s.op.OpLockPeriod?
    ensures Makes(l, ChangeOf(l, s), Apply(l, s).ledger)
  {
  }

  /** Every call makes one of the seven changes; a call that fails makes at most an open period. */
  lemma StepMakes(l: Ledger, s: Step)
    ensures Makes(l, ChangeOf(l, s), Apply(l, s).ledger)
    ensures Apply(l, s).result.Err? ==> ChangeOf(l, s).Opens?
  {
    match s.op
    case OpCreateDraft(_, _) => CreateDraftMakes(l, s);
    case OpPost(_) => PostMakes(l, s);
    case OpReverse(_, _, _) => ReverseMakes(l, s);
    case OpPostSystem(_, _) => PostSystemMakes(l, s);
    case _ => ReviewMakes(l, s);
  }

  // ---- Periods and locks ----

  predicate Settled(l: Ledger, e: Entry) {
    && Placed(e)
    && e.period in l.periods
    && (l.periods[e.period] == LOCKED ==> !Unresolved(e))
  }

  /** Every entry sits in the calendar month of its own date and in its own entity, and a
      locked period holds only posted, reversed or rejected entries. */
  predicate PeriodsSound(l: Ledger) {
    forall i :: 0 <= i < |l.entries| ==> Settled(l, l.entries[i])
  }

  lemma PeriodsKept(l: Ledger, c: Change, after: Ledger)
    requires PeriodsSound(l) && Makes(l, c, after)
    ensures PeriodsSound(after)
  {
    forall i | 0 <= i < |after.entries|
      ensures Settled(after, after.entries[i])
    {
      if i < |l.entries| {
        assert Settled(l, l.entries[i]);
      } else if c.Reverses? {
        assert Settled(l, l.entries[c.id]);
      }
    }
  }

  /** What an entry of the earlier journal may become in the later one. */
  predicate Matures(l: Ledger, e: Entry, later: Entry) {
    && later.lines == e.lines && later.entity == e.entity && later.period == e.period
    && later.entryDate == e.entryDate && later.createdBy == e.createdBy && later.reversalOf == e.reversalOf
    && (InBooks(e) ==> InBooks(later) && later.number == e.number)
    && (e.status == REVERSED ==> later.status == REVERSED)
    && (e.period in l.periods && l.periods[e.period] == LOCKED ==>
          later.status == e.status || (e.status == POSTED && later.status == REVERSED))
  }

  predicate Extends(l: Ledger, later: Ledger) {
    && |l.entries| <= |later.entries|
    && (forall i :: 0 <= i < |l.entries| ==> Matures(l, l.entries[i], later.entries[i]))
    && (forall i :: |l.entries| <= i < |later.entries| ==>
          !(later.entries[i].period in l.periods && l.periods[later.entries[i].period] == LOCKED))
    && (forall key :: key in l.periods ==>
          key in later.periods && (l.periods[key] == LOCKED ==> later.periods[key] == LOCKED))
  }

  lemma ChangeExtends(l: Ledger, c: Change, after: Ledger)
    requires PeriodsSound(l) && Makes(l, c, after)
    ensures Extends(l, after)
  {
    hide NearlyBalanced, Imbalance, SwappedLines, Counted;
    forall i | 0 <= i < |l.entries|
      ensures Matures(l, l.entries[i], after.entries[i])
    {
      assert Settled(l, l.entries[i]);
    }
  }

  lemma ExtendsTransitive(a: Ledger, b: Ledger, c: Ledger)
    requires Extends(a, b) && Extends(b, c)
    ensures Extends(a, c)
  {
    forall i | 0 <= i < |a.entries|
      ensures Matures(a, a.entries[i], c.entries[i])
    {
      assert Matures(a, a.entries[i], b.entries[i]) && Matures(b, b.entries[i], c.entries[i]);
    }
    forall i | |a.entries| <= i < |c.entries|
      ensures !(c.entries[i].period in a.periods && a.periods[c.entries[i].period] == LOCKED)
    {
      if i < |b.entries| {
        assert Matures(b, b.entries[i], c.entries[i]);
      }
    }
  }

  // ---- Numbers ----

  /** Entry i holds number n of this entity and year. */
  predicate Holds(l: Ledger, i: EntryId, entity: EntityId, year: int, n: nat) {
    i < |l.entries| && l.entries[i].entity == entity && l.entries[i].number == Numbered(year, n)
  }

  ghost predicate Used(l: Ledger, entity: EntityId, year: int, n: nat) {
    exists i: EntryId :: Holds(l, i, entity, year, n)
  }

  predicate NumberSound(l: Ledger, e: Entry) {
    && (InBooks(e) <==> e.number.Numbered?)
    && (e.number.Numbered? ==>
          e.number.year == e.entryDate.year && 1 <= e.number.sequence <= Counter(l, e.entity, e.number.year))
  }

  ghost predicate NumbersUnique(l: Ledger) {
    forall i: EntryId, j: EntryId, entity: EntityId, year: int, n: nat ::
      Holds(l, i, entity, year, n) && Holds(l, j, entity, year, n) ==> i == j
  }

  ghost predicate NoGaps(l: Ledger) {
    forall entity: EntityId, year: int, n: nat :: 1 <= n <= Counter(l, entity, year) ==> Used(l, entity, year, n)
  }

  /** The numbers of an entity and year are exactly 1..counter, each held once. */
  ghost predicate NumbersSound(l: Ledger) {
    && (forall i :: 0 <= i < |l.entries| ==> NumberSound(l, l.entries[i]))
    && NumbersUnique(l)
    && NoGaps(l)
  }

  predicate KeepsNumber(e: Entry, after: Entry) {
    after.entity == e.entity && after.number == e.number
  }

  /** Entry k, and no other, takes the next number. */
  lemma NumberTaken(l: Ledger, after: Ledger, k: EntryId, e: Entry)
    requires NumbersUnique(l) && NoGaps(l)
    requires forall i :: 0 <= i < |l.entries| ==> NumberSound(l, l.entries[i])
    requires k <= |l.entries| && |after.entries| == (if k < |l.entries| then |l.entries| else k + 1)
    requires k < |l.entries| ==> l.entries[k].number.Unnumbered?
    requires after.entries[k] == e && TakesNextNumber(l, e) && after.counters == Counted(l, e)
    requires forall i :: 0 <= i < |l.entries| && i != k ==> KeepsNumber(l.entries[i], after.entries[i])
    ensures NumbersUnique(after) && NoGaps(after)
  {
    forall i: EntryId, entity: EntityId, year: int, n: nat | Holds(after, i, entity, year, n) && i != k
      ensures Holds(l, i, entity, year, n) && n <= Counter(l, entity, year)
    {
      assert KeepsNumber(l.entries[i], after.entries[i]);
      assert NumberSound(l, l.entries[i]);
    }
    forall entity: EntityId, year: int, n: nat | 1 <= n <= Counter(after, entity, year)
      ensures Used(after, entity, year, n)
    {
      if entity == e.entity && year == e.entryDate.year && n == Counter(l, entity, year) + 1 {
        assert Holds(after, k, entity, year, n);
      } else {
        assert Used(l, entity, year, n);
        var i: EntryId :| Holds(l, i, entity, year, n);
        assert KeepsNumber(l.entries[i], after.entries[i]);
        assert Holds(after, i, entity, year, n);
      }
    }
  }

  /** No entry gains or loses a number. */
  lemma NoNumberTaken(l: Ledger, after: Ledger)
    requires NumbersUnique(l) && NoGaps(l)
    requires |l.entries| <= |after.entries| && after.counters == l.counters
    requires forall i :: 0 <= i < |l.entries| ==> KeepsNumber(l.entries[i], after.entries[i])
    requires forall i :: |l.entries| <= i < |after.entries| ==> after.entries[i].number.Unnumbered?
    ensures NumbersUnique(after) && NoGaps(after)
  {
    forall i: EntryId, entity: EntityId, year: int, n: nat
      ensures Holds(after, i, entity, year, n) <==> Holds(l, i, entity, year, n)
    {
      if i < |l.entries| {
        assert KeepsNumber(l.entries[i], after.entries[i]);
      }
    }
    forall entity: EntityId, year: int, n: nat | 1 <= n <= Counter(after, entity, year)
      ensures Used(after, entity, year, n)
    {
      assert Used(l, entity, year, n);
      var i: EntryId :| Holds(l, i, entity, year, n);
      assert Holds(after, i, entity, year, n);
    }
  }

  lemma NumbersKept(l: Ledger, c: Change, after: Ledger)
    requires NumbersSound(l) && Makes(l, c, after)
    ensures NumbersSound(after)
  {
    hide NearlyBalanced, Imbalance, SwappedLines, Placed, PeriodOf, WithPeriod;
    forall i | 0 <= i < |after.entries|
      ensures NumberSound(after, after.entries[i])
    {
      if i < |l.entries| {
        assert NumberSound(l, l.entries[i]);
      }
    }
    match c
    case Posts(id, e) =>
      assert NumberSound(l, l.entries[id]);
      NumberTaken(l, after, id, e);
    case Enters(e) => NumberTaken(l, after, |l.entries|, e);
    case Reverses(_, e) => NumberTaken(l, after, |l.entries|, e);
    case _ => NoNumberTaken(l, after);
  }
}

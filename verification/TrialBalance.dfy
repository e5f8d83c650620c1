/** The trial balance: posted lines grouped by account, and how far its totals can drift. */
module TrialBalance {
  import opened Money
  import opened Sums
  import opened Calendar
  import opened Ledger
  import opened Kernel

  // ---- Balance of the entries ----

  predicate EntryBalance(e: Entry) {
    && NearlyBalanced(e.lines)
    && (InBooks(e) && e.approvedBy != Some(e.createdBy) ==> Imbalance(e.lines) == 0)
  }

  /** No entry is out by more than its rounding; one that a second person approved is out by nothing. */
  predicate EntriesBalance(l: Ledger) {
    forall i :: 0 <= i < |l.entries| ==> EntryBalance(l.entries[i])
  }

  lemma SwapImbalance(lines: seq<Line>)
    ensures Imbalance(SwappedLines(lines)) == -Imbalance(lines)
  {
    SumMapped(SwappedLines(lines), lines, DebitOf, CreditOf);
    SumMapped(SwappedLines(lines), lines, CreditOf, DebitOf);
  }

  lemma BalanceKept(l: Ledger, c: Change, after: Ledger)
    requires EntriesBalance(l) && Makes(l, c, after)
    ensures EntriesBalance(after)
  {
    forall i | 0 <= i < |after.entries|
      ensures EntryBalance(after.entries[i])
    {
      if i < |l.entries| {
        assert EntryBalance(l.entries[i]);
      } else if c.Reverses? {
        assert EntryBalance(l.entries[c.id]);
        SwapImbalance(l.entries[c.id].lines);
      }
    }
  }

  function RoundedDebit(line: LineInput): int { Store(line.debit) }

  function RoundedCredit(line: LineInput): int { Store(line.credit) }

  /** The caller's debits and credits, rounded to cents line by line, agree. */
  predicate RoundsEvenly(lines: seq<LineInput>) {
    Sum(lines, RoundedDebit) == Sum(lines, RoundedCredit)
  }

  /** Every entry in the books balances to the cent. */
  predicate ExactlyBalanced(l: Ledger) {
    forall i :: 0 <= i < |l.entries| && InBooks(l.entries[i]) ==> Imbalance(l.entries[i].lines) == 0
  }

  lemma StoredImbalance(entity: EntityId, lines: seq<LineInput>)
    ensures Imbalance(StoreLines(entity, lines)) == Sum(lines, RoundedDebit) - Sum(lines, RoundedCredit)
  {
    SumMapped(lines, StoreLines(entity, lines), RoundedDebit, DebitOf);
    SumMapped(lines, StoreLines(entity, lines), RoundedCredit, CreditOf);
  }

  predicate Accepts(l: Ledger, s: Step) {
    s.op.OpPostSystem? && Apply(l, s).result.Ok?
  }

  lemma ReversalExact(l: Ledger, id: EntryId, e: Entry, after: Ledger)
    requires Makes(l, Reverses(id, e), after)
    ensures ExactlyBalanced(after) <==> ExactlyBalanced(l)
  {
    SwapImbalance(l.entries[id].lines);
    assert after.entries[|l.entries|] == e && after.entries[id].lines == l.entries[id].lines;
    assert forall i :: 0 <= i < |l.entries| && i != id ==> after.entries[i] == l.entries[i];
  }

  lemma ChangeExact(l: Ledger, c: Change, after: Ledger)
    requires Makes(l, c, after)
    ensures ExactlyBalanced(after) <==> ExactlyBalanced(l) && (c.Enters? ==> Imbalance(c.entry.lines) == 0)
  {
    match c
    case Enters(e) =>
      assert after.entries[|l.entries|] == e;
      assert forall i :: 0 <= i < |l.entries| ==> after.entries[i] == l.entries[i];
    case Reverses(id, e) => ReversalExact(l, id, e, after);
    case _ =>
      assert forall i :: 0 <= i < |l.entries| && InBooks(l.entries[i]) ==> after.entries[i] == l.entries[i];
  }

  /** The books stay exact precisely when the step is not an accepted system entry that rounds unevenly. */
  lemma StepExact(l: Ledger, s: Step)
    ensures ExactlyBalanced(Apply(l, s).ledger) <==>
            ExactlyBalanced(l) && (Accepts(l, s) ==> RoundsEvenly(s.op.input.lines))
  {
    StepMakes(l, s);
    ChangeExact(l, ChangeOf(l, s), Apply(l, s).ledger);
    if Accepts(l, s) {
      StoredImbalance(s.op.input.entity, s.op.input.lines);
    }
  }

  predicate WholeCentLines(lines: seq<LineInput>) {
    forall line :: line in lines ==> WholeCents(line.debit) && WholeCents(line.credit)
  }

  /** Balanced whole cents always round evenly. */
  lemma WholeCentsRoundEvenly(lines: seq<LineInput>)
    requires WholeCentLines(lines) && Balanced(lines)
    ensures RoundsEvenly(lines)
  {
    forall i | 0 <= i < |lines|
      ensures RoundedDebit(lines[i]) as real == InputDebit(lines[i])
      ensures RoundedCredit(lines[i]) as real == InputCredit(lines[i])
    {
      assert lines[i] in lines;
      StoreWhole(lines[i].debit.Floor);
      StoreWhole(lines[i].credit.Floor);
    }
    SumExact(lines, lines, InputDebit, RoundedDebit);
    SumExact(lines, lines, InputCredit, RoundedCredit);
  }

  /** Half a cent per entry does not bound the drift: three debits of 33.4 cents against a credit
      of 100.2 cents are accepted, and are stored a whole cent apart. */
  lemma OneEntryCanDriftACent(master: Master, user: UserId, now: Date)
    requires 0 in master.activeEntities && (0, 1) in master.postable && (0, 2) in master.postable
    ensures
      var third := LineInput(1, 33.4, 0.0, NO_DIMENSIONS);
      var input := EntryInput(0, now, [third, third, third, LineInput(2, 0.0, 100.2, NO_DIMENSIONS)]);
      var o := PostSystem(EMPTY, master, input, user);
      o.result.Ok? && |o.ledger.entries| == 1 && Imbalance(o.ledger.entries[0].lines) == -1
  {
    var third := LineInput(1, 33.4, 0.0, NO_DIMENSIONS);
    var lines := [third, third, third, LineInput(2, 0.0, 100.2, NO_DIMENSIONS)];
    assert SumReal(lines[3..], InputDebit) == 0.0 && SumReal(lines[3..], InputCredit) == 100.2;
    assert SumReal(lines[2..], InputDebit) == 33.4 && SumReal(lines[2..], InputCredit) == 100.2 by {
      assert lines[2..][1..] == lines[3..];
    }
    assert SumReal(lines[1..], InputDebit) == 66.8 && SumReal(lines[1..], InputCredit) == 100.2 by {
      assert lines[1..][1..] == lines[2..];
    }
    var stored := StoreLines(0, lines);
    assert stored[..] == [Line(1, 33, 0, 0, NO_DIMENSIONS), Line(1, 33, 0, 0, NO_DIMENSIONS),
                          Line(1, 33, 0, 0, NO_DIMENSIONS), Line(2, 0, 100, 0, NO_DIMENSIONS)];
    assert Sum(stored[3..], DebitOf) == 0 && Sum(stored[3..], CreditOf) == 100;
    assert Sum(stored[2..], DebitOf) == 33 && Sum(stored[2..], CreditOf) == 100 by {
      assert stored[2..][1..] == stored[3..];
    }
    assert Sum(stored[1..], DebitOf) == 66 && Sum(stored[1..], CreditOf) == 100 by {
      assert stored[1..][1..] == stored[2..];
    }
  }

  // ---- The query ----

  /** Posted lines of these entities, in one fiscal period or in all. */
  datatype Query = Query(entities: set<EntityId>, period: Option<PeriodKey>)

  predicate Matches(q: Query, e: Entry) {
    e.status == POSTED && (q.period.Some? ==> e.period == q.period.value)
  }

  function LinesIn(lines: seq<Line>, entities: set<EntityId>): seq<Line> {
    if lines == [] then []
    else (if lines[0].entity in entities then [lines[0]] else []) + LinesIn(lines[1..], entities)
  }

  function PostedLines(entries: seq<Entry>, q: Query): seq<Line> {
    if entries == [] then []
    else (if Matches(q, entries[0]) then LinesIn(entries[0].lines, q.entities) else []) + PostedLines(entries[1..], q)
  }

  // ---- The grouping loop ----

  datatype Row = Row(account: AccountId, debit: int, credit: int)

  function RowDebit(r: Row): int { r.debit }

  function RowCredit(r: Row): int { r.credit }

  function AccountDebit(account: AccountId): Line -> int {
    (line: Line) => if line.account == account then line.debit else 0
  }

  function AccountCredit(account: AccountId): Line -> int {
    (line: Line) => if line.account == account then line.credit else 0
  }

  predicate DistinctAccounts(rows: seq<Row>) {
    forall j, k :: 0 <= j < k < |rows| ==> rows[j].account != rows[k].account
  }

  predicate HasRow(rows: seq<Row>, account: AccountId) {
    exists k :: 0 <= k < |rows| && rows[k].account == account
  }

  predicate Occurs(lines: seq<Line>, account: AccountId) {
    exists i :: 0 <= i < |lines| && lines[i].account == account
  }

  predicate RowSound(r: Row, lines: seq<Line>) {
    && r.debit == Sum(lines, AccountDebit(r.account))
    && r.credit == Sum(lines, AccountCredit(r.account))
    && Occurs(lines, r.account)
  }

  /** rows are the accounts of lines, each once, with the sums of its debits and credits. */
  predicate Groups(rows: seq<Row>, lines: seq<Line>) {
    && DistinctAccounts(rows)
    && (forall k :: 0 <= k < |rows| ==> RowSound(rows[k], lines))
    && (forall i :: 0 <= i < |lines| ==> HasRow(rows, lines[i].account))
  }

  /** Row k gains the line; k past the end makes a new row. */
  function WithLine(rows: seq<Row>, k: nat, line: Line): seq<Row> {
    if k < |rows| then rows[k := Row(rows[k].account, rows[k].debit + line.debit, rows[k].credit + line.credit)]
    else rows + [Row(line.account, line.debit, line.credit)]
  }

  lemma TotalsGain(rows: seq<Row>, k: nat, lines: seq<Line>, line: Line)
    ensures Sum(WithLine(rows, k, line), RowDebit) == Sum(rows, RowDebit) + line.debit
    ensures Sum(WithLine(rows, k, line), RowCredit) == Sum(rows, RowCredit) + line.credit
    ensures Sum(lines + [line], DebitOf) == Sum(lines, DebitOf) + line.debit
    ensures Sum(lines + [line], CreditOf) == Sum(lines, CreditOf) + line.credit
  {
    SumAppend(lines, line, DebitOf);
    SumAppend(lines, line, CreditOf);
    if k < |rows| {
      SumUpdate(rows, k, WithLine(rows, k, line)[k], RowDebit);
      SumUpdate(rows, k, WithLine(rows, k, line)[k], RowCredit);
    } else {
      SumAppend(rows, Row(line.account, line.debit, line.credit), RowDebit);
      SumAppend(rows, Row(line.account, line.debit, line.credit), RowCredit);
    }
  }

  lemma RowKept(r: Row, lines: seq<Line>, line: Line)
    requires RowSound(r, lines) || (!Occurs(lines, r.account) && r.debit == 0 && r.credit == 0)
    ensures r.account != line.account && RowSound(r, lines) ==> RowSound(r, lines + [line])
    ensures r.account == line.account ==>
          RowSound(Row(r.account, r.debit + line.debit, r.credit + line.credit), lines + [line])
  {
    SumAppend(lines, line, AccountDebit(r.account));
    SumAppend(lines, line, AccountCredit(r.account));
    if Occurs(lines, r.account) {
      var i :| 0 <= i < |lines| && lines[i].account == r.account;
      assert (lines + [line])[i].account == r.account;
    } else {
      SumZero(lines, AccountDebit(r.account));
      SumZero(lines, AccountCredit(r.account));
    }
    assert (lines + [line])[|lines|] == line;
  }

  lemma GroupsGain(rows: seq<Row>, k: nat, lines: seq<Line>, line: Line)
    requires Groups(rows, lines)
    requires if k < |rows| then rows[k].account == line.account else !HasRow(rows, line.account)
    ensures Groups(WithLine(rows, k, line), lines + [line])
  {
    var after := WithLine(rows, k, line);
    forall j | 0 <= j < |after|
      ensures RowSound(after[j], lines + [line])
    {
      if j < |rows| {
        assert RowSound(rows[j], lines);
        RowKept(rows[j], lines, line);
      } else {
        RowKept(Row(line.account, 0, 0), lines, line);
      }
    }
    forall i | 0 <= i < |lines + [line]|
      ensures HasRow(after, (lines + [line])[i].account)
    {
      if i < |lines| {
        assert HasRow(rows, lines[i].account);
        var j :| 0 <= j < |rows| && rows[j].account == lines[i].account;
        assert after[j].account == lines[i].account;
      } else {
        assert after[if k < |rows| then k else |rows|].account == line.account;
      }
    }
  }

  predicate Indexed(rows: seq<Row>, byAccount: map<AccountId, nat>) {
    && (forall k :: 0 <= k < |rows| ==> rows[k].account in byAccount)
    && (forall a :: a in byAccount ==> byAccount[a] < |rows| && rows[byAccount[a]].account == a)
  }

  /** rows are grouped so far, add up to the lines so far, and are found by account. */
  predicate Accumulated(rows: seq<Row>, byAccount: map<AccountId, nat>, lines: seq<Line>) {
    && Groups(rows, lines)
    && Sum(rows, RowDebit) == Sum(lines, DebitOf)
    && Sum(rows, RowCredit) == Sum(lines, CreditOf)
    && Indexed(rows, byAccount)
  }

  lemma IndexedGain(rows: seq<Row>, byAccount: map<AccountId, nat>, line: Line)
    requires Indexed(rows, byAccount)
    ensures
      var k := if line.account in byAccount then byAccount[line.account] else |rows|;
      && (if k < |rows| then rows[k].account == line.account else !HasRow(rows, line.account))
      && Indexed(WithLine(rows, k, line), byAccount[line.account := k])
  {
  }

  lemma AccumulatedGain(rows: seq<Row>, byAccount: map<AccountId, nat>, lines: seq<Line>, line: Line)
    requires Accumulated(rows, byAccount, lines)
    ensures
      var k := if line.account in byAccount then byAccount[line.account] else |rows|;
      Accumulated(WithLine(rows, k, line), byAccount[line.account := k], lines + [line])
  {
    var k := if line.account in byAccount then byAccount[line.account] else |rows|;
    IndexedGain(rows, byAccount, line);
    assert Indexed(WithLine(rows, k, line), byAccount[line.account := k]);
    GroupsGain(rows, k, lines, line);
    TotalsGain(rows, k, lines, line);
  }

  lemma AccumulatedMeans(rows: seq<Row>, byAccount: map<AccountId, nat>, lines: seq<Line>)
    ensures Accumulated([], map[], [])
    ensures Accumulated(rows, byAccount, lines) ==>
              && Groups(rows, lines)
              && Sum(rows, RowDebit) == Sum(lines, DebitOf) && Sum(rows, RowCredit) == Sum(lines, CreditOf)
    ensures Accumulated(rows, byAccount, lines) ==> forall a :: a in byAccount ==> byAccount[a] < |rows|
  {
  }

  /** The Map of getTrialBalance: rows in order of first use, found again by account. */
  method GroupByAccount(lines: seq<Line>) returns (rows: seq<Row>)
    ensures Groups(rows, lines)
    ensures Sum(rows, RowDebit) == Sum(lines, DebitOf)
    ensures Sum(rows, RowCredit) == Sum(lines, CreditOf)
  {
    hide *;
    rows := [];
    var byAccount: map<AccountId, nat> := map[];
    AccumulatedMeans(rows, byAccount, []);
    assert lines[..0] == [];
    for i := 0 to |lines|
      invariant Accumulated(rows, byAccount, lines[..i])
    {
      var line := lines[i];
      AccumulatedGain(rows, byAccount, lines[..i], line);
      assert lines[..i + 1] == lines[..i] + [line];
      var k := if line.account in byAccount then byAccount[line.account] else |rows|;
      byAccount := byAccount[line.account := k];
      rows := WithLine(rows, k, line);
    }
    assert lines[..|lines|] == lines;
    AccumulatedMeans(rows, byAccount, lines);
  }

  // ---- How far debits and credits can drift ----

  function InputNet(line: LineInput): real { line.debit - line.credit }

  /** The sides that the DTOs of journal lines admit. */
  predicate NoNegativeSide(lines: seq<LineInput>) {
    forall line :: line in lines ==> line.debit >= 0.0 && line.credit >= 0.0
  }

  predicate Tight(lines: seq<Line>) {
    2 * IntAbs(Imbalance(lines)) <= 1 + |lines|
  }

  lemma OneSideRounds(line: LineInput, entity: EntityId)
    requires OneSided(line) && line.debit >= 0.0 && line.credit >= 0.0
    ensures -0.5 <= NetOf(StoreLine(entity, line)) as real - InputNet(line) <= 0.5
  {
  }

  /** A line with one side and no negative one is rounded once, not twice. */
  lemma StoredTight(entity: EntityId, lines: seq<LineInput>)
    requires Balanced(lines) && NoZeroLines(lines) && NoNegativeSide(lines)
    ensures Tight(StoreLines(entity, lines))
  {
    var stored := StoreLines(entity, lines);
    forall i | 0 <= i < |lines|
      ensures -0.5 <= NetOf(stored[i]) as real - InputNet(lines[i]) <= 0.5
    {
      assert lines[i] in lines;
      OneSideRounds(lines[i], entity);
    }
    hide StoreLines, NoZeroLines, NoNegativeSide;
    SumRounded(lines, stored, InputNet, NetOf);
    SumRealMinus(lines, InputNet, InputDebit, InputCredit);
    SumMinus(stored, NetOf, DebitOf, CreditOf);
  }

  predicate AllTight(l: Ledger) {
    forall i :: 0 <= i < |l.entries| ==> Tight(l.entries[i].lines)
  }

  predicate OneSidedInput(s: Step) {
    s.op.OpCreateDraft? || s.op.OpPostSystem? ==> NoNegativeSide(s.op.input.lines)
  }

  lemma StepTight(l: Ledger, s: Step)
    requires AllTight(l) && OneSidedInput(s)
    ensures AllTight(Apply(l, s).ledger)
  {
    var after := Apply(l, s).ledger;
    StepMakes(l, s);
    hide Tight, StoreLines, SwappedLines, Imbalance, Balanced, NoZeroLines, LinesPostable, NearlyBalanced;
    if (s.op.OpCreateDraft? || s.op.OpPostSystem?) && |after.entries| > |l.entries| {
      StoredTight(s.op.input.entity, s.op.input.lines);
    } else if s.op.OpReverse? && |after.entries| > |l.entries| {
      SwappedTight(l.entries[s.op.id].lines);
    }
  }

  lemma SwappedTight(lines: seq<Line>)
    requires Tight(lines)
    ensures Tight(SwappedLines(lines))
  {
    SwapImbalance(lines);
  }

  lemma {:induction false} OwnLinesIn(lines: seq<Line>, entity: EntityId, entities: set<EntityId>)
    requires forall line :: line in lines ==> line.entity == entity
    ensures LinesIn(lines, entities) == if entity in entities then lines else []
  {
    if lines != [] {
      OwnLinesIn(lines[1..], entity, entities);
      assert lines == [lines[0]] + lines[1..];
    }
  }

  lemma ImbalanceConcat(s: seq<Line>, t: seq<Line>)
    ensures Imbalance(s + t) == Imbalance(s) + Imbalance(t)
  {
    SumConcat(s, t, DebitOf);
    SumConcat(s, t, CreditOf);
  }

  /** Half cents by which a posted entry can be out: none when somebody else approved it, otherwise one for the
      tolerance and this many for each line. */
  function EntrySlack(e: Entry, perLine: nat): nat {
    if e.approvedBy != Some(e.createdBy) then 0 else 1 + perLine * |e.lines|
  }

  function Slack(entries: seq<Entry>, q: Query, perLine: nat): nat {
    if entries == [] then 0
    else (if Matches(q, entries[0]) && entries[0].entity in q.entities then EntrySlack(entries[0], perLine) else 0)
         + Slack(entries[1..], q, perLine)
  }

  lemma {:induction false} PostedDrift(entries: seq<Entry>, q: Query, perLine: nat)
    requires forall e :: e in entries ==>
               Placed(e) && (e.status == POSTED ==> 2 * IntAbs(Imbalance(e.lines)) <= EntrySlack(e, perLine))
    ensures 2 * IntAbs(Imbalance(PostedLines(entries, q))) <= Slack(entries, q, perLine)
  {
    if entries != [] {
      var e := entries[0];
      hide EntrySlack;
      PostedDrift(entries[1..], q, perLine);
      OwnLinesIn(e.lines, e.entity, q.entities);
      ImbalanceConcat(if Matches(q, e) then LinesIn(e.lines, q.entities) else [], PostedLines(entries[1..], q));
    }
  }

  lemma {:induction false} PostedExact(entries: seq<Entry>, q: Query)
    requires forall e :: e in entries ==> Placed(e) && (e.status == POSTED ==> Imbalance(e.lines) == 0)
    ensures Imbalance(PostedLines(entries, q)) == 0
  {
    if entries != [] {
      var e := entries[0];
      PostedExact(entries[1..], q);
      OwnLinesIn(e.lines, e.entity, q.entities);
      ImbalanceConcat(if Matches(q, e) then LinesIn(e.lines, q.entities) else [], PostedLines(entries[1..], q));
    }
  }

  // ---- Entities side by side ----

  lemma {:induction false} LinesInUnion(lines: seq<Line>, a: set<EntityId>, b: set<EntityId>, w: Line -> int)
    requires a !! b
    ensures Sum(LinesIn(lines, a + b), w) == Sum(LinesIn(lines, a), w) + Sum(LinesIn(lines, b), w)
  {
    if lines != [] {
      LinesInUnion(lines[1..], a, b, w);
      forall entities
        ensures Sum(LinesIn(lines, entities), w) ==
                (if lines[0].entity in entities then w(lines[0]) else 0) + Sum(LinesIn(lines[1..], entities), w)
      {
        SumConcat(if lines[0].entity in entities then [lines[0]] else [], LinesIn(lines[1..], entities), w);
      }
    }
  }

  lemma PostedFirst(entries: seq<Entry>, q: Query, w: Line -> int)
    requires entries != []
    ensures Sum(PostedLines(entries, q), w)
            == (if Matches(q, entries[0]) then Sum(LinesIn(entries[0].lines, q.entities), w) else 0)
               + Sum(PostedLines(entries[1..], q), w)
  {
    SumConcat(if Matches(q, entries[0]) then LinesIn(entries[0].lines, q.entities) else [],
              PostedLines(entries[1..], q), w);
  }

  /** What two disjoint sets of entities post together is what each of them posts. */
  lemma {:induction false} PostedUnion(entries: seq<Entry>, period: Option<PeriodKey>, a: set<EntityId>,
                                       b: set<EntityId>, w: Line -> int)
    requires a !! b
    ensures Sum(PostedLines(entries, Query(a + b, period)), w) ==
            Sum(PostedLines(entries, Query(a, period)), w) + Sum(PostedLines(entries, Query(b, period)), w)
  {
    if entries != [] {
      PostedUnion(entries[1..], period, a, b, w);
      LinesInUnion(entries[0].lines, a, b, w);
      hide Sum, PostedLines, LinesIn;
      PostedFirst(entries, Query(a + b, period), w);
      PostedFirst(entries, Query(a, period), w);
      PostedFirst(entries, Query(b, period), w);
    }
  }
}

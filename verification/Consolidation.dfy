/** Consolidated statements of a group of entities. */
module Consolidation {
  import opened Money
  import opened Sums
  import opened Ledger
  import opened Kernel
  import opened TrialBalance

  datatype AccountType = ASSET | LIABILITY | EQUITY | REVENUE | EXPENSE

  function Members(ids: seq<EntityId>): set<EntityId> {
    set id | id in ids
  }

  datatype Consolidated = Consolidated(rows: seq<Row>, debit: int, credit: int, netDebit: int, netCredit: int)

  function EliminationOf(amount: int): int { amount }

  /** A group's parent, and the child of every ownership record. */
  datatype Group = Group(parent: EntityId, children: seq<EntityId>)

  /** The parent, followed by the children, repeats included. */
  function MemberIds(g: Group): seq<EntityId> {
    [g.parent] + g.children
  }

  /** tb groups the posted lines of the parent and its children; eliminations come off both totals. */
  ghost predicate IsConsolidated(l: Ledger, group: Group, period: Option<PeriodKey>, eliminations: seq<int>,
                                 tb: Consolidated) {
    var lines := PostedLines(l.entries, Query({group.parent} + (set c | c in group.children), period));
    && Groups(tb.rows, lines)
    && Sum(tb.rows, RowDebit) == tb.debit == Sum(lines, DebitOf)
    && Sum(tb.rows, RowCredit) == tb.credit == Sum(lines, CreditOf)
    && tb.netDebit - tb.netCredit == Imbalance(lines)
    && tb.debit - tb.netDebit == Sum(eliminations, EliminationOf)
  }

  /** group and eliminations are what the database holds under the group's id. */
  method GetConsolidatedTrialBalance(l: Ledger, group: Option<Group>, period: Option<PeriodKey>, eliminations: seq<int>)
    returns (result: Result<Consolidated>)
    ensures group.None? <==> result == Err(NotFound)
    ensures group.Some? ==> result.Ok? && IsConsolidated(l, group.value, period, eliminations, result.value)
  {
    if group.None? {
      return Err(NotFound);
    }
    var memberIds := MemberIds(group.value);
    assert Members(memberIds) == {group.value.parent} + (set c | c in group.value.children);
    var lines := PostedLines(l.entries, Query(Members(memberIds), period));
    var rows := GroupByAccount(lines);
    var debit, credit := Sum(rows, RowDebit), Sum(rows, RowCredit);
    var eliminated := Sum(eliminations, EliminationOf);
    return Ok(Consolidated(rows, debit, credit, debit - eliminated, credit - eliminated));
  }

  // ---- Consolidation adds the members up ----

  predicate Distinct(ids: seq<EntityId>) {
    forall j, k :: 0 <= j < k < |ids| ==> ids[j] != ids[k]
  }

  /** The trial balances of the entities one after the other, summed. */
  function MembersSum(l: Ledger, ids: seq<EntityId>, period: Option<PeriodKey>, w: Line -> int): int {
    if ids == [] then 0
    else Sum(PostedLines(l.entries, Query({ids[0]}, period)), w) + MembersSum(l, ids[1..], period, w)
  }

  lemma {:induction false} NobodyPosts(entries: seq<Entry>, period: Option<PeriodKey>)
    ensures PostedLines(entries, Query({}, period)) == []
  {
    if entries != [] {
      NobodyPosts(entries[1..], period);
      NoLinesIn(entries[0].lines);
    }
  }

  lemma {:induction false} NoLinesIn(lines: seq<Line>)
    ensures LinesIn(lines, {}) == []
  {
    if lines != [] {
      NoLinesIn(lines[1..]);
    }
  }

  /** However often memberIds repeats an entity, each distinct member counts once: for any weight of
      a line (an account's debit, an account's credit, a type's net) the group is the sum of its members. */
  lemma {:induction false} ConsolidationAddsUp(l: Ledger, memberIds: seq<EntityId>, distinct: seq<EntityId>,
                                               period: Option<PeriodKey>, w: Line -> int)
    requires Distinct(distinct) && Members(distinct) == Members(memberIds)
    ensures Sum(PostedLines(l.entries, Query(Members(memberIds), period)), w) == MembersSum(l, distinct, period, w)
    decreases |distinct|
  {
    if distinct == [] {
      assert Members(distinct) == {};
      NobodyPosts(l.entries, period);
    } else {
      var rest := distinct[1..];
      ConsolidationAddsUp(l, rest, rest, period, w);
      assert distinct == [distinct[0]] + rest;
      assert Members(memberIds) == {distinct[0]} + Members(rest);
      assert distinct[0] !in rest;
      PostedUnion(l.entries, period, {distinct[0]}, Members(rest), w);
    }
  }

  /** For any weight of a line, a group is its parent and, each once, the children that are not its parent. */
  lemma GroupIsParentAndChildren(l: Ledger, group: Group, others: seq<EntityId>, period: Option<PeriodKey>,
                                 w: Line -> int)
    requires Distinct(others) && forall id :: id in others <==> id in group.children && id != group.parent
    ensures Sum(PostedLines(l.entries, Query({group.parent} + (set c | c in group.children), period)), w)
            == Sum(PostedLines(l.entries, Query({group.parent}, period)), w) + MembersSum(l, others, period, w)
  {
    assert {group.parent} + (set c | c in group.children) == {group.parent} + Members(others);
    hide Sum, PostedLines, MembersSum;
    ConsolidationAddsUp(l, others, others, period, w);
    PostedUnion(l.entries, period, {group.parent}, Members(others), w);
  }

  // ---- Profit and loss, balance sheet ----

  type Chart = AccountId -> AccountType

  function DebitNet(chart: Chart, t: AccountType): Row -> int {
    (r: Row) => if chart(r.account) == t then r.debit - r.credit else 0
  }

  /** Revenue and liabilities are read credit minus debit, expenses and assets debit minus credit. */
  function TypeTotal(chart: Chart, rows: seq<Row>, t: AccountType): int {
    var debitNet := Sum(rows, DebitNet(chart, t));
    if t == ASSET || t == EXPENSE then debitNet else -debitNet
  }

  function NetIncome(chart: Chart, rows: seq<Row>): int {
    TypeTotal(chart, rows, REVENUE) - TypeTotal(chart, rows, EXPENSE)
  }

  /** The balance sheet's own flag: the two sides differ by less than one cent. */
  predicate BalancesFlag(chart: Chart, rows: seq<Row>) {
    IntAbs(TypeTotal(chart, rows, ASSET) - (TypeTotal(chart, rows, LIABILITY) + TypeTotal(chart, rows, EQUITY))) < 1
  }

  /** Assets less liabilities and equity is net income plus whatever debits exceed credits by. */
  lemma {:induction false} SheetGap(chart: Chart, rows: seq<Row>)
    ensures TypeTotal(chart, rows, ASSET) - TypeTotal(chart, rows, LIABILITY) - TypeTotal(chart, rows, EQUITY)
            == NetIncome(chart, rows) + Sum(rows, RowDebit) - Sum(rows, RowCredit)
  {
    if rows != [] {
      SheetGap(chart, rows[1..]);
    }
  }

  /** On books that balance to the cent, the flag is raised exactly when the group has earned nothing. */
  lemma FlagMeansNoIncome(l: Ledger, memberIds: seq<EntityId>, period: Option<PeriodKey>, chart: Chart, rows: seq<Row>)
    requires PeriodsSound(l) && ExactlyBalanced(l)
    requires Sum(rows, RowDebit) == Sum(PostedLines(l.entries, Query(Members(memberIds), period)), DebitOf)
    requires Sum(rows, RowCredit) == Sum(PostedLines(l.entries, Query(Members(memberIds), period)), CreditOf)
    ensures TypeTotal(chart, rows, ASSET) - TypeTotal(chart, rows, LIABILITY) - TypeTotal(chart, rows, EQUITY)
            == NetIncome(chart, rows)
    ensures BalancesFlag(chart, rows) <==> NetIncome(chart, rows) == 0
  {
    forall e | e in l.entries
      ensures Placed(e) && (e.status == POSTED ==> Imbalance(e.lines) == 0)
    {
      var i :| 0 <= i < |l.entries| && l.entries[i] == e;
      assert Settled(l, l.entries[i]);
    }
    PostedExact(l.entries, Query(Members(memberIds), period));
    SheetGap(chart, rows);
  }
}

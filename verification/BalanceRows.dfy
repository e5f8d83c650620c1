/** Which journal lines a trial balance reads, and what each one adds to the statements made of it. */
module BalanceRows {
  import opened Money
  import opened Sums
  import opened Ledger
  import opened TrialBalance
  import opened Consolidation

  /** Of a POSTED entry, in the period if one is asked for, and on one of the entities. */
  predicate Reads(q: Query, e: Entry, j: Line) {
    e.status == POSTED && (q.period == None || q.period == Some(e.period)) && j.entity in q.entities
  }

  lemma FirstLineIn(lines: seq<Line>, entities: set<EntityId>)
    requires lines != []
    ensures LinesIn(lines, entities)
            == (if lines[0].entity in entities then [lines[0]] else []) + LinesIn(lines[1..], entities)
  {
  }

  lemma {:induction false} LastLineIn(lines: seq<Line>, j: Line, entities: set<EntityId>)
    ensures LinesIn(lines + [j], entities) == LinesIn(lines, entities) + if j.entity in entities then [j] else []
  {
    FirstLineIn(lines + [j], entities);
    if lines == [] {
      assert (lines + [j])[1..] == [];
    } else {
      hide LinesIn;
      FirstLineIn(lines, entities);
      LastLineIn(lines[1..], j, entities);
      assert (lines + [j])[1..] == lines[1..] + [j];
    }
  }

  /** The lines of the entry that the query reads. */
  function ReadOf(e: Entry, q: Query): seq<Line> {
    if Matches(q, e) then LinesIn(e.lines, q.entities) else []
  }

  lemma FirstEntry(entries: seq<Entry>, q: Query)
    requires entries != []
    ensures PostedLines(entries, q) == ReadOf(entries[0], q) + PostedLines(entries[1..], q)
  {
  }

  lemma {:induction false} LastEntry(entries: seq<Entry>, e: Entry, q: Query)
    ensures PostedLines(entries + [e], q) == PostedLines(entries, q) + ReadOf(e, q)
  {
    FirstEntry(entries + [e], q);
    if entries == [] {
      assert (entries + [e])[1..] == [];
    } else {
      hide PostedLines, ReadOf;
      FirstEntry(entries, q);
      LastEntry(entries[1..], e, q);
      assert (entries + [e])[1..] == entries[1..] + [e];
    }
  }

  /** No entries, no lines. An entry without lines adds none, and each further line of a new entry is added exactly when
      the query reads it: so the query's answer is known for every journal. */
  lemma QueryRows(entries: seq<Entry>, e: Entry, j: Line, q: Query)
    ensures PostedLines([], q) == []
    ensures e.lines == [] ==> PostedLines(entries + [e], q) == PostedLines(entries, q)
    ensures PostedLines(entries + [e.(lines := e.lines + [j])], q)
            == PostedLines(entries + [e], q) + if Reads(q, e, j) then [j] else []
  {
    LastEntry(entries, e, q);
    LastEntry(entries, e.(lines := e.lines + [j]), q);
    LastLineIn(e.lines, j, q.entities);
  }

  /** An account's row is the total of its debits and of its credits: what each further line adds to them. */
  lemma AccountRows(lines: seq<Line>, j: Line, account: AccountId)
    ensures Sum([], AccountDebit(account)) == 0 == Sum([], AccountCredit(account))
    ensures Sum(lines + [j], AccountDebit(account))
            == Sum(lines, AccountDebit(account)) + if j.account == account then j.debit else 0
    ensures Sum(lines + [j], AccountCredit(account))
            == Sum(lines, AccountCredit(account)) + if j.account == account then j.credit else 0
  {
    SumAppend(lines, j, AccountDebit(account));
    SumAppend(lines, j, AccountCredit(account));
  }

  /** Assets and expenses stand on the debit side, the other types on the credit side; income is what revenue exceeds
      expenses by; each elimination counts in full. */
  lemma StatementRows(chart: Chart, rows: seq<Row>, r: Row, t: AccountType, eliminations: seq<int>, amount: int)
    ensures TypeTotal(chart, [], t) == NetIncome(chart, []) == Sum([], EliminationOf) == 0
    ensures TypeTotal(chart, rows + [r], t)
            == TypeTotal(chart, rows, t) + if chart(r.account) != t then 0
                                           else if t in {ASSET, EXPENSE} then r.debit - r.credit else r.credit - r.debit
    ensures NetIncome(chart, rows + [r])
            == NetIncome(chart, rows) + if chart(r.account) in {REVENUE, EXPENSE} then r.credit - r.debit else 0
    ensures Sum(eliminations + [amount], EliminationOf) == Sum(eliminations, EliminationOf) + amount
  {
    SumAppend(eliminations, amount, EliminationOf);
    SumAppend(rows, r, DebitNet(chart, t));
    SumAppend(rows, r, DebitNet(chart, REVENUE));
    SumAppend(rows, r, DebitNet(chart, EXPENSE));
  }
}

/** What is available on a budget line, and what each call on budgets accepts and leaves, column by column. */
module BudgetRows {
  import opened Money
  import opened Sums
  import opened Calendar
  import opened Ledger
  import opened Budgeting
  import opened BudgetReplay

  // ---- What is available ----

  predicate Asked(dimension: Option<nat>, value: Option<nat>) {
    dimension == None || value == dimension
  }

  /** A journal line of the budget line's account and entity that has every dimension the budget line names, in a POSTED
      entry dated from the first of the month to its last second. */
  predicate Spends(x: Budget, s: Scope, e: Entry, j: Line) {
    && e.status == POSTED
    && MonthStart(x.fiscalYear * 12 + s.period - 1) <= Time(e.entryDate)
    && Time(e.entryDate) <= MonthStart(x.fiscalYear * 12 + s.period) - 1000
    && j.account == s.account && j.entity == x.entity
    && Asked(s.project, j.dims.project) && Asked(s.phase, j.dims.phase) && Asked(s.department, j.dims.department)
    && Asked(s.costCenter, j.dims.costCenter) && Asked(s.fundingSource, j.dims.fundingSource)
  }

  lemma SpendsIsCharge(x: Budget, s: Scope, e: Entry, j: Line)
    ensures Spends(x, s, e, j) <==> InBudgetMonth(e, x.fiscalYear * 12 + s.period - 1) && Charges(s, x.entity, j)
  {
    hide MonthStart, Time;
  }

  function BudgetOf(b: Budgets, line: BudgetLineId): Budget
    requires LineExists(b, line)
  {
    b.budgets[b.lines[line].budget]
  }

  function WithEntry(a: Actuals, e: Entry): Actuals {
    a.(ledger := a.ledger.(entries := a.ledger.entries + [e]))
  }

  /** What is spent lowers what is available on an account that debits make larger, and raises it on any other. */
  function Lowered(a: Actuals, s: Scope, spent: int): int {
    if s.account in a.debitNormal then -spent else spent
  }

  lemma EntryAvailable(b: Budgets, a: Actuals, line: BudgetLineId, e: Entry)
    requires LineExists(b, line)
    ensures
      var x, s := BudgetOf(b, line), b.lines[line].scope;
      Available(b, WithEntry(a, e), line)
      == Available(b, a, line) + Lowered(a, s, EntryCharge(s, x.entity, x.fiscalYear * 12 + s.period - 1)(e))
  {
    var x, s := BudgetOf(b, line), b.lines[line].scope;
    hide Sum, InBudgetMonth, Committed;
    SumAppend(a.ledger.entries, e, EntryCharge(s, x.entity, x.fiscalYear * 12 + s.period - 1));
  }

  /** Without entries the revised amount is available, less what is open of the line's commitments. */
  lemma NothingSpent(b: Budgets, a: Actuals, line: BudgetLineId)
    requires LineExists(b, line) && a.ledger.entries == []
    ensures Available(b, a, line) == b.lines[line].revised - OpenAmounts(b.commitments, line)
  {
    OpenIsCommitted(b.commitments, line);
    hide OpenAmounts;
  }

  function OpenAmounts(commitments: seq<Commitment>, line: BudgetLineId): int {
    if commitments == [] then 0
    else
      var c := commitments[0];
      (if c.line == line && c.status in {CommitmentStatus.OPEN, PARTIALLY_RELEASED} then c.amount - c.released else 0)
      + OpenAmounts(commitments[1..], line)
  }

  lemma {:induction false} OpenIsCommitted(commitments: seq<Commitment>, line: BudgetLineId)
    ensures Sum(commitments, OpenOn(line)) == OpenAmounts(commitments, line)
  {
    if commitments != [] {
      OpenIsCommitted(commitments[1..], line);
    }
  }

  /** An entry none of whose lines spends leaves what is available. */
  lemma EntryElsewhere(b: Budgets, a: Actuals, line: BudgetLineId, e: Entry)
    requires LineExists(b, line)
    requires forall j :: j in e.lines ==> !Spends(BudgetOf(b, line), b.lines[line].scope, e, j)
    ensures Available(b, WithEntry(a, e), line) == Available(b, a, line)
  {
    hide Spends, InBudgetMonth, Charges, Available;
    var x, s := BudgetOf(b, line), b.lines[line].scope;
    EntryAvailable(b, a, line, e);
    if InBudgetMonth(e, x.fiscalYear * 12 + s.period - 1) {
      forall j | j in e.lines
        ensures ChargeOn(s, x.entity)(j) == 0
      {
        SpendsIsCharge(x, s, e, j);
      }
      SumZero(e.lines, ChargeOn(s, x.entity));
    }
  }

  /** A further line of a new entry moves what is available by its debit less its credit if it spends, and not at all
      otherwise. */
  lemma LineSpends(b: Budgets, a: Actuals, line: BudgetLineId, e: Entry, j: Line)
    requires LineExists(b, line)
    ensures
      var x, s := BudgetOf(b, line), b.lines[line].scope;
      Available(b, WithEntry(a, e.(lines := e.lines + [j])), line)
      == Available(b, WithEntry(a, e), line)
         + if !Spends(x, s, e, j) then 0
           else if s.account in a.debitNormal then j.credit - j.debit else j.debit - j.credit
  {
    hide Spends, InBudgetMonth, Charges, Available, Sum;
    var x, s := BudgetOf(b, line), b.lines[line].scope;
    var longer := e.(lines := e.lines + [j]);
    EntryAvailable(b, a, line, e);
    EntryAvailable(b, a, line, longer);
    SpendsIsCharge(x, s, e, j);
    SumAppend(e.lines, j, ChargeOn(s, x.entity));
    SameMonth(e, longer, x.fiscalYear * 12 + s.period - 1);
  }

  lemma SameMonth(e: Entry, f: Entry, month: int)
    requires e.status == f.status && e.entryDate == f.entryDate
    ensures InBudgetMonth(e, month) <==> InBudgetMonth(f, month)
  {
  }

  /** An entry with one line that spends: a debit lowers what is available on an account that debits make larger by as
      much, and a credit raises it; on any other account the other way round. */
  lemma {:induction false} EntrySpends(b: Budgets, a: Actuals, line: BudgetLineId, e: Entry, k: nat)
    requires LineExists(b, line) && k < |e.lines|
    requires Spends(BudgetOf(b, line), b.lines[line].scope, e, e.lines[k])
    requires forall i :: 0 <= i < |e.lines| && i != k ==>
               !Spends(BudgetOf(b, line), b.lines[line].scope, e, e.lines[i])
    ensures Available(b, WithEntry(a, e), line)
            == Available(b, a, line)
               + if b.lines[line].scope.account in a.debitNormal then e.lines[k].credit - e.lines[k].debit
                 else e.lines[k].debit - e.lines[k].credit
    decreases |e.lines|
  {
    hide Available, MonthStart, Time;
    var n := |e.lines| - 1;
    var shorter, last := e.(lines := e.lines[..n]), e.lines[n];
    assert e == shorter.(lines := shorter.lines + [last]);
    LineSpends(b, a, line, shorter, last);
    if k == n {
      EntryElsewhere(b, a, line, shorter);
    } else {
      EntrySpends(b, a, line, shorter, k);
    }
  }

  // ---- Creation and workflow ----

  /** createBudget: for an active entity, a code that is new to it, and accounts that it has activated; each line starts
      with the same original and revised amount. */
  lemma CreateRows(b: Budgets, activeEntities: set<EntityId>, activated: set<(EntityId, AccountId)>, input: BudgetInput,
                   user: UserId)
    ensures
      var o := BudgetCreated(b, activeEntities, activated, input, user);
      var known := exists i :: 0 <= i < |b.budgets| && b.budgets[i].entity == input.entity
                               && b.budgets[i].code == input.code;
      var usable := forall k :: 0 <= k < |input.lines| ==> (input.entity, input.lines[k].scope.account) in activated;
      && o.result == (if input.entity !in activeEntities then Err(NotFound) else if known then Err(Conflict)
                      else if !usable then Err(BadRequest) else Ok(|b.budgets|))
      && (o.result.Err? ==> o.state == b)
      && (o.result.Ok? ==>
            && o.state.commitments == b.commitments && o.state.records == b.records
            && var made := Budget(input.entity, input.code, input.fiscalYear, BudgetStatus.DRAFT, user);
            && o.state.budgets == b.budgets + [made]
            && var n := |b.lines|;
            && |o.state.lines| == n + |input.lines| && o.state.lines[..n] == b.lines
            && forall k :: 0 <= k < |input.lines| ==>
                 var cents := Store(input.lines[k].amount);
                 o.state.lines[n + k] == BudgetLine(|b.budgets|, input.lines[k].scope, cents, cents))
  {
    hide Store;
  }

  /** Only budget id changes, and of it only the status. */
  predicate StatusSet(b: Budgets, after: Budgets, id: BudgetId, status: BudgetStatus)
    requires id < |b.budgets|
  {
    && after.lines == b.lines && after.commitments == b.commitments && after.records == b.records
    && |after.budgets| == |b.budgets| && after.budgets[id] == b.budgets[id].(status := status)
    && forall i :: 0 <= i < |b.budgets| && i != id ==> after.budgets[i] == b.budgets[i]
  }

  /** A call that takes budgets of these stages to another, and conflicts with the others. */
  predicate Moves(b: Budgets, id: BudgetId, o: BudgetOutcome, from: set<BudgetStatus>, to: BudgetStatus) {
    if id >= |b.budgets| then o == BudgetOutcome(b, Err(NotFound))
    else if b.budgets[id].status !in from then o == BudgetOutcome(b, Err(Conflict))
    else o.result == Ok(id) && StatusSet(b, o.state, id, to)
  }

  /** The workflow: approve also refuses whoever made the budget. */
  lemma WorkflowRows(b: Budgets, id: BudgetId, user: UserId, from: set<BudgetStatus>, to: BudgetStatus)
    ensures Moves(b, id, BudgetMoved(b, id, from, to), from, to)
    ensures
      var own := id < |b.budgets| && b.budgets[id].status == SUBMITTED && b.budgets[id].createdBy == user;
      if own then BudgetApproved(b, id, user) == BudgetOutcome(b, Err(BadRequest))
      else Moves(b, id, BudgetApproved(b, id, user), {SUBMITTED}, BudgetStatus.APPROVED)
  {
  }

  // ---- Revisions and transfers ----

  /** The budget is there and APPROVED. */
  function Unapproved(b: Budgets, id: BudgetId): Option<Error> {
    if id >= |b.budgets| then Some(NotFound)
    else if b.budgets[id].status != BudgetStatus.APPROVED then Some(Conflict) else None
  }

  /** number follows the revisions of the budget so far, which start at 1. */
  predicate NumberedNext(records: seq<Record>, id: BudgetId, number: nat) {
    && (forall i :: 0 <= i < |records| && records[i].Revision? && records[i].budget == id ==>
          records[i].number < number)
    && (number == 1 || exists i :: 0 <= i < |records| && records[i].Revision? && records[i].budget == id
                                   && records[i].number == number - 1)
  }

  lemma {:induction false} LastRevisionIsNext(records: seq<Record>, id: BudgetId)
    ensures NumberedNext(records, id, LastRevision(records, id) + 1)
  {
    if records != [] {
      var n := |records| - 1;
      var before, last := LastRevision(records[..n], id), LastRevision(records, id);
      LastRevisionIsNext(records[..n], id);
      assert forall i :: 0 <= i < n ==> records[..n][i] == records[i];
      if last != before {
        assert records[n].number == last;
      } else if before > 0 {
        var i :| 0 <= i < n && records[..n][i].Revision? && records[..n][i].budget == id
                 && records[..n][i].number == before;
        assert records[i].number == last;
      }
    }
  }

  lemma {:induction false} RevisedLine(lines: seq<BudgetLine>, changes: seq<RevisionLine>, line: BudgetLineId)
    requires line < |lines|
    requires forall j, k :: 0 <= j < k < |changes| ==> changes[j].line != changes[k].line
    ensures
      var after := WithRevisions(lines, changes)[line];
      && (forall k :: 0 <= k < |changes| && changes[k].line == line ==>
            after == lines[line].(revised := Store(changes[k].newAmount)))
      && ((forall k :: 0 <= k < |changes| ==> changes[k].line != line) ==> after == lines[line])
    decreases |changes|
  {
    hide Store;
    if changes != [] {
      var n := |changes| - 1;
      RevisedLine(lines, changes[..n], line);
      assert forall k :: 0 <= k < n ==> changes[..n][k] == changes[k];
    }
  }

  /** revise: of an approved budget, and of lines of it, each once; the record keeps what each line had and gets. */
  lemma RevisionRows(b: Budgets, id: BudgetId, changes: seq<RevisionLine>)
    ensures
      var o, refusal := Revised(b, id, changes), Unapproved(b, id);
      var own := (forall k :: 0 <= k < |changes| ==>
                    changes[k].line < |b.lines| && b.lines[changes[k].line].budget == id)
                 && (forall j, k :: 0 <= j < k < |changes| ==> changes[j].line != changes[k].line);
      && (refusal.Some? ==> o == BudgetOutcome(b, Err(refusal.value)))
      && (refusal.None? && !own ==> o == BudgetOutcome(b, Err(BadRequest)))
      && (refusal.None? && own ==>
            && o.result.Ok? && NumberedNext(b.records, id, o.result.value)
            && o.state.budgets == b.budgets && o.state.commitments == b.commitments
            && RevisedEach(b.lines, changes, o.state.lines)
            && var n := |b.records|;
            && |o.state.records| == n + 1 && o.state.records[..n] == b.records
            && var made := o.state.records[n];
            && made.Revision? && made.budget == id && made.number == o.result.value && |made.changes| == |changes|
            && forall k :: 0 <= k < |changes| ==>
                 var c := changes[k];
                 made.changes[k] == Change(c.line, b.lines[c.line].revised, Store(c.newAmount)))
  {
    hide Fetched, WithRevisions, RevisedEach, LastRevision, NumberedNext, Store;
    FetchedCount(b, id, changes);
    LastRevisionIsNext(b.records, id);
    if NamesEachOnce(b, id, changes) {
      AllRevised(b.lines, changes);
    }
  }

  /** The named lines have their new amounts, and no other line has changed. */
  predicate RevisedEach(lines: seq<BudgetLine>, changes: seq<RevisionLine>, after: seq<BudgetLine>) {
    && |after| == |lines|
    && (forall k :: 0 <= k < |changes| && changes[k].line < |lines| ==>
          after[changes[k].line] == lines[changes[k].line].(revised := Store(changes[k].newAmount)))
    && (forall i :: 0 <= i < |lines| && (forall k :: 0 <= k < |changes| ==> changes[k].line != i) ==>
          after[i] == lines[i])
  }

  lemma AllRevised(lines: seq<BudgetLine>, changes: seq<RevisionLine>)
    requires forall j, k :: 0 <= j < k < |changes| ==> changes[j].line != changes[k].line
    ensures RevisedEach(lines, changes, WithRevisions(lines, changes))
  {
    hide WithRevisions, Store;
    var after := WithRevisions(lines, changes);
    forall i | 0 <= i < |lines|
      ensures (forall k :: 0 <= k < |changes| ==> changes[k].line != i) ==> after[i] == lines[i]
    {
      RevisedLine(lines, changes, i);
    }
    forall k | 0 <= k < |changes| && changes[k].line < |lines|
      ensures after[changes[k].line] == lines[changes[k].line].(revised := Store(changes[k].newAmount))
    {
      RevisedLine(lines, changes, changes[k].line);
    }
  }

  /** transfer: between two lines of an approved budget, up to what is available on the first; either amount and the
      record round by themselves. */
  lemma TransferRows(b: Budgets, a: Actuals, id: BudgetId, from: BudgetLineId, to: BudgetLineId, amount: real)
    ensures
      var o, refusal := Transferred(b, a, id, from, to, amount), Unapproved(b, id);
      var own := from != to && from < |b.lines| && b.lines[from].budget == id && to < |b.lines|
                 && b.lines[to].budget == id;
      && (refusal.Some? ==> o == BudgetOutcome(b, Err(refusal.value)))
      && (refusal.None? && (!own || Available(b, a, from) as real < amount) ==> o == BudgetOutcome(b, Err(BadRequest)))
      && (refusal.None? && own && Available(b, a, from) as real >= amount ==>
            && o.result == Ok(id) && o.state.budgets == b.budgets && o.state.commitments == b.commitments
            && o.state.records == b.records + [Transfer(id, from, to, Store(amount))]
            && |o.state.lines| == |b.lines|
            && o.state.lines[from] == b.lines[from].(revised := Store(b.lines[from].revised as real - amount))
            && o.state.lines[to] == b.lines[to].(revised := Store(b.lines[to].revised as real + amount))
            && forall i :: 0 <= i < |b.lines| && i != from && i != to ==> o.state.lines[i] == b.lines[i])
  {
    hide Available, Store;
  }

  // ---- Commitments ----

  /** createCommitment: on a line of an approved budget, up to what is available. */
  lemma CommitmentRows(b: Budgets, a: Actuals, line: BudgetLineId, amount: real)
    ensures
      var o := CommitmentCreated(b, a, line, amount);
      var there := line < |b.lines| && b.lines[line].budget < |b.budgets|;
      && o.result == (if !there then Err(NotFound)
                      else if b.budgets[b.lines[line].budget].status != BudgetStatus.APPROVED then Err(Conflict)
                      else if Available(b, a, line) as real < amount then Err(BadRequest) else Ok(|b.commitments|))
      && o.state == if o.result.Err? then b
                    else b.(commitments := b.commitments + [Commitment(line, Store(amount), 0, CommitmentStatus.OPEN)])
  {
    hide Available, Store;
  }

  /** Only commitment id changes. */
  predicate Restated(b: Budgets, after: Budgets, id: CommitmentId, c: Commitment) {
    && id < |b.commitments| && after.budgets == b.budgets && after.lines == b.lines && after.records == b.records
    && |after.commitments| == |b.commitments| && after.commitments[id] == c
    && forall i :: 0 <= i < |b.commitments| && i != id ==> after.commitments[i] == b.commitments[i]
  }

  /** releaseCommitment and cancelCommitment take what is still open; a release may exceed the amount by half a cent,
      and from half a cent below it the commitment counts as released. */
  lemma ReleaseRows(b: Budgets, id: CommitmentId, amount: real)
    ensures id >= |b.commitments| ==>
              CommitmentReleased(b, id, amount) == CommitmentCancelled(b, id) == BudgetOutcome(b, Err(NotFound))
    ensures id < |b.commitments| ==>
              var c := b.commitments[id];
              var o, cancelled := CommitmentReleased(b, id, amount), CommitmentCancelled(b, id);
              var released := c.released as real + amount;
              var left := released < c.amount as real - 0.5;
              if c.status in {CommitmentStatus.OPEN, PARTIALLY_RELEASED} then
                && cancelled.result == Ok(id)
                && Restated(b, cancelled.state, id, c.(status := CommitmentStatus.CANCELLED))
                && (released > c.amount as real + 0.5 ==> o == BudgetOutcome(b, Err(BadRequest)))
                && (released <= c.amount as real + 0.5 ==>
                      && o.result == Ok(id)
                      && Restated(b, o.state, id,
                                  c.(released := Store(released),
                                     status := if left then PARTIALLY_RELEASED else RELEASED)))
              else o == cancelled == BudgetOutcome(b, Err(Conflict))
  {
    hide Store;
  }
}

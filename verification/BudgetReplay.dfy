/** The revision and transfer records of a budget, replayed from the original amounts, give its revised amounts. */
module BudgetReplay {
  import opened Money
  import opened Sums
  import opened Budgeting
  import opened BudgetRuns

  // ---- Replay ----

  /** The amount a revision's changes give a line; the last change of the line decides. */
  function Rebased(changes: seq<Change>, line: BudgetLineId, before: int): int {
    if changes == [] then before
    else
      var last := changes[|changes| - 1];
      if last.line == line then last.next else Rebased(changes[..|changes| - 1], line, before)
  }

  function Replayed(r: Record, line: BudgetLineId, before: int): int {
    match r
    case Revision(_, _, changes) => Rebased(changes, line, before)
    case Transfer(_, from, to, amount) =>
      if line == from then before - amount else if line == to then before + amount else before
  }

  function Replay(records: seq<Record>, line: BudgetLineId, original: int): int {
    if records == [] then original
    else Replayed(records[|records| - 1], line, Replay(records[..|records| - 1], line, original))
  }

  lemma ReplayAppend(records: seq<Record>, r: Record, line: BudgetLineId, original: int)
    ensures Replay(records + [r], line, original) == Replayed(r, line, Replay(records, line, original))
  {
    assert (records + [r])[..|records|] == records;
  }

  /** Each line's revised amount is the replay of all records from its original amount. */
  predicate AmountsReplay(b: Budgets) {
    forall line :: 0 <= line < |b.lines| ==> b.lines[line].revised == Replay(b.records, line, b.lines[line].original)
  }

  predicate TouchesOnly(r: Record, n: nat) {
    match r
    case Revision(_, _, changes) => forall c :: c in changes ==> c.line < n
    case Transfer(_, from, to, _) => from < n && to < n && from != to
  }

  /** Record i recorded, for each line it changes, the replayed amount just before it. */
  predicate PreviousReplays(b: Budgets, i: nat)
    requires i < |b.records|
  {
    && TouchesOnly(b.records[i], |b.lines|)
    && (b.records[i].Revision? ==>
          forall c :: c in b.records[i].changes && c.line < |b.lines| ==>
            c.previous == Replay(b.records[..i], c.line, b.lines[c.line].original))
  }

  function IsRevision(id: BudgetId, r: Record): int {
    if r.Revision? && r.budget == id then 1 else 0
  }

  function RevisionsOf(id: BudgetId): Record -> int {
    (r: Record) => IsRevision(id, r)
  }

  /** A budget's revisions are numbered 1, 2, 3 and so on. */
  predicate NumberedInTurn(records: seq<Record>, i: nat)
    requires i < |records|
  {
    records[i].Revision? ==> records[i].number == Sum(records[..i], RevisionsOf(records[i].budget)) + 1
  }

  predicate Replays(b: Budgets) {
    && AmountsReplay(b)
    && (forall i :: 0 <= i < |b.records| ==> PreviousReplays(b, i))
    && (forall i :: 0 <= i < |b.records| ==> NumberedInTurn(b.records, i))
  }

  // ---- Revisions ----

  lemma {:induction false} RevisionRebases(lines: seq<BudgetLine>, all: seq<BudgetLine>, changes: seq<RevisionLine>,
                                           line: BudgetLineId)
    requires line < |lines|
    ensures WithRevisions(lines, changes)[line].revised == Rebased(ChangesOf(all, changes), line, lines[line].revised)
    decreases |changes|
  {
    if changes != [] {
      var n := |changes| - 1;
      RevisionRebases(lines, all, changes[..n], line);
      assert ChangesOf(all, changes)[..n] == ChangesOf(all, changes[..n]);
    }
  }

  lemma {:induction false} LastIsCount(records: seq<Record>, id: BudgetId)
    requires forall i :: 0 <= i < |records| ==> NumberedInTurn(records, i)
    ensures LastRevision(records, id) == Sum(records, RevisionsOf(id))
  {
    if records != [] {
      var n := |records| - 1;
      forall i | 0 <= i < n
        ensures NumberedInTurn(records[..n], i)
      {
        assert NumberedInTurn(records, i);
        assert records[..n][..i] == records[..i];
      }
      LastIsCount(records[..n], id);
      assert NumberedInTurn(records, n);
      assert records == records[..n] + [records[n]];
      SumAppend(records[..n], records[n], RevisionsOf(id));
    }
  }

  /** A record that is appended leaves the earlier ones as they were. */
  lemma RecordsKept(b: Budgets, after: Budgets, r: Record)
    requires Replays(b) && Grows(b, after) && after.records == b.records + [r]
    ensures forall i :: 0 <= i < |b.records| ==> PreviousReplays(after, i) && NumberedInTurn(after.records, i)
  {
    forall i | 0 <= i < |b.records|
      ensures PreviousReplays(after, i) && NumberedInTurn(after.records, i)
    {
      assert PreviousReplays(b, i) && NumberedInTurn(b.records, i);
      assert after.records[..i] == b.records[..i] && after.records[i] == b.records[i];
      if b.records[i].Revision? {
        forall c | c in b.records[i].changes
          ensures c.line < |b.lines| && c.previous == Replay(after.records[..i], c.line, after.lines[c.line].original)
        {
          assert KeepsLine(b.lines[c.line], after.lines[c.line]);
        }
      }
    }
  }

  predicate NamesEachOnce(b: Budgets, id: BudgetId, changes: seq<RevisionLine>) {
    && (forall k :: 0 <= k < |changes| ==> Belongs(b, id, changes[k].line))
    && (forall j, k :: 0 <= j < k < |changes| ==> changes[j].line != changes[k].line)
  }

  lemma FetchedAppend(b: Budgets, id: BudgetId, changes: seq<RevisionLine>, last: RevisionLine)
    ensures Fetched(b, id, changes + [last])
            == Fetched(b, id, changes) + if Belongs(b, id, last.line) then {last.line} else {}
  {
    var all := changes + [last];
    assert all[|changes|] == last;
    forall x | x in Fetched(b, id, changes)
      ensures x in Fetched(b, id, all)
    {
      var i :| 0 <= i < |changes| && changes[i].line == x;
      assert all[i] == changes[i];
    }
  }

  lemma OnceAppend(b: Budgets, id: BudgetId, changes: seq<RevisionLine>, last: RevisionLine)
    ensures NamesEachOnce(b, id, changes + [last])
            <==> NamesEachOnce(b, id, changes) && Belongs(b, id, last.line) && last.line !in Fetched(b, id, changes)
  {
    var all := changes + [last];
    assert all[|changes|] == last;
    assert forall k :: 0 <= k < |changes| ==> all[k] == changes[k];
  }

  /** The count that revise compares is the number of changes exactly when they name lines of the budget, each once. */
  lemma {:induction false} FetchedCount(b: Budgets, id: BudgetId, changes: seq<RevisionLine>)
    ensures |Fetched(b, id, changes)| <= |changes|
    ensures |Fetched(b, id, changes)| == |changes| <==> NamesEachOnce(b, id, changes)
  {
    if changes == [] {
      assert Fetched(b, id, changes) == {};
    } else {
      var n := |changes| - 1;
      assert changes == changes[..n] + [changes[n]];
      hide Fetched, NamesEachOnce, Belongs;
      FetchedCount(b, id, changes[..n]);
      FetchedAppend(b, id, changes[..n], changes[n]);
      OnceAppend(b, id, changes[..n], changes[n]);
    }
  }

  lemma RevisedAmounts(b: Budgets, changes: seq<RevisionLine>, r: Record, after: Budgets)
    requires AmountsReplay(b) && r.Revision? && r.changes == ChangesOf(b.lines, changes)
    requires after.lines == WithRevisions(b.lines, changes) && after.records == b.records + [r]
    ensures AmountsReplay(after)
  {
    RevisionsKeepLines(b.lines, changes);
    forall line | 0 <= line < |after.lines|
      ensures after.lines[line].revised == Replay(after.records, line, after.lines[line].original)
    {
      assert KeepsLine(b.lines[line], after.lines[line]);
      RevisionRebases(b.lines, b.lines, changes, line);
      ReplayAppend(b.records, r, line, b.lines[line].original);
    }
  }

  lemma RevisedPrevious(b: Budgets, id: BudgetId, changes: seq<RevisionLine>, r: Record, after: Budgets)
    requires Replays(b) && NamesEachOnce(b, id, changes)
    requires r == Revision(id, LastRevision(b.records, id) + 1, ChangesOf(b.lines, changes))
    requires Grows(b, after) && |after.lines| == |b.lines| && after.records == b.records + [r]
    ensures PreviousReplays(after, |b.records|) && NumberedInTurn(after.records, |b.records|)
  {
    assert after.records[..|b.records|] == b.records && after.records[|b.records|] == r;
    LastIsCount(b.records, id);
    forall c | c in r.changes
      ensures c.line < |b.lines| && c.previous == Replay(b.records, c.line, after.lines[c.line].original)
    {
      var k :| 0 <= k < |r.changes| && r.changes[k] == c;
      assert Belongs(b, id, changes[k].line);
      assert KeepsLine(b.lines[c.line], after.lines[c.line]);
    }
  }

  lemma RevisedReplays(b: Budgets, id: BudgetId, changes: seq<RevisionLine>)
    requires Replays(b) && Revised(b, id, changes).result.Ok?
    ensures Replays(Revised(b, id, changes).state)
  {
    var after := Revised(b, id, changes).state;
    var r := after.records[|b.records|];
    FetchedCount(b, id, changes);
    StepGrows(b, DoRevise(id, changes));
    assert after.records == b.records + [r];
    hide Fetched, NamesEachOnce, AmountsReplay, PreviousReplays, NumberedInTurn, ChangesOf, WithRevisions, LastRevision,
         Grows;
    RecordsKept(b, after, r);
    RevisedAmounts(b, changes, r, after);
    RevisedPrevious(b, id, changes, r, after);
  }

  // ---- Transfers ----

  /** After a transfer the records still replay exactly when its two roundings agree with that of its record. */
  lemma TransferReplays(b: Budgets, a: Actuals, id: BudgetId, from: BudgetLineId, to: BudgetLineId, amount: real)
    requires Replays(b) && amount > 0.0
    ensures Transferred(b, a, id, from, to, amount).result.Ok? ==>
              (Replays(Transferred(b, a, id, from, to, amount).state)
               <==> RoundsAlike(b.lines[from].revised, b.lines[to].revised, amount))
  {
    if Transferred(b, a, id, from, to, amount).result.Ok? {
      var after := Transferred(b, a, id, from, to, amount).state;
      var r := Transfer(id, from, to, Store(amount));
      hide Available, Store, RoundsAlike, Replay;
      assert after.records == b.records + [r];
      assert after.records[..|b.records|] == b.records;
      RecordsKept(b, after, r);
      TransferRounds(b.lines[from].revised, b.lines[to].revised, amount);
      forall line | 0 <= line < |after.lines|
        ensures Replay(after.records, line, after.lines[line].original) == Replayed(r, line, b.lines[line].revised)
      {
        ReplayAppend(b.records, r, line, b.lines[line].original);
      }
      assert PreviousReplays(after, |b.records|) && NumberedInTurn(after.records, |b.records|);
      assert after.lines[from].revised == Replayed(r, from, b.lines[from].revised)
             && after.lines[to].revised == Replayed(r, to, b.lines[to].revised)
             <==> RoundsAlike(b.lines[from].revised, b.lines[to].revised, amount);
    }
  }

  // ---- Other steps ----

  lemma {:induction false} UntouchedReplay(records: seq<Record>, n: nat, line: BudgetLineId, original: int)
    requires forall i :: 0 <= i < |records| ==> TouchesOnly(records[i], n)
    requires line >= n
    ensures Replay(records, line, original) == original
  {
    if records != [] {
      var last := |records| - 1;
      UntouchedReplay(records[..last], n, line, original);
      assert TouchesOnly(records[last], n);
      if records[last].Revision? {
        UntouchedRebase(records[last].changes, n, line, original);
      }
    }
  }

  lemma {:induction false} UntouchedRebase(changes: seq<Change>, n: nat, line: BudgetLineId, before: int)
    requires forall c :: c in changes ==> c.line < n
    requires line >= n
    ensures Rebased(changes, line, before) == before
  {
    if changes != [] {
      UntouchedRebase(changes[..|changes| - 1], n, line, before);
    }
  }

  lemma SameLinesReplay(b: Budgets, after: Budgets)
    requires Replays(b) && after.lines == b.lines && after.records == b.records
    ensures Replays(after)
  {
    forall i | 0 <= i < |b.records|
      ensures PreviousReplays(after, i)
    {
      assert PreviousReplays(b, i);
    }
  }

  lemma CreatedReplays(b: Budgets, s: BudgetStep)
    requires Replays(b) && s.DoCreate?
    ensures Replays(ApplyBudget(b, s))
  {
    var after := ApplyBudget(b, s);
    hide HasBudget, LinesActivated, Store, Replay;
    forall i | 0 <= i < |b.records|
      ensures TouchesOnly(b.records[i], |b.lines|) && PreviousReplays(after, i)
    {
      assert PreviousReplays(b, i);
    }
    forall line | 0 <= line < |after.lines|
      ensures after.lines[line].revised == Replay(after.records, line, after.lines[line].original)
    {
      if line >= |b.lines| {
        UntouchedReplay(b.records, |b.lines|, line, after.lines[line].original);
      }
    }
  }

  lemma StepReplays(b: Budgets, s: BudgetStep)
    requires Replays(b) && Positive(s) && TransfersRound(b, [s], RoundsAlike)
    ensures Replays(ApplyBudget(b, s))
  {
    hide Replays, Available, Store, RoundsAlike, Fetched;
    match s
    case DoCreate(_, _, _, _) => CreatedReplays(b, s);
    case DoRevise(id, changes) =>
      if Revised(b, id, changes).result.Ok? {
        RevisedReplays(b, id, changes);
      }
    case DoTransfer(a, id, from, to, amount) =>
      if Transferred(b, a, id, from, to, amount).result.Ok? {
        TransferReplays(b, a, id, from, to, amount);
      }
    case _ => SameLinesReplay(b, ApplyBudget(b, s));
  }

  /** Along every run whose transfers round alike, the records replay: amounts, previous amounts and revision numbers.
      */
  lemma {:induction false} RunReplays(b: Budgets, steps: seq<BudgetStep>)
    requires Replays(b) && TransfersRound(b, steps, RoundsAlike)
    requires forall s :: s in steps ==> Positive(s)
    ensures Replays(RunBudget(b, steps))
    decreases |steps|
  {
    if steps != [] {
      assert steps[0] in steps;
      TransfersRoundFirst(b, steps, RoundsAlike);
      hide Replays, ApplyBudget, Transferred;
      StepReplays(b, steps[0]);
      RunReplays(ApplyBudget(b, steps[0]), steps[1..]);
    }
  }

  lemma {:induction false} WholeCentsRoundAlike(b: Budgets, steps: seq<BudgetStep>)
    requires forall s :: s in steps && s.DoTransfer? ==> WholeCents(s.amount)
    ensures TransfersRound(b, steps, RoundsAlike) && TransfersRound(b, steps, RoundsApart)
    decreases |steps|
  {
    if steps != [] {
      hide ApplyBudget, Transferred;
      assert steps[0] in steps;
      WholeCentsRoundAlike(ApplyBudget(b, steps[0]), steps[1..]);
    }
  }

  /** With transfers in whole cents, every reachable state's amounts are the replay of its records from the original
      amounts. */
  lemma EveryRunReplays(steps: seq<BudgetStep>)
    requires forall s :: s in steps ==> Positive(s)
    requires forall s :: s in steps && s.DoTransfer? ==> WholeCents(s.amount)
    ensures Replays(RunBudget(NO_BUDGETS, steps))
  {
    WholeCentsRoundAlike(NO_BUDGETS, steps);
    assert Replays(NO_BUDGETS);
    hide Replays, TransfersRound, RunBudget;
    RunReplays(NO_BUDGETS, steps);
  }
}

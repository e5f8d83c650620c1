/** Budgets: their approval workflow, revisions, transfers and commitments, and what is available on a line. */
module Budgeting {
  import opened Money
  import opened Sums
  import opened Calendar
  import opened Ledger

  type BudgetId = nat
  type BudgetLineId = nat
  type CommitmentId = nat

  datatype BudgetStatus = DRAFT | SUBMITTED | APPROVED | REJECTED | CLOSED

  datatype CommitmentStatus = OPEN | PARTIALLY_RELEASED | RELEASED | CANCELLED

  datatype Budget = Budget(entity: EntityId, code: nat, fiscalYear: int, status: BudgetStatus, createdBy: UserId)

  /** What a line budgets for; period is a month, 1 to 12. */
  datatype Scope = Scope(
    account: AccountId, project: Option<nat>, phase: Option<nat>, department: Option<nat>, costCenter: Option<nat>,
    fundingSource: Option<nat>, period: int)

  datatype BudgetLine = BudgetLine(budget: BudgetId, scope: Scope, original: int, revised: int)

  datatype Commitment = Commitment(line: BudgetLineId, amount: int, released: int, status: CommitmentStatus)

  datatype Change = Change(line: BudgetLineId, previous: int, next: int)

  /** Revision and transfer records, in the order they were created. */
  datatype Record =
    | Revision(budget: BudgetId, number: nat, changes: seq<Change>)
    | Transfer(budget: BudgetId, from: BudgetLineId, to: BudgetLineId, amount: int)

  datatype Budgets = Budgets(
    budgets: seq<Budget>, lines: seq<BudgetLine>, commitments: seq<Commitment>, records: seq<Record>)

  datatype BudgetOutcome = BudgetOutcome(state: Budgets, result: Result<nat>)

  /** The journal that actuals are read from, and the asset and expense accounts. */
  datatype Actuals = Actuals(ledger: Ledger, debitNormal: set<AccountId>)

  // ---- Creation and workflow ----

  datatype BudgetLineInput = BudgetLineInput(scope: Scope, amount: real)

  datatype BudgetInput = BudgetInput(entity: EntityId, code: nat, fiscalYear: int, lines: seq<BudgetLineInput>)

  function StoreBudgetLine(id: BudgetId, i: BudgetLineInput): BudgetLine {
    BudgetLine(id, i.scope, Store(i.amount), Store(i.amount))
  }

  predicate HasBudget(budgets: seq<Budget>, entity: EntityId, code: nat) {
    exists i :: 0 <= i < |budgets| && budgets[i].entity == entity && budgets[i].code == code
  }

  predicate LinesActivated(activated: set<(EntityId, AccountId)>, input: BudgetInput) {
    forall i :: 0 <= i < |input.lines| ==> (input.entity, input.lines[i].scope.account) in activated
  }

  function BudgetCreated(b: Budgets, activeEntities: set<EntityId>, activated: set<(EntityId, AccountId)>,
                         input: BudgetInput, user: UserId): BudgetOutcome {
    if input.entity !in activeEntities then BudgetOutcome(b, Err(NotFound))
    else if HasBudget(b.budgets, input.entity, input.code) then BudgetOutcome(b, Err(Conflict))
    else if !LinesActivated(activated, input) then BudgetOutcome(b, Err(BadRequest))
    else
      var id := |b.budgets|;
      var lines := seq(|input.lines|, i requires 0 <= i < |input.lines| => StoreBudgetLine(id, input.lines[i]));
      var budget := Budget(input.entity, input.code, input.fiscalYear, BudgetStatus.DRAFT, user);
      BudgetOutcome(b.(budgets := b.budgets + [budget], lines := b.lines + lines), Ok(id))
  }

  function BudgetMoved(b: Budgets, id: BudgetId, from: set<BudgetStatus>, to: BudgetStatus): BudgetOutcome {
    if id >= |b.budgets| then BudgetOutcome(b, Err(NotFound))
    else if b.budgets[id].status !in from then BudgetOutcome(b, Err(Conflict))
    else BudgetOutcome(b.(budgets := b.budgets[id := b.budgets[id].(status := to)]), Ok(id))
  }

  function BudgetApproved(b: Budgets, id: BudgetId, user: UserId): BudgetOutcome {
    if id < |b.budgets| && b.budgets[id].status == SUBMITTED && b.budgets[id].createdBy == user
    then BudgetOutcome(b, Err(BadRequest))
    else BudgetMoved(b, id, {SUBMITTED}, BudgetStatus.APPROVED)
  }

  // ---- Availability ----

  predicate Wants(dimension: Option<nat>, value: Option<nat>) {
    dimension.Some? ==> value == dimension
  }

  /** The journal line counts against the budget line. */
  predicate Charges(scope: Scope, entity: EntityId, j: Line) {
    && j.account == scope.account && j.entity == entity
    && Wants(scope.project, j.dims.project) && Wants(scope.phase, j.dims.phase)
    && Wants(scope.department, j.dims.department)
    && Wants(scope.costCenter, j.dims.costCenter) && Wants(scope.fundingSource, j.dims.fundingSource)
  }

  function ChargeOn(scope: Scope, entity: EntityId): Line -> int {
    (j: Line) => if Charges(scope, entity, j) then j.debit - j.credit else 0
  }

  /** Posted, and dated from the start of the month to the start of its last second. */
  predicate InBudgetMonth(e: Entry, month: int) {
    e.status == POSTED && MonthStart(month) <= Time(e.entryDate) <= EndOfMonth(month)
  }

  function EntryCharge(scope: Scope, entity: EntityId, month: int): Entry -> int {
    (e: Entry) => if InBudgetMonth(e, month) then Sum(e.lines, ChargeOn(scope, entity)) else 0
  }

  /** What the posted journal lines charge, on the side on which the account naturally stands. */
  function Actual(a: Actuals, entity: EntityId, fiscalYear: int, scope: Scope): int {
    var net := Sum(a.ledger.entries, EntryCharge(scope, entity, fiscalYear * 12 + scope.period - 1));
    if scope.account in a.debitNormal then net else -net
  }

  predicate StillOpen(c: Commitment) {
    c.status == CommitmentStatus.OPEN || c.status == PARTIALLY_RELEASED
  }

  function OpenAmountOn(line: BudgetLineId, c: Commitment): int {
    if c.line == line && StillOpen(c) then c.amount - c.released else 0
  }

  function OpenOn(line: BudgetLineId): Commitment -> int {
    (c: Commitment) => OpenAmountOn(line, c)
  }

  function Committed(b: Budgets, line: BudgetLineId): int {
    Sum(b.commitments, OpenOn(line))
  }

  predicate LineExists(b: Budgets, line: BudgetLineId) {
    line < |b.lines| && b.lines[line].budget < |b.budgets|
  }

  function Available(b: Budgets, a: Actuals, line: BudgetLineId): int
    requires LineExists(b, line)
  {
    var budget := b.budgets[b.lines[line].budget];
    b.lines[line].revised - Actual(a, budget.entity, budget.fiscalYear, b.lines[line].scope) - Committed(b, line)
  }

  // ---- Revisions ----

  datatype RevisionLine = RevisionLine(line: BudgetLineId, newAmount: real)

  /** findMany: each of the budget's lines among the ids, once. */
  function Fetched(b: Budgets, id: BudgetId, changes: seq<RevisionLine>): set<BudgetLineId> {
    set i | 0 <= i < |changes| && Belongs(b, id, changes[i].line) :: changes[i].line
  }

  /** The highest revision number of the budget so far, or 0. */
  function LastRevision(records: seq<Record>, id: BudgetId): nat {
    if records == [] then 0
    else
      var last, before := records[|records| - 1], LastRevision(records[..|records| - 1], id);
      if last.Revision? && last.budget == id && last.number > before then last.number else before
  }

  function WithRevisions(lines: seq<BudgetLine>, changes: seq<RevisionLine>): (revised: seq<BudgetLine>)
    ensures |revised| == |lines|
    decreases |changes|
  {
    if changes == [] then lines
    else
      var last, before := changes[|changes| - 1], WithRevisions(lines, changes[..|changes| - 1]);
      if last.line < |before| then before[last.line := before[last.line].(revised := Store(last.newAmount))] else before
  }

  function ChangeOfLine(lines: seq<BudgetLine>, c: RevisionLine): Change {
    Change(c.line, if c.line < |lines| then lines[c.line].revised else 0, Store(c.newAmount))
  }

  function ChangesOf(lines: seq<BudgetLine>, changes: seq<RevisionLine>): (recorded: seq<Change>)
    ensures |recorded| == |changes|
  {
    seq(|changes|, i requires 0 <= i < |changes| => ChangeOfLine(lines, changes[i]))
  }

  function Revised(b: Budgets, id: BudgetId, changes: seq<RevisionLine>): BudgetOutcome {
    if id >= |b.budgets| then BudgetOutcome(b, Err(NotFound))
    else if b.budgets[id].status != BudgetStatus.APPROVED then BudgetOutcome(b, Err(Conflict))
    else if |Fetched(b, id, changes)| != |changes| then BudgetOutcome(b, Err(BadRequest))
    else
      var number := LastRevision(b.records, id) + 1;
      BudgetOutcome(b.(lines := WithRevisions(b.lines, changes),
                       records := b.records + [Revision(id, number, ChangesOf(b.lines, changes))]), Ok(number))
  }

  // ---- Transfers ----

  predicate Belongs(b: Budgets, id: BudgetId, line: BudgetLineId) {
    line < |b.lines| && b.lines[line].budget == id
  }

  /** decrement and increment: the column rounds each result by itself. */
  function WithTransfer(lines: seq<BudgetLine>, from: BudgetLineId, to: BudgetLineId,
                        amount: real): (moved: seq<BudgetLine>)
    requires from < |lines| && to < |lines|
    ensures |moved| == |lines|
  {
    var taken := lines[from := lines[from].(revised := Store(lines[from].revised as real - amount))];
    taken[to := taken[to].(revised := Store(taken[to].revised as real + amount))]
  }

  function Transferred(b: Budgets, a: Actuals, id: BudgetId, from: BudgetLineId, to: BudgetLineId,
                       amount: real): BudgetOutcome {
    if id >= |b.budgets| then BudgetOutcome(b, Err(NotFound))
    else if b.budgets[id].status != BudgetStatus.APPROVED then BudgetOutcome(b, Err(Conflict))
    else if from == to then BudgetOutcome(b, Err(BadRequest))
    else if !Belongs(b, id, from) || !Belongs(b, id, to) then BudgetOutcome(b, Err(BadRequest))
    else if Available(b, a, from) as real < amount then BudgetOutcome(b, Err(BadRequest))
    else
      BudgetOutcome(b.(lines := WithTransfer(b.lines, from, to, amount),
                       records := b.records + [Transfer(id, from, to, Store(amount))]), Ok(id))
  }

  // ---- Commitments ----

  function CommitmentCreated(b: Budgets, a: Actuals, line: BudgetLineId, amount: real): BudgetOutcome {
    if !LineExists(b, line) then BudgetOutcome(b, Err(NotFound))
    else if b.budgets[b.lines[line].budget].status != BudgetStatus.APPROVED then BudgetOutcome(b, Err(Conflict))
    else if Available(b, a, line) as real < amount then BudgetOutcome(b, Err(BadRequest))
    else
      BudgetOutcome(b.(commitments := b.commitments + [Commitment(line, Store(amount), 0, CommitmentStatus.OPEN)]),
                    Ok(|b.commitments|))
  }

  function CommitmentReleased(b: Budgets, id: CommitmentId, amount: real): BudgetOutcome {
    if id >= |b.commitments| then BudgetOutcome(b, Err(NotFound))
    else if !StillOpen(b.commitments[id]) then BudgetOutcome(b, Err(Conflict))
    else
      var c := b.commitments[id];
      var newReleased := c.released as real + amount;
      if newReleased > c.amount as real + TOLERANCE then BudgetOutcome(b, Err(BadRequest))
      else
        var status := if newReleased >= c.amount as real - TOLERANCE then RELEASED else PARTIALLY_RELEASED;
        BudgetOutcome(b.(commitments := b.commitments[id := c.(released := Store(newReleased), status := status)]),
                      Ok(id))
  }

  function CommitmentCancelled(b: Budgets, id: CommitmentId): BudgetOutcome {
    if id >= |b.commitments| then BudgetOutcome(b, Err(NotFound))
    else if !StillOpen(b.commitments[id]) then BudgetOutcome(b, Err(Conflict))
    else
      BudgetOutcome(b.(commitments := b.commitments[id := b.commitments[id].(status := CommitmentStatus.CANCELLED)]),
                    Ok(id))
  }

  // ---- The service ----

  class BudgetingService {
    var budgets: seq<Budget>
    var lines: seq<BudgetLine>
    var commitments: seq<Commitment>
    var records: seq<Record>

    constructor ()
      ensures budgets == [] && lines == [] && commitments == [] && records == []
    {
      budgets, lines, commitments, records := [], [], [], [];
    }

    function State(): Budgets
      reads this
    {
      Budgets(budgets, lines, commitments, records)
    }

    method CreateBudget(activeEntities: set<EntityId>, activated: set<(EntityId, AccountId)>, input: BudgetInput,
                        user: UserId)
      returns (result: Result<nat>)
      modifies this
      ensures BudgetOutcome(State(), result) == BudgetCreated(old(State()), activeEntities, activated, input, user)
    {
      if input.entity !in activeEntities {
        return Err(NotFound);
      }
      if HasBudget(budgets, input.entity, input.code) {
        return Err(Conflict);
      }
      if !LinesActivated(activated, input) {
        return Err(BadRequest);
      }
      var id := |budgets|;
      budgets := budgets + [Budget(input.entity, input.code, input.fiscalYear, BudgetStatus.DRAFT, user)];
      lines := lines + seq(|input.lines|, i requires 0 <= i < |input.lines| => StoreBudgetLine(id, input.lines[i]));
      return Ok(id);
    }

    /** getBudgetOrThrow, assertStatus and the update that submit, reject and close share. */
    method Move(id: BudgetId, from: set<BudgetStatus>, to: BudgetStatus) returns (result: Result<nat>)
      modifies this`budgets
      ensures BudgetOutcome(State(), result) == BudgetMoved(old(State()), id, from, to)
    {
      if id >= |budgets| {
        return Err(NotFound);
      }
      if budgets[id].status !in from {
        return Err(Conflict);
      }
      budgets := budgets[id := budgets[id].(status := to)];
      return Ok(id);
    }

    method Submit(id: BudgetId) returns (result: Result<nat>)
      modifies this`budgets
      ensures BudgetOutcome(State(), result)
              == BudgetMoved(old(State()), id, {BudgetStatus.DRAFT, BudgetStatus.REJECTED}, SUBMITTED)
    {
      result := Move(id, {BudgetStatus.DRAFT, BudgetStatus.REJECTED}, SUBMITTED);
    }

    method Reject(id: BudgetId) returns (result: Result<nat>)
      modifies this`budgets
      ensures BudgetOutcome(State(), result) == BudgetMoved(old(State()), id, {SUBMITTED}, BudgetStatus.REJECTED)
    {
      result := Move(id, {SUBMITTED}, BudgetStatus.REJECTED);
    }

    method Close(id: BudgetId) returns (result: Result<nat>)
      modifies this`budgets
      ensures BudgetOutcome(State(), result) == BudgetMoved(old(State()), id, {BudgetStatus.APPROVED}, CLOSED)
    {
      result := Move(id, {BudgetStatus.APPROVED}, CLOSED);
    }

    method Approve(id: BudgetId, user: UserId) returns (result: Result<nat>)
      modifies this`budgets
      ensures BudgetOutcome(State(), result) == BudgetApproved(old(State()), id, user)
    {
      if id >= |budgets| {
        return Err(NotFound);
      }
      if budgets[id].status != SUBMITTED {
        return Err(Conflict);
      }
      if budgets[id].createdBy == user {
        return Err(BadRequest);
      }
      budgets := budgets[id := budgets[id].(status := BudgetStatus.APPROVED)];
      return Ok(id);
    }

    method Revise(id: BudgetId, changes: seq<RevisionLine>) returns (result: Result<nat>)
      modifies this`lines, this`records
      ensures BudgetOutcome(State(), result) == Revised(old(State()), id, changes)
    {
      if id >= |budgets| {
        return Err(NotFound);
      }
      if budgets[id].status != BudgetStatus.APPROVED {
        return Err(Conflict);
      }
      if |Fetched(State(), id, changes)| != |changes| {
        return Err(BadRequest);
      }
      hide Fetched, Store, ChangesOf, LastRevision;
      var number := LastRevision(records, id) + 1;
      records := records + [Revision(id, number, ChangesOf(lines, changes))];
      for i := 0 to |changes|
        invariant records == old(records) + [Revision(id, number, ChangesOf(old(lines), changes))]
        invariant lines == WithRevisions(old(lines), changes[..i])
      {
        var change := changes[i];
        assert changes[..i + 1] == changes[..i] + [change];
        if change.line < |lines| {
          lines := lines[change.line := lines[change.line].(revised := Store(change.newAmount))];
        }
      }
      assert changes[..|changes|] == changes;
      return Ok(number);
    }

    method GetAvailableForLine(a: Actuals, line: BudgetLineId) returns (available: Result<int>)
      ensures available == if LineExists(State(), line) then Ok(Available(State(), a, line)) else Err(NotFound)
    {
      if !LineExists(State(), line) {
        return Err(NotFound);
      }
      var budget := budgets[lines[line].budget];
      var actual := Actual(a, budget.entity, budget.fiscalYear, lines[line].scope);
      var committed := 0;
      for i := 0 to |commitments|
        invariant committed == Sum(commitments[..i], OpenOn(line))
      {
        var c := commitments[i];
        assert commitments[..i + 1] == commitments[..i] + [c];
        SumAppend(commitments[..i], c, OpenOn(line));
        if c.line == line && StillOpen(c) {
          committed := committed + (c.amount - c.released);
        }
      }
      assert commitments[..|commitments|] == commitments;
      return Ok(lines[line].revised - actual - committed);
    }

    method TransferAmount(a: Actuals, id: BudgetId, from: BudgetLineId, to: BudgetLineId, amount: real)
      returns (result: Result<nat>)
      modifies this`lines, this`records
      ensures BudgetOutcome(State(), result) == Transferred(old(State()), a, id, from, to, amount)
    {
      if id >= |budgets| {
        return Err(NotFound);
      }
      if budgets[id].status != BudgetStatus.APPROVED {
        return Err(Conflict);
      }
      if from == to {
        return Err(BadRequest);
      }
      if !Belongs(State(), id, from) || !Belongs(State(), id, to) {
        return Err(BadRequest);
      }
      var available := GetAvailableForLine(a, from);
      if available.value as real < amount {
        return Err(BadRequest);
      }
      records := records + [Transfer(id, from, to, Store(amount))];
      lines := lines[from := lines[from].(revised := Store(lines[from].revised as real - amount))];
      lines := lines[to := lines[to].(revised := Store(lines[to].revised as real + amount))];
      return Ok(id);
    }

    method CreateCommitment(a: Actuals, line: BudgetLineId, amount: real) returns (result: Result<nat>)
      modifies this`commitments
      ensures BudgetOutcome(State(), result) == CommitmentCreated(old(State()), a, line, amount)
    {
      if !LineExists(State(), line) {
        return Err(NotFound);
      }
      if budgets[lines[line].budget].status != BudgetStatus.APPROVED {
        return Err(Conflict);
      }
      var available := GetAvailableForLine(a, line);
      if available.value as real < amount {
        return Err(BadRequest);
      }
      commitments := commitments + [Commitment(line, Store(amount), 0, CommitmentStatus.OPEN)];
      return Ok(|commitments| - 1);
    }

    method ReleaseCommitment(id: CommitmentId, amount: real) returns (result: Result<nat>)
      modifies this`commitments
      ensures BudgetOutcome(State(), result) == CommitmentReleased(old(State()), id, amount)
    {
      if id >= |commitments| {
        return Err(NotFound);
      }
      var commitment := commitments[id];
      if !StillOpen(commitment) {
        return Err(Conflict);
      }
      var newReleased := commitment.released as real + amount;
      if newReleased > commitment.amount as real + TOLERANCE {
        return Err(BadRequest);
      }
      var fullyReleased := newReleased >= commitment.amount as real - TOLERANCE;
      var status := if fullyReleased then RELEASED else PARTIALLY_RELEASED;
      commitments := commitments[id := commitment.(released := Store(newReleased), status := status)];
      return Ok(id);
    }

    method CancelCommitment(id: CommitmentId) returns (result: Result<nat>)
      modifies this`commitments
      ensures BudgetOutcome(State(), result) == CommitmentCancelled(old(State()), id)
    {
      if id >= |commitments| {
        return Err(NotFound);
      }
      if !StillOpen(commitments[id]) {
        return Err(Conflict);
      }
      commitments := commitments[id := commitments[id].(status := CommitmentStatus.CANCELLED)];
      return Ok(id);
    }
  }
}

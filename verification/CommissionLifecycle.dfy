/** Commission calculations from computation to payment, over a posting engine. */
module CommissionLifecycle {
  import opened Money
  import opened Calendar
  import opened Ledger
  import opened CommissionPlan
  import opened Commission
  import opened PostingEngine
  import opened TaxCodes

  type AssignmentId = nat
  type CalculationId = nat

  datatype CalculationStatus = CALCULATED | PENDING | APPROVED | PAYABLE | PAID | REJECTED | REVERSED | CANCELLED

  /** A stored row. authority is the account of the withholding tax, when any was applied. */
  datatype Calculation = Calculation(
    entity: EntityId, assignment: AssignmentId, status: CalculationStatus, gross: int, wht: int, net: int,
    authority: Option<AccountId>,
    payableAccount: Option<AccountId>, payableJournal: Option<EntryId>, paymentJournal: Option<EntryId>,
    supersedes: Option<CalculationId>)

  datatype Desk = Desk(ledger: Ledger, rows: seq<Calculation>)

  datatype DeskOutcome = DeskOutcome(desk: Desk, result: Result<CalculationId>)

  predicate Active(r: Calculation) {
    r.status in {CALCULATED, PENDING, CalculationStatus.APPROVED, PAYABLE, PAID}
  }

  // ---- Computation ----

  datatype Assignment = Assignment(
    entity: EntityId, sale: Option<Allocation>, isActive: bool, agentActive: bool, saleCancelled: bool, taxExempt: bool)

  /** What a caller asks for, with the rows the service looks up for it: the assignment, the tax code if
      one is named, and the plan that resolves. */
  datatype Request = Request(
    assignmentId: AssignmentId, assignment: Option<Assignment>, taxCode: Option<Option<TaxCode>>, basis: BasisInput,
    plan: Option<Plan>)

  datatype Inputs = Inputs(entity: EntityId, sale: Allocation)

  function ResolveInputs(r: Request): Result<Inputs> {
    if r.assignment.None? then Err(NotFound)
    else
      var a := r.assignment.value;
      if a.sale.None? || !a.isActive || !a.agentActive || a.saleCancelled then Err(BadRequest)
      else if r.taxCode.Some? && a.taxExempt then Err(BadRequest)
      else if r.taxCode.Some? && r.taxCode.value.None? then Err(NotFound)
      else if r.taxCode.Some? && !(r.taxCode.value.value.isWithholding && r.taxCode.value.value.isActive) then
        Err(BadRequest)
      else Ok(Inputs(a.entity, a.sale.value))
  }

  function TaxOn(r: Request, gross: real): real {
    if r.taxCode.Some? && r.taxCode.value.Some? then PercentOf(gross, r.taxCode.value.value.rate) else 0.0
  }

  function AuthorityOf(r: Request): Option<AccountId> {
    if r.taxCode.Some? && r.taxCode.value.Some? then Some(r.taxCode.value.value.authority) else None
  }

  /** The three amounts round one by one into their columns. */
  function Row(r: Request, entity: EntityId, gross: real, supersedes: Option<CalculationId>): Calculation {
    var wht := TaxOn(r, gross);
    Calculation(entity, r.assignmentId, CALCULATED, Store(gross), Store(wht), Store(gross - wht), AuthorityOf(r),
                None, None, None, supersedes)
  }

  function Computed(r: Request, supersedes: Option<CalculationId>): Result<Calculation> {
    var inputs := ResolveInputs(r);
    if inputs.Err? then Err(inputs.error)
    else if r.plan.None? then Err(NotFound)
    else
      var basis := ComputeBasis(inputs.value.sale, r.basis);
      if basis.Err? then Err(basis.error)
      else Ok(Row(r, inputs.value.entity, Gross(r.plan.value, basis.value.proratedBasisAmount), supersedes))
  }

  // ---- Operations ----

  predicate HasActive(rows: seq<Calculation>, assignment: AssignmentId) {
    exists i :: 0 <= i < |rows| && rows[i].assignment == assignment && Active(rows[i])
  }

  function Calculated(d: Desk, r: Request): DeskOutcome {
    if HasActive(d.rows, r.assignmentId) then DeskOutcome(d, Err(Conflict))
    else
      match Computed(r, None)
      case Err(e) => DeskOutcome(d, Err(e))
      case Ok(row) => DeskOutcome(d.(rows := d.rows + [row]), Ok(|d.rows|))
  }

  /** A row in one of these stages moves to another status; nothing is posted. */
  function Moved(d: Desk, id: CalculationId, from: set<CalculationStatus>, to: CalculationStatus): DeskOutcome {
    if id >= |d.rows| then DeskOutcome(d, Err(NotFound))
    else if d.rows[id].status !in from then DeskOutcome(d, Err(Conflict))
    else DeskOutcome(d.(rows := d.rows[id := d.rows[id].(status := to)]), Ok(id))
  }

  function DebitLine(account: AccountId, amount: int): LineInput {
    LineInput(account, amount as real, 0.0, NO_DIMENSIONS)
  }

  function CreditLine(account: AccountId, amount: int): LineInput {
    LineInput(account, 0.0, amount as real, NO_DIMENSIONS)
  }

  function AccrualLines(r: Calculation, expense: AccountId, payable: AccountId): seq<LineInput> {
    [DebitLine(expense, r.gross)]
    + (if r.authority.Some? then [CreditLine(r.authority.value, r.wht)] else [])
    + [CreditLine(payable, r.net)]
  }

  function MarkedPayable(d: Desk, master: Master, id: CalculationId, expense: AccountId, payable: AccountId,
                         user: UserId, now: Date): DeskOutcome {
    if id >= |d.rows| then DeskOutcome(d, Err(NotFound))
    else
      var row := d.rows[id];
      if row.status != CalculationStatus.APPROVED then DeskOutcome(d, Err(Conflict))
      else
        var posted := PostSystem(d.ledger, master, EntryInput(row.entity, now, AccrualLines(row, expense, payable)),
                                 user);
        match posted.result
        case Err(e) => DeskOutcome(d.(ledger := posted.ledger), Err(e))
        case Ok(journal) =>
          var accrued := row.(status := PAYABLE, payableAccount := Some(payable), payableJournal := Some(journal));
          DeskOutcome(Desk(posted.ledger, d.rows[id := accrued]), Ok(id))
  }

  function ClearingLines(payable: AccountId, cash: AccountId, net: int): seq<LineInput> {
    [DebitLine(payable, net), CreditLine(cash, net)]
  }

  function MarkedPaid(d: Desk, master: Master, id: CalculationId, cash: AccountId, user: UserId,
                      now: Date): DeskOutcome {
    if id >= |d.rows| then DeskOutcome(d, Err(NotFound))
    else
      var row := d.rows[id];
      if row.status != PAYABLE then DeskOutcome(d, Err(Conflict))
      else if row.payableAccount.None? then DeskOutcome(d, Err(Conflict))
      else
        var input := EntryInput(row.entity, now, ClearingLines(row.payableAccount.value, cash, row.net));
        var posted := PostSystem(d.ledger, master, input, user);
        match posted.result
        case Err(e) => DeskOutcome(d.(ledger := posted.ledger), Err(e))
        case Ok(journal) =>
          DeskOutcome(Desk(posted.ledger, d.rows[id := row.(status := PAID, paymentJournal := Some(journal))]), Ok(id))
  }

  /** Reverses the row and adds the recalculation in its place. */
  function Adjusted(d: Desk, id: CalculationId, r: Request): DeskOutcome {
    if id >= |d.rows| then DeskOutcome(d, Err(NotFound))
    else if !Active(d.rows[id]) then DeskOutcome(d, Err(Conflict))
    else
      match Computed(r, Some(id))
      case Err(e) => DeskOutcome(d, Err(e))
      case Ok(row) =>
        DeskOutcome(d.(rows := d.rows[id := d.rows[id].(status := CalculationStatus.REVERSED)] + [row]), Ok(|d.rows|))
  }

  const CANCELLABLE := {CALCULATED, PENDING}
  const REVERSIBLE := {CALCULATED, PENDING, CalculationStatus.APPROVED, PAYABLE, PAID}

  /** The plan that resolves, if any, has a shape that every stored plan has. */
  predicate PlanWalkable(r: Request) {
    r.plan.Some? ==> Walkable(r.plan.value)
  }

  // ---- The service ----

  class CommissionService {
    const engine: Engine
    var rows: seq<Calculation>

    constructor (engine: Engine)
      ensures this.engine == engine && rows == []
    {
      this.engine := engine;
      rows := [];
    }

    function State(): Desk
      reads this, engine
    {
      Desk(engine.Books(), rows)
    }

    /** Resolution and computation, which write nothing. */
    method ComputeAll(r: Request, supersedes: Option<CalculationId>) returns (result: Result<Calculation>)
      requires PlanWalkable(r)
      ensures result == Computed(r, supersedes)
    {
      hide Gross, ComputeBasis, Usable, SortByOrder, AppliedTier, Store;
      var inputs := ResolveInputs(r);
      if inputs.Err? {
        return Err(inputs.error);
      }
      if r.plan.None? {
        return Err(NotFound);
      }
      var basis := ComputeBasis(inputs.value.sale, r.basis);
      if basis.Err? {
        return Err(basis.error);
      }
      var rate := ApplyPlan(r.plan.value, basis.value.proratedBasisAmount);
      var whtAmount, authority := 0.0, None;
      if r.taxCode.Some? {
        whtAmount := rate.grossCommission * (r.taxCode.value.value.rate / 100.0);
        authority := Some(r.taxCode.value.value.authority);
      }
      assert whtAmount == TaxOn(r, rate.grossCommission);
      hide TaxOn;
      var netCommission := rate.grossCommission - whtAmount;
      return Ok(Calculation(inputs.value.entity, r.assignmentId, CALCULATED, Store(rate.grossCommission),
                            Store(whtAmount), Store(netCommission), authority, None, None, None, supersedes));
    }

    method Calculate(r: Request) returns (result: Result<CalculationId>)
      requires PlanWalkable(r)
      modifies this
      ensures DeskOutcome(State(), result) == Calculated(old(State()), r)
    {
      if HasActive(rows, r.assignmentId) {
        return Err(Conflict);
      }
      var computed := ComputeAll(r, None);
      if computed.Err? {
        return Err(computed.error);
      }
      rows := rows + [computed.value];
      return Ok(|rows| - 1);
    }

    method Submit(id: CalculationId) returns (result: Result<CalculationId>)
      modifies this
      ensures DeskOutcome(State(), result) == Moved(old(State()), id, {CALCULATED}, PENDING)
    {
      if id >= |rows| {
        return Err(NotFound);
      }
      if rows[id].status != CALCULATED {
        return Err(Conflict);
      }
      rows := rows[id := rows[id].(status := PENDING)];
      return Ok(id);
    }

    method Approve(id: CalculationId) returns (result: Result<CalculationId>)
      modifies this
      ensures DeskOutcome(State(), result) == Moved(old(State()), id, {PENDING}, CalculationStatus.APPROVED)
    {
      if id >= |rows| {
        return Err(NotFound);
      }
      if rows[id].status != PENDING {
        return Err(Conflict);
      }
      rows := rows[id := rows[id].(status := CalculationStatus.APPROVED)];
      return Ok(id);
    }

    method Reject(id: CalculationId) returns (result: Result<CalculationId>)
      modifies this
      ensures DeskOutcome(State(), result) == Moved(old(State()), id, {PENDING}, CalculationStatus.REJECTED)
    {
      if id >= |rows| {
        return Err(NotFound);
      }
      if rows[id].status != PENDING {
        return Err(Conflict);
      }
      rows := rows[id := rows[id].(status := CalculationStatus.REJECTED)];
      return Ok(id);
    }

    method Cancel(id: CalculationId) returns (result: Result<CalculationId>)
      modifies this
      ensures DeskOutcome(State(), result) == Moved(old(State()), id, CANCELLABLE, CANCELLED)
    {
      if id >= |rows| {
        return Err(NotFound);
      }
      if rows[id].status != CALCULATED && rows[id].status != PENDING {
        return Err(Conflict);
      }
      rows := rows[id := rows[id].(status := CANCELLED)];
      return Ok(id);
    }

    method Reverse(id: CalculationId) returns (result: Result<CalculationId>)
      modifies this
      ensures DeskOutcome(State(), result) == Moved(old(State()), id, REVERSIBLE, CalculationStatus.REVERSED)
    {
      if id >= |rows| {
        return Err(NotFound);
      }
      if !Active(rows[id]) {
        return Err(Conflict);
      }
      rows := rows[id := rows[id].(status := CalculationStatus.REVERSED)];
      return Ok(id);
    }

    method MarkPayable(master: Master, id: CalculationId, expense: AccountId, payable: AccountId, user: UserId,
                       now: Date)
      returns (result: Result<CalculationId>)
      modifies this, engine
      ensures DeskOutcome(State(), result) == MarkedPayable(old(State()), master, id, expense, payable, user, now)
    {
      if id >= |rows| {
        return Err(NotFound);
      }
      var row := rows[id];
      if row.status != CalculationStatus.APPROVED {
        return Err(Conflict);
      }
      var lines := [DebitLine(expense, row.gross)];
      if row.authority.Some? {
        lines := lines + [CreditLine(row.authority.value, row.wht)];
      }
      lines := lines + [CreditLine(payable, row.net)];
      assert lines == AccrualLines(row, expense, payable);
      hide PostSystem, AccrualLines;
      var posted := engine.PostSystemEntry(master, EntryInput(row.entity, now, lines), user);
      if posted.Err? {
        return Err(posted.error);
      }
      rows := rows[id := row.(status := PAYABLE, payableAccount := Some(payable),
                              payableJournal := Some(posted.value))];
      return Ok(id);
    }

    method MarkPaid(master: Master, id: CalculationId, cash: AccountId, user: UserId, now: Date)
      returns (result: Result<CalculationId>)
      modifies this, engine
      ensures DeskOutcome(State(), result) == MarkedPaid(old(State()), master, id, cash, user, now)
    {
      hide PostSystem;
      if id >= |rows| {
        return Err(NotFound);
      }
      var row := rows[id];
      if row.status != PAYABLE {
        return Err(Conflict);
      }
      if row.payableAccount.None? {
        return Err(Conflict);
      }
      var lines := [DebitLine(row.payableAccount.value, row.net), CreditLine(cash, row.net)];
      var posted := engine.PostSystemEntry(master, EntryInput(row.entity, now, lines), user);
      if posted.Err? {
        return Err(posted.error);
      }
      rows := rows[id := row.(status := PAID, paymentJournal := Some(posted.value))];
      return Ok(id);
    }

    method Adjust(id: CalculationId, r: Request) returns (result: Result<CalculationId>)
      requires PlanWalkable(r)
      modifies this
      ensures DeskOutcome(State(), result) == Adjusted(old(State()), id, r)
    {
      if id >= |rows| {
        return Err(NotFound);
      }
      if !Active(rows[id]) {
        return Err(Conflict);
      }
      var computed := ComputeAll(r, Some(id));
      if computed.Err? {
        return Err(computed.error);
      }
      rows := rows[id := rows[id].(status := CalculationStatus.REVERSED)];
      rows := rows + [computed.value];
      return Ok(|rows| - 1);
    }
  }
}

/** Commission calculations over whole runs: what is owed to agents, and one live calculation per assignment. */
module CommissionRuns {
  import opened Money
  import opened Sums
  import opened Calendar
  import opened Ledger
  import opened Reversal
  import opened ControlAccount
  import opened CommissionLifecycle

  // ---- Steps ----

  datatype DeskStep =
    | DoCalculate(r: Request)
    | DoSubmit(id: CalculationId)
    | DoApprove(id: CalculationId)
    | DoReject(id: CalculationId)
    | DoCancel(id: CalculationId)
    | DoReverse(id: CalculationId)
    | DoMarkPayable(master: Master, id: CalculationId, expense: AccountId, payable: AccountId, user: UserId, now: Date)
    | DoMarkPaid(master: Master, id: CalculationId, cash: AccountId, user: UserId, now: Date)
    | DoAdjust(id: CalculationId, r: Request)
    | Elsewhere(step: Step)   // any other call of the posting engine

  function ApplyDesk(d: Desk, s: DeskStep): Desk {
    match s
    case DoCalculate(r) => Calculated(d, r).desk
    case DoSubmit(id) => Moved(d, id, {CALCULATED}, PENDING).desk
    case DoApprove(id) => Moved(d, id, {PENDING}, CalculationStatus.APPROVED).desk
    case DoReject(id) => Moved(d, id, {PENDING}, CalculationStatus.REJECTED).desk
    case DoCancel(id) => Moved(d, id, CANCELLABLE, CANCELLED).desk
    case DoReverse(id) => Moved(d, id, REVERSIBLE, CalculationStatus.REVERSED).desk
    case DoMarkPayable(master, id, expense, payable, user, now) =>
      MarkedPayable(d, master, id, expense, payable, user, now).desk
    case DoMarkPaid(master, id, cash, user, now) => MarkedPaid(d, master, id, cash, user, now).desk
    case DoAdjust(id, r) => Adjusted(d, id, r).desk
    case Elsewhere(step) => d.(ledger := Apply(d.ledger, step).ledger)
  }

  function RunDesk(d: Desk, steps: seq<DeskStep>): Desk
    decreases |steps|
  {
    if steps == [] then d else RunDesk(ApplyDesk(d, steps[0]), steps[1..])
  }

  const NEW_DESK := Desk(EMPTY, [])

  // ---- Rows ----

  /** Which journals a row has, by its status. */
  predicate RowSound(r: Calculation) {
    && (r.payableJournal.Some? <==> r.payableAccount.Some?)
    && (r.paymentJournal.Some? ==> r.payableJournal.Some?)
    && (r.status == PAYABLE ==> r.payableJournal.Some? && r.paymentJournal.None?)
    && (r.status == PAID ==> r.paymentJournal.Some?)
    && (r.status !in {PAYABLE, PAID, CalculationStatus.REVERSED} ==> r.payableJournal.None?)
  }

  /** A row supersedes an earlier, reversed one, and no other row supersedes that one too. */
  predicate Superseding(rows: seq<Calculation>) {
    && (forall i :: 0 <= i < |rows| && rows[i].supersedes.Some? ==>
          rows[i].supersedes.value < i && rows[rows[i].supersedes.value].status == CalculationStatus.REVERSED)
    && (forall i, j :: 0 <= i < j < |rows| && rows[i].supersedes.Some? ==> rows[i].supersedes != rows[j].supersedes)
  }

  predicate RowsSound(rows: seq<Calculation>) {
    (forall i :: 0 <= i < |rows| ==> RowSound(rows[i])) && Superseding(rows)
  }

  lemma UpdatedSound(rows: seq<Calculation>, id: CalculationId, row: Calculation)
    requires RowsSound(rows) && id < |rows| && RowSound(row) && row.supersedes == rows[id].supersedes
    requires rows[id].status == CalculationStatus.REVERSED ==> row.status == CalculationStatus.REVERSED
    ensures RowsSound(rows[id := row])
  {
  }

  lemma AddedSound(rows: seq<Calculation>, row: Calculation)
    requires RowsSound(rows) && RowSound(row)
    requires row.supersedes.Some? ==>
               && row.supersedes.value < |rows| && rows[row.supersedes.value].status == CalculationStatus.REVERSED
               && forall i :: 0 <= i < |rows| ==> rows[i].supersedes != row.supersedes
    ensures RowsSound(rows + [row])
  {
  }

  lemma MovedSound(d: Desk, id: CalculationId, from: set<CalculationStatus>, to: CalculationStatus)
    requires RowsSound(d.rows) && CalculationStatus.REVERSED !in from && to !in {PAYABLE, PAID}
    requires to == CalculationStatus.REVERSED || from <= CANCELLABLE
    ensures RowsSound(Moved(d, id, from, to).desk.rows)
  {
    if id < |d.rows| && d.rows[id].status in from {
      assert RowSound(d.rows[id]);
      UpdatedSound(d.rows, id, d.rows[id].(status := to));
    }
  }

  lemma PostedSound(d: Desk, s: DeskStep)
    requires RowsSound(d.rows) && (s.DoMarkPayable? || s.DoMarkPaid?)
    ensures RowsSound(ApplyDesk(d, s).rows)
  {
    hide PostSystem, Superseding, AccrualLines, ClearingLines;
    var after := ApplyDesk(d, s).rows;
    if after != d.rows {
      assert RowSound(d.rows[s.id]);
      UpdatedSound(d.rows, s.id, after[s.id]);
      assert after == d.rows[s.id := after[s.id]];
    }
  }

  lemma AdjustedSound(d: Desk, id: CalculationId, r: Request)
    requires RowsSound(d.rows)
    ensures RowsSound(Adjusted(d, id, r).desk.rows)
  {
    ComputedRow(r, Some(id));
    hide Computed;
    if Adjusted(d, id, r).result.Ok? {
      var reversed := d.rows[id].(status := CalculationStatus.REVERSED);
      assert RowSound(d.rows[id]);
      UpdatedSound(d.rows, id, reversed);
      AddedSound(d.rows[id := reversed], Computed(r, Some(id)).value);
    }
  }

  lemma StepRowsSound(d: Desk, s: DeskStep)
    requires RowsSound(d.rows)
    ensures RowsSound(ApplyDesk(d, s).rows)
  {
    hide RowsSound, MarkedPayable, MarkedPaid, Adjusted, Moved, Computed;
    match s
    case DoCalculate(r) =>
      ComputedRow(r, None);
      if Calculated(d, r).result.Ok? {
        AddedSound(d.rows, Computed(r, None).value);
      }
    case DoSubmit(id) => MovedSound(d, id, {CALCULATED}, PENDING);
    case DoApprove(id) => MovedSound(d, id, {PENDING}, CalculationStatus.APPROVED);
    case DoReject(id) => MovedSound(d, id, {PENDING}, CalculationStatus.REJECTED);
    case DoCancel(id) => MovedSound(d, id, CANCELLABLE, CANCELLED);
    case DoReverse(id) => MovedSound(d, id, REVERSIBLE, CalculationStatus.REVERSED);
    case DoAdjust(id, r) => AdjustedSound(d, id, r);
    case Elsewhere(_) => assert ApplyDesk(d, s).rows == d.rows;
    case _ => PostedSound(d, s);
  }

  lemma ComputedRow(r: Request, supersedes: Option<CalculationId>)
    ensures
      var c := Computed(r, supersedes);
      c.Ok? ==>
        && c.value.assignment == r.assignmentId && c.value.status == CALCULATED && c.value.supersedes == supersedes
        && c.value.payableAccount.None? && c.value.payableJournal.None? && c.value.paymentJournal.None?
  {
  }

  // ---- What is owed ----

  function OutstandingOf(a: AccountId, r: Calculation): int {
    if r.payableAccount == Some(a) && r.payableJournal.Some? && r.paymentJournal.None? then r.net else 0
  }

  /** The net commission of a row that was accrued on the account and not paid, whatever its status. */
  function Outstanding(a: AccountId): Calculation -> int {
    (r: Calculation) => OutstandingOf(a, r)
  }

  /** The account owes what the rows say is outstanding on it. */
  predicate Agrees(d: Desk, a: AccountId) {
    Owed(d.ledger, OnAccount(a)) == Sum(d.rows, Outstanding(a))
  }

  /** The step uses the account only as a payable account. */
  predicate PayableOnly(d: Desk, s: DeskStep, a: AccountId) {
    match s
    case DoMarkPayable(_, id, expense, _, _, _) => expense != a && (id < |d.rows| ==> d.rows[id].authority != Some(a))
    case DoMarkPaid(_, _, cash, _, _) => cash != a
    case Elsewhere(step) => Spares(d.ledger, step, a)
    case _ => true
  }

  predicate RunPayableOnly(d: Desk, steps: seq<DeskStep>, a: AccountId)
    decreases |steps|
  {
    steps == [] || (PayableOnly(d, steps[0], a) && RunPayableOnly(ApplyDesk(d, steps[0]), steps[1..], a))
  }

  lemma AccrualNet(r: Calculation, expense: AccountId, payable: AccountId, a: AccountId)
    requires expense != a && r.authority != Some(a)
    ensures Net(StoreLines(r.entity, AccrualLines(r, expense, payable)), OnAccount(a))
            == if payable == a then -r.net else 0
  {
    var f := OnAccount(a);
    var tax := if r.authority.Some? then [CreditLine(r.authority.value, r.wht)] else [];
    assert AccrualLines(r, expense, payable) == [DebitLine(expense, r.gross)] + tax + [CreditLine(payable, r.net)];
    assert Net(StoreLines(r.entity, tax), f) == 0 by {
      if r.authority.Some? {
        StoredSingle(r.entity, CreditLine(r.authority.value, r.wht), f);
      }
    }
    StoreWhole(r.net);
    hide Net, StoreLines, AccrualLines;
    StoredConcat(r.entity, [DebitLine(expense, r.gross)] + tax, [CreditLine(payable, r.net)], f);
    StoredConcat(r.entity, [DebitLine(expense, r.gross)], tax, f);
    StoredSingle(r.entity, DebitLine(expense, r.gross), f);
    StoredSingle(r.entity, CreditLine(payable, r.net), f);
  }

  lemma ClearingNet(entity: EntityId, payable: AccountId, cash: AccountId, net: int, a: AccountId)
    requires cash != a
    ensures Net(StoreLines(entity, ClearingLines(payable, cash, net)), OnAccount(a)) == if payable == a then net else 0
  {
    var f := OnAccount(a);
    assert ClearingLines(payable, cash, net) == [DebitLine(payable, net)] + [CreditLine(cash, net)];
    StoreWhole(net);
    hide Net, StoreLines, ClearingLines;
    StoredConcat(entity, [DebitLine(payable, net)], [CreditLine(cash, net)], f);
    StoredSingle(entity, DebitLine(payable, net), f);
    StoredSingle(entity, CreditLine(cash, net), f);
  }

  lemma PayableAgrees(d: Desk, s: DeskStep, a: AccountId)
    requires s.DoMarkPayable? && RowsSound(d.rows) && Agrees(d, a) && PayableOnly(d, s, a)
    ensures Agrees(ApplyDesk(d, s), a)
  {
    if s.id < |d.rows| && d.rows[s.id].status == CalculationStatus.APPROVED {
      var row := d.rows[s.id];
      var input := EntryInput(row.entity, s.now, AccrualLines(row, s.expense, s.payable));
      assert RowSound(row);
      AccrualNet(row, s.expense, s.payable, a);
      hide PostSystem, Owed, Net, Sum, StoreLines, AccrualLines;
      SystemEntryMoves(d.ledger, s.master, input, s.user, OnAccount(a));
      var after := ApplyDesk(d, s);
      if after.rows != d.rows {
        SumUpdate(d.rows, s.id, after.rows[s.id], Outstanding(a));
        assert after.rows == d.rows[s.id := after.rows[s.id]];
      }
    }
  }

  lemma PaidAgrees(d: Desk, s: DeskStep, a: AccountId)
    requires s.DoMarkPaid? && RowsSound(d.rows) && Agrees(d, a) && PayableOnly(d, s, a)
    ensures Agrees(ApplyDesk(d, s), a)
  {
    if s.id < |d.rows| && d.rows[s.id].status == PAYABLE {
      var row := d.rows[s.id];
      assert RowSound(row);
      var input := EntryInput(row.entity, s.now, ClearingLines(row.payableAccount.value, s.cash, row.net));
      ClearingNet(row.entity, row.payableAccount.value, s.cash, row.net, a);
      hide PostSystem, Owed, Net, Sum, StoreLines, ClearingLines;
      SystemEntryMoves(d.ledger, s.master, input, s.user, OnAccount(a));
      var after := ApplyDesk(d, s);
      if after.rows != d.rows {
        SumUpdate(d.rows, s.id, after.rows[s.id], Outstanding(a));
        assert after.rows == d.rows[s.id := after.rows[s.id]];
      }
    }
  }

  /** Every other step posts nothing on the account, and leaves what each row says is outstanding. */
  lemma OthersAgree(d: Desk, s: DeskStep, a: AccountId)
    requires !s.DoMarkPayable? && !s.DoMarkPaid? && Agrees(d, a) && PayableOnly(d, s, a)
    ensures Agrees(ApplyDesk(d, s), a)
  {
    hide Owed, Sum, Computed, Apply, Spares;
    var after := ApplyDesk(d, s);
    match s
    case Elsewhere(step) => SparedUnmoved(d.ledger, step, a, OnAccount(a));
    case DoCalculate(r) =>
      ComputedRow(r, None);
      if after.rows != d.rows {
        SumAppend(d.rows, after.rows[|d.rows|], Outstanding(a));
      }
    case DoAdjust(id, r) =>
      ComputedRow(r, Some(id));
      if after.rows != d.rows {
        var reversed := d.rows[id].(status := CalculationStatus.REVERSED);
        SumUpdate(d.rows, id, reversed, Outstanding(a));
        SumAppend(d.rows[id := reversed], after.rows[|d.rows|], Outstanding(a));
      }
    case DoSubmit(id) => MovedAgrees(d, id, {CALCULATED}, PENDING, a);
    case DoApprove(id) => MovedAgrees(d, id, {PENDING}, CalculationStatus.APPROVED, a);
    case DoReject(id) => MovedAgrees(d, id, {PENDING}, CalculationStatus.REJECTED, a);
    case DoCancel(id) => MovedAgrees(d, id, CANCELLABLE, CANCELLED, a);
    case DoReverse(id) => MovedAgrees(d, id, REVERSIBLE, CalculationStatus.REVERSED, a);
  }

  lemma MovedAgrees(d: Desk, id: CalculationId, from: set<CalculationStatus>, to: CalculationStatus, a: AccountId)
    requires Agrees(d, a)
    ensures Agrees(Moved(d, id, from, to).desk, a)
  {
    hide Owed, Sum;
    if id < |d.rows| {
      SumUpdate(d.rows, id, d.rows[id].(status := to), Outstanding(a));
    }
  }

  lemma StepAgrees(d: Desk, s: DeskStep, a: AccountId)
    requires RowsSound(d.rows) && Agrees(d, a) && PayableOnly(d, s, a)
    ensures Agrees(ApplyDesk(d, s), a)
  {
    if s.DoMarkPayable? {
      PayableAgrees(d, s, a);
    } else if s.DoMarkPaid? {
      PaidAgrees(d, s, a);
    } else {
      OthersAgree(d, s, a);
    }
  }

  lemma {:induction false} RunAgrees(d: Desk, steps: seq<DeskStep>, a: AccountId)
    requires RowsSound(d.rows) && Agrees(d, a) && RunPayableOnly(d, steps, a)
    ensures RowsSound(RunDesk(d, steps).rows) && Agrees(RunDesk(d, steps), a)
    decreases |steps|
  {
    if steps != [] {
      hide RowsSound, Agrees, ApplyDesk, PayableOnly;
      StepRowsSound(d, steps[0]);
      StepAgrees(d, steps[0], a);
      RunAgrees(ApplyDesk(d, steps[0]), steps[1..], a);
    }
  }

  /** After every run that uses an account only as a payable account, its credit balance is the net commission of
      the rows accrued on it and not paid, rows reversed since included. */
  lemma PayableAccountAgrees(steps: seq<DeskStep>, a: AccountId)
    requires RunPayableOnly(NEW_DESK, steps, a)
    ensures Owed(RunDesk(NEW_DESK, steps).ledger, OnAccount(a)) == Sum(RunDesk(NEW_DESK, steps).rows, Outstanding(a))
  {
    assert BooksNets(EMPTY, OnAccount(a)) == [];
    assert Agrees(NEW_DESK, a) && RowsSound(NEW_DESK.rows);
    hide RunDesk, RunPayableOnly, RowsSound;
    RunAgrees(NEW_DESK, steps, a);
  }

  function OutstandingIn(status: CalculationStatus, a: AccountId): Calculation -> int {
    (r: Calculation) => if r.status == status then OutstandingOf(a, r) else 0
  }

  /** The account owes what the PAYABLE rows say. */
  predicate Standing(d: Desk, a: AccountId) {
    Owed(d.ledger, OnAccount(a)) == Sum(d.rows, OutstandingIn(PAYABLE, a))
  }

  /** A reversal, or an adjustment that recalculates, of a row that is accrued on the account with a net amount. */
  predicate Strands(d: Desk, s: DeskStep, a: AccountId) {
    && (s.DoReverse? || (s.DoAdjust? && Computed(s.r, Some(s.id)).Ok?))
    && s.id < |d.rows| && d.rows[s.id].status == PAYABLE
    && d.rows[s.id].payableAccount == Some(a) && d.rows[s.id].net != 0
  }

  function Stranded(d: Desk, a: AccountId): int {
    Sum(d.rows, OutstandingIn(CalculationStatus.REVERSED, a))
  }

  lemma StandingIsNothingStranded(d: Desk, a: AccountId)
    requires RowsSound(d.rows) && Agrees(d, a)
    ensures Standing(d, a) <==> Stranded(d, a) == 0
  {
    forall r | r in d.rows
      ensures OutstandingIn(CalculationStatus.REVERSED, a)(r) == Outstanding(a)(r) - OutstandingIn(PAYABLE, a)(r)
    {
      var i :| 0 <= i < |d.rows| && d.rows[i] == r;
      assert RowSound(d.rows[i]);
    }
    hide RowsSound, Owed;
    SumMinus(d.rows, OutstandingIn(CalculationStatus.REVERSED, a), Outstanding(a), OutstandingIn(PAYABLE, a));
  }

  /** A row that changes into another leaves the reversed rows' amounts as they were, unless it is reversed. */
  lemma ReplacedStrands(d: Desk, after: Desk, id: CalculationId, a: AccountId)
    requires RowsSound(d.rows) && id < |d.rows| && |after.rows| == |d.rows|
    requires after.rows == d.rows[id := after.rows[id]]
    ensures Stranded(after, a) == Stranded(d, a) - OutstandingIn(CalculationStatus.REVERSED, a)(d.rows[id])
                                  + OutstandingIn(CalculationStatus.REVERSED, a)(after.rows[id])
  {
    hide RowsSound, OutstandingOf;
    SumUpdate(d.rows, id, after.rows[id], OutstandingIn(CalculationStatus.REVERSED, a));
  }

  lemma ReversalStrands(d: Desk, id: CalculationId, a: AccountId)
    requires RowsSound(d.rows)
    ensures
      var after := Moved(d, id, REVERSIBLE, CalculationStatus.REVERSED).desk;
      Stranded(after, a) == Stranded(d, a) + if Strands(d, DoReverse(id), a) then d.rows[id].net else 0
  {
    if id < |d.rows| && d.rows[id].status in REVERSIBLE {
      assert RowSound(d.rows[id]);
      ReplacedStrands(d, Moved(d, id, REVERSIBLE, CalculationStatus.REVERSED).desk, id, a);
    }
  }

  lemma AdjustmentStrands(d: Desk, id: CalculationId, r: Request, a: AccountId)
    requires RowsSound(d.rows)
    ensures
      var after := Adjusted(d, id, r).desk;
      Stranded(after, a) == Stranded(d, a) + if Strands(d, DoAdjust(id, r), a) then d.rows[id].net else 0
  {
    hide Computed;
    ComputedRow(r, Some(id));
    if Adjusted(d, id, r).result.Ok? {
      assert RowSound(d.rows[id]);
      var reversed := d.rows[id := d.rows[id].(status := CalculationStatus.REVERSED)];
      ReplacedStrands(d, d.(rows := reversed), id, a);
      SumAppend(reversed, Computed(r, Some(id)).value, OutstandingIn(CalculationStatus.REVERSED, a));
    }
  }

  lemma MovedStrands(d: Desk, id: CalculationId, from: set<CalculationStatus>, to: CalculationStatus, a: AccountId)
    requires RowsSound(d.rows) && CalculationStatus.REVERSED !in from && to != CalculationStatus.REVERSED
    ensures Stranded(Moved(d, id, from, to).desk, a) == Stranded(d, a)
  {
    if id < |d.rows| && d.rows[id].status in from {
      ReplacedStrands(d, Moved(d, id, from, to).desk, id, a);
    }
  }

  lemma PostedStrands(d: Desk, s: DeskStep, a: AccountId)
    requires RowsSound(d.rows) && (s.DoMarkPayable? || s.DoMarkPaid?)
    ensures Stranded(ApplyDesk(d, s), a) == Stranded(d, a)
  {
    hide PostSystem, AccrualLines, ClearingLines, Superseding;
    if ApplyDesk(d, s).rows != d.rows {
      ReplacedStrands(d, ApplyDesk(d, s), s.id, a);
    }
  }

  /** A call strands a net amount on the account exactly when it reverses or adjusts a row that is accrued on it. */
  lemma StepStrands(d: Desk, s: DeskStep, a: AccountId)
    requires RowsSound(d.rows)
    ensures Stranded(ApplyDesk(d, s), a) == Stranded(d, a) + if Strands(d, s, a) then d.rows[s.id].net else 0
  {
    hide RowsSound, MarkedPayable, MarkedPaid, Adjusted, Moved, Computed, Stranded;
    match s
    case DoCalculate(r) => CalculatedStrands(d, r, a);
    case DoSubmit(id) => MovedStrands(d, id, {CALCULATED}, PENDING, a);
    case DoApprove(id) => MovedStrands(d, id, {PENDING}, CalculationStatus.APPROVED, a);
    case DoReject(id) => MovedStrands(d, id, {PENDING}, CalculationStatus.REJECTED, a);
    case DoCancel(id) => MovedStrands(d, id, CANCELLABLE, CANCELLED, a);
    case DoReverse(id) => ReversalStrands(d, id, a);
    case DoAdjust(id, r) => AdjustmentStrands(d, id, r, a);
    case Elsewhere(_) => SameRowsStrand(d, ApplyDesk(d, s), a);
    case _ => PostedStrands(d, s, a);
  }

  lemma SameRowsStrand(d: Desk, after: Desk, a: AccountId)
    requires after.rows == d.rows
    ensures Stranded(after, a) == Stranded(d, a)
  {
  }

  lemma CalculatedStrands(d: Desk, r: Request, a: AccountId)
    ensures Stranded(Calculated(d, r).desk, a) == Stranded(d, a)
  {
    hide Computed;
    ComputedRow(r, None);
    if Calculated(d, r).result.Ok? {
      SumAppend(d.rows, Computed(r, None).value, OutstandingIn(CalculationStatus.REVERSED, a));
    }
  }

  /** While the account owes what the PAYABLE rows say, a call keeps it so exactly when it neither reverses nor adjusts
      a row that is PAYABLE on the account with a net amount. */
  lemma StepStanding(d: Desk, s: DeskStep, a: AccountId)
    requires RowsSound(d.rows) && Agrees(d, a) && PayableOnly(d, s, a) && Standing(d, a)
    ensures Standing(ApplyDesk(d, s), a) <==> !Strands(d, s, a)
  {
    assert Strands(d, s, a) ==> d.rows[s.id].net != 0;
    hide RowsSound, Agrees, PayableOnly, Standing, Strands, Stranded, ApplyDesk;
    StepRowsSound(d, s);
    StepAgrees(d, s, a);
    StandingIsNothingStranded(d, a);
    StandingIsNothingStranded(ApplyDesk(d, s), a);
    StepStrands(d, s, a);
  }

  predicate NeverStrands(d: Desk, steps: seq<DeskStep>, a: AccountId)
    decreases |steps|
  {
    steps == [] || (!Strands(d, steps[0], a) && NeverStrands(ApplyDesk(d, steps[0]), steps[1..], a))
  }

  lemma {:induction false} RunStanding(d: Desk, steps: seq<DeskStep>, a: AccountId)
    requires RowsSound(d.rows) && Agrees(d, a) && RunPayableOnly(d, steps, a) && Standing(d, a)
    requires NeverStrands(d, steps, a)
    ensures Standing(RunDesk(d, steps), a)
    decreases |steps|
  {
    hide RowsSound, Agrees, ApplyDesk, PayableOnly, Standing, Strands;
    if steps != [] {
      StepRowsSound(d, steps[0]);
      StepAgrees(d, steps[0], a);
      StepStanding(d, steps[0], a);
      RunStanding(ApplyDesk(d, steps[0]), steps[1..], a);
    }
  }

  lemma NewStands(a: AccountId)
    ensures RowsSound(NEW_DESK.rows) && Agrees(NEW_DESK, a) && Standing(NEW_DESK, a)
  {
    assert BooksNets(EMPTY, OnAccount(a)) == [];
  }

  /** After every run that uses an account only as a payable account, it owes what the PAYABLE rows say exactly when the
      reversed rows still accrued on it add up to nothing; so it does when no call of the run stranded an amount. */
  lemma PayableAccountIsPayableRows(steps: seq<DeskStep>, a: AccountId)
    requires RunPayableOnly(NEW_DESK, steps, a)
    ensures
      var d := RunDesk(NEW_DESK, steps);
      Standing(d, a) <==> Stranded(d, a) == 0
    ensures NeverStrands(NEW_DESK, steps, a) ==> Standing(RunDesk(NEW_DESK, steps), a)
  {
    hide RunDesk, RunPayableOnly, RowsSound, Standing, Stranded, Agrees, NeverStrands;
    NewStands(a);
    RunAgrees(NEW_DESK, steps, a);
    StandingIsNothingStranded(RunDesk(NEW_DESK, steps), a);
    if NeverStrands(NEW_DESK, steps, a) {
      RunStanding(NEW_DESK, steps, a);
    }
  }

  lemma {:induction false} RunRowsSound(d: Desk, steps: seq<DeskStep>)
    requires RowsSound(d.rows)
    ensures RowsSound(RunDesk(d, steps).rows)
    decreases |steps|
  {
    if steps != [] {
      hide RowsSound, ApplyDesk;
      StepRowsSound(d, steps[0]);
      RunRowsSound(ApplyDesk(d, steps[0]), steps[1..]);
    }
  }

  /** After every run, a row has the journals its status implies, and a superseded row is reversed and superseded once.
      */
  lemma EveryRunRowsSound(steps: seq<DeskStep>)
    ensures RowsSound(RunDesk(NEW_DESK, steps).rows)
  {
    hide RunDesk;
    RunRowsSound(NEW_DESK, steps);
  }

  // ---- One active calculation ----

  predicate OneActive(rows: seq<Calculation>) {
    forall i, j :: 0 <= i < j < |rows| && Active(rows[i]) && Active(rows[j]) ==>
        rows[i].assignment != rows[j].assignment
  }

  /** An adjustment keeps at most one active calculation per assignment exactly when it recalculates the same
      assignment, or one that has no active calculation. */
  lemma AdjustKeepsOneActive(d: Desk, id: CalculationId, r: Request)
    requires OneActive(d.rows) && Adjusted(d, id, r).result.Ok?
    ensures OneActive(Adjusted(d, id, r).desk.rows)
            <==> r.assignmentId == d.rows[id].assignment || !HasActive(d.rows, r.assignmentId)
  {
    ComputedRow(r, Some(id));
    var after, n := Adjusted(d, id, r).desk.rows, |d.rows|;
    hide Computed;
    assert after[n].assignment == r.assignmentId && Active(after[n]);
    if r.assignmentId != d.rows[id].assignment && HasActive(d.rows, r.assignmentId) {
      var i :| 0 <= i < n && d.rows[i].assignment == r.assignmentId && Active(d.rows[i]);
      assert after[i] == d.rows[i];
      assert !OneActive(after);
    }
  }

  /** Every adjustment that succeeds recalculates the assignment of the row it adjusts. */
  predicate SameAssignment(d: Desk, steps: seq<DeskStep>)
    decreases |steps|
  {
    steps != [] ==>
      && SameAssignment(ApplyDesk(d, steps[0]), steps[1..])
      && (steps[0].DoAdjust? && Adjusted(d, steps[0].id, steps[0].r).result.Ok? ==>
            steps[0].r.assignmentId == d.rows[steps[0].id].assignment)
  }

  lemma StepOneActive(d: Desk, s: DeskStep)
    requires OneActive(d.rows)
    requires s.DoAdjust? && Adjusted(d, s.id, s.r).result.Ok? ==> s.r.assignmentId == d.rows[s.id].assignment
    ensures OneActive(ApplyDesk(d, s).rows)
  {
    if s.DoAdjust? {
      if Adjusted(d, s.id, s.r).result.Ok? {
        AdjustKeepsOneActive(d, s.id, s.r);
      }
    } else if s.DoCalculate? {
      ComputedRow(s.r, None);
      hide Computed;
      assert Calculated(d, s.r).result.Ok? ==> !HasActive(d.rows, s.r.assignmentId);
    } else {
      StatusOnly(d, s);
    }
  }

  /** Other steps make no row active and move none to another assignment. */
  lemma StatusOnly(d: Desk, s: DeskStep)
    requires !s.DoAdjust? && !s.DoCalculate?
    ensures
      var after := ApplyDesk(d, s).rows;
      && |after| == |d.rows|
      && forall i :: 0 <= i < |after| ==>
           after[i].assignment == d.rows[i].assignment && (Active(after[i]) ==> Active(d.rows[i]))
  {
    hide PostSystem, Apply, AccrualLines, ClearingLines;
  }

  lemma {:induction false} RunOneActive(d: Desk, steps: seq<DeskStep>)
    requires OneActive(d.rows) && SameAssignment(d, steps)
    ensures OneActive(RunDesk(d, steps).rows)
    decreases |steps|
  {
    if steps != [] {
      hide OneActive, ApplyDesk;
      StepOneActive(d, steps[0]);
      RunOneActive(ApplyDesk(d, steps[0]), steps[1..]);
    }
  }

  /** When every adjustment recalculates its own assignment, no run leaves an assignment two active calculations. */
  lemma AtMostOneActive(steps: seq<DeskStep>)
    requires SameAssignment(NEW_DESK, steps)
    ensures OneActive(RunDesk(NEW_DESK, steps).rows)
  {
    hide RunDesk, SameAssignment;
    RunOneActive(NEW_DESK, steps);
  }
}

/** What each call on commission calculations accepts, and the rows and journal lines it leaves, column by column. */
module CalculationRows {
  import opened Money
  import opened Sums
  import opened Calendar
  import opened Ledger
  import opened CommissionPlan
  import opened Commission
  import opened CommissionLifecycle
  import opened CommissionShape
  import opened EngineRows

  // ---- The basis ----

  function PaidTotal(amounts: seq<int>): int {
    if amounts == [] then 0 else amounts[0] + PaidTotal(amounts[1..])
  }

  lemma {:induction false} PaidIsSum(amounts: seq<int>)
    ensures Sum(amounts, PaidOf) == PaidTotal(amounts)
  {
    if amounts != [] {
      PaidIsSum(amounts[1..]);
    }
  }

  /** The sale price, or under NET the price less the discount. */
  predicate BaseIs(sale: Allocation, d: BasisInput, base: real) {
    if d.basisType == BasisType.GROSS then base == sale.salePrice as real
    else base + d.discountAmount == sale.salePrice as real
  }

  /** All of the base, or under COLLECTED the part of it that the buyer has paid of what is due. */
  predicate BasisIs(sale: Allocation, d: BasisInput, base: real, b: real) {
    && BaseIs(sale, d, base)
    && (d.collectionBasis == FULL ==> b == base)
    && (d.collectionBasis == COLLECTED ==>
          && sale.schedule.Some?
          && var total, paid := sale.schedule.value.totalAmount, PaidTotal(sale.schedule.value.amountsPaid);
          && (total <= 0 || paid <= 0 ==> b == 0.0)
          && (total > 0 && paid >= total ==> b == base)
          && (total > 0 && 0 <= paid <= total ==> b * total as real == base * paid as real))
  }

  /** The discount exceeds the price, or there is no schedule to collect on. */
  predicate NoBasis(sale: Allocation, d: BasisInput) {
    sale.salePrice as real < d.discountAmount || (d.collectionBasis == COLLECTED && sale.schedule.None?)
  }

  lemma ShareTimesTotal(base: real, paid: real, total: real)
    requires total > 0.0
    ensures (base * (paid / total)) * total == base * paid
  {
    assert paid / total * total == paid;
  }

  lemma BasisRows(sale: Allocation, d: BasisInput)
    ensures
      var o := ComputeBasis(sale, d);
      if NoBasis(sale, d) then o == Err(BadRequest)
      else o.Ok? && BasisIs(sale, d, o.value.commissionBasisAmount, o.value.proratedBasisAmount)
  {
    if sale.schedule.Some? {
      PaidIsSum(sale.schedule.value.amountsPaid);
      var total, paid := sale.schedule.value.totalAmount, PaidTotal(sale.schedule.value.amountsPaid);
      if total > 0 && 0 <= paid <= total {
        var base := if d.basisType == BasisType.GROSS then sale.salePrice as real
                    else sale.salePrice as real - d.discountAmount;
        ShareTimesTotal(base, paid as real, total as real);
        QuotientOf(paid as real, total as real);
      } else if total > 0 {
        QuotientOf(paid as real, total as real);
      }
    }
    hide Sum, PaidTotal;
  }

  lemma QuotientTimes(paid: real, total: real)
    requires total > 0.0
    ensures Part(paid / total, total) == paid
  {
  }

  lemma OneLess(q: real, total: real)
    ensures Part(q - 1.0, total) == Part(q, total) - total
  {
  }

  lemma QuotientOf(paid: real, total: real)
    requires total > 0.0
    ensures paid < 0.0 ==> paid / total < 0.0
    ensures paid == 0.0 ==> paid / total == 0.0
    ensures 0.0 <= paid <= total ==> 0.0 <= paid / total <= 1.0
    ensures paid == total ==> paid / total == 1.0
    ensures paid > total ==> paid / total > 1.0
  {
    hide Part;
    QuotientTimes(paid, total);
    OneLess(paid / total, total);
    PartSign(paid / total, total);
    PartSign(paid / total - 1.0, total);
  }

  /** No two bases fit the same request. */
  lemma BasisIsOne(sale: Allocation, d: BasisInput, base: real, b: real, other: real, c: real)
    requires BasisIs(sale, d, base, b) && BasisIs(sale, d, other, c)
    ensures base == other && b == c
  {
    if d.collectionBasis == COLLECTED {
      var total, paid := sale.schedule.value.totalAmount, PaidTotal(sale.schedule.value.amountsPaid);
      if total > 0 && 0 <= paid <= total {
        Cancels(b, c, total as real);
      }
    }
    hide PaidTotal;
  }

  lemma Cancels(x: real, y: real, total: real)
    requires total > 0.0 && x * total == y * total
    ensures x == y
  {
    if x < y {
      MoreTimes(x, y, total);
    } else if y < x {
      MoreTimes(y, x, total);
    }
  }

  lemma MoreTimes(x: real, y: real, total: real)
    requires x < y && total > 0.0
    ensures x * total < y * total
  {
    hide *;
    PartSubtracts(total, y, x);
    PartSign(total, y - x);
    PartIsTimes(total, x);
    PartIsTimes(total, y);
  }

  lemma PartIsTimes(c: real, x: real)
    ensures Part(c, x) == x * c
  {
  }

  // ---- What a plan pays ----

  /** rate percent of an amount. */
  function Percent(x: real, rate: real): real {
    x * rate / 100.0
  }

  /** A plan without tiers: its rate percent of the basis, or its fee whatever the basis. */
  lemma FlatPays(p: Plan, b: real)
    requires Walkable(p) && !p.isTiered
    ensures p.kind == PERCENTAGE ==> p.rate.Some? && Gross(p, b) == Percent(b, p.rate.value)
    ensures p.kind == FIXED ==> p.fixedAmount.Some? && Gross(p, b) == p.fixedAmount.value
  {
    if p.kind == PERCENTAGE {
      HundredthOf(b, p.rate.value);
    }
  }

  lemma HundredthOf(b: real, rate: real)
    ensures (b * (rate / 100.0)) * 100.0 == b * rate
    ensures Part(rate / 100.0, b) * 100.0 == b * rate
  {
  }

  /** The basis lies in the band, its lower end left out. */
  predicate Holds(t: Tier, b: real) {
    t.min < b && (t.max.Some? ==> b <= t.max.value)
  }

  lemma TierAt(p: Plan, t: Tier) returns (k: nat)
    requires p.isTiered && t in p.tiers
    ensures k < |SortByOrder(p.tiers)| && SortByOrder(p.tiers)[k] == t
  {
    SortSorts(p.tiers);
    SameMembers(SortByOrder(p.tiers), p.tiers);
    k :| 0 <= k < |SortByOrder(p.tiers)| && SortByOrder(p.tiers)[k] == t;
  }

  /** A tiered percentage pays nothing at zero and below. */
  lemma NothingPays(p: Plan, b: real)
    requires Walkable(p) && p.isTiered && p.kind == PERCENTAGE && b <= 0.0
    ensures Gross(p, b) == 0.0
  {
    var s := SortByOrder(p.tiers);
    GrossIsShare(p, b);
    assert TierFits(p.kind, s, 0);
    assert s[..0] == [];
    hide Ladder, SumReal, SortByOrder, BandShareOf, Gross, TierFits;
    TailPaysNothing(PERCENTAGE, s, 0, b);
    NoTiersPay(b);
  }

  lemma RateIsGiven(s: seq<Tier>, k: nat)
    requires Ladder(PERCENTAGE, s) && k < |s|
    ensures s[k].rate.Some? && RateOf(s[k]) == s[k].rate.value / 100.0
  {
    assert TierFits(PERCENTAGE, s, k);
  }

  lemma SortedBandPays(s: seq<Tier>, k: nat, b: real)
    requires Ladder(PERCENTAGE, s) && k < |s| && Holds(s[k], b)
    ensures s[k].rate.Some?
    ensures (SumReal(s, BandShare(b)) - SumReal(s, BandShare(s[k].min))) * 100.0 == (b - s[k].min) * s[k].rate.value
  {
    hide Ladder, SumReal, BandShare, Part, RateOf;
    RateIsGiven(s, k);
    BandStep(s, k, b);
    HundredthOf(b - s[k].min, s[k].rate.value);
  }

  /** Inside a band a tiered percentage pays the band's rate on each further cent. */
  lemma BandPays(p: Plan, t: Tier, b: real)
    requires Walkable(p) && p.isTiered && p.kind == PERCENTAGE && t in p.tiers && Holds(t, b)
    ensures t.rate.Some? && (Gross(p, b) - Gross(p, t.min)) * 100.0 == (b - t.min) * t.rate.value
  {
    hide Ladder, SumReal, SortByOrder, BandShare, Gross, Holds;
    var k := TierAt(p, t);
    GrossIsShare(p, b);
    GrossIsShare(p, t.min);
    SortedBandPays(SortByOrder(p.tiers), k, b);
  }

  lemma NoTiersPay(b: real)
    ensures SumReal([], BandShare(b)) == 0.0
  {
  }

  /** Past the top of the schedule nothing more is paid. */
  lemma TopPays(p: Plan, top: Tier, b: real)
    requires Walkable(p) && p.isTiered && p.kind == PERCENTAGE && top in p.tiers
    requires forall t :: t in p.tiers ==> t.tierOrder <= top.tierOrder
    requires top.max.Some? && top.max.value <= b
    ensures Gross(p, b) == Gross(p, top.max.value)
  {
    var s := SortByOrder(p.tiers);
    var k := TierAt(p, top);
    SortSorts(p.tiers);
    SameMembers(s, p.tiers);
    assert TierFits(p.kind, s, k) && TierFits(p.kind, s, |s| - 1) && s[|s| - 1] in s;
    hide Ladder, SumReal, SortByOrder, BandShareOf, Gross;
    PastCap(s, b, top.max.value);
    GrossIsShare(p, b);
    GrossIsShare(p, top.max.value);
  }

  /** A tiered fee is the fee of the band that holds the basis, and nothing when none does. */
  lemma FeePays(p: Plan, b: real)
    requires Walkable(p) && p.isTiered && p.kind == FIXED
    ensures forall t :: t in p.tiers && Holds(t, b) ==> t.fixedAmount.Some? && Gross(p, b) == t.fixedAmount.value
    ensures (forall t :: t in p.tiers ==> !Holds(t, b)) ==> Gross(p, b) == 0.0
  {
    var s := SortByOrder(p.tiers);
    SortedSum(p.tiers, TierWeight(FIXED, b));
    SortSorts(p.tiers);
    SameMembers(s, p.tiers);
    forall t | t in p.tiers && Holds(t, b)
      ensures t.fixedAmount.Some? && Gross(p, b) == t.fixedAmount.value
    {
      var k := TierAt(p, t);
      assert TierFits(p.kind, s, k);
      OneFee(s, k, b);
    }
    if forall t :: t in p.tiers ==> !Holds(t, b) {
      SumRealZero(s, TierWeight(FIXED, b));
    }
  }

  lemma OneFee(s: seq<Tier>, k: nat, b: real)
    requires Ladder(FIXED, s) && k < |s| && Holds(s[k], b)
    ensures SumReal(s, TierWeight(FIXED, b)) == NumberOf(s[k].fixedAmount)
  {
    forall j | 0 <= j < |s| && j != k
      ensures TierWeight(FIXED, b)(s[j]) == 0.0
    {
      assert TierFits(FIXED, s, j) && TierFits(FIXED, s, k);
      if j < k {
        assert TierFits(FIXED, s, j + 1);
        MinsAscend(FIXED, s, j + 1, k);
      } else {
        assert TierFits(FIXED, s, k + 1);
        MinsAscend(FIXED, s, k + 1, j);
      }
    }
    hide SumReal, Ladder;
    SumOfOne(s, k, TierWeight(FIXED, b));
  }

  // ---- Calculations ----

  /** Why a calculation is refused before its amounts, first reason first. */
  function Refusal(r: Request): Option<Error> {
    if r.assignment == None then Some(NotFound)
    else
      var a := r.assignment.value;
      if a.sale == None || !a.isActive || !a.agentActive || a.saleCancelled then Some(BadRequest)
      else if r.taxCode != None && a.taxExempt then Some(BadRequest)
      else if r.taxCode == Some(None) then Some(NotFound)
      else if r.taxCode != None && (!r.taxCode.value.value.isWithholding || !r.taxCode.value.value.isActive) then
        Some(BadRequest)
      else if r.plan == None then Some(NotFound)
      else if NoBasis(a.sale.value, r.basis) then Some(BadRequest)
      else None
  }

  /** The row for a basis b: what the plan pays on it, the tax on that if a code is named, and the rest, each
      rounded. */
  predicate RowMade(r: Request, supersedes: Option<CalculationId>, b: real, row: Calculation) {
    && Refusal(r) == None
    && var gross := Gross(r.plan.value, b);
    && row.entity == r.assignment.value.entity && row.assignment == r.assignmentId && row.status == CALCULATED
    && row.gross == Store(gross)
    && (r.taxCode == None ==> row.wht == 0 && row.net == Store(gross) && row.authority == None)
    && (r.taxCode != None ==>
          && var code := r.taxCode.value.value;
          && row.wht == Store(Percent(gross, code.rate)) && row.net == Store(gross - Percent(gross, code.rate))
          && row.authority == Some(code.authority))
    && row.payableAccount == None && row.payableJournal == None && row.paymentJournal == None
    && row.supersedes == supersedes
  }

  lemma ComputedRefused(r: Request, supersedes: Option<CalculationId>)
    ensures Computed(r, supersedes).Err? <==> Refusal(r).Some?
    ensures Refusal(r).Some? ==> Computed(r, supersedes) == Err(Refusal(r).value)
  {
    hide ComputeBasis, BasisIs, NoBasis, Row;
    if r.assignment != None && r.assignment.value.sale != None {
      BasisRows(r.assignment.value.sale.value, r.basis);
    }
  }

  lemma ComputedBasis(r: Request, supersedes: Option<CalculationId>, base: real, b: real)
    requires Refusal(r) == None && BasisIs(r.assignment.value.sale.value, r.basis, base, b)
    ensures Computed(r, supersedes) == Ok(Row(r, r.assignment.value.entity, Gross(r.plan.value, b), supersedes))
  {
    hide ComputeBasis, BasisIs, NoBasis, Row, Gross;
    var sale := r.assignment.value.sale.value;
    BasisRows(sale, r.basis);
    var found := ComputeBasis(sale, r.basis).value;
    BasisIsOne(sale, r.basis, found.commissionBasisAmount, found.proratedBasisAmount, base, b);
  }

  lemma ComputedRow(r: Request, supersedes: Option<CalculationId>, base: real, b: real)
    requires Refusal(r) == None && BasisIs(r.assignment.value.sale.value, r.basis, base, b)
    ensures Computed(r, supersedes).Ok? && RowMade(r, supersedes, b, Computed(r, supersedes).value)
  {
    hide Computed, BasisIs, Gross, RowMade, Row, Refusal;
    ComputedBasis(r, supersedes, base, b);
    RowIsMade(r, supersedes, b);
  }

  lemma RowIsMade(r: Request, supersedes: Option<CalculationId>, b: real)
    requires Refusal(r) == None
    ensures RowMade(r, supersedes, b, Row(r, r.assignment.value.entity, Gross(r.plan.value, b), supersedes))
  {
    var gross := Gross(r.plan.value, b);
    TaxRounds(r, gross);
    hide Gross, Store, TaxOn, Percent;
  }

  lemma TaxRounds(r: Request, gross: real)
    requires Refusal(r) == None
    ensures r.taxCode == None ==> TaxOn(r, gross) == 0.0 && Store(TaxOn(r, gross)) == 0
    ensures r.taxCode != None ==> TaxOn(r, gross) == Percent(gross, r.taxCode.value.value.rate)
  {
    StoreWhole(0);
  }

  /** The assignment has a row that is neither rejected, reversed nor cancelled. */
  predicate Taken(rows: seq<Calculation>, assignment: AssignmentId) {
    exists i :: 0 <= i < |rows| && rows[i].assignment == assignment
                && rows[i].status !in {CalculationStatus.REJECTED, CalculationStatus.REVERSED, CANCELLED}
  }

  lemma TakenIsActive(rows: seq<Calculation>, assignment: AssignmentId)
    ensures Taken(rows, assignment) <==> HasActive(rows, assignment)
  {
    forall i | 0 <= i < |rows|
      ensures Active(rows[i])
              <==> rows[i].status !in {CalculationStatus.REJECTED, CalculationStatus.REVERSED, CANCELLED}
    {
      ActiveIs(rows[i]);
    }
    hide Active;
  }

  lemma ActiveIs(row: Calculation)
    ensures Active(row) <==> row.status !in {CalculationStatus.REJECTED, CalculationStatus.REVERSED, CANCELLED}
  {
    match row.status {
      case CALCULATED =>
      case _ =>
    }
  }

  /** calculate: refused while the assignment has an active row; otherwise the row is added. */
  lemma CalculateRows(d: Desk, r: Request, base: real, b: real)
    ensures
      var o := Calculated(d, r);
      && o.result == (if Taken(d.rows, r.assignmentId) then Err(Conflict)
                      else if Refusal(r).Some? then Err(Refusal(r).value) else Ok(|d.rows|))
      && (o.result.Err? ==> o.desk == d)
      && (o.result.Ok? ==>
            && Refusal(r) == None && o.desk.ledger == d.ledger
            && |o.desk.rows| == |d.rows| + 1 && o.desk.rows[..|d.rows|] == d.rows
            && (BasisIs(r.assignment.value.sale.value, r.basis, base, b) ==>
                  RowMade(r, None, b, o.desk.rows[|d.rows|])))
  {
    hide Computed, BasisIs, NoBasis, RowMade, Taken, HasActive;
    TakenIsActive(d.rows, r.assignmentId);
    ComputedRefused(r, None);
    if Refusal(r) == None && BasisIs(r.assignment.value.sale.value, r.basis, base, b) {
      ComputedRow(r, None, base, b);
    }
  }

  /** What a plan without tiers comes to in the stored row. */
  lemma FlatCalculateRows(d: Desk, r: Request, base: real, b: real)
    requires Calculated(d, r).result.Ok? && Refusal(r) == None && Walkable(r.plan.value) && !r.plan.value.isTiered
    requires BasisIs(r.assignment.value.sale.value, r.basis, base, b)
    ensures
      var row := Calculated(d, r).desk.rows[|d.rows|];
      && (r.plan.value.kind == PERCENTAGE ==> row.gross == Store(Percent(b, r.plan.value.rate.value)))
      && (r.plan.value.kind == FIXED ==> row.gross == Store(r.plan.value.fixedAmount.value))
  {
    FlatPays(r.plan.value, b);
    CalculateRows(d, r, base, b);
    hide Calculated, BasisIs, NoBasis, Gross, Percent, Store, Taken;
  }

  // ---- Changes of status ----

  /** Only row id changes, and of it only the status. */
  predicate StatusSet(d: Desk, after: Desk, id: CalculationId, status: CalculationStatus)
    requires id < |d.rows|
  {
    && after.ledger == d.ledger && |after.rows| == |d.rows| && after.rows[id] == d.rows[id].(status := status)
    && forall i :: 0 <= i < |d.rows| && i != id ==> after.rows[i] == d.rows[i]
  }

  /** A call that takes rows of these stages to another, and conflicts with the others. */
  predicate Moves(d: Desk, id: CalculationId, o: DeskOutcome, from: set<CalculationStatus>, to: CalculationStatus) {
    if id >= |d.rows| then o == DeskOutcome(d, Err(NotFound))
    else if d.rows[id].status !in from then o == DeskOutcome(d, Err(Conflict))
    else o.result == Ok(id) && StatusSet(d, o.desk, id, to)
  }

  lemma MovedRows(d: Desk, id: CalculationId, from: set<CalculationStatus>, to: CalculationStatus)
    ensures Moves(d, id, Moved(d, id, from, to), from, to)
  {
  }

  /** cancel stops at approval; reverse takes whatever is neither rejected, reversed nor cancelled. */
  lemma StagesAre()
    ensures CANCELLABLE == {CALCULATED, PENDING}
    ensures REVERSIBLE == {CALCULATED, PENDING, CalculationStatus.APPROVED, PAYABLE, PAID}
  {
  }

  // ---- Accrual and payment ----

  /** The expense account is debited with the gross amount; the authority, if any, is credited with the tax and the
      payable account with the net amount. */
  function AccrualEntry(row: Calculation, expense: AccountId, payable: AccountId): seq<Line> {
    if row.authority == None then
      [Line(expense, row.gross, 0, row.entity, NOWHERE), Line(payable, 0, row.net, row.entity, NOWHERE)]
    else
      [Line(expense, row.gross, 0, row.entity, NOWHERE), Line(row.authority.value, 0, row.wht, row.entity, NOWHERE),
       Line(payable, 0, row.net, row.entity, NOWHERE)]
  }

  lemma AccrualStored(row: Calculation, expense: AccountId, payable: AccountId)
    ensures StoreLines(row.entity, AccrualLines(row, expense, payable)) == AccrualEntry(row, expense, payable)
  {
    StoreWhole(row.gross);
    StoreWhole(row.wht);
    StoreWhole(row.net);
    StoreWhole(0);
    hide Store;
  }

  /** markPayable: an approved row whose entry the engine takes becomes PAYABLE and remembers the account and the
      entry. */
  lemma PayableRows(d: Desk, master: Master, id: CalculationId, expense: AccountId, payable: AccountId, user: UserId,
                    now: Date)
    ensures
      var o := MarkedPayable(d, master, id, expense, payable, user, now);
      && (id >= |d.rows| ==> o == DeskOutcome(d, Err(NotFound)))
      && (id < |d.rows| && d.rows[id].status != CalculationStatus.APPROVED ==> o == DeskOutcome(d, Err(Conflict)))
      && (id < |d.rows| && d.rows[id].status == CalculationStatus.APPROVED ==>
            var input := EntryInput(d.rows[id].entity, now, AccrualLines(d.rows[id], expense, payable));
            var answer := PostSystem(d.ledger, master, input, user).result;
            o.result == if answer.Ok? then Ok(id) else answer)
      && (o.result.Err? ==> o.desk == d)
      && (o.result.Ok? ==>
            && o.result.value == id && id < |d.rows|
            && var row := d.rows[id];
            && EntryAdded(d.ledger, o.desk.ledger, row.entity, now, user, AccrualEntry(row, expense, payable))
            && o.desk.rows == d.rows[id := row.(status := PAYABLE, payableAccount := Some(payable),
                                                payableJournal := Some(|d.ledger.entries|))])
  {
    hide PostSystem, StoreLines, EntryAdded, AccrualLines, AccrualEntry;
    if id < |d.rows| {
      var row := d.rows[id];
      AccrualStored(row, expense, payable);
      SystemEntryAdds(d.ledger, master, EntryInput(row.entity, now, AccrualLines(row, expense, payable)), user);
    }
  }

  /** The payable account is debited and cash credited. */
  function PaymentEntry(row: Calculation, payable: AccountId, cash: AccountId): seq<Line> {
    [Line(payable, row.net, 0, row.entity, NOWHERE), Line(cash, 0, row.net, row.entity, NOWHERE)]
  }

  lemma PaymentStored(row: Calculation, payable: AccountId, cash: AccountId)
    ensures StoreLines(row.entity, ClearingLines(payable, cash, row.net)) == PaymentEntry(row, payable, cash)
  {
    StoreWhole(row.net);
    StoreWhole(0);
    hide Store;
  }

  lemma PaymentAnswered(l: Ledger, master: Master, row: Calculation, payable: AccountId, cash: AccountId, user: UserId,
                        now: Date)
    ensures PostSystem(l, master, EntryInput(row.entity, now, ClearingLines(payable, cash, row.net)), user).result
            == TransferAnswer(l, master, row.entity, now, payable, cash, row.net)
  {
    hide PostSystem, TransferAnswer;
    TransferAnswered(l, master, EntryInput(row.entity, now, ClearingLines(payable, cash, row.net)), user, row.net);
  }

  function PaymentAnswer(d: Desk, master: Master, id: CalculationId, cash: AccountId,
                         now: Date): Result<CalculationId> {
    if id >= |d.rows| then Err(NotFound)
    else
      var row := d.rows[id];
      if row.status != PAYABLE || row.payableAccount == None then Err(Conflict)
      else
        match TransferAnswer(d.ledger, master, row.entity, now, row.payableAccount.value, cash, row.net)
        case Err(e) => Err(e)
        case Ok(_) => Ok(id)
  }

  /** markPaid: a PAYABLE row is paid out of cash against the account it was accrued on. */
  lemma PaidRows(d: Desk, master: Master, id: CalculationId, cash: AccountId, user: UserId, now: Date)
    ensures
      var o := MarkedPaid(d, master, id, cash, user, now);
      && o.result == PaymentAnswer(d, master, id, cash, now)
      && (o.result.Err? ==> o.desk == d)
      && (o.result.Ok? ==>
            && var row := d.rows[id];
            && EntryAdded(d.ledger, o.desk.ledger, row.entity, now, user,
                          PaymentEntry(row, row.payableAccount.value, cash))
            && o.desk.rows == d.rows[id := row.(status := PAID, paymentJournal := Some(|d.ledger.entries|))])
  {
    hide PostSystem, StoreLines, EntryAdded, ClearingLines, PaymentEntry, TransferAnswer;
    if id < |d.rows| && d.rows[id].payableAccount.Some? {
      var row, payable := d.rows[id], d.rows[id].payableAccount.value;
      PaymentStored(row, payable, cash);
      PaymentAnswered(d.ledger, master, row, payable, cash, user, now);
      SystemEntryAdds(d.ledger, master, EntryInput(row.entity, now, ClearingLines(payable, cash, row.net)), user);
    }
  }

  // ---- Adjustment ----

  /** adjust: an active row is reversed and the recalculation, which names it, is added; or nothing happens. */
  lemma AdjustRows(d: Desk, id: CalculationId, r: Request, base: real, b: real)
    ensures
      var o := Adjusted(d, id, r);
      var inactive := {CalculationStatus.REJECTED, CalculationStatus.REVERSED, CANCELLED};
      && o.result == (if id >= |d.rows| then Err(NotFound) else if d.rows[id].status in inactive then Err(Conflict)
                      else if Refusal(r).Some? then Err(Refusal(r).value) else Ok(|d.rows|))
      && (o.result.Err? ==> o.desk == d)
      && (o.result.Ok? ==>
            && Refusal(r) == None && o.desk.ledger == d.ledger && |o.desk.rows| == |d.rows| + 1
            && o.desk.rows[id] == d.rows[id].(status := CalculationStatus.REVERSED)
            && (forall i :: 0 <= i < |d.rows| && i != id ==> o.desk.rows[i] == d.rows[i])
            && (BasisIs(r.assignment.value.sale.value, r.basis, base, b) ==>
                  RowMade(r, Some(id), b, o.desk.rows[|d.rows|])))
  {
    hide Computed, BasisIs, NoBasis, RowMade, Active;
    if id < |d.rows| {
      ActiveIs(d.rows[id]);
    }
    ComputedRefused(r, Some(id));
    if Refusal(r) == None && BasisIs(r.assignment.value.sale.value, r.basis, base, b) {
      ComputedRow(r, Some(id), base, b);
    }
  }
}

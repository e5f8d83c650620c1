/** When an approved commission can be accrued: the entry must balance to the cent after its amounts were rounded one by
    one. */
module CommissionAccrual {
  import opened Money
  import opened Sums
  import opened Calendar
  import opened Ledger
  import opened CommissionPlan
  import opened Commission
  import opened CommissionLifecycle
  import opened CommissionRuns
  import opened TaxCodes

  // ---- Rounding a sum and its parts ----

  /** What rounding adds to an amount, between minus and plus half a cent. */
  function Added(x: real): real {
    Store(x) as real - x
  }

  /** What rounding adds to two amounts stays under half a cent, or is half a cent away from zero. */
  predicate RoundsTogether(x: real, y: real) {
    var added := Added(x) + Added(y);
    -0.5 < added < 0.5 || (added == 0.5 && x + y > 0.0) || (added == -0.5 && x + y < 0.0)
  }

  lemma StoreIsNearest(z: real, n: int)
    ensures Store(z) == n <==>
            -0.5 < n as real - z < 0.5 || (n as real - z == 0.5 && z > 0.0) || (n as real - z == -0.5 && z < 0.0)
  {
    if z < 0.0 {
      var f := (-z + 0.5).Floor;
      assert f as real <= -z + 0.5 < f as real + 1.0;
    }
  }

  /** Two amounts round to the rounded sum exactly when what rounding adds to them does not carry. */
  lemma SplitRounds(x: real, y: real)
    ensures Store(x + y) == Store(x) + Store(y) <==> RoundsTogether(x, y)
  {
    hide Store;
    StoreIsNearest(x + y, Store(x) + Store(y));
  }

  function Fraction(x: real): real {
    x - x.Floor as real
  }

  lemma AddedToFraction(x: real)
    requires x >= 0.0
    ensures Added(x) == (if Fraction(x) >= 0.5 then 1.0 else 0.0) - Fraction(x)
  {
    FloorIs(x + 0.5, if Fraction(x) >= 0.5 then x.Floor + 1 else x.Floor);
  }

  /** For amounts that are not negative: both fractions round down and together would round up, or both round up and
      together would not. */
  lemma FractionsDecide(x: real, y: real)
    requires x >= 0.0 && y >= 0.0
    ensures
      var a, b := Fraction(x), Fraction(y);
      !RoundsTogether(x, y) <==> (a < 0.5 && b < 0.5 && a + b >= 0.5) || (a >= 0.5 && b >= 0.5 && a + b < 1.5)
  {
    AddedToFraction(x);
    AddedToFraction(y);
    hide Added;
  }

  // ---- The accrual entry ----

  predicate RowBalances(r: Calculation) {
    r.gross == r.net + if r.authority.Some? then r.wht else 0
  }

  predicate NothingZero(r: Calculation) {
    r.gross != 0 && r.net != 0 && (r.authority.Some? ==> r.wht != 0)
  }

  predicate AccountsPostable(master: Master, r: Calculation, expense: AccountId, payable: AccountId) {
    && (r.entity, expense) in master.postable && (r.entity, payable) in master.postable
    && (r.authority.Some? ==> (r.entity, r.authority.value) in master.postable)
  }

  lemma AccrualTotals(r: Calculation, expense: AccountId, payable: AccountId)
    ensures
      var lines := AccrualLines(r, expense, payable);
      && SumReal(lines, InputDebit) == r.gross as real
      && SumReal(lines, InputCredit) == (r.net + if r.authority.Some? then r.wht else 0) as real
  {
    var first, last := DebitLine(expense, r.gross), CreditLine(payable, r.net);
    if r.authority.Some? {
      var tax := CreditLine(r.authority.value, r.wht);
      assert AccrualLines(r, expense, payable) == [first, tax, last];
      SumRealOfThree(first, tax, last, InputDebit);
      SumRealOfThree(first, tax, last, InputCredit);
    } else {
      assert AccrualLines(r, expense, payable) == [first] + [last];
      SumRealAppend([first], last, InputDebit);
      SumRealAppend([first], last, InputCredit);
    }
  }

  lemma AccrualChecks(r: Calculation, expense: AccountId, payable: AccountId, master: Master)
    ensures
      var lines := AccrualLines(r, expense, payable);
      && (Balanced(lines) && NoZeroLines(lines) <==> RowBalances(r) && NothingZero(r))
      && (LinesPostable(master, r.entity, lines) <==> AccountsPostable(master, r, expense, payable))
  {
    var lines := AccrualLines(r, expense, payable);
    AccrualTotals(r, expense, payable);
    var first, last := DebitLine(expense, r.gross), CreditLine(payable, r.net);
    assert lines[0] == first && first in lines && lines[|lines| - 1] == last && last in lines;
    hide Sum;
    if r.authority.Some? {
      var tax := CreditLine(r.authority.value, r.wht);
      assert lines == [first, tax, last] && tax in lines;
    } else {
      assert lines == [first, last];
    }
  }

  /** The period of now can be posted to. */
  predicate OpenAt(l: Ledger, entity: EntityId, now: Date) {
    PeriodOf(entity, now) in l.periods ==> l.periods[PeriodOf(entity, now)] == OPEN
  }

  /** An approved row is marked payable exactly when its stored amounts balance, none of them is zero, and the
      ledger takes entries of its entity, in this period, on these accounts. */
  lemma PayableExactlyWhen(d: Desk, master: Master, id: CalculationId, expense: AccountId, payable: AccountId,
                           user: UserId, now: Date)
    requires id < |d.rows| && d.rows[id].status == CalculationStatus.APPROVED
    ensures
      var r := d.rows[id];
      MarkedPayable(d, master, id, expense, payable, user, now).result.Ok?
      <==> RowBalances(r) && NothingZero(r) && r.entity in master.activeEntities && OpenAt(d.ledger, r.entity, now)
           && AccountsPostable(master, r, expense, payable)
  {
    AccrualChecks(d.rows[id], expense, payable, master);
    hide Balanced, NoZeroLines, LinesPostable, RowBalances, NothingZero, AccountsPostable, AccrualLines, StoreLines;
  }

  /** The amounts calculate stores balance exactly when tax and net round together. */
  lemma CalculatedBalances(r: Request, entity: EntityId, gross: real, supersedes: Option<CalculationId>)
    ensures RowBalances(Row(r, entity, gross, supersedes)) <==> RoundsTogether(TaxOn(r, gross), gross - TaxOn(r, gross))
  {
    var tax, net := TaxOn(r, gross), gross - TaxOn(r, gross);
    assert tax + net == gross;
    hide Store, TaxOn;
    SplitRounds(tax, net);
    if AuthorityOf(r).None? {
      assert tax == 0.0 && Store(0.0) == 0 by {
        NoTax(r, gross);
      }
    }
  }

  lemma NoTax(r: Request, gross: real)
    requires AuthorityOf(r).None?
    ensures TaxOn(r, gross) == 0.0 && Store(0.0) == 0
  {
  }

  // ---- Two witnesses ----

  const ONE_SALE := Allocation(100_000, None)
  const FULL_BASIS := BasisInput(GROSS, 0.0, FULL)

  function RequestFor(assignment: AssignmentId, rate: real, tax: Option<Option<TaxCode>>): Request {
    Request(assignment, Some(Assignment(1, Some(ONE_SALE), true, true, false, false)), tax, FULL_BASIS,
            Some(Plan(PERCENTAGE, false, Some(rate), None, [])))
  }

  /** A commission of 200.6 cents with half of it withheld is stored as 201 = 100 + 100: once approved,
      it can never be marked payable. */
  lemma ApprovedButNeverPayable(master: Master, ledger: Ledger, expense: AccountId, payable: AccountId, user: UserId,
                                now: Date)
    ensures
      var r := RequestFor(1, 0.2006, Some(Some(TaxCode(true, true, 50.0, 9))));
      var d := RunDesk(Desk(ledger, []), [DoCalculate(r), DoSubmit(0), DoApprove(0)]);
      && |d.rows| == 1 && d.rows[0].status == CalculationStatus.APPROVED
      && d.rows[0].gross == 201 && d.rows[0].wht == 100 && d.rows[0].net == 100
      && MarkedPayable(d, master, 0, expense, payable, user, now).result.Err?
  {
    var r := RequestFor(1, 0.2006, Some(Some(TaxCode(true, true, 50.0, 9))));
    assert Gross(r.plan.value, 100_000.0) == 200.6;
    var row := Row(r, 1, 200.6, None);
    assert Computed(r, None) == Ok(row);
    assert row.gross == 201 && row.wht == 100 && row.net == 100;
    var start := Desk(ledger, []);
    assert !HasActive(start.rows, 1);
    hide MarkedPayable, Computed, Row, RequestFor;
    RunOfThree(start, DoCalculate(r), DoSubmit(0), DoApprove(0));
    assert ApplyDesk(start, DoCalculate(r)) == Desk(ledger, [row]);
    var approved := row.(status := CalculationStatus.APPROVED);
    assert ApplyDesk(ApplyDesk(Desk(ledger, [row]), DoSubmit(0)), DoApprove(0)) == Desk(ledger, [approved]);
    PayableExactlyWhen(Desk(ledger, [approved]), master, 0, expense, payable, user, now);
  }

  lemma PlainRow(assignment: AssignmentId, supersedes: Option<CalculationId>)
    ensures
      var r := RequestFor(assignment, 5.0, None);
      Computed(r, supersedes) == Ok(Row(r, 1, 5_000.0, supersedes))
  {
    assert Gross(RequestFor(assignment, 5.0, None).plan.value, 100_000.0) == 5_000.0;
  }

  lemma RunOfThree(d: Desk, a: DeskStep, b: DeskStep, c: DeskStep)
    ensures RunDesk(d, [a, b, c]) == ApplyDesk(ApplyDesk(ApplyDesk(d, a), b), c)
  {
    hide ApplyDesk;
    assert [a, b, c][1..] == [b, c] && [b, c][1..] == [c] && [c][1..] == [];
    var second := ApplyDesk(ApplyDesk(d, a), b);
    assert RunDesk(second, [c]) == RunDesk(ApplyDesk(second, c), []);
  }

  /** An adjustment that recalculates another assignment can leave that one with two active calculations. */
  lemma AdjustCanDoubleAnAssignment()
    ensures
      var one, two := RequestFor(1, 5.0, None), RequestFor(2, 5.0, None);
      !OneActive(RunDesk(NEW_DESK, [DoCalculate(one), DoCalculate(two), DoAdjust(0, two)]).rows)
  {
    var one, two := RequestFor(1, 5.0, None), RequestFor(2, 5.0, None);
    var first, second := Row(one, 1, 5_000.0, None), Row(two, 1, 5_000.0, None);
    var both := Desk(EMPTY, [first, second]);
    PlainRow(1, None);
    PlainRow(2, None);
    PlainRow(2, Some(0));
    RunOfThree(NEW_DESK, DoCalculate(one), DoCalculate(two), DoAdjust(0, two));
    hide Computed, RunDesk;
    assert ApplyDesk(NEW_DESK, DoCalculate(one)) == Desk(EMPTY, [first]);
    assert ApplyDesk(Desk(EMPTY, [first]), DoCalculate(two)) == both;
    assert HasActive(both.rows, 2) by {
      assert Active(both.rows[1]) && both.rows[1].assignment == 2;
    }
    AdjustKeepsOneActive(both, 0, two);
  }
}

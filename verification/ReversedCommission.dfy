/** A commission of 50.00 that is accrued and then reversed: no calculation is active any more, and the payable account
    still owes it. */
module ReversedCommission {
  import opened Money
  import opened Sums
  import opened Calendar
  import opened Ledger
  import opened ControlAccount
  import opened CommissionLifecycle
  import opened CommissionRuns
  import opened CommissionAccrual

  const EXPENSE := 5
  const PAYABLE_ACCOUNT := 6
  const DAY := Date(2025, 0, 0)
  const MASTER := Master({1}, {(1, EXPENSE), (1, PAYABLE_ACCOUNT)})

  function Steps(user: UserId): (steps: seq<DeskStep>)
    ensures |steps| == 5
  {
    [DoCalculate(RequestFor(1, 5.0, None)), DoSubmit(0), DoApprove(0),
     DoMarkPayable(MASTER, 0, EXPENSE, PAYABLE_ACCOUNT, user, DAY), DoReverse(0)]
  }

  function RowIn(status: CalculationStatus): Calculation {
    Row(RequestFor(1, 5.0, None), 1, 5_000.0, None).(status := status)
  }

  lemma RowIs(status: CalculationStatus)
    ensures
      var r := RowIn(status);
      && r.entity == 1 && r.gross == r.net == 5_000 && r.authority.None?
      && r.payableAccount.None? && r.payableJournal.None? && r.paymentJournal.None?
  {
    StoreWhole(5_000);
  }

  lemma NextStep(d: Desk, s: DeskStep, rest: seq<DeskStep>, a: AccountId)
    ensures RunDesk(d, [s] + rest) == RunDesk(ApplyDesk(d, s), rest)
    ensures RunPayableOnly(d, [s] + rest, a) <==> PayableOnly(d, s, a) && RunPayableOnly(ApplyDesk(d, s), rest, a)
  {
    hide ApplyDesk, PayableOnly;
    assert ([s] + rest)[1..] == rest;
  }

  lemma IsApproved(user: UserId)
    ensures ApplyDesk(ApplyDesk(ApplyDesk(NEW_DESK, Steps(user)[0]), Steps(user)[1]), Steps(user)[2])
            == Desk(EMPTY, [RowIn(CalculationStatus.APPROVED)])
    ensures PayableOnly(NEW_DESK, Steps(user)[0], PAYABLE_ACCOUNT)
  {
    PlainRow(1, None);
    assert Row(RequestFor(1, 5.0, None), 1, 5_000.0, None).status == CALCULATED;
    hide Computed, Row, RequestFor;
    assert ApplyDesk(NEW_DESK, Steps(user)[0]) == Desk(EMPTY, [RowIn(CALCULATED)]);
  }

  function Accrued(user: UserId): Desk {
    ApplyDesk(Desk(EMPTY, [RowIn(CalculationStatus.APPROVED)]), Steps(user)[3])
  }

  lemma IsAccrued(user: UserId)
    ensures PayableOnly(Desk(EMPTY, [RowIn(CalculationStatus.APPROVED)]), Steps(user)[3], PAYABLE_ACCOUNT)
    ensures |Accrued(user).rows| == 1
    ensures
      var r := Accrued(user).rows[0];
      && r == RowIn(CalculationStatus.APPROVED).(status := PAYABLE, payableAccount := Some(PAYABLE_ACCOUNT),
                                                 payableJournal := r.payableJournal)
      && r.payableJournal.Some?
  {
    RowIs(CalculationStatus.APPROVED);
    var d := Desk(EMPTY, [RowIn(CalculationStatus.APPROVED)]);
    assert RowIn(CalculationStatus.APPROVED).status == CalculationStatus.APPROVED;
    hide PostSystem, AccrualLines, RowIn;
    PayableExactlyWhen(d, MASTER, 0, EXPENSE, PAYABLE_ACCOUNT, user, DAY);
  }

  lemma IsReversed(user: UserId)
    ensures
      var d := ApplyDesk(Accrued(user), Steps(user)[4]);
      && d.ledger == Accrued(user).ledger && |d.rows| == 1
      && d.rows[0].status == CalculationStatus.REVERSED && OutstandingOf(PAYABLE_ACCOUNT, d.rows[0]) == 5_000
  {
    RowIs(CalculationStatus.APPROVED);
    IsAccrued(user);
    hide Accrued, RowIn;
  }

  /** No calculation is left, active or payable, and the account owes 50.00. */
  lemma ReversalLeavesTheDebt(user: UserId)
    ensures RunPayableOnly(NEW_DESK, Steps(user), PAYABLE_ACCOUNT)
    ensures
      var d := RunDesk(NEW_DESK, Steps(user));
      && |d.rows| == 1 && !Active(d.rows[0]) && Sum(d.rows, OutstandingIn(PAYABLE, PAYABLE_ACCOUNT)) == 0
      && Owed(d.ledger, OnAccount(PAYABLE_ACCOUNT)) == 5_000
  {
    var s := Steps(user);
    var d := ApplyDesk(Accrued(user), s[4]);
    WholeRun(user);
    IsReversed(user);
    hide RunDesk, RunPayableOnly, ApplyDesk, Steps, Accrued, Owed;
    PayableAccountAgrees(s, PAYABLE_ACCOUNT);
    assert d.rows == [] + [d.rows[0]];
    SumAppend([], d.rows[0], Outstanding(PAYABLE_ACCOUNT));
    SumAppend([], d.rows[0], OutstandingIn(PAYABLE, PAYABLE_ACCOUNT));
  }

  lemma WholeRun(user: UserId)
    ensures RunDesk(NEW_DESK, Steps(user)) == ApplyDesk(Accrued(user), Steps(user)[4])
    ensures RunPayableOnly(NEW_DESK, Steps(user), PAYABLE_ACCOUNT)
  {
    var s := Steps(user);
    var b := ApplyDesk(NEW_DESK, s[0]);
    var c := ApplyDesk(b, s[1]);
    assert PayableOnly(b, s[1], PAYABLE_ACCOUNT) && PayableOnly(c, s[2], PAYABLE_ACCOUNT);
    assert PayableOnly(Accrued(user), s[4], PAYABLE_ACCOUNT);
    IsApproved(user);
    IsAccrued(user);
    hide ApplyDesk, PayableOnly, Steps, RunDesk, RunPayableOnly;
    assert s == [s[0]] + ([s[1]] + ([s[2]] + ([s[3]] + ([s[4]] + []))));
    NextStep(NEW_DESK, s[0], [s[1]] + ([s[2]] + ([s[3]] + ([s[4]] + []))), PAYABLE_ACCOUNT);
    NextStep(b, s[1], [s[2]] + ([s[3]] + ([s[4]] + [])), PAYABLE_ACCOUNT);
    NextStep(c, s[2], [s[3]] + ([s[4]] + []), PAYABLE_ACCOUNT);
    NextStep(ApplyDesk(c, s[2]), s[3], [s[4]] + [], PAYABLE_ACCOUNT);
    NextStep(Accrued(user), s[4], [], PAYABLE_ACCOUNT);
    NoSteps(ApplyDesk(Accrued(user), s[4]), PAYABLE_ACCOUNT);
  }

  lemma NoSteps(d: Desk, a: AccountId)
    ensures RunDesk(d, []) == d && RunPayableOnly(d, [], a)
  {
  }
}

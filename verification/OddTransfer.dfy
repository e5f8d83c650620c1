/** A transfer of 1.005 between two lines of 100.00: both results are rounded away from zero, so the budget gains a cent
    and its records no longer replay. */
module OddTransfer {
  import opened Money
  import opened Sums
  import opened Ledger
  import opened Budgeting
  import opened BudgetRuns
  import opened BudgetReplay

  function ScopeOf(account: AccountId): Scope {
    Scope(account, None, None, None, None, None, 1)
  }

  const INPUT := BudgetInput(0, 1, 2025, [BudgetLineInput(ScopeOf(1), 10_000.0), BudgetLineInput(ScopeOf(2), 10_000.0)])

  const NOTHING_SPENT := Actuals(EMPTY, {})

  function Steps(user: UserId, approver: UserId): (steps: seq<BudgetStep>)
    ensures |steps| == 4
  {
    [DoCreate({0}, {(0, 1), (0, 2)}, INPUT, user), DoSubmit(0), DoApprove(0, approver),
     DoTransfer(NOTHING_SPENT, 0, 0, 1, 100.5)]
  }

  /** The approved budget with these revised amounts. */
  function Holding(user: UserId, first: int, second: int, records: seq<Record>): Budgets {
    Budgets([Budget(0, 1, 2025, BudgetStatus.APPROVED, user)],
            [BudgetLine(0, ScopeOf(1), 10_000, first), BudgetLine(0, ScopeOf(2), 10_000, second)], [], records)
  }

  lemma BudgetIsApproved(user: UserId, approver: UserId)
    requires approver != user
    ensures ApplyBudget(ApplyBudget(ApplyBudget(NO_BUDGETS, Steps(user, approver)[0]), Steps(user, approver)[1]),
                        Steps(user, approver)[2])
            == Holding(user, 10_000, 10_000, [])
  {
    StoreWhole(10_000);
    hide Store;
    var lines := Holding(user, 10_000, 10_000, []).lines;
    var created := ApplyBudget(NO_BUDGETS, Steps(user, approver)[0]);
    assert created.lines == lines && created.budgets == [Budget(0, 1, 2025, BudgetStatus.DRAFT, user)];
  }

  lemma AllIsAvailable(user: UserId)
    ensures Available(Holding(user, 10_000, 10_000, []), NOTHING_SPENT, 0) == 10_000
  {
  }

  lemma TransferIsMade(user: UserId, approver: UserId)
    ensures ApplyBudget(Holding(user, 10_000, 10_000, []), Steps(user, approver)[3])
            == Holding(user, 9_900, 10_101, [Transfer(0, 0, 1, 101)])
  {
    AllIsAvailable(user);
    FloorIs(9_900.0, 9_900);
    FloorIs(10_101.0, 10_101);
    FloorIs(101.0, 101);
    assert Store(10_000 as real - 100.5) == 9_900 && Store(10_000 as real + 100.5) == 10_101 && Store(100.5) == 101;
    hide Store, Available;
    var before := Holding(user, 10_000, 10_000, []);
    assert WithTransfer(before.lines, 0, 1, 100.5) == Holding(user, 9_900, 10_101, []).lines;
  }

  lemma TotalOf(user: UserId, first: int, second: int, records: seq<Record>)
    ensures BudgetTotal(Holding(user, first, second, records), 0) == first + second
  {
    var lines := Holding(user, first, second, records).lines;
    assert lines == [lines[0]] + [lines[1]] && [lines[0]] == [] + [lines[0]];
    SumAppend([lines[0]], lines[1], RevisedIn(0));
    SumAppend([], lines[0], RevisedIn(0));
  }

  /** No revision is made, and yet the total of the budget is a cent more after the transfer; the amount the source line
      has is not what its original amount and the transfer's record give. */
  lemma TransferMakesACent(user: UserId, approver: UserId)
    requires approver != user
    ensures
      var before, after := Holding(user, 10_000, 10_000, []), RunBudget(NO_BUDGETS, Steps(user, approver));
      && RunBudget(NO_BUDGETS, Steps(user, approver)[..3]) == before
      && after == ApplyBudget(before, Steps(user, approver)[3])
      && BudgetTotal(before, 0) == 20_000 && BudgetTotal(after, 0) == 20_001
      && Replays(before) && !Replays(after)
      && |after.lines| == 2 && after.lines[0].revised == 9_900
      && Replay(after.records, 0, after.lines[0].original) == 9_899
  {
    var s, before := Steps(user, approver), Holding(user, 10_000, 10_000, []);
    BudgetIsApproved(user, approver);
    TransferIsMade(user, approver);
    hide ApplyBudget, Steps, BudgetTotal;
    RunOfThree(NO_BUDGETS, s);
    TotalOf(user, 10_000, 10_000, []);
    TotalOf(user, 9_900, 10_101, [Transfer(0, 0, 1, 101)]);
    RecordsReplay(user);
  }

  lemma RunOfThree(b: Budgets, s: seq<BudgetStep>)
    requires |s| == 4
    ensures RunBudget(b, s[..3]) == ApplyBudget(ApplyBudget(ApplyBudget(b, s[0]), s[1]), s[2])
    ensures RunBudget(b, s) == ApplyBudget(RunBudget(b, s[..3]), s[3])
  {
    hide ApplyBudget;
    var x := ApplyBudget(b, s[0]);
    var y := ApplyBudget(x, s[1]);
    var z := ApplyBudget(y, s[2]);
    assert s[..3][1..] == [s[1], s[2]] && [s[1], s[2]][1..] == [s[2]] && [s[2]][1..] == [];
    assert s[1..][1..] == [s[2], s[3]] && [s[2], s[3]][1..] == [s[3]] && [s[3]][1..] == [];
    assert RunBudget(z, []) == z;
    assert RunBudget(y, [s[2]]) == z;
    assert RunBudget(z, [s[3]]) == RunBudget(ApplyBudget(z, s[3]), []);
    assert RunBudget(y, [s[2], s[3]]) == RunBudget(z, [s[3]]);
  }

  lemma RecordsReplay(user: UserId)
    ensures Replays(Holding(user, 10_000, 10_000, []))
    ensures !Replays(Holding(user, 9_900, 10_101, [Transfer(0, 0, 1, 101)]))
    ensures Replay([Transfer(0, 0, 1, 101)], 0, 10_000) == 9_899
  {
    var r := Transfer(0, 0, 1, 101);
    var after := Holding(user, 9_900, 10_101, [r]);
    assert [r] == [] + [r];
    ReplayAppend([], r, 0, 10_000);
    assert after.lines[0].revised != Replay(after.records, 0, after.lines[0].original);
  }
}

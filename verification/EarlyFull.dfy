/** One asset of 0.06 over a year, a cent a month: five months in order, and then the month before them, which makes the
asset fully depreciated while 0.05 has accumulated. */
module EarlyFull {
  import opened Money
  import opened Calendar
  import opened Ledger
  import opened Depreciation
  import opened FixedAssets
  import opened AssetLifetime
  import opened RegisterRuns
  import LateMonth

  const MASTER := LateMonth.MASTER

  const FIRST := 2024 * 12 + 1

  const TERMS := Terms(0, Some(LateMonth.CATEGORY), Date(2024, 0, 0), 6.0, 0.0, 1, None, None)

  function New(): Asset {
    Asset(0, LateMonth.CATEGORY, Date(2024, 0, 0), 6, 0, 1, None, None, ACTIVE, None, [], None)
  }

  function MonthStep(month: int, user: UserId): RegisterStep {
    RunMonth(MASTER, month, None, [0], user)
  }

  /** The first n months in order. */
  function Months(n: nat, user: UserId): seq<RegisterStep> {
    if n == 0 then [] else Months(n - 1, user) + [MonthStep(FIRST + n - 1, user)]
  }

  function Ran(n: nat, user: UserId): (d: Depreciated)
    ensures d.asset.lifeYears == 1
  {
    if n == 0 then After(EMPTY, New(), Ok(AlreadyPosted))
    else Depreciate(Ran(n - 1, user).ledger, MASTER, Ran(n - 1, user).asset, FIRST + n - 1, user)
  }

  predicate AllOpen(l: Ledger) {
    forall key :: key in l.periods ==> l.periods[key] == OPEN
  }

  /** The asset has posted a cent in each of the first n months. */
  predicate PostedInOrder(a: Asset, n: nat) {
    && a == New().(postings := a.postings, lastThrough := a.lastThrough)
    && |a.postings| == n && History(6, 1, a.postings)
    && forall k :: 0 <= k < n ==> a.postings[k].month == FIRST + k && a.postings[k].accumulated == k + 1
  }

  lemma InOrderAccumulates(a: Asset, n: nat)
    requires PostedInOrder(a, n)
    ensures Accumulated(a.postings) == n && Base(a) == 6 && ValidTerms(a) && MonthlyCents(a) == 1
    ensures History(Base(a), MonthlyCents(a), a.postings)
  {
    RoundHalfUpIs(0.5, 1);
    assert Monthly(a) == 0.5;
    if n > 0 {
      IncreasingLatest(a.postings);
    }
  }

  lemma IsOpen(l: Ledger, a: Asset, month: int)
    requires AllOpen(l) && a.entity == 0 && a.category == LateMonth.CATEGORY
    ensures CanPost(l, MASTER, a, month)
  {
  }

  /** A month not yet posted, for an asset that has posted n of its six cents. */
  lemma NextCent(l: Ledger, a: Asset, n: nat, month: int, user: UserId)
    requires AllOpen(l) && PostedInOrder(a, n) && n < 6 && !HasMonth(a.postings, month)
    ensures
      var d := Depreciate(l, MASTER, a, month, user);
      && d.result == Ok(Depreciated) && AllOpen(d.ledger) && |d.asset.postings| == n + 1
      && d.asset == a.(postings := a.postings + [d.asset.postings[n]], lastThrough := Some(month),
                       status := d.asset.status)
      && d.asset.postings[n].month == month && d.asset.postings[n].amount == 1
      && d.asset.postings[n].accumulated == n + 1
      && d.asset.status == if n == 5 then FULLY_DEPRECIATED else ACTIVE
  {
    hide Depreciate, History, Accumulated, MonthlyCents, Base, ValidTerms, CanPost, HasMonth;
    InOrderAccumulates(a, n);
    IsOpen(l, a, month);
    DepreciatePostsWhenLeft(l, MASTER, a, month, user);
    DepreciatePosts(l, MASTER, a, month, user);
    FullWhenCostReached(l, MASTER, a, month, user);
    LateMonth.PeriodIsOpened(l, a, month, user);
    assert a.residual == 0 && a.cost == 6;
  }

  lemma {:induction false} RanInOrder(n: nat, user: UserId)
    requires n <= 5
    ensures AllOpen(Ran(n, user).ledger) && PostedInOrder(Ran(n, user).asset, n)
    ensures n > 0 ==> Ran(n, user).result == Ok(Depreciated)
  {
    if n > 0 {
      RanInOrder(n - 1, user);
      OneMore(Ran(n - 1, user).ledger, Ran(n - 1, user).asset, n - 1, user);
    }
  }

  lemma OneMore(l: Ledger, a: Asset, n: nat, user: UserId)
    requires AllOpen(l) && PostedInOrder(a, n) && n < 5
    ensures
      var d := Depreciate(l, MASTER, a, FIRST + n, user);
      d.result == Ok(Depreciated) && AllOpen(d.ledger) && PostedInOrder(d.asset, n + 1)
  {
    hide Depreciate, History, Accumulated;
    var d := Depreciate(l, MASTER, a, FIRST + n, user);
    NextCent(l, a, n, FIRST + n, user);
    InOrderAccumulates(a, n);
    HistoryGrows(6, 1, a.postings, d.asset.postings[n]);
  }

  // ---- The run ----

  lemma IsSelected(r: Register, month: int)
    requires month >= 2024 * 12 && r.assets.Keys == {0}
    requires ValidTerms(r.assets[0]) && r.assets[0].status == ACTIVE && r.assets[0].acquired == Date(2024, 0, 0)
    ensures AllHaveTerms(r) && Selects(r, [0], month, None)
  {
    hide MonthStart, DaysIn;
    assert 0 in r.assets.Keys;
    MonthLength(month);
    MonthsInOrder(2024 * 12, month);
  }

  lemma MonthIsRun(l: Ledger, a: Asset, month: int, user: UserId)
    requires month >= 2024 * 12 && ValidTerms(a) && a.status == ACTIVE && a.acquired == Date(2024, 0, 0)
    requires Depreciate(l, MASTER, a, month, user).result.Ok?
    ensures
      var r, d := Register(l, map[0 := a]), Depreciate(l, MASTER, a, month, user);
      && Admissible(r, MonthStep(month, user))
      && ApplyRegister(r, MonthStep(month, user)) == Register(d.ledger, map[0 := d.asset])
  {
    hide Depreciate, DepreciateAll, Selects, AllHaveTerms;
    IsSelected(Register(l, map[0 := a]), month);
    LateMonth.OneAsset(l, a, month, user);
  }

  lemma {:induction false} ReachesLast(r: Register, steps: seq<RegisterStep>, middle: Register, s: RegisterStep)
    requires Reaches(r, steps, middle) && Admissible(middle, s)
    ensures Reaches(r, steps + [s], ApplyRegister(middle, s))
    decreases |steps|
  {
    hide ApplyRegister, Admissible;
    if steps == [] {
      assert [] + [s] == [s] && [s][1..] == [];
      assert Reaches(ApplyRegister(r, s), [], ApplyRegister(r, s));
    } else {
      assert (steps + [s])[1..] == steps[1..] + [s];
      ReachesLast(ApplyRegister(r, steps[0]), steps[1..], middle, s);
    }
  }

  function Held(n: nat, user: UserId): Register {
    Register(Ran(n, user).ledger, map[0 := Ran(n, user).asset])
  }

  lemma {:induction false} MonthsAreRun(n: nat, user: UserId)
    requires n <= 5
    ensures Reaches(Held(0, user), Months(n, user), Held(n, user))
  {
    hide Depreciate, ApplyRegister, Admissible, PostedInOrder, AllOpen;
    if n > 0 {
      MonthsAreRun(n - 1, user);
      RanInOrder(n - 1, user);
      RanInOrder(n, user);
      InOrderIs(Ran(n - 1, user).asset, n - 1);
      MonthIsRun(Ran(n - 1, user).ledger, Ran(n - 1, user).asset, FIRST + n - 1, user);
      ReachesLast(Held(0, user), Months(n - 1, user), Held(n - 1, user), MonthStep(FIRST + n - 1, user));
    }
  }

  lemma InOrderIs(a: Asset, n: nat)
    requires PostedInOrder(a, n)
    ensures ValidTerms(a) && a.status == ACTIVE && a.acquired == Date(2024, 0, 0)
  {
  }

  lemma IsBought(user: UserId)
    ensures Admissible(NEW_REGISTER, Buy(0, TERMS)) && ApplyRegister(NEW_REGISTER, Buy(0, TERMS)) == Held(0, user)
  {
    StoreWhole(6);
    StoreWhole(0);
  }

  function Late(user: UserId): Depreciated {
    Depreciate(Ran(5, user).ledger, MASTER, Ran(5, user).asset, FIRST - 1, user)
  }

  lemma LateMonthFills(l: Ledger, a: Asset, user: UserId)
    requires AllOpen(l) && PostedInOrder(a, 5)
    ensures
      var d := Depreciate(l, MASTER, a, FIRST - 1, user);
      && d.result == Ok(Depreciated) && d.asset == a.(postings := d.asset.postings, lastThrough := Some(FIRST - 1),
                                                      status := FULLY_DEPRECIATED)
      && Accumulated(d.asset.postings) == 5
  {
    hide Depreciate, History;
    NextCent(l, a, 5, FIRST - 1, user);
    InOrderAccumulates(a, 5);
    assert Latest(a.postings) != None;
    var d := Depreciate(l, MASTER, a, FIRST - 1, user);
    assert d.asset.postings[..5] == a.postings;
    IncreasingLatest(a.postings);
  }

  /** A year's asset is fully depreciated, and a cent of its cost has not accumulated. */
  lemma FullBelowCost(user: UserId)
    ensures
      var r := Register(Late(user).ledger, map[0 := Late(user).asset]);
      && Reaches(NEW_REGISTER, [Buy(0, TERMS)] + (Months(5, user) + [MonthStep(FIRST - 1, user)]), r)
      && r.assets[0].status == FULLY_DEPRECIATED && r.assets[0].residual == 0
      && Accumulated(r.assets[0].postings) == 5 < 6 == r.assets[0].cost
  {
    hide Depreciate, ApplyRegister, Admissible, PostedInOrder, AllOpen, Reaches, Ran, Months;
    IsBought(user);
    MonthsAreRun(5, user);
    RanInOrder(5, user);
    var l, a := Ran(5, user).ledger, Ran(5, user).asset;
    InOrderIs(a, 5);
    OfSixCents(a, 5);
    LateMonthFills(l, a, user);
    MonthIsRun(l, a, FIRST - 1, user);
    ReachesLast(Held(0, user), Months(5, user), Held(5, user), MonthStep(FIRST - 1, user));
    var r := Register(Late(user).ledger, map[0 := Late(user).asset]);
    LateMonth.ReachesNext(NEW_REGISTER, Buy(0, TERMS), Months(5, user) + [MonthStep(FIRST - 1, user)], r);
  }

  lemma OfSixCents(a: Asset, n: nat)
    requires PostedInOrder(a, n)
    ensures a.residual == 0 && a.cost == 6
  {
  }
}

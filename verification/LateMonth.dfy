/** One asset of 12.06 over a year, so of 1.005 a month: March is depreciated before February, and
the asset is then sold for 10.00. What the closed forms exclude does happen. */
module LateMonth {
  import opened Money
  import opened Sums
  import opened Calendar
  import opened Ledger
  import opened Reversal
  import opened Depreciation
  import opened FixedAssets
  import opened AssetLifetime
  import opened RegisterRuns

  const COST := 1
  const ACCUMULATED := 2
  const EXPENSE := 3
  const BANK := 4
  const LOSS := 5

  const CATEGORY := Category(COST, ACCUMULATED, EXPENSE)

  const MASTER := Master({0}, {(0, COST), (0, ACCUMULATED), (0, EXPENSE), (0, BANK), (0, LOSS)})

  const FEBRUARY := 2024 * 12 + 1
  const MARCH := 2024 * 12 + 2

  const TERMS := Terms(0, Some(CATEGORY), Date(2024, 0, 0), 1206.0, 0.0, 1, None, None)

  const SALE := DisposalInput(Date(2024, 3, 0), 1000.0, BANK, LOSS)

  function New(): Asset {
    Asset(0, CATEGORY, Date(2024, 0, 0), 1206, 0, 1, None, None, ACTIVE, None, [], None)
  }

  function Steps(user: UserId): (steps: seq<RegisterStep>)
    ensures |steps| == 4
  {
    [Buy(0, TERMS), RunMonth(MASTER, MARCH, None, [0], user), RunMonth(MASTER, FEBRUARY, None, [0], user),
     Sell(MASTER, 0, SALE, user)]
  }

  lemma IsBought(user: UserId)
    ensures Admissible(NEW_REGISTER, Steps(user)[0])
    ensures ApplyRegister(NEW_REGISTER, Steps(user)[0]) == Register(EMPTY, map[0 := New()])
  {
    StoreWhole(1206);
    StoreWhole(0);
  }

  lemma HalfCentMonthly()
    ensures Monthly(New()) == 100.5 && MonthlyCents(New()) == 101
  {
    RoundHalfUpIs(100.5, 101);
  }

  /** The asset after its depreciation in March, and in February after that. */
  function March(user: UserId): Depreciated {
    Depreciate(EMPTY, MASTER, New(), MARCH, user)
  }

  function February(user: UserId): Depreciated {
    Depreciate(March(user).ledger, MASTER, March(user).asset, FEBRUARY, user)
  }

  lemma MarchPosts(user: UserId)
    ensures March(user).result == Ok(Depreciated)
    ensures March(user).ledger.periods == map[PeriodOf(0, StartOfMonth(MARCH)) := OPEN]
    ensures March(user).asset == New().(postings := March(user).asset.postings, lastThrough := Some(MARCH))
    ensures
      var s := March(user).asset.postings;
      |s| == 1 && s[0].month == MARCH && s[0].amount == s[0].accumulated == 101 && s[0].netBookValue == 1106
  {
    HalfCentMonthly();
    var a := New();
    assert History(Base(a), MonthlyCents(a), a.postings) && Accumulated(a.postings) == 0;
    DepreciatePostsWhenLeft(EMPTY, MASTER, a, MARCH, user);
    DepreciatePosts(EMPTY, MASTER, a, MARCH, user);
    FullWhenCostReached(EMPTY, MASTER, a, MARCH, user);
    assert HalfCent(100.5) by { FloorIs(100.5, 100); }
    hide Balanced, NoZeroLines, DepreciationLines, StoreLines;
  }

  lemma OnePosting(p: Posting)
    requires p.month == MARCH && p.amount == p.accumulated == 101
    ensures History(1206, 101, [p]) && Accumulated([p]) == 101 && Latest([p]) == Some(p) && !HasMonth([p], FEBRUARY)
  {
    IncreasingLatest([p]);
    assert [p][..0] == [];
  }

  /** What depreciation asks of the periods of a ledger, and leaves in them. */
  lemma PeriodIsOpened(l: Ledger, a: Asset, month: int, user: UserId)
    requires a.lifeYears >= 1 && Depreciate(l, MASTER, a, month, user).result == Ok(Depreciated)
    ensures Depreciate(l, MASTER, a, month, user).ledger.periods
            == WithPeriod(l.periods, PeriodOf(a.entity, StartOfMonth(month)))
  {
    hide Balanced, NoZeroLines, DepreciationLines, StoreLines, Accumulated, HasMonth, Share, RoundHalfUp;
  }

  /** February, for an asset that has posted March. */
  lemma PostsAfterMarch(l: Ledger, a: Asset, p: Posting, user: UserId)
    requires p.month == MARCH && p.amount == p.accumulated == 101
    requires a == New().(postings := [p], lastThrough := Some(MARCH))
    requires CanPost(l, MASTER, a, FEBRUARY)
    ensures
      var d := Depreciate(l, MASTER, a, FEBRUARY, user);
      && d.result == Ok(Depreciated) && |d.asset.postings| == 2
      && d.asset == a.(postings := [p, d.asset.postings[1]], lastThrough := Some(FEBRUARY))
      && d.asset.postings[1].month == FEBRUARY && d.asset.postings[1].amount == 101
      && d.asset.postings[1].accumulated == 202
  {
    HalfCentMonthly();
    OnePosting(p);
    assert Base(a) == 1206 && ValidTerms(a) && Monthly(a) == Monthly(New());
    hide Monthly, History, Depreciate, CanPost, Accumulated, HasMonth, Base, ValidTerms;
    DepreciatePostsWhenLeft(l, MASTER, a, FEBRUARY, user);
    DepreciatePosts(l, MASTER, a, FEBRUARY, user);
    FullWhenCostReached(l, MASTER, a, FEBRUARY, user);
  }

  lemma FebruaryPosts(user: UserId)
    ensures February(user).result == Ok(Depreciated) && |February(user).asset.postings| == 2
    ensures
      var s := February(user).asset.postings;
      && February(user).asset == New().(postings := [March(user).asset.postings[0], s[1]],
                                        lastThrough := Some(FEBRUARY))
      && s[1].month == FEBRUARY && s[1].amount == 101 && s[1].accumulated == 202
    ensures
      February(user).ledger.periods
      == map[PeriodOf(0, StartOfMonth(MARCH)) := OPEN, PeriodOf(0, StartOfMonth(FEBRUARY)) := OPEN]
  {
    MarchPosts(user);
    var l, a := March(user).ledger, March(user).asset;
    assert a.postings == [a.postings[0]];
    hide March, Depreciate;
    PostsAfterMarch(l, a, a.postings[0], user);
    PeriodIsOpened(l, a, FEBRUARY, user);
  }

  // ---- The sale ----

  lemma TwoPostings(p: Posting, q: Posting)
    requires p.month == MARCH && p.amount == p.accumulated == 101 && q.month == FEBRUARY && q.amount == 101
    requires q.accumulated == 202
    ensures History(1206, 101, [p, q]) && Accumulated([p, q]) == 101 && Sum([p, q], AmountOf) == 202
  {
    OnePosting(p);
    assert [p, q] == [p] + [q] && [p] == [] + [p];
    HistoryGrows(1206, 101, [p], q);
    assert [p, q][..1] == [p];
    hide Latest;
    SumAppend([p], q, AmountOf);
    SumAppend([], p, AmountOf);
  }

  function Sold(user: UserId): RegisterOutcome {
    Dispose(Register(February(user).ledger, map[0 := February(user).asset]), MASTER, 0, SALE, user)
  }

  lemma SaleLines(a: Asset)
    requires ValidTerms(a) && History(Base(a), MonthlyCents(a), a.postings) && Accumulated(a.postings) == 101
    ensures Balanced(DisposalLines(a, SALE)) && NoZeroLines(DisposalLines(a, SALE))
  {
    StoreWhole(1000);
    FloorIs(1000.0, 1000);
    hide DisposalLines, RoundHalfUp, History;
    DisposalAccepted(a, SALE);
  }

  lemma SaleIsPostable(a: Asset)
    requires a.entity == 0 && a.category == CATEGORY
    ensures LinesPostable(MASTER, 0, DisposalLines(a, SALE))
  {
    hide RoundHalfUp, Accumulated;
  }

  /** The sale of an asset that has accumulated 1.01, in a ledger without its period. */
  lemma AssetIsSold(l: Ledger, a: Asset, user: UserId)
    requires a.entity == 0 && a.category == CATEGORY && a.status == ACTIVE && a.disposal.None?
    requires PeriodOf(0, SALE.date) !in l.periods
    requires ValidTerms(a) && History(Base(a), MonthlyCents(a), a.postings) && Accumulated(a.postings) == 101
    ensures
      var after := Dispose(Register(l, map[0 := a]), MASTER, 0, SALE, user).register;
      && after.assets.Keys == {0}
      && after.assets[0] == a.(status := DISPOSED, disposal := after.assets[0].disposal)
      && after.assets[0].disposal.Some?
      && var d := after.assets[0].disposal.value;
         d.proceeds == 1000 && d.proceedsAccount == BANK && d.gainLossAccount == LOSS
  {
    SaleLines(a);
    SaleIsPostable(a);
    StoreWhole(1000);
    assert SALE.proceeds == 1000 as real;
    hide History, Accumulated, MonthlyCents, Balanced, NoZeroLines, LinesPostable, DisposalLines, RoundHalfUp,
         ValidTerms, Base;
  }

  lemma FebruaryHistory(user: UserId)
    ensures February(user).asset.status == ACTIVE && ValidTerms(February(user).asset)
    ensures
      var a := February(user).asset;
      && History(Base(a), MonthlyCents(a), a.postings) && Accumulated(a.postings) == 101
      && Sum(a.postings, AmountOf) == 202
      && a.entity == 0 && a.category == CATEGORY && a.disposal.None? && a.cost == 1206
      && PeriodOf(0, SALE.date) !in February(user).ledger.periods
  {
    MarchPosts(user);
    FebruaryPosts(user);
    HalfCentMonthly();
    var a := February(user).asset;
    assert MonthlyCents(a) == MonthlyCents(New()) && Base(a) == 1206;
    hide March, February, History, Accumulated, MonthlyCents, Sum;
    TwoPostings(a.postings[0], a.postings[1]);
    assert a.postings == [a.postings[0], a.postings[1]];
  }

  lemma SaleIsAccepted(user: UserId)
    ensures
      var after := Sold(user).register;
      && after.assets.Keys == {0}
      && after.assets[0] == February(user).asset.(status := DISPOSED, disposal := after.assets[0].disposal)
      && after.assets[0].disposal.Some?
      && var d := after.assets[0].disposal.value;
         d.proceeds == 1000 && d.proceedsAccount == BANK && d.gainLossAccount == LOSS
  {
    FebruaryHistory(user);
    hide February, Dispose, History, Accumulated, MonthlyCents, Sum;
    AssetIsSold(February(user).ledger, February(user).asset, user);
  }

  // ---- The run ----

  lemma BoughtBefore(month: int)
    requires month == FEBRUARY || month == MARCH
    ensures Time(Date(2024, 0, 0)) <= EndOfMonth(month)
  {
    hide MonthStart, DaysIn;
    MonthLength(month);
    MonthsInOrder(2024 * 12, month);
  }

  lemma IsSelected(r: Register, month: int)
    requires month == FEBRUARY || month == MARCH
    requires r.assets.Keys == {0} && ValidTerms(r.assets[0]) && r.assets[0].status == ACTIVE
    requires r.assets[0].acquired == Date(2024, 0, 0)
    ensures AllHaveTerms(r) && Selects(r, [0], month, None)
  {
    hide Time, EndOfMonth;
    BoughtBefore(month);
    assert 0 in r.assets.Keys;
  }

  lemma OneAsset(l: Ledger, a: Asset, month: int, user: UserId)
    requires ValidTerms(a) && Depreciate(l, MASTER, a, month, user).result.Ok?
    ensures
      var d := Depreciate(l, MASTER, a, month, user);
      DepreciateAll(Register(l, map[0 := a]), MASTER, [0], month, user).register
      == Register(d.ledger, map[0 := d.asset])
  {
    hide Depreciate;
    var d := Depreciate(l, MASTER, a, month, user);
    assert [0][1..] == [] && map[0 := a][0 := d.asset] == map[0 := d.asset];
    DepreciateKeepsTerms(l, MASTER, a, month, user);
    assert DepreciateAll(Register(d.ledger, map[0 := d.asset]), MASTER, [], month, user).register
            == Register(d.ledger, map[0 := d.asset]);
  }

  lemma MonthsAreRun(user: UserId)
    ensures
      var r := Register(EMPTY, map[0 := New()]);
      && Admissible(r, Steps(user)[1]) && Admissible(ApplyRegister(r, Steps(user)[1]), Steps(user)[2])
      && ApplyRegister(ApplyRegister(r, Steps(user)[1]), Steps(user)[2])
         == Register(February(user).ledger, map[0 := February(user).asset])
  {
    hide Depreciate, DepreciateAll, Selects, AllHaveTerms;
    MarchPosts(user);
    FebruaryPosts(user);
    var r := Register(EMPTY, map[0 := New()]);
    IsSelected(r, MARCH);
    OneAsset(EMPTY, New(), MARCH, user);
    var next := Register(March(user).ledger, map[0 := March(user).asset]);
    assert ApplyRegister(r, Steps(user)[1]) == next;
    IsSelected(next, FEBRUARY);
    OneAsset(March(user).ledger, March(user).asset, FEBRUARY, user);
  }

  lemma ReachesNext(r: Register, s: RegisterStep, rest: seq<RegisterStep>, later: Register)
    requires Admissible(r, s) && Reaches(ApplyRegister(r, s), rest, later)
    ensures Reaches(r, [s] + rest, later)
  {
    hide ApplyRegister, Admissible;
    assert ([s] + rest)[1..] == rest;
  }

  lemma SaleIsReached(user: UserId)
    ensures Reaches(Register(February(user).ledger, map[0 := February(user).asset]), [Steps(user)[3]] + [],
                    Sold(user).register)
  {
    var last := Register(February(user).ledger, map[0 := February(user).asset]);
    hide February, Dispose;
    assert Reaches(Sold(user).register, [], Sold(user).register);
    ReachesNext(last, Steps(user)[3], [], Sold(user).register);
  }

  lemma RunIsReached(user: UserId)
    ensures Reaches(NEW_REGISTER, Steps(user), Sold(user).register)
  {
    hide Admissible, ApplyRegister, February, Sold, Reaches, Steps, New;
    IsBought(user);
    MonthsAreRun(user);
    SaleIsReached(user);
    var s, r := Steps(user), Register(EMPTY, map[0 := New()]);
    assert s == [s[0]] + ([s[1]] + ([s[2]] + ([s[3]] + [])));
    ReachesNext(ApplyRegister(r, s[1]), s[2], [s[3]] + [], Sold(user).register);
    ReachesNext(r, s[1], [s[2]] + ([s[3]] + []), Sold(user).register);
    ReachesNext(NEW_REGISTER, s[0], [s[1]] + ([s[2]] + ([s[3]] + [])), Sold(user).register);
  }

  /** March's share of 1.005 is stored as 1.01 and its net book value as 11.06, a cent more than cost less accumulation.
      */
  lemma NetBookValueIsACentHigh(user: UserId)
    ensures March(user).result == Ok(Depreciated) && |March(user).asset.postings| == 1
    ensures March(user).asset.postings[0].netBookValue == New().cost - March(user).asset.postings[0].accumulated + 1
  {
    MarchPosts(user);
  }

  /** Asset 0 has 1.01 left on its accumulated account, and its expense and loss exceed what it cost less what it
      fetched by as much. */
  predicate LeavesLateMonth(r: Register) {
    && 0 in r.assets && r.assets[0].disposal.Some? && JournalsExist(r.ledger, Journals(r.assets[0]))
    && var a := r.assets[0];
    && Accumulated(a.postings) == 101 && Sum(a.postings, AmountOf) == 202 && a.disposal.value.proceeds == 1000
    && NetOfEntries(r.ledger, Journals(a), OnAccounts({ACCUMULATED})) == -101
    && NetOfEntries(r.ledger, Journals(a), OnAccounts({EXPENSE, LOSS})) == (a.cost - a.disposal.value.proceeds) + 101
  }

  /** February is posted and lost to the accumulation, and so to the sale. */
  lemma LateMonthIsLost(user: UserId)
    ensures Reaches(NEW_REGISTER, Steps(user), Sold(user).register) && LeavesLateMonth(Sold(user).register)
  {
    var r := Sold(user).register;
    hide Sold, February, Reaches, Journals, JournalsExist, NetOfEntries, Accumulated, Sum, History;
    RunIsReached(user);
    SaleIsAccepted(user);
    FebruaryHistory(user);
    assert 0 in r.assets.Keys;
    EveryRegisterSound(Steps(user), r);
    var a := r.assets[0];
    assert AssetSound(r.ledger, a);
    hide AssetSound, RegisterSound;
    LifetimeNet(r.ledger, a, {ACCUMULATED});
    LifetimeNet(r.ledger, a, {EXPENSE, LOSS});
  }

  // ---- Disposals that no ledger takes ----

  lemma RefusedLines(r: Register, master: Master, a: Asset, d: DisposalInput, user: UserId)
    requires a.status != DISPOSED && a.disposal.None? && r.assets == map[0 := a]
    requires !(Balanced(DisposalLines(a, d)) && NoZeroLines(DisposalLines(a, d)))
    ensures Dispose(r, master, 0, d, user).result == Err(BadRequest)
  {
    hide Balanced, NoZeroLines, DisposalLines;
  }

  /** An asset that has not been depreciated, one that is given away, and one that is sold below its net book
      value for an amount that ends in half a cent cannot be disposed of, whatever the ledger and its master data. */
  lemma DisposalsRefused(l: Ledger, master: Master, p: Posting, user: UserId)
    requires p.month == MARCH && p.amount == p.accumulated == 101
    ensures Dispose(Register(l, map[0 := New()]), master, 0, SALE, user).result == Err(BadRequest)
    ensures
      var r := Register(l, map[0 := New().(postings := [p])]);
      && Dispose(r, master, 0, SALE.(proceeds := 0.0), user).result == Err(BadRequest)
      && Dispose(r, master, 0, SALE.(proceeds := 500.5), user).result == Err(BadRequest)
  {
    HalfCentMonthly();
    OnePosting(p);
    StoreWhole(0);
    FloorIs(500.5, 500);
    var a, b := New(), New().(postings := [p]);
    assert Base(a) == Base(b) == 1206 && MonthlyCents(b) == MonthlyCents(a) && History(1206, 101, a.postings);
    assert Accumulated(a.postings) == 0;
    hide History, Accumulated, DisposalLines, Balanced, NoZeroLines, MonthlyCents, RoundHalfUp, Dispose;
    DisposalAccepted(a, SALE);
    DisposalAccepted(b, SALE.(proceeds := 0.0));
    DisposalAccepted(b, SALE.(proceeds := 500.5));
    RefusedLines(Register(l, map[0 := a]), master, a, SALE, user);
    RefusedLines(Register(l, map[0 := b]), master, b, SALE.(proceeds := 0.0), user);
    RefusedLines(Register(l, map[0 := b]), master, b, SALE.(proceeds := 500.5), user);
  }
}

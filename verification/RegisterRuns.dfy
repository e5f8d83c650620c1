/** The fixed-asset register over whole runs: closed form, idempotence and lifetime conservation. */
module RegisterRuns {
  import opened Money
  import opened Sums
  import opened Ledger
  import opened Kernel
  import opened Reversal
  import opened LedgerRuns
  import opened Depreciation
  import opened FixedAssets
  import opened AssetLifetime

  // ---- Disposal keeps an asset sound ----

  lemma StoreDisposalLines(a: Asset, d: DisposalInput, disposal: Disposal)
    requires ValidTerms(a) && History(Base(a), MonthlyCents(a), a.postings) && d.proceeds >= 0.0
    requires Balanced(DisposalLines(a, d)) && NoZeroLines(DisposalLines(a, d))
    requires disposal.proceeds == RoundHalfUp(d.proceeds)
    requires disposal.proceedsAccount == d.proceedsAccount && disposal.gainLossAccount == d.gainLossAccount
    ensures StoreLines(a.entity, DisposalLines(a, d)) == StoredDisposal(a, disposal)
  {
    var netBookValue := a.cost - Accumulated(a.postings);
    DisposalAccepted(a, d);
    DisposalGap(netBookValue, d.proceeds);
    StoreWhole(Accumulated(a.postings));
    StoreWhole(RoundHalfUp(d.proceeds));
    StoreWhole(a.cost);
    StoreWhole(RoundHalfUp(d.proceeds - netBookValue as real));
    StoreWhole(RoundHalfUp(netBookValue as real - d.proceeds));
  }

  lemma DisposeSound(r: Register, master: Master, id: AssetId, d: DisposalInput, user: UserId)
    requires Sound(r.ledger) && id in r.assets && AssetSound(r.ledger, r.assets[id]) && d.proceeds >= 0.0
    ensures
      var after := Dispose(r, master, id, d, user).register;
      && Sound(after.ledger) && Extends(r.ledger, after.ledger)
      && after.assets == r.assets[id := after.assets[id]]
      && AssetSound(after.ledger, after.assets[id])
  {
    var a := r.assets[id];
    var after := Dispose(r, master, id, d, user).register;
    var input := EntryInput(a.entity, d.date, DisposalLines(a, d));
    RunSound(r.ledger, []);
    PostSystemSound(r.ledger, master, input, user);
    AssetSoundKept(r.ledger, after.ledger, a);
    if Dispose(r, master, id, d, user).result.Ok? {
      StoreDisposalLines(a, d, after.assets[id].disposal.value);
      DisposedAssetSound(after.ledger, a, after.assets[id].disposal.value);
    }
  }

  lemma DisposedAssetSound(l: Ledger, a: Asset, disposal: Disposal)
    requires AssetSound(l, a) && Wrote(l, disposal.journal, StoredDisposal(a, disposal))
    ensures AssetSound(l, a.(status := DISPOSED, disposal := Some(disposal)))
  {
    var disposed := a.(status := DISPOSED, disposal := Some(disposal));
    forall k | 0 <= k < |a.postings|
      ensures Wrote(l, disposed.postings[k].journal, StoredDepreciation(disposed, disposed.postings[k].amount))
    {
      assert Wrote(l, a.postings[k].journal, StoredDepreciation(a, a.postings[k].amount));
    }
  }

  // ---- Runs ----

  datatype RegisterStep =
    | Buy(id: AssetId, terms: Terms)
    | RunMonth(master: Master, month: int, entity: Option<EntityId>, ids: seq<AssetId>, user: UserId)
    | Sell(master: Master, id: AssetId, input: DisposalInput, user: UserId)
    | Elsewhere(step: Step)   // any call of the engine by anybody else

  /** The bounds of the inputs, and for a run that its ids are what the query returns. */
  predicate Admissible(r: Register, s: RegisterStep) {
    match s
    case Buy(_, terms) => ValidInput(terms)
    case RunMonth(_, month, entity, ids, _) => AllHaveTerms(r) && Selects(r, ids, month, entity)
    case Sell(_, _, input, _) => input.proceeds >= 0.0
    case Elsewhere(_) => true
  }

  function ApplyRegister(r: Register, s: RegisterStep): Register
    requires Admissible(r, s)
  {
    match s
    case Buy(id, terms) => Acquire(r, id, terms).register
    case RunMonth(master, month, _, ids, user) => DepreciateAll(r, master, ids, month, user).register
    case Sell(master, id, input, user) => Dispose(r, master, id, input, user).register
    case Elsewhere(step) => r.(ledger := Apply(r.ledger, step).ledger)
  }

  /** later is reached from r by these steps. */
  predicate Reaches(r: Register, steps: seq<RegisterStep>, later: Register)
    decreases |steps|
  {
    if steps == [] then later == r
    else Admissible(r, steps[0]) && Reaches(ApplyRegister(r, steps[0]), steps[1..], later)
  }

  ghost predicate RegisterSound(r: Register) {
    Sound(r.ledger) && forall id :: id in r.assets ==> AssetSound(r.ledger, r.assets[id])
  }

  lemma AcquireSound(r: Register, id: AssetId, t: Terms)
    requires RegisterSound(r) && ValidInput(t)
    ensures RegisterSound(Acquire(r, id, t).register)
  {
    if t.residual <= t.cost {
      StoreMonotone(t.residual, t.cost);
    }
  }

  lemma OneDepreciatedSound(r: Register, master: Master, id: AssetId, month: int, user: UserId)
    requires RegisterSound(r) && id in r.assets && r.assets[id].status == ACTIVE && r.assets[id].lifeYears >= 1
    ensures
      var d := Depreciate(r.ledger, master, r.assets[id], month, user);
      RegisterSound(Register(d.ledger, r.assets[id := d.asset]))
  {
    hide Depreciate, AssetSound, Sound, Extends;
    var d := Depreciate(r.ledger, master, r.assets[id], month, user);
    DepreciateSound(r.ledger, master, r.assets[id], month, user);
    forall other | other in r.assets && other != id
      ensures AssetSound(d.ledger, r.assets[other])
    {
      AssetSoundKept(r.ledger, d.ledger, r.assets[other]);
    }
  }

  lemma {:induction false} DepreciateAllSound(r: Register, master: Master, ids: seq<AssetId>, month: int, user: UserId)
    requires RegisterSound(r) && AllHaveTerms(r)
    requires forall j, k :: 0 <= j < k < |ids| ==> ids[j] != ids[k]
    requires forall id :: id in ids ==> id in r.assets && r.assets[id].status == ACTIVE
    ensures RegisterSound(DepreciateAll(r, master, ids, month, user).register)
    decreases |ids|
  {
    hide AssetSound, Sound, Depreciate;
    if ids != [] {
      var d := Depreciate(r.ledger, master, r.assets[ids[0]], month, user);
      var next := Register(d.ledger, r.assets[ids[0] := d.asset]);
      OneDepreciatedSound(r, master, ids[0], month, user);
      DepreciateKeepsTerms(r.ledger, master, r.assets[ids[0]], month, user);
      if d.result.Ok? {
        DepreciateAllSound(next, master, ids[1..], month, user);
      }
    }
  }

  lemma RegisterStepSound(r: Register, s: RegisterStep)
    requires RegisterSound(r) && Admissible(r, s)
    ensures RegisterSound(ApplyRegister(r, s))
  {
    match s
    case Buy(id, terms) => AcquireSound(r, id, terms);
    case RunMonth(master, month, entity, ids, user) => DepreciateAllSound(r, master, ids, month, user);
    case Sell(master, id, input, user) =>
      if id in r.assets {
        var after := Dispose(r, master, id, input, user).register;
        DisposeSound(r, master, id, input, user);
        forall other | other in after.assets && other != id
          ensures AssetSound(after.ledger, after.assets[other])
        {
          AssetSoundKept(r.ledger, after.ledger, r.assets[other]);
        }
      }
    case Elsewhere(step) =>
      StepSound(r.ledger, step);
      forall id | id in r.assets
        ensures AssetSound(Apply(r.ledger, step).ledger, r.assets[id])
      {
        AssetSoundKept(r.ledger, Apply(r.ledger, step).ledger, r.assets[id]);
      }
  }

  lemma {:induction false} ReachableSound(r: Register, steps: seq<RegisterStep>, later: Register)
    requires RegisterSound(r) && Reaches(r, steps, later)
    ensures RegisterSound(later)
    decreases |steps|
  {
    if steps != [] {
      RegisterStepSound(r, steps[0]);
      ReachableSound(ApplyRegister(r, steps[0]), steps[1..], later);
    }
  }

  const NEW_REGISTER := Register(EMPTY, map[])

  lemma EveryRegisterSound(steps: seq<RegisterStep>, r: Register)
    requires Reaches(NEW_REGISTER, steps, r)
    ensures RegisterSound(r)
  {
    EveryRunSound([]);
    assert Run(EMPTY, []) == EMPTY;
    ReachableSound(NEW_REGISTER, steps, r);
  }

  // ---- Closed form ----

  /** In every reachable register, an asset whose months were run in increasing order has accumulated
      min(k * p, base) after k postings, which is what it posted; it takes exactly ceil(base / p)
      postings, within ceil(N / 2p) of its N months, to use the base up. */
  lemma DepreciationClosedForm(steps: seq<RegisterStep>, r: Register, id: AssetId, k: nat)
    requires Reaches(NEW_REGISTER, steps, r) && id in r.assets
    requires Increasing(r.assets[id].postings) && 1 <= k <= |r.assets[id].postings|
    ensures ValidTerms(r.assets[id])
    ensures
      var a := r.assets[id];
      var base, p, n := Base(a), MonthlyCents(a), Months(a);
      && p >= 1
      && a.postings[k - 1].accumulated == MinInt(k * p, base)
      && Sum(a.postings[..k], AmountOf) == MinInt(k * p, base)
      && |a.postings| <= CeilDiv(base, p)
      && (Accumulated(a.postings) == base <==> |a.postings| == CeilDiv(base, p))
      && n - CeilDiv(n, 2 * p) <= CeilDiv(base, p) <= n + CeilDiv(n, 2 * p)
  {
    EveryRegisterSound(steps, r);
    var a := r.assets[id];
    assert AssetSound(r.ledger, a);
    HistoryPrefix(Base(a), MonthlyCents(a), a.postings, k);
    ClosedForm(Base(a), MonthlyCents(a), a.postings[..k]);
    IncreasingLatest(a.postings[..k]);
    FullAfterCeiling(Base(a), MonthlyCents(a), a.postings);
    LifeWithinRounding(a);
  }

  /** In every reachable register, the accumulation of an asset is the sum of what it posted exactly when
      its months were run in increasing order. */
  lemma AccumulationMatchesPostings(steps: seq<RegisterStep>, r: Register, id: AssetId)
    requires Reaches(NEW_REGISTER, steps, r) && id in r.assets
    ensures
      var a := r.assets[id];
      Accumulated(a.postings) == Sum(a.postings, AmountOf) <==> Increasing(a.postings)
  {
    EveryRegisterSound(steps, r);
    var a := r.assets[id];
    assert AssetSound(r.ledger, a);
    AccumulationIsSum(Base(a), MonthlyCents(a), a.postings);
  }

  // ---- Running a month again ----

  lemma {:induction false} RunLeavesMonthPosted(r: Register, master: Master, ids: seq<AssetId>, month: int,
                                                user: UserId, id: AssetId)
    requires AllHaveTerms(r) && forall i :: i in ids ==> i in r.assets
    requires forall j, k :: 0 <= j < k < |ids| ==> ids[j] != ids[k]
    requires id in r.assets && DepreciateAll(r, master, ids, month, user).result.Ok?
    ensures
      var after := DepreciateAll(r, master, ids, month, user).register.assets;
      && id in after
      && after[id].entity == r.assets[id].entity && after[id].acquired == r.assets[id].acquired
      && (id !in ids ==> after[id] == r.assets[id])
      && (id in ids && after[id].status == ACTIVE ==> HasMonth(after[id].postings, month))
    decreases |ids|
  {
    if ids != [] {
      var a := r.assets[ids[0]];
      var d := Depreciate(r.ledger, master, a, month, user);
      var next := Register(d.ledger, r.assets[ids[0] := d.asset]);
      DepreciateHasMonth(r.ledger, master, a, month, user);
      RunLeavesMonthPosted(next, master, ids[1..], month, user, id);
    }
  }

  lemma DepreciateHasMonth(l: Ledger, master: Master, a: Asset, month: int, user: UserId)
    requires a.lifeYears >= 1 && Depreciate(l, master, a, month, user).result.Ok?
    ensures
      var after := Depreciate(l, master, a, month, user).asset;
      && (after.status == ACTIVE ==> HasMonth(after.postings, month))
      && after == a.(postings := after.postings, lastThrough := after.lastThrough, status := after.status)
  {
    var after := Depreciate(l, master, a, month, user).asset;
    if |after.postings| == |a.postings| + 1 {
      assert after.postings[|a.postings|].month == month;
    }
  }

  lemma {:induction false} PostedMonthsRunIdle(r: Register, master: Master, ids: seq<AssetId>, month: int, user: UserId)
    requires AllHaveTerms(r)
    requires forall i :: i in ids ==> i in r.assets && HasMonth(r.assets[i].postings, month)
    ensures DepreciateAll(r, master, ids, month, user) == RegisterOutcome(r, Ok(0))
    decreases |ids|
  {
    if ids != [] {
      assert r.assets[ids[0] := r.assets[ids[0]]] == r.assets;
      PostedMonthsRunIdle(r, master, ids[1..], month, user);
    }
  }

  /** Running a month again after it succeeded changes nothing, neither the register nor the ledger. */
  lemma RerunChangesNothing(r: Register, month: int, entity: Option<EntityId>,
                            master: Master, ids: seq<AssetId>, user: UserId,
                            master': Master, again: seq<AssetId>, user': UserId)
    requires AllHaveTerms(r) && Selects(r, ids, month, entity)
    requires DepreciateAll(r, master, ids, month, user).result.Ok?
    requires Selects(DepreciateAll(r, master, ids, month, user).register, again, month, entity)
    ensures
      var after := DepreciateAll(r, master, ids, month, user).register;
      DepreciateAll(after, master', again, month, user') == RegisterOutcome(after, Ok(0))
  {
    var after := DepreciateAll(r, master, ids, month, user).register;
    forall id | id in again
      ensures HasMonth(after.assets[id].postings, month)
    {
      SameAssets(r, master, ids, month, user);
      RunLeavesMonthPosted(r, master, ids, month, user, id);
    }
    PostedMonthsRunIdle(after, master', again, month, user');
  }

  lemma {:induction false} SameAssets(r: Register, master: Master, ids: seq<AssetId>, month: int, user: UserId)
    requires AllHaveTerms(r) && forall i :: i in ids ==> i in r.assets
    ensures DepreciateAll(r, master, ids, month, user).register.assets.Keys == r.assets.Keys
    decreases |ids|
  {
    if ids != [] {
      var d := Depreciate(r.ledger, master, r.assets[ids[0]], month, user);
      var next := Register(d.ledger, r.assets[ids[0] := d.asset]);
      assert next.assets.Keys == r.assets.Keys;
      if d.result.Ok? {
        SameAssets(next, master, ids[1..], month, user);
      }
    }
  }

  // ---- Disposed assets ----

  lemma {:induction false} RunSparesOthers(r: Register, master: Master, ids: seq<AssetId>, month: int, user: UserId,
                                           id: AssetId)
    requires AllHaveTerms(r) && (forall i :: i in ids ==> i in r.assets) && id in r.assets && id !in ids
    ensures
      var after := DepreciateAll(r, master, ids, month, user).register.assets;
      id in after && after[id] == r.assets[id]
    decreases |ids|
  {
    if ids != [] {
      var d := Depreciate(r.ledger, master, r.assets[ids[0]], month, user);
      var next := Register(d.ledger, r.assets[ids[0] := d.asset]);
      if d.result.Ok? {
        RunSparesOthers(next, master, ids[1..], month, user, id);
      }
    }
  }

  /** Nothing that happens later touches a disposed asset: no run posts for it, and it is not disposed again. */
  lemma {:induction false} DisposedForGood(r: Register, steps: seq<RegisterStep>, later: Register, id: AssetId)
    requires Reaches(r, steps, later) && id in r.assets && r.assets[id].status == DISPOSED
    ensures id in later.assets && later.assets[id] == r.assets[id]
    decreases |steps|
  {
    if steps != [] {
      if steps[0].RunMonth? {
        RunSparesOthers(r, steps[0].master, steps[0].ids, steps[0].month, steps[0].user, id);
      }
      DisposedForGood(ApplyRegister(r, steps[0]), steps[1..], later, id);
    }
  }

  // ---- Lifetime conservation ----

  function OnAccounts(accounts: set<AccountId>): Filter {
    (_: EntityId, account: AccountId, _: Dimensions) => account in accounts
  }

  function PostingJournals(postings: seq<Posting>): (ids: seq<EntryId>)
    ensures |ids| == |postings|
  {
    seq(|postings|, k requires 0 <= k < |postings| => postings[k].journal)
  }

  /** Every journal entry the asset's depreciation and disposal records point at. */
  function Journals(a: Asset): seq<EntryId> {
    PostingJournals(a.postings) + if a.disposal.Some? then [a.disposal.value.journal] else []
  }

  function Has(accounts: set<AccountId>, account: AccountId): int {
    if account in accounts then 1 else 0
  }

  predicate JournalsExist(l: Ledger, ids: seq<EntryId>) {
    forall k :: 0 <= k < |ids| ==> ids[k] < |l.entries|
  }

  lemma {:induction false} NetOfConcat(l: Ledger, s: seq<EntryId>, t: seq<EntryId>, f: Filter)
    requires JournalsExist(l, s) && JournalsExist(l, t)
    ensures NetOfEntries(l, s + t, f) == NetOfEntries(l, s, f) + NetOfEntries(l, t, f)
  {
    if s == [] {
      assert s + t == t;
    } else {
      assert (s + t)[1..] == s[1..] + t;
      NetOfConcat(l, s[1..], t, f);
    }
  }

  lemma DepreciationNet(a: Asset, amount: int, accounts: set<AccountId>)
    ensures Net(StoredDepreciation(a, amount), OnAccounts(accounts)) ==
            amount * (Has(accounts, a.category.expenseAccount) - Has(accounts, a.category.accumulatedAccount))
  {
    var lines := StoredDepreciation(a, amount);
    assert lines == [lines[0]] + [lines[1]];
    SumAppend([lines[0]], lines[1], Selected(OnAccounts(accounts)));
    SumAppend([], lines[0], Selected(OnAccounts(accounts)));
    assert [] + [lines[0]] == [lines[0]];
  }

  lemma DisposalNet(a: Asset, d: Disposal, accounts: set<AccountId>)
    ensures Net(StoredDisposal(a, d), OnAccounts(accounts)) ==
            Accumulated(a.postings) * Has(accounts, a.category.accumulatedAccount)
            + d.proceeds * Has(accounts, d.proceedsAccount)
            - a.cost * Has(accounts, a.category.assetAccount)
            - (d.proceeds - (a.cost - Accumulated(a.postings))) * Has(accounts, d.gainLossAccount)
  {
    var lines := StoredDisposal(a, d);
    var w := Selected(OnAccounts(accounts));
    SumOfThree(lines[0], lines[1], lines[2], w);
    assert lines[..3] == [lines[0], lines[1], lines[2]];
    if |lines| > 3 {
      assert lines == lines[..3] + [lines[3]];
      SumAppend(lines[..3], lines[3], w);
    } else {
      assert lines == lines[..3];
    }
  }

  lemma {:induction false} PostingsNet(l: Ledger, a: Asset, postings: seq<Posting>, accounts: set<AccountId>)
    requires forall k :: 0 <= k < |postings| ==>
          Wrote(l, postings[k].journal, StoredDepreciation(a, postings[k].amount))
    ensures JournalsExist(l, PostingJournals(postings))
    ensures NetOfEntries(l, PostingJournals(postings), OnAccounts(accounts)) ==
            Sum(postings, AmountOf)
            * (Has(accounts, a.category.expenseAccount) - Has(accounts, a.category.accumulatedAccount))
  {
    if postings != [] {
      assert Wrote(l, postings[0].journal, StoredDepreciation(a, postings[0].amount));
      PostingsNet(l, a, postings[1..], accounts);
      DepreciationNet(a, postings[0].amount, accounts);
      assert PostingJournals(postings)[1..] == PostingJournals(postings[1..]);
    }
  }

  /** What the journal entries of a disposed asset put on any set of accounts. */
  lemma LifetimeNet(l: Ledger, a: Asset, accounts: set<AccountId>)
    requires AssetSound(l, a) && a.status == DISPOSED
    ensures JournalsExist(l, Journals(a))
    ensures
      var d, posted, accumulated := a.disposal.value, Sum(a.postings, AmountOf), Accumulated(a.postings);
      NetOfEntries(l, Journals(a), OnAccounts(accounts)) ==
        posted * (Has(accounts, a.category.expenseAccount) - Has(accounts, a.category.accumulatedAccount))
        + accumulated * Has(accounts, a.category.accumulatedAccount)
        + d.proceeds * Has(accounts, d.proceedsAccount)
        - a.cost * Has(accounts, a.category.assetAccount)
        - (d.proceeds - (a.cost - accumulated)) * Has(accounts, d.gainLossAccount)
  {
    var d := a.disposal.value;
    PostingsNet(l, a, a.postings, accounts);
    DisposalNet(a, d, accounts);
    NetOfConcat(l, PostingJournals(a.postings), [d.journal], OnAccounts(accounts));
    assert NetOfEntries(l, [d.journal], OnAccounts(accounts)) ==
           Net(l.entries[d.journal].lines, OnAccounts(accounts)) + NetOfEntries(l, [], OnAccounts(accounts));
  }

  /** What the entries would put on the accounts if what was posted were what has accumulated. */
  function ExpectedNet(a: Asset, d: Disposal, accounts: set<AccountId>): int {
    Accumulated(a.postings) * Has(accounts, a.category.expenseAccount)
    + d.proceeds * Has(accounts, d.proceedsAccount)
    - a.cost * Has(accounts, a.category.assetAccount)
    - (d.proceeds - (a.cost - Accumulated(a.postings))) * Has(accounts, d.gainLossAccount)
  }

  lemma NetAsExpected(posted: int, accumulated: int, expense: int, cleared: int, others: int)
    requires 0 <= expense <= 1 && 0 <= cleared <= 1
    ensures posted * (expense - cleared) + accumulated * cleared + others == accumulated * expense + others
            <==> posted == accumulated || expense == cleared
  {
    if expense == cleared {
    } else if expense == 1 {
      assert posted * (expense - cleared) == posted;
    } else {
      assert posted * (expense - cleared) == -posted;
    }
  }

  /** The entries of a disposed asset net as expected on a set of accounts exactly when its months were run in
      increasing order, or the set holds both or neither of its expense and accumulated depreciation accounts. */
  lemma LifetimeExactly(l: Ledger, a: Asset, accounts: set<AccountId>)
    requires AssetSound(l, a) && a.status == DISPOSED
    ensures JournalsExist(l, Journals(a))
    ensures NetOfEntries(l, Journals(a), OnAccounts(accounts)) == ExpectedNet(a, a.disposal.value, accounts)
            <==> Increasing(a.postings)
                 || Has(accounts, a.category.expenseAccount) == Has(accounts, a.category.accumulatedAccount)
  {
    var d := a.disposal.value;
    LifetimeNet(l, a, accounts);
    AccumulationIsSum(Base(a), MonthlyCents(a), a.postings);
    hide NetOfEntries, Journals, JournalsExist, Increasing, Accumulated, Sum, History;
    var others := ExpectedNet(a, d, accounts) - Accumulated(a.postings) * Has(accounts, a.category.expenseAccount);
    NetAsExpected(Sum(a.postings, AmountOf), Accumulated(a.postings), Has(accounts, a.category.expenseAccount),
                  Has(accounts, a.category.accumulatedAccount), others);
  }

  /** Where depreciation and the gain or loss on disposal are charged. */
  function ChargeAccounts(a: Asset, d: Disposal): set<AccountId> {
    {a.category.expenseAccount, d.gainLossAccount}
  }

  /** One account for each of the asset's roles. */
  predicate SeparateRoles(a: Asset, d: Disposal) {
    && a.category.accumulatedAccount
       !in {a.category.expenseAccount, a.category.assetAccount, d.proceedsAccount, d.gainLossAccount}
    && ChargeAccounts(a, d) !! {a.category.assetAccount, d.proceedsAccount}
  }

  lemma SeparateExpected(a: Asset, d: Disposal)
    requires SeparateRoles(a, d)
    ensures ExpectedNet(a, d, {a.category.accumulatedAccount}) == 0
    ensures ExpectedNet(a, d, ChargeAccounts(a, d)) == a.cost - d.proceeds
    ensures Has({a.category.accumulatedAccount}, a.category.expenseAccount) == 0
    ensures Has(ChargeAccounts(a, d), a.category.expenseAccount) == 1
    ensures Has(ChargeAccounts(a, d), a.category.accumulatedAccount) == 0
  {
    hide Accumulated;
  }

  /** In every reachable register, a disposed asset's entries net as expected on any accounts under that condition.
      Where its accounts have separate roles, this means that accumulated depreciation is cleared, and that expense plus
      loss less gain is what the asset cost less what it fetched, exactly when its months were run in increasing order.
      */
  lemma LifetimeConservation(steps: seq<RegisterStep>, r: Register, id: AssetId, accounts: set<AccountId>)
    requires Reaches(NEW_REGISTER, steps, r) && id in r.assets && r.assets[id].status == DISPOSED
    ensures r.assets[id].disposal.Some? && JournalsExist(r.ledger, Journals(r.assets[id]))
    ensures
      var a, d := r.assets[id], r.assets[id].disposal.value;
      && (NetOfEntries(r.ledger, Journals(a), OnAccounts(accounts)) == ExpectedNet(a, d, accounts)
          <==> Increasing(a.postings)
               || Has(accounts, a.category.expenseAccount) == Has(accounts, a.category.accumulatedAccount))
      && (SeparateRoles(a, d) ==>
            && (NetOfEntries(r.ledger, Journals(a), OnAccounts({a.category.accumulatedAccount})) == 0
                <==> Increasing(a.postings))
            && (NetOfEntries(r.ledger, Journals(a), OnAccounts(ChargeAccounts(a, d))) == a.cost - d.proceeds
                <==> Increasing(a.postings)))
  {
    hide Reaches, NetOfEntries, Journals, JournalsExist, Increasing, ExpectedNet, SeparateRoles;
    EveryRegisterSound(steps, r);
    var a := r.assets[id];
    assert AssetSound(r.ledger, a);
    LifetimeExactly(r.ledger, a, accounts);
    var d := a.disposal.value;
    if SeparateRoles(a, d) {
      SeparateExpected(a, d);
      LifetimeExactly(r.ledger, a, {a.category.accumulatedAccount});
      LifetimeExactly(r.ledger, a, ChargeAccounts(a, d));
    }
  }
}

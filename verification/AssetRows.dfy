/** What each call of the fixed-asset register accepts, and the rows and journal lines it leaves, column by column. */
module AssetRows {
  import opened Money
  import opened Calendar
  import opened Ledger
  import opened Depreciation
  import opened FixedAssets
  import opened AssetLifetime
  import opened EngineRows
  import opened RegisterRuns

  // ---- Acquisition ----

  lemma AcquireRows(r: Register, id: AssetId, t: Terms)
    ensures
      var o := Acquire(r, id, t);
      && o.result == (if t.category.None? then Err(NotFound) else if id in r.assets then Err(Conflict)
                      else if t.cost < t.residual then Err(BadRequest) else Ok(id))
      && o.register.ledger == r.ledger
      && (o.result.Err? ==> o.register.assets == r.assets)
      && (o.result.Ok? ==>
            && o.register.assets == r.assets[id := o.register.assets[id]]
            && var a := o.register.assets[id];
            && a.entity == t.entity && a.category == t.category.value && a.acquired == t.acquired
            && a.cost == Store(t.cost) && a.residual == Store(t.residual) && a.lifeYears == t.lifeYears
            && a.department == t.department && a.costCenter == t.costCenter
            && a.status == ACTIVE && a.lastThrough == None && a.postings == [] && a.disposal == None)
  {
  }

  // ---- Depreciation of one asset ----

  /** What has accumulated is what the row with the latest month says, and nothing without rows. */
  lemma {:induction false} AccumulatedRows(postings: seq<Posting>, k: nat)
    requires k < |postings| && forall i :: 0 <= i < |postings| && i != k ==> postings[i].month < postings[k].month
    ensures Latest(postings) == Some(postings[k]) && Accumulated(postings) == postings[k].accumulated
    ensures Accumulated([]) == 0
  {
    var n := |postings| - 1;
    if k < n {
      assert forall i :: 0 <= i < n ==> postings[..n][i] == postings[i];
      AccumulatedRows(postings[..n], k);
    } else if n > 0 {
      var earlier := Latest(postings[..n]);
      LatestIsRow(postings[..n]);
    }
  }

  lemma {:induction false} LatestIsRow(postings: seq<Posting>)
    ensures Latest(postings).Some? ==> Latest(postings).value in postings
  {
    if postings != [] {
      LatestIsRow(postings[..|postings| - 1]);
    }
  }

  function OnDepartment(a: Asset): Dimensions {
    Dimensions(None, None, None, None, None, a.department, a.costCenter, None, None, None)
  }

  /** A month of an asset that has it not yet and has something left: the expense account of the category is debited,
      with the asset's department and cost centre, and the accumulated depreciation account credited, on the first of
      the month, with the twelfth part of a year of the base in whole cents, or with what is left. */
  lemma DepreciationRows(l: Ledger, master: Master, a: Asset, month: int, user: UserId)
    requires ValidTerms(a) && History(Base(a), MonthlyCents(a), a.postings)
    ensures
      var d := Depreciate(l, master, a, month, user);
      var left := a.cost - a.residual - Accumulated(a.postings);
      var share := RoundHalfUp((a.cost - a.residual) as real / (a.lifeYears * 12) as real);
      var amount := if share <= left then share else left;
      var posted := exists k :: 0 <= k < |a.postings| && a.postings[k].month == month;
      && (posted ==> d == After(l, a, Ok(AlreadyPosted)))
      && (!posted && left == 0 ==> d == After(l, a.(status := FULLY_DEPRECIATED), Ok(AlreadyFull)))
      && (d.result == Ok(Depreciated) ==>
            && !posted && left > 0
            && EntryAdded(l, d.ledger, a.entity, Date(month / 12, month % 12, 0), user,
                          [Line(a.category.expenseAccount, amount, 0, a.entity, OnDepartment(a)),
                           Line(a.category.accumulatedAccount, 0, amount, a.entity, NOWHERE)])
            && |d.asset.postings| == |a.postings| + 1 && d.asset.postings[..|a.postings|] == a.postings
            && d.asset.lastThrough == Some(month)
            && var p := d.asset.postings[|a.postings|];
            && p.month == month && p.amount == amount && p.accumulated == Accumulated(a.postings) + amount
            && p.journal == |l.entries|)
      && (d.result.Err? ==> d.asset == a && d.ledger == l)
      && (!posted && left > 0 ==>
            var answer := PostSystem(l, master, DepreciationInput(a, month), user).result;
            d.result == if answer.Ok? then Ok(Depreciated) else Err(answer.error))
  {
    AccumulatedWithinBase(Base(a), MonthlyCents(a), a.postings);
    PostedRows(l, master, a, month, user);
    if Depreciate(l, master, a, month, user).result == Ok(Depreciated) {
      DepreciatePosts(l, master, a, month, user);
    }
    hide Accumulated, History, PostSystem, DepreciationLines, StoreLines;
  }

  lemma PostedRows(l: Ledger, master: Master, a: Asset, month: int, user: UserId)
    requires ValidTerms(a)
    ensures
      var d := Depreciate(l, master, a, month, user);
      var amount := RoundHalfUp(Share(a, Accumulated(a.postings)));
      && (d.result.Err? ==> d.ledger == l && d.asset == a)
      && (d.result == Ok(Depreciated) ==>
            && EntryAdded(l, d.ledger, a.entity, Date(month / 12, month % 12, 0), user,
                          [Line(a.category.expenseAccount, amount, 0, a.entity, OnDepartment(a)),
                           Line(a.category.accumulatedAccount, 0, amount, a.entity, NOWHERE)])
            && |d.asset.postings| == |a.postings| + 1 && d.asset.postings[|a.postings|].journal == |l.entries|)
  {
    hide Accumulated, Balanced, NoZeroLines, LinesPostable, Share, RoundHalfUp;
    var amount := RoundHalfUp(Share(a, Accumulated(a.postings)));
    StoreWhole(amount);
    StoreWhole(0);
    assert StoreLines(a.entity, DepreciationLines(a, amount))
           == [Line(a.category.expenseAccount, amount, 0, a.entity, OnDepartment(a)),
               Line(a.category.accumulatedAccount, 0, amount, a.entity, NOWHERE)];
  }

  // ---- A monthly run ----

  /** The assets a run takes: ACTIVE, of the entity if one is asked for, and acquired before the last second of the
      month. */
  lemma SelectedRows(r: Register, ids: seq<AssetId>, month: int, entity: Option<EntityId>, id: AssetId)
    requires Selects(r, ids, month, entity)
    ensures id in ids <==>
              && id in r.assets && r.assets[id].status == ACTIVE
              && (entity == None || entity == Some(r.assets[id].entity))
              && Time(r.assets[id].acquired) <= MonthStart(month + 1) - 1000
  {
    hide MonthStart, Time;
  }

  /** What a run that succeeds makes of an asset it takes. */
  predicate Handled(a: Asset, after: Asset, month: int) {
    var left := a.cost - a.residual - Accumulated(a.postings);
    if exists k :: 0 <= k < |a.postings| && a.postings[k].month == month then after == a
    else if left == 0 then after == a.(status := FULLY_DEPRECIATED)
    else
      && |after.postings| == |a.postings| + 1 && after.postings[..|a.postings|] == a.postings
      && after == a.(postings := after.postings, lastThrough := Some(month), status := after.status)
      && var p := after.postings[|a.postings|];
      && p.month == month && p.accumulated == Accumulated(a.postings) + p.amount && 1 <= p.amount <= left
      && (a.lifeYears >= 1 && p.amount < left ==>
            p.amount == RoundHalfUp((a.cost - a.residual) as real / (a.lifeYears * 12) as real))
  }

  lemma OneHandled(l: Ledger, master: Master, a: Asset, month: int, user: UserId)
    requires ValidTerms(a) && History(Base(a), MonthlyCents(a), a.postings)
    requires Depreciate(l, master, a, month, user).result.Ok?
    ensures Handled(a, Depreciate(l, master, a, month, user).asset, month)
  {
    DepreciationRows(l, master, a, month, user);
    AccumulatedWithinBase(Base(a), MonthlyCents(a), a.postings);
    if Depreciate(l, master, a, month, user).result == Ok(Depreciated) {
      DepreciatePosts(l, master, a, month, user);
    }
    hide Accumulated, History, PostSystem, Depreciate;
  }

  /** A run that succeeds handles every asset it takes once, and no other. */
  lemma {:induction false} RunRows(r: Register, master: Master, ids: seq<AssetId>, month: int, user: UserId,
                                   id: AssetId)
    requires AllHaveTerms(r) && (forall i :: i in ids ==> i in r.assets) && id in r.assets
    requires forall j, k :: 0 <= j < k < |ids| ==> ids[j] != ids[k]
    requires History(Base(r.assets[id]), MonthlyCents(r.assets[id]), r.assets[id].postings)
    requires DepreciateAll(r, master, ids, month, user).result.Ok?
    ensures
      var after := DepreciateAll(r, master, ids, month, user).register.assets;
      && id in after && (if id in ids then Handled(r.assets[id], after[id], month) else after[id] == r.assets[id])
    decreases |ids|
  {
    hide Depreciate, Handled, History;
    if ids != [] {
      var d := Depreciate(r.ledger, master, r.assets[ids[0]], month, user);
      var next := Register(d.ledger, r.assets[ids[0] := d.asset]);
      DepreciateKeepsTerms(r.ledger, master, r.assets[ids[0]], month, user);
      if ids[0] == id {
        OneHandled(r.ledger, master, r.assets[id], month, user);
        assert id !in ids[1..];
        RunSparesOthers(next, master, ids[1..], month, user, id);
      } else {
        RunRows(next, master, ids[1..], month, user, id);
      }
    }
  }

  /** A run that fails has handled the assets before the one the engine refuses, and stops there with the engine's
      error. */
  lemma {:induction false} RunStops(r: Register, master: Master, ids: seq<AssetId>, month: int, user: UserId)
    returns (k: nat)
    requires AllHaveTerms(r) && forall i :: i in ids ==> i in r.assets
    requires DepreciateAll(r, master, ids, month, user).result.Err?
    ensures k < |ids|
    ensures
      var o, before := DepreciateAll(r, master, ids, month, user), DepreciateAll(r, master, ids[..k], month, user);
      && before.result.Ok? && o.register == before.register && ids[k] in before.register.assets
      && AllHaveTerms(before.register)
      && Depreciate(before.register.ledger, master, before.register.assets[ids[k]], month, user).result.Err?
    decreases |ids|
  {
    hide Depreciate;
    var d := Depreciate(r.ledger, master, r.assets[ids[0]], month, user);
    var next := Register(d.ledger, r.assets[ids[0] := d.asset]);
    k := 0;
    if d.result.Err? {
      PostedRows(r.ledger, master, r.assets[ids[0]], month, user);
      assert next.assets == r.assets;
    } else {
      DepreciateKeepsTerms(r.ledger, master, r.assets[ids[0]], month, user);
      k := RunStops(next, master, ids[1..], month, user);
      assert ids[..k + 1][1..] == ids[1..][..k];
      k := k + 1;
    }
  }

  // ---- Disposal ----

  /** The disposal's journal lines: what has accumulated and what was fetched against the cost, and the gap, in whole
      cents, as a loss or a gain. */
  function DisposalEntry(a: Asset, d: DisposalInput): seq<Line> {
    var accumulated, proceeds := Accumulated(a.postings), RoundHalfUp(d.proceeds);
    var gap := d.proceeds - (a.cost - accumulated) as real;
    [Line(a.category.accumulatedAccount, accumulated, 0, a.entity, NOWHERE),
     Line(d.proceedsAccount, proceeds, 0, a.entity, NOWHERE),
     Line(a.category.assetAccount, 0, a.cost, a.entity, NOWHERE)]
    + (if -0.5 <= gap <= 0.5 then []
       else if gap > 0.5 then [Line(d.gainLossAccount, 0, RoundHalfUp(gap), a.entity, NOWHERE)]
       else [Line(d.gainLossAccount, RoundHalfUp(-gap), 0, a.entity, NOWHERE)])
  }

  lemma DisposalEntryStored(a: Asset, d: DisposalInput)
    ensures StoreLines(a.entity, DisposalLines(a, d)) == DisposalEntry(a, d)
  {
    var accumulated := Accumulated(a.postings);
    var gap := d.proceeds - (a.cost - accumulated) as real;
    StoreWhole(accumulated);
    StoreWhole(RoundHalfUp(d.proceeds));
    StoreWhole(a.cost);
    StoreWhole(RoundHalfUp(gap));
    StoreWhole(RoundHalfUp(-gap));
    StoreWhole(0);
    hide Accumulated, RoundHalfUp, Store;
  }

  /** disposeAsset: refused for an asset that is not there or is disposed of already, or by the engine; otherwise the
      record holds the rounded proceeds, cost less accumulation, and the rounded gain of the proceeds as supplied. */
  lemma DisposalRows(r: Register, master: Master, id: AssetId, d: DisposalInput, user: UserId)
    ensures
      var o := Dispose(r, master, id, d, user);
      && (id !in r.assets ==> o == RegisterOutcome(r, Err(NotFound)))
      && (id in r.assets && (r.assets[id].status == DISPOSED || r.assets[id].disposal.Some?) ==>
            o == RegisterOutcome(r, Err(Conflict)))
      && (id in r.assets && r.assets[id].status != DISPOSED && r.assets[id].disposal.None? ==>
            var a := r.assets[id];
            var answer := PostSystem(r.ledger, master, EntryInput(a.entity, d.date, DisposalLines(a, d)), user).result;
            o.result == if answer.Ok? then Ok(id) else answer)
      && (o.result.Err? ==> o.register == r)
      && (o.result.Ok? ==>
            && o.result.value == id && id in r.assets
            && o.register.assets == r.assets[id := o.register.assets[id]]
            && var a, after := r.assets[id], o.register.assets[id];
            && EntryAdded(r.ledger, o.register.ledger, a.entity, d.date, user, DisposalEntry(a, d))
            && after == a.(status := DISPOSED, disposal := after.disposal) && after.disposal.Some?
            && var record := after.disposal.value;
            && record.proceeds == RoundHalfUp(d.proceeds) && record.journal == |r.ledger.entries|
            && record.netBookValue == a.cost - Accumulated(a.postings)
            && record.gainLoss == RoundHalfUp(d.proceeds - (a.cost - Accumulated(a.postings)) as real)
            && record.proceedsAccount == d.proceedsAccount && record.gainLossAccount == d.gainLossAccount)
  {
    hide Accumulated, Balanced, NoZeroLines, LinesPostable, DisposalLines, DisposalEntry, RoundHalfUp, StoreLines;
    if id in r.assets {
      DisposalEntryStored(r.assets[id], d);
    }
  }

  /** The rounded gain is the rounded proceeds less the net book value. */
  lemma GainIsRounded(a: Asset, d: DisposalInput)
    ensures RoundHalfUp(d.proceeds - (a.cost - Accumulated(a.postings)) as real)
            == RoundHalfUp(d.proceeds) - (a.cost - Accumulated(a.postings))
  {
    RoundedSum(-(a.cost - Accumulated(a.postings)), d.proceeds);
    hide Accumulated;
  }
}

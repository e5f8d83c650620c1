/** What holds of every asset after every run of the register. */
module AssetLifetime {
  import opened Money
  import opened Sums
  import opened Calendar
  import opened Ledger
  import opened Kernel
  import opened LedgerRuns
  import opened Depreciation
  import opened FixedAssets

  // ---- One call ----

  lemma {:induction false} AccumulatedWithinBase(base: int, monthly: int, postings: seq<Posting>)
    requires base >= 0 && History(base, monthly, postings)
    ensures 0 <= Accumulated(postings) <= base
    ensures postings != [] ==> Accumulated(postings) >= 1
  {
    LatestIsMaximum(postings);
    if postings != [] {
      var k :| 0 <= k < |postings| && postings[k] == Latest(postings).value;
      assert Follows(base, monthly, postings, k);
      HistoryPrefix(base, monthly, postings, k);
      AccumulatedWithinBase(base, monthly, postings[..k]);
    }
  }

  /** A depreciation call that posts takes the monthly cents or the rest of the base. The net book value
      it stores is cost less accumulation, except that a share falling on half a cent leaves it a cent high. */
  lemma DepreciatePosts(l: Ledger, master: Master, a: Asset, month: int, user: UserId)
    requires ValidTerms(a) && History(Base(a), MonthlyCents(a), a.postings)
    requires Depreciate(l, master, a, month, user).result == Ok(Depreciated)
    ensures
      var after := Depreciate(l, master, a, month, user).asset;
      var prior := Accumulated(a.postings);
      && |after.postings| == |a.postings| + 1
      && var p := after.postings[|a.postings|];
      && after == a.(postings := a.postings + [p], lastThrough := Some(month), status := after.status)
      && p.month == month && !HasMonth(a.postings, month)
      && p.amount == MinInt(MonthlyCents(a), Base(a) - prior) >= 1
      && p.accumulated == prior + p.amount
      && p.netBookValue == a.cost - p.accumulated + (if HalfCent(Share(a, prior)) then 1 else 0)
  {
    var prior := Accumulated(a.postings);
    var remaining := Base(a) - prior;
    var amount := Share(a, prior);
    RoundedMin(Monthly(a), remaining);
    RoundedSum(prior, amount);
    RoundedDifference(a.cost - prior, amount);
    assert a.cost as real - (prior as real + amount) == (a.cost - prior) as real - amount;
    var lines := DepreciationLines(a, RoundHalfUp(amount));
    assert lines[0] in lines;
  }

  /** The asset becomes fully depreciated in exactly the call whose stored accumulation reaches cost;
      with a residual value no call that posts ever does that. */
  lemma FullWhenCostReached(l: Ledger, master: Master, a: Asset, month: int, user: UserId)
    requires ValidTerms(a) && History(Base(a), MonthlyCents(a), a.postings)
    requires Depreciate(l, master, a, month, user).result == Ok(Depreciated)
    ensures
      var after := Depreciate(l, master, a, month, user).asset;
      && (after.status == FULLY_DEPRECIATED
          <==> Accumulated(a.postings) + MinInt(MonthlyCents(a), Base(a) - Accumulated(a.postings)) == a.cost)
      && (after.status != FULLY_DEPRECIATED ==> after.status == ACTIVE)
      && (after.status == FULLY_DEPRECIATED ==> a.residual == 0)
  {
    var prior := Accumulated(a.postings);
    AccumulatedWithinBase(Base(a), MonthlyCents(a), a.postings);
    StatusTest(a.cost, prior, Base(a) - prior, Monthly(a));
  }

  lemma StatusTest(cost: int, prior: int, remaining: int, monthly: real)
    requires prior + remaining <= cost
    ensures cost as real - (prior as real + Min(monthly, remaining as real)) <= TOLERANCE
            <==> prior + MinInt(RoundHalfUp(monthly), remaining) == cost
  {
  }

  /** A month already posted changes nothing; an asset with nothing left posts nothing; and an asset with
      less than half a cent a month can never post. */
  lemma DepreciateOtherwise(l: Ledger, master: Master, a: Asset, month: int, user: UserId)
    requires ValidTerms(a) && History(Base(a), MonthlyCents(a), a.postings)
    ensures
      var d := Depreciate(l, master, a, month, user);
      && (HasMonth(a.postings, month) ==> d == After(l, a, Ok(AlreadyPosted)))
      && (!HasMonth(a.postings, month) ==>
            (d.result == Ok(AlreadyFull) <==> Accumulated(a.postings) == Base(a))
            && (d.result == Ok(AlreadyFull) ==> d == After(l, a.(status := FULLY_DEPRECIATED), Ok(AlreadyFull)))
            && (MonthlyCents(a) < 1 && Accumulated(a.postings) < Base(a) ==> d == After(l, a, Err(BadRequest))))
  {
    AccumulatedWithinBase(Base(a), MonthlyCents(a), a.postings);
    var remaining := Base(a) - Accumulated(a.postings);
    if !HasMonth(a.postings, month) && remaining > 0 && MonthlyCents(a) < 1 {
      RoundedMin(Monthly(a), remaining);
      var amount := RoundHalfUp(Share(a, Accumulated(a.postings)));
      assert Monthly(a) >= 0.0;
      assert amount == 0;
      var lines := DepreciationLines(a, 0);
      assert lines[0] in lines;
    }
  }

  /** In an open month with usable accounts, an asset with something left does post. */
  predicate CanPost(l: Ledger, master: Master, a: Asset, month: int) {
    && a.entity in master.activeEntities
    && (a.entity, a.category.expenseAccount) in master.postable
    && (a.entity, a.category.accumulatedAccount) in master.postable
    && WithPeriod(l.periods, PeriodOf(a.entity, StartOfMonth(month)))[PeriodOf(a.entity, StartOfMonth(month))] == OPEN
  }

  lemma DepreciationLinesBalance(a: Asset, amount: int)
    requires amount >= 1
    ensures Balanced(DepreciationLines(a, amount)) && NoZeroLines(DepreciationLines(a, amount))
  {
    var lines := DepreciationLines(a, amount);
    assert lines == [lines[0]] + [lines[1]] && [lines[0]] == [] + [lines[0]];
    SumRealAppend([lines[0]], lines[1], InputDebit);
    SumRealAppend([lines[0]], lines[1], InputCredit);
    SumRealAppend([], lines[0], InputDebit);
    SumRealAppend([], lines[0], InputCredit);
  }

  lemma DepreciatePostsWhenLeft(l: Ledger, master: Master, a: Asset, month: int, user: UserId)
    requires ValidTerms(a) && History(Base(a), MonthlyCents(a), a.postings) && MonthlyCents(a) >= 1
    requires !HasMonth(a.postings, month) && CanPost(l, master, a, month)
    ensures Depreciate(l, master, a, month, user).result ==
            Ok(if Accumulated(a.postings) < Base(a) then Depreciated else AlreadyFull)
  {
    AccumulatedWithinBase(Base(a), MonthlyCents(a), a.postings);
    var remaining := Base(a) - Accumulated(a.postings);
    if remaining > 0 {
      RoundedMin(Monthly(a), remaining);
      DepreciationLinesBalance(a, RoundHalfUp(Share(a, Accumulated(a.postings))));
    }
  }

  // ---- Every asset, in every reachable register ----

  /** Entry j of the journal has these lines. */
  predicate Wrote(l: Ledger, j: EntryId, lines: seq<Line>) {
    j < |l.entries| && l.entries[j].lines == lines && InBooks(l.entries[j])
  }

  lemma WroteKept(l: Ledger, later: Ledger, j: EntryId, lines: seq<Line>)
    requires Wrote(l, j, lines) && Extends(l, later)
    ensures Wrote(later, j, lines)
  {
    assert Matures(l, l.entries[j], later.entries[j]);
  }

  function StoredDepreciation(a: Asset, amount: int): seq<Line> {
    var expense := NO_DIMENSIONS.(department := a.department, costCenter := a.costCenter);
    [Line(a.category.expenseAccount, amount, 0, a.entity, expense),
     Line(a.category.accumulatedAccount, 0, amount, a.entity, NO_DIMENSIONS)]
  }

  /** The disposal clears the accumulation and the cost against the proceeds, and the gap is gain or loss. */
  function StoredDisposal(a: Asset, d: Disposal): seq<Line> {
    var accumulated := Accumulated(a.postings);
    var gain := d.proceeds - (a.cost - accumulated);
    [Line(a.category.accumulatedAccount, accumulated, 0, a.entity, NO_DIMENSIONS),
     Line(d.proceedsAccount, d.proceeds, 0, a.entity, NO_DIMENSIONS),
     Line(a.category.assetAccount, 0, a.cost, a.entity, NO_DIMENSIONS)]
    + (if gain == 0 then []
       else if gain > 0 then [Line(d.gainLossAccount, 0, gain, a.entity, NO_DIMENSIONS)]
       else [Line(d.gainLossAccount, -gain, 0, a.entity, NO_DIMENSIONS)])
  }

  predicate AssetSound(l: Ledger, a: Asset) {
    && ValidTerms(a)
    && History(Base(a), MonthlyCents(a), a.postings)
    && (forall k :: 0 <= k < |a.postings| ==>
          Wrote(l, a.postings[k].journal, StoredDepreciation(a, a.postings[k].amount)))
    && (a.disposal.Some? <==> a.status == DISPOSED)
    && (a.disposal.Some? ==> Wrote(l, a.disposal.value.journal, StoredDisposal(a, a.disposal.value)))
  }

  lemma AssetSoundKept(l: Ledger, later: Ledger, a: Asset)
    requires AssetSound(l, a) && Extends(l, later)
    ensures AssetSound(later, a)
  {
    forall k | 0 <= k < |a.postings|
      ensures Wrote(later, a.postings[k].journal, StoredDepreciation(a, a.postings[k].amount))
    {
      WroteKept(l, later, a.postings[k].journal, StoredDepreciation(a, a.postings[k].amount));
    }
    if a.disposal.Some? {
      WroteKept(l, later, a.disposal.value.journal, StoredDisposal(a, a.disposal.value));
    }
  }

  lemma PostSystemSound(l: Ledger, master: Master, input: EntryInput, user: UserId)
    requires Sound(l)
    ensures
      var o := PostSystem(l, master, input, user);
      && Sound(o.ledger) && Extends(l, o.ledger)
      && (o.result.Ok? ==> Wrote(o.ledger, o.result.value, StoreLines(input.entity, input.lines)))
      && (o.result.Err? ==> o.ledger == l)
  {
    StepSound(l, Step(master, OpPostSystem(input, user)));
  }

  lemma StoreDepreciationLines(a: Asset, amount: int)
    ensures StoreLines(a.entity, DepreciationLines(a, amount)) == StoredDepreciation(a, amount)
  {
    StoreWhole(amount);
  }

  /** The entry depreciation asks for, whether or not the engine takes it. */
  lemma DepreciationEntrySound(l: Ledger, master: Master, a: Asset, month: int, user: UserId)
    requires Sound(l) && AssetSound(l, a)
    ensures
      var o := PostSystem(l, master, DepreciationInput(a, month), user);
      && Sound(o.ledger) && Extends(l, o.ledger) && AssetSound(o.ledger, a)
      && (o.result.Ok? ==>
            Wrote(o.ledger, o.result.value, StoredDepreciation(a, RoundHalfUp(Share(a, Accumulated(a.postings))))))
  {
    PostSystemSound(l, master, DepreciationInput(a, month), user);
    AssetSoundKept(l, PostSystem(l, master, DepreciationInput(a, month), user).ledger, a);
    StoreDepreciationLines(a, RoundHalfUp(Share(a, Accumulated(a.postings))));
  }

  /** What the posting call of depreciation means for the asset, given what its journal entry wrote. */
  lemma PostedAssetSound(l: Ledger, master: Master, a: Asset, month: int, user: UserId, later: Ledger)
    requires AssetSound(later, a) && a.disposal.None?
    requires Depreciate(l, master, a, month, user).result == Ok(Depreciated)
    requires
      var amount := RoundHalfUp(Share(a, Accumulated(a.postings)));
      var p := Depreciate(l, master, a, month, user).asset.postings[|a.postings|..];
      |p| == 1 && Wrote(later, p[0].journal, StoredDepreciation(a, amount))
    ensures AssetSound(later, Depreciate(l, master, a, month, user).asset)
  {
    hide PostSystem, Wrote, Accumulated;
    var after := Depreciate(l, master, a, month, user).asset;
    var p := after.postings[|a.postings|];
    DepreciatePosts(l, master, a, month, user);
    FullWhenCostReached(l, master, a, month, user);
    RoundedMin(Monthly(a), Base(a) - Accumulated(a.postings));
    HistoryGrows(Base(a), MonthlyCents(a), a.postings, p);
    forall k | 0 <= k < |after.postings|
      ensures Wrote(later, after.postings[k].journal, StoredDepreciation(after, after.postings[k].amount))
    {
      if k < |a.postings| {
        assert Wrote(later, a.postings[k].journal, StoredDepreciation(a, a.postings[k].amount));
      }
    }
  }

  lemma DepreciateUsesEngine(l: Ledger, master: Master, a: Asset, month: int, user: UserId)
    requires ValidTerms(a)
    ensures
      var d, o := Depreciate(l, master, a, month, user), PostSystem(l, master, DepreciationInput(a, month), user);
      match d.result
      case Ok(Depreciated) => d.ledger == o.ledger && o.result.Ok? &&
        |d.asset.postings| == |a.postings| + 1 && d.asset.postings[|a.postings|].journal == o.result.value
      case Ok(_) => d.ledger == l && (d.asset == a || d.asset == a.(status := FULLY_DEPRECIATED))
      case Err(_) => d.ledger == o.ledger && d.asset == a
  {
  }

  lemma StatusKeepsSound(l: Ledger, a: Asset, status: AssetStatus)
    requires AssetSound(l, a) && a.disposal.None? && status != DISPOSED
    ensures AssetSound(l, a.(status := status))
  {
    var after := a.(status := status);
    assert forall amount :: StoredDepreciation(after, amount) == StoredDepreciation(a, amount);
    hide Wrote, StoredDepreciation, History;
  }

  lemma SameLedger(l: Ledger)
    requires Sound(l)
    ensures Extends(l, l)
  {
    RunSound(l, []);
  }

  lemma DepreciateSound(l: Ledger, master: Master, a: Asset, month: int, user: UserId)
    requires Sound(l) && AssetSound(l, a) && a.status == ACTIVE
    ensures
      var d := Depreciate(l, master, a, month, user);
      Sound(d.ledger) && Extends(l, d.ledger) && AssetSound(d.ledger, d.asset)
  {
    hide PostSystem, Sound, Extends, Share, RoundHalfUp, Depreciate, DepreciationInput, StoredDepreciation, Wrote;
    var d := Depreciate(l, master, a, month, user);
    SameLedger(l);
    DepreciateUsesEngine(l, master, a, month, user);
    DepreciationEntrySound(l, master, a, month, user);
    StatusKeepsSound(l, a, FULLY_DEPRECIATED);
    if d.result == Ok(Depreciated) {
      assert d.asset.postings[|a.postings|..] == [d.asset.postings[|a.postings|]];
      PostedAssetSound(l, master, a, month, user, d.ledger);
    }
  }

  // ---- Disposal ----

  /** The fractions of a cent in the proceeds that unbalance the rounded entry: exactly half a cent,
      unless the proceeds beat the net book value by more than half a cent or miss it by exactly that. */
  predicate ProceedsUnbalance(netBookValue: int, proceeds: real) {
    HalfCent(proceeds) && proceeds <= netBookValue as real + 0.5 && proceeds != netBookValue as real - 0.5
  }

  /** The disposal entry passes the engine's checks exactly when something has been depreciated, the
      proceeds round to a cent or more, and they do not fall on an unbalancing half cent. */
  lemma DisposalAccepted(a: Asset, d: DisposalInput)
    requires ValidTerms(a) && History(Base(a), MonthlyCents(a), a.postings) && d.proceeds >= 0.0
    ensures Balanced(DisposalLines(a, d)) && NoZeroLines(DisposalLines(a, d)) <==>
            Accumulated(a.postings) > 0 && RoundHalfUp(d.proceeds) > 0
            && !ProceedsUnbalance(a.cost - Accumulated(a.postings), d.proceeds)
  {
    var accumulated, proceeds := Accumulated(a.postings), RoundHalfUp(d.proceeds);
    var netBookValue := a.cost - accumulated;
    hide Accumulated, History, RoundHalfUp, SumReal, HalfCent, GainLossLine, DisposalLines, NoZeroLines;
    AccumulatedWithinBase(Base(a), MonthlyCents(a), a.postings);
    DisposalGap(netBookValue, d.proceeds);
    DisposalTotals(a, d);
    DisposalOneSided(a, d);
  }

  lemma DisposalOneSided(a: Asset, d: DisposalInput)
    requires ValidTerms(a) && Accumulated(a.postings) <= a.cost && d.proceeds >= 0.0
    ensures NoZeroLines(DisposalLines(a, d)) <==>
            Accumulated(a.postings) != 0 && RoundHalfUp(d.proceeds) != 0 && a.cost != 0
  {
    hide Accumulated;
    var lines := DisposalLines(a, d);
    assert lines[0] in lines && lines[1] in lines && lines[2] in lines && (|lines| > 3 ==> lines[3] in lines);
    assert forall line :: line in lines ==>
          line == lines[0] || line == lines[1] || line == lines[2] || (|lines| > 3 && line == lines[3]);
  }

  /** The gain or loss line as it is rounded: what is left over when the proceeds are rounded first. */
  function GainLossLine(netBookValue: int, proceeds: real): int {
    var gainLoss := proceeds - netBookValue as real;
    if Abs(gainLoss) <= TOLERANCE then 0
    else if gainLoss > 0.0 then RoundHalfUp(gainLoss) else -RoundHalfUp(-gainLoss)
  }

  lemma DisposalGap(netBookValue: int, proceeds: real)
    ensures RoundHalfUp(proceeds) - netBookValue - GainLossLine(netBookValue, proceeds) ==
            if ProceedsUnbalance(netBookValue, proceeds) then 1 else 0
    ensures Abs(proceeds - netBookValue as real) > TOLERANCE ==> GainLossLine(netBookValue, proceeds) != 0
  {
    RoundedSum(-netBookValue, proceeds);
    RoundedDifference(netBookValue, proceeds);
  }

  lemma DisposalTotals(a: Asset, d: DisposalInput)
    ensures
      var accumulated, proceeds := Accumulated(a.postings), RoundHalfUp(d.proceeds);
      var line := GainLossLine(a.cost - accumulated, d.proceeds);
      SumReal(DisposalLines(a, d), InputDebit) - SumReal(DisposalLines(a, d), InputCredit)
      == (accumulated + proceeds - a.cost - line) as real
      && (accumulated > 0 && proceeds >= 0 ==> SumReal(DisposalLines(a, d), InputDebit) != 0.0)
  {
    var lines := DisposalLines(a, d);
    SumRealOfThree(lines[0], lines[1], lines[2], InputDebit);
    SumRealOfThree(lines[0], lines[1], lines[2], InputCredit);
    assert lines[..3] == [lines[0], lines[1], lines[2]];
    if |lines| > 3 {
      assert lines == lines[..3] + [lines[3]];
      SumRealAppend(lines[..3], lines[3], InputDebit);
      SumRealAppend(lines[..3], lines[3], InputCredit);
    } else {
      assert lines == lines[..3];
    }
  }
}

/** When an asset of a register counts as fully depreciated. */
module RegisterStatus {
  import opened Money
  import opened Ledger
  import opened LedgerRuns
  import opened Depreciation
  import opened FixedAssets
  import opened AssetLifetime
  import opened RegisterRuns

  /** An asset that has something to depreciate and nothing to keep is full when its last posting stored an accumulation
      of cost, which none before it did. */
  predicate StatusSound(a: Asset) {
    a.residual == 0 < a.cost && a.status != DISPOSED ==>
      && (a.status == FULLY_DEPRECIATED <==>
            a.postings != [] && a.postings[|a.postings| - 1].accumulated == a.cost)
      && forall k :: 0 <= k < |a.postings| - 1 ==> a.postings[k].accumulated < a.cost
  }

  predicate StatusesSound(r: Register) {
    forall id :: id in r.assets ==> StatusSound(r.assets[id])
  }

  lemma NothingStoredAboveBase(base: int, monthly: int, postings: seq<Posting>, k: nat)
    requires base >= 0 && History(base, monthly, postings) && k < |postings|
    ensures postings[k].accumulated <= base
  {
    assert Follows(base, monthly, postings, k);
  }

  lemma ActiveIsBelowCost(a: Asset)
    requires ValidTerms(a) && History(Base(a), MonthlyCents(a), a.postings) && StatusSound(a)
    requires a.residual == 0 < a.cost && a.status == ACTIVE
    ensures Accumulated(a.postings) < a.cost
    ensures forall k :: 0 <= k < |a.postings| ==> a.postings[k].accumulated < a.cost
  {
    hide MonthlyCents, History;
    forall k | 0 <= k < |a.postings|
      ensures a.postings[k].accumulated < a.cost
    {
      NothingStoredAboveBase(Base(a), MonthlyCents(a), a.postings, k);
    }
    LatestIsMaximum(a.postings);
    if a.postings != [] {
      var k :| 0 <= k < |a.postings| && a.postings[k] == Latest(a.postings).value;
    }
  }

  lemma DepreciateKeepsStatus(l: Ledger, master: Master, a: Asset, month: int, user: UserId)
    requires AssetSound(l, a) && StatusSound(a) && a.status == ACTIVE
    ensures StatusSound(Depreciate(l, master, a, month, user).asset)
  {
    var d := Depreciate(l, master, a, month, user);
    hide Depreciate, History, MonthlyCents, Accumulated;
    DepreciateOtherwise(l, master, a, month, user);
    DepreciateUsesEngine(l, master, a, month, user);
    if a.residual == 0 < a.cost {
      ActiveIsBelowCost(a);
      if d.result == Ok(Depreciated) {
        DepreciatePosts(l, master, a, month, user);
        FullWhenCostReached(l, master, a, month, user);
      }
    }
  }

  lemma {:induction false} RunKeepsStatuses(r: Register, master: Master, ids: seq<AssetId>, month: int, user: UserId)
    requires RegisterSound(r) && AllHaveTerms(r) && StatusesSound(r)
    requires forall j, k :: 0 <= j < k < |ids| ==> ids[j] != ids[k]
    requires forall id :: id in ids ==> id in r.assets && r.assets[id].status == ACTIVE
    ensures StatusesSound(DepreciateAll(r, master, ids, month, user).register)
    decreases |ids|
  {
    hide StatusSound, AssetSound, Sound, Depreciate;
    if ids != [] {
      var d := Depreciate(r.ledger, master, r.assets[ids[0]], month, user);
      var next := Register(d.ledger, r.assets[ids[0] := d.asset]);
      OneDepreciatedSound(r, master, ids[0], month, user);
      DepreciateKeepsTerms(r.ledger, master, r.assets[ids[0]], month, user);
      DepreciateKeepsStatus(r.ledger, master, r.assets[ids[0]], month, user);
      if d.result.Ok? {
        RunKeepsStatuses(next, master, ids[1..], month, user);
      }
    }
  }

  lemma StepKeepsStatuses(r: Register, s: RegisterStep)
    requires RegisterSound(r) && Admissible(r, s) && StatusesSound(r)
    ensures StatusesSound(ApplyRegister(r, s))
  {
    hide PostSystem, Depreciate, DepreciateAll, DisposalLines, RegisterSound;
    if s.RunMonth? {
      RunKeepsStatuses(r, s.master, s.ids, s.month, s.user);
    }
  }

  lemma {:induction false} ReachableStatuses(r: Register, steps: seq<RegisterStep>, later: Register)
    requires RegisterSound(r) && StatusesSound(r) && Reaches(r, steps, later)
    ensures RegisterSound(later) && StatusesSound(later)
    decreases |steps|
  {
    hide RegisterSound, StatusesSound, Admissible, ApplyRegister;
    if steps != [] {
      RegisterStepSound(r, steps[0]);
      StepKeepsStatuses(r, steps[0]);
      ReachableStatuses(ApplyRegister(r, steps[0]), steps[1..], later);
    }
  }

  lemma IncreasingReachesCost(a: Asset)
    requires ValidTerms(a) && History(Base(a), MonthlyCents(a), a.postings) && Increasing(a.postings)
    requires StatusSound(a) && a.residual == 0 < a.cost && a.status != DISPOSED
    ensures a.status == FULLY_DEPRECIATED <==> Accumulated(a.postings) == a.cost
  {
    if a.postings != [] {
      IncreasingLatest(a.postings);
    }
  }

  lemma FullReachesCost(a: Asset)
    requires StatusSound(a) && a.residual == 0 < a.cost && a.status == FULLY_DEPRECIATED
    ensures a.postings != []
    ensures Accumulated(a.postings) == a.cost <==> Latest(a.postings) == Some(a.postings[|a.postings| - 1])
  {
    LatestIsMaximum(a.postings);
    var k :| 0 <= k < |a.postings| && a.postings[k] == Latest(a.postings).value;
  }

  /** In every reachable register, an asset that is not disposed of, costs something and keeps no residual value is
      fully depreciated exactly when its accumulation is its cost, if its months were run in increasing order. In any
      order, the accumulation of one that is fully depreciated is its cost exactly when the month run last is the
      latest. */
  lemma FullExactly(steps: seq<RegisterStep>, r: Register, id: AssetId)
    requires Reaches(NEW_REGISTER, steps, r) && id in r.assets && r.assets[id].status != DISPOSED
    requires r.assets[id].residual == 0 < r.assets[id].cost
    ensures
      var a := r.assets[id];
      && (Increasing(a.postings) ==> (a.status == FULLY_DEPRECIATED <==> Accumulated(a.postings) == a.cost))
      && (a.status == FULLY_DEPRECIATED ==>
            a.postings != []
            && (Accumulated(a.postings) == a.cost <==> Latest(a.postings) == Some(a.postings[|a.postings| - 1])))
  {
    hide Reaches, StatusSound, History, MonthlyCents, Increasing, Latest, Accumulated;
    var a := r.assets[id];
    EveryRegisterSound([], NEW_REGISTER);
    ReachableStatuses(NEW_REGISTER, steps, r);
    assert AssetSound(r.ledger, a) && StatusSound(a);
    if Increasing(a.postings) {
      IncreasingReachesCost(a);
    }
    if a.status == FULLY_DEPRECIATED {
      FullReachesCost(a);
    }
  }
}

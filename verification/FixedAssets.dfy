/** The fixed-asset register: depreciation runs and disposals over a posting engine. */
module FixedAssets {
  import opened Money
  import opened Calendar
  import opened Ledger
  import opened Depreciation
  import opened PostingEngine

  type AssetId = nat

  datatype Register = Register(ledger: Ledger, assets: map<AssetId, Asset>)

  datatype RegisterOutcome = RegisterOutcome(register: Register, result: Result<nat>)

  // ---- Acquisition ----

  datatype Terms = Terms(
    entity: EntityId, category: Option<Category>, acquired: Date, cost: real, residual: real, lifeYears: nat,
    department: Option<nat>, costCenter: Option<nat>)

  /** The bounds CreateFixedAssetDto puts on its numbers. */
  predicate ValidInput(t: Terms) {
    t.cost >= 0.0 && t.residual >= 0.0 && t.lifeYears >= 1
  }

  function Acquire(r: Register, id: AssetId, t: Terms): RegisterOutcome {
    if t.category.None? then RegisterOutcome(r, Err(NotFound))
    else if id in r.assets then RegisterOutcome(r, Err(Conflict))
    else if t.residual > t.cost then RegisterOutcome(r, Err(BadRequest))
    else
      var a := Asset(t.entity, t.category.value, t.acquired, Store(t.cost), Store(t.residual), t.lifeYears,
                     t.department, t.costCenter, ACTIVE, None, [], None);
      RegisterOutcome(r.(assets := r.assets[id := a]), Ok(id))
  }

  // ---- The monthly run ----

  predicate Eligible(a: Asset, month: int, entity: Option<EntityId>) {
    && a.status == ACTIVE
    && (entity.Some? ==> a.entity == entity.value)
    && Time(a.acquired) <= EndOfMonth(month)
  }

  /** ids is the result of the query for eligible assets, in whatever order the database gives it. */
  predicate Selects(r: Register, ids: seq<AssetId>, month: int, entity: Option<EntityId>) {
    && (forall j, k :: 0 <= j < k < |ids| ==> ids[j] != ids[k])
    && (forall id :: id in ids ==> id in r.assets && Eligible(r.assets[id], month, entity))
    && (forall id :: id in r.assets && Eligible(r.assets[id], month, entity) ==> id in ids)
  }

  predicate AllHaveTerms(r: Register) {
    forall id :: id in r.assets ==> ValidTerms(r.assets[id])
  }

  /** The assets in turn; the first that fails ends the run and leaves the ones before it depreciated. */
  function DepreciateAll(r: Register, master: Master, ids: seq<AssetId>, month: int, user: UserId): (o: RegisterOutcome)
    requires AllHaveTerms(r) && forall id :: id in ids ==> id in r.assets
    ensures AllHaveTerms(o.register)
    decreases |ids|
  {
    if ids == [] then RegisterOutcome(r, Ok(0))
    else
      var d := Depreciate(r.ledger, master, r.assets[ids[0]], month, user);
      var next := Register(d.ledger, r.assets[ids[0] := d.asset]);
      match d.result
      case Err(e) => RegisterOutcome(next, Err(e))
      case Ok(_) => DepreciateAll(next, master, ids[1..], month, user)
  }

  lemma DepreciateKeepsTerms(l: Ledger, master: Master, a: Asset, month: int, user: UserId)
    requires ValidTerms(a)
    ensures ValidTerms(Depreciate(l, master, a, month, user).asset)
  {
  }

  // ---- Disposal ----

  datatype DisposalInput = DisposalInput(date: Date, proceeds: real, proceedsAccount: AccountId,
                                         gainLossAccount: AccountId)

  function DisposalLines(a: Asset, d: DisposalInput): seq<LineInput> {
    var accumulated := Accumulated(a.postings);
    var gainLoss := d.proceeds - (a.cost - accumulated) as real;
    var lines := [
      LineInput(a.category.accumulatedAccount, accumulated as real, 0.0, NO_DIMENSIONS),
      LineInput(d.proceedsAccount, RoundHalfUp(d.proceeds) as real, 0.0, NO_DIMENSIONS),
      LineInput(a.category.assetAccount, 0.0, a.cost as real, NO_DIMENSIONS)];
    if Abs(gainLoss) <= TOLERANCE then lines
    else if gainLoss > 0.0 then
      lines + [LineInput(d.gainLossAccount, 0.0, RoundHalfUp(gainLoss) as real, NO_DIMENSIONS)]
    else lines + [LineInput(d.gainLossAccount, RoundHalfUp(-gainLoss) as real, 0.0, NO_DIMENSIONS)]
  }

  function Dispose(r: Register, master: Master, id: AssetId, d: DisposalInput, user: UserId): RegisterOutcome {
    if id !in r.assets then RegisterOutcome(r, Err(NotFound))
    else
      var a := r.assets[id];
      if a.status == DISPOSED || a.disposal.Some? then RegisterOutcome(r, Err(Conflict))
      else
        var netBookValue := a.cost - Accumulated(a.postings);
        var posted := PostSystem(r.ledger, master, EntryInput(a.entity, d.date, DisposalLines(a, d)), user);
        match posted.result
        case Err(e) => RegisterOutcome(r.(ledger := posted.ledger), Err(e))
        case Ok(journal) =>
          var disposal := Disposal(RoundHalfUp(d.proceeds), netBookValue,
                                   RoundHalfUp(d.proceeds - netBookValue as real),
                                   journal, d.proceedsAccount, d.gainLossAccount);
          var disposed := a.(status := DISPOSED, disposal := Some(disposal));
          RegisterOutcome(Register(posted.ledger, r.assets[id := disposed]), Ok(id))
  }

  // ---- The service ----

  class AssetService {
    const engine: Engine
    var assets: map<AssetId, Asset>

    constructor (engine: Engine)
      ensures this.engine == engine && assets == map[]
    {
      this.engine := engine;
      assets := map[];
    }

    function State(): Register
      reads this, engine
    {
      Register(engine.Books(), assets)
    }

    method CreateFixedAsset(id: AssetId, t: Terms) returns (result: Result<nat>)
      requires ValidInput(t)
      modifies this
      ensures RegisterOutcome(State(), result) == Acquire(old(State()), id, t)
    {
      if t.category.None? {
        return Err(NotFound);
      }
      if id in assets {
        return Err(Conflict);
      }
      if t.residual > t.cost {
        return Err(BadRequest);
      }
      var asset := Asset(t.entity, t.category.value, t.acquired, Store(t.cost), Store(t.residual), t.lifeYears,
                         t.department, t.costCenter, ACTIVE, None, [], None);
      assets := assets[id := asset];
      return Ok(id);
    }

    method RunDepreciation(master: Master, periodDate: Date, entity: Option<EntityId>, ids: seq<AssetId>, user: UserId)
      returns (result: Result<nat>)
      requires AllHaveTerms(State()) && Selects(State(), ids, MonthIndex(periodDate), entity)
      modifies this, engine
      ensures RegisterOutcome(State(), result) == DepreciateAll(old(State()), master, ids, MonthIndex(periodDate), user)
    {
      hide Depreciate, PostSystem, Eligible;
      var month := MonthIndex(periodDate);
      for i := 0 to |ids|
        invariant AllHaveTerms(State()) && forall id :: id in ids ==> id in assets
        invariant DepreciateAll(old(State()), master, ids, month, user) ==
                  DepreciateAll(State(), master, ids[i..], month, user)
      {
        assert ids[i..][0] == ids[i] && ids[i..][1..] == ids[i + 1..];
        DepreciateKeepsTerms(engine.Books(), master, assets[ids[i]], month, user);
        var handled := DepreciateAsset(master, ids[i], month, user);
        if handled.Err? {
          return Err(handled.error);
        }
      }
      return Ok(0);
    }

    method DepreciateAsset(master: Master, id: AssetId, month: int, user: UserId) returns (result: Result<Handling>)
      requires id in assets && ValidTerms(assets[id])
      modifies this, engine
      ensures id in assets && assets == old(assets)[id := assets[id]]
      ensures After(engine.Books(), assets[id], result) ==
              Depreciate(old(engine.Books()), master, old(assets[id]), month, user)
    {
      hide PostSystem, Accumulated, RoundHalfUp, DepreciationLines, HasMonth;
      var asset := assets[id];
      if HasMonth(asset.postings, month) {
        return Ok(AlreadyPosted);
      }
      var base := Base(asset);
      var monthly := base as real / (asset.lifeYears * 12) as real;
      var prior := GetAccumulatedDepreciation(asset.postings);
      var remaining := (base - prior) as real;
      if remaining <= TOLERANCE {
        assets := assets[id := asset.(status := FULLY_DEPRECIATED)];
        return Ok(AlreadyFull);
      }
      var thisMonth := Min(monthly, remaining);
      var newAccumulated := prior as real + thisMonth;
      var netBookValue := asset.cost as real - newAccumulated;
      var input := EntryInput(asset.entity, StartOfMonth(month), DepreciationLines(asset, RoundHalfUp(thisMonth)));
      var posted := engine.PostSystemEntry(master, input, user);
      if posted.Err? {
        return Err(posted.error);
      }
      var entry := Posting(month, RoundHalfUp(thisMonth), RoundHalfUp(newAccumulated), RoundHalfUp(netBookValue),
                           posted.value);
      asset := asset.(postings := asset.postings + [entry]);
      asset := asset.(lastThrough := Some(month),
                      status := if netBookValue <= TOLERANCE then FULLY_DEPRECIATED else ACTIVE);
      assets := assets[id := asset];
      return Ok(Depreciated);
    }

    method GetAccumulatedDepreciation(postings: seq<Posting>) returns (accumulated: int)
      ensures accumulated == Accumulated(postings)
    {
      var last: Option<Posting> := None;
      for i := 0 to |postings|
        invariant last == Latest(postings[..i])
      {
        assert postings[..i + 1][..i] == postings[..i];
        if last.None? || postings[i].month > last.value.month {
          last := Some(postings[i]);
        }
      }
      assert postings[..|postings|] == postings;
      accumulated := if last.Some? then last.value.accumulated else 0;
    }

    method DisposeAsset(master: Master, id: AssetId, d: DisposalInput, user: UserId) returns (result: Result<nat>)
      modifies this, engine
      ensures RegisterOutcome(State(), result) == Dispose(old(State()), master, id, d, user)
    {
      hide PostSystem, Accumulated, RoundHalfUp;
      if id !in assets {
        return Err(NotFound);
      }
      var asset := assets[id];
      if asset.status == DISPOSED || asset.disposal.Some? {
        return Err(Conflict);
      }
      var accumulated := GetAccumulatedDepreciation(asset.postings);
      var netBookValue := asset.cost - accumulated;
      var gainLoss := d.proceeds - netBookValue as real;
      var lines := [
        LineInput(asset.category.accumulatedAccount, accumulated as real, 0.0, NO_DIMENSIONS),
        LineInput(d.proceedsAccount, RoundHalfUp(d.proceeds) as real, 0.0, NO_DIMENSIONS),
        LineInput(asset.category.assetAccount, 0.0, asset.cost as real, NO_DIMENSIONS)];
      if Abs(gainLoss) > TOLERANCE {
        if gainLoss > 0.0 {
          lines := lines + [LineInput(d.gainLossAccount, 0.0, RoundHalfUp(gainLoss) as real, NO_DIMENSIONS)];
        } else {
          lines := lines + [LineInput(d.gainLossAccount, RoundHalfUp(-gainLoss) as real, 0.0, NO_DIMENSIONS)];
        }
      }
      assert lines == DisposalLines(asset, d);
      var posted := engine.PostSystemEntry(master, EntryInput(asset.entity, d.date, lines), user);
      if posted.Err? {
        return Err(posted.error);
      }
      var disposal := Disposal(RoundHalfUp(d.proceeds), netBookValue, RoundHalfUp(gainLoss), posted.value,
                               d.proceedsAccount, d.gainLossAccount);
      assets := assets[id := asset.(disposal := Some(disposal), status := DISPOSED)];
      return Ok(id);
    }
  }
}

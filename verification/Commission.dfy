/** What a commission plan pays on a basis: the tier loop, and the shape of what it computes. */
module Commission {
  import opened Money
  import opened Sums
  import opened CommissionPlan

  datatype RateResolution = RateResolution(
    tierOrderApplied: Option<int>, rateApplied: Option<real>, fixedAmountApplied: Option<real>, grossCommission: real)

  /** Number(x): null reads as zero. */
  function NumberOf(x: Option<real>): real {
    match x
    case None => 0.0
    case Some(v) => v
  }

  // ---- Bands ----

  /** The length of [0, basis] inside the tier's band. */
  function Overlap(basis: real, t: Tier): real {
    var top := if t.max.Some? then Min(basis, t.max.value) else basis;
    if top > t.min then top - t.min else 0.0
  }

  /** The basis lies in the tier's band, its upper end included. */
  predicate InBand(basis: real, t: Tier) {
    t.min < basis && (t.max.Some? ==> basis <= t.max.value)
  }

  /** rate percent of the part of the basis inside the band. */
  function BandShareOf(basis: real, t: Tier): real {
    Overlap(basis, t) * (NumberOf(t.rate) / 100.0)
  }

  function BandShare(basis: real): Tier -> real {
    (t: Tier) => BandShareOf(basis, t)
  }

  /** The flat fee of the band that holds the basis. */
  function BandFeeOf(basis: real, t: Tier): real {
    if InBand(basis, t) then NumberOf(t.fixedAmount) else 0.0
  }

  function BandFee(basis: real): Tier -> real {
    (t: Tier) => BandFeeOf(basis, t)
  }

  function TierWeight(kind: PlanType, basis: real): Tier -> real {
    if kind == PERCENTAGE then BandShare(basis) else BandFee(basis)
  }

  /** The commission of a plan as a sum over its tiers, each on its own. */
  function Gross(p: Plan, basis: real): real {
    if !p.isTiered then
      if p.kind == PERCENTAGE then basis * (NumberOf(p.rate) / 100.0) else NumberOf(p.fixedAmount)
    else SumReal(p.tiers, TierWeight(p.kind, basis))
  }

  // ---- The loop of applyPlan ----

  lemma MinsAscend(kind: PlanType, sorted: seq<Tier>, i: nat, k: nat)
    requires Ladder(kind, sorted) && i <= k < |sorted|
    ensures sorted[i].min <= sorted[k].min
    decreases k - i
  {
    assert TierFits(kind, sorted, i) && TierFits(kind, sorted, k);
    if i < k {
      assert TierFits(kind, sorted, k - 1);
      MinsAscend(kind, sorted, i, k - 1);
    }
  }

  /** Tiers that start at or past the basis pay nothing. */
  lemma TailPaysNothing(kind: PlanType, sorted: seq<Tier>, i: nat, basis: real)
    requires Ladder(kind, sorted) && i <= |sorted|
    requires i < |sorted| ==> basis <= sorted[i].min
    ensures SumReal(sorted, TierWeight(kind, basis)) == SumReal(sorted[..i], TierWeight(kind, basis))
  {
    forall t | t in sorted[i..]
      ensures TierWeight(kind, basis)(t) == 0.0
    {
      var k :| i <= k < |sorted| && sorted[k] == t;
      MinsAscend(kind, sorted, i, k);
    }
    SumRealZero(sorted[i..], TierWeight(kind, basis));
    SumRealConcat(sorted[..i], sorted[i..], TierWeight(kind, basis));
    assert sorted == sorted[..i] + sorted[i..];
  }

  lemma {:induction false} InsertedSum(sorted: seq<Tier>, t: Tier, w: Tier -> real)
    ensures SumReal(Inserted(sorted, t), w) == SumReal(sorted, w) + w(t)
  {
    if sorted == [] || sorted[|sorted| - 1].tierOrder <= t.tierOrder {
      SumRealAppend(sorted, t, w);
    } else {
      var n := |sorted| - 1;
      InsertedSum(sorted[..n], t, w);
      SumRealAppend(Inserted(sorted[..n], t), sorted[n], w);
      SumRealAppend(sorted[..n], sorted[n], w);
      assert sorted == sorted[..n] + [sorted[n]];
    }
  }

  lemma {:induction false} SortedSum(tiers: seq<Tier>, w: Tier -> real)
    ensures SumReal(SortByOrder(tiers), w) == SumReal(tiers, w)
  {
    if tiers != [] {
      var n := |tiers| - 1;
      SortedSum(tiers[..n], w);
      InsertedSum(SortByOrder(tiers[..n]), tiers[n], w);
      SumRealAppend(tiers[..n], tiers[n], w);
      assert tiers == tiers[..n] + [tiers[n]];
    }
  }

  /** The tier whose order is recorded: the one whose band holds the basis, or the last one of any width when the
      basis runs past a cap; none when no band of any width starts below the basis. */
  predicate AppliedTier(sorted: seq<Tier>, basis: real, order: Option<int>) {
    match order
    case None => forall t :: t in sorted && Wide(t) ==> basis <= t.min
    case Some(o) =>
      && 1 <= o <= |sorted|
      && var t := sorted[o - 1];
      && t.tierOrder == o && Wide(t) && t.min < basis
      && (InBand(basis, t) || forall k :: o <= k < |sorted| ==> !Wide(sorted[k]))
  }

  method ApplyPlan(p: Plan, basis: real) returns (r: RateResolution)
    requires Walkable(p)
    ensures r.grossCommission == Gross(p, basis)
    ensures p.isTiered ==>
              && AppliedTier(SortByOrder(p.tiers), basis, r.tierOrderApplied)
              && r.rateApplied.None? && r.fixedAmountApplied.None?
    ensures !p.isTiered ==> r.tierOrderApplied.None? && r.rateApplied == p.rate && r.fixedAmountApplied == p.fixedAmount
  {
    if !p.isTiered {
      if p.kind == PERCENTAGE {
        var rate := NumberOf(p.rate);
        return RateResolution(None, Some(rate), None, basis * (rate / 100.0));
      }
      var fixedAmount := NumberOf(p.fixedAmount);
      return RateResolution(None, None, Some(fixedAmount), fixedAmount);
    }
    var sorted := SortByOrder(p.tiers);
    var total, lastTierOrder := WalkTiers(p.kind, sorted, basis);
    SortedSum(p.tiers, TierWeight(p.kind, basis));
    return RateResolution(lastTierOrder, None, None, total);
  }

  /** The tiered half of applyPlan: the sorted bands in turn, with its three early exits. */
  method WalkTiers(kind: PlanType, sorted: seq<Tier>, basis: real) returns (total: real, lastTierOrder: Option<int>)
    requires Ladder(kind, sorted)
    ensures total == SumReal(sorted, TierWeight(kind, basis))
    ensures AppliedTier(sorted, basis, lastTierOrder)
  {
    assert sorted != [] && SumReal(sorted[..0], TierWeight(kind, basis)) == 0.0;
    hide SumReal, Ladder, TierWeight, BandShareOf;
    var remaining := basis;
    total, lastTierOrder := 0.0, None;
    var i := 0;
    while i < |sorted|
      invariant 0 <= i <= |sorted|
      invariant total == SumReal(sorted[..i], TierWeight(kind, basis))
      invariant i == 0 ==> remaining == basis
      invariant i > 0 ==> Passed(sorted, i, basis, remaining)
      invariant LastWide(sorted, i, basis, lastTierOrder)
    {
      var tier := sorted[i];
      BandStarts(kind, sorted, i);
      if basis <= tier.min {
        break;
      }
      TierPays(kind, sorted, i, basis);
      var sliceWidth := (if tier.max.Some? then Min(basis, tier.max.value) else basis) - tier.min;
      if sliceWidth <= 0.0 {
        ClosedTierPaysNothing(kind, tier, basis);
        i := i + 1;
        continue;
      }
      lastTierOrder := Some(tier.tierOrder);
      if kind == PERCENTAGE {
        SliceShare(basis, tier, sliceWidth);
        total := total + sliceWidth * (NumberOf(tier.rate) / 100.0);
      } else if basis > tier.min && (tier.max.None? || basis <= tier.max.value) {
        total := NumberOf(tier.fixedAmount);
      }
      remaining := remaining - sliceWidth;
      i := i + 1;
      if remaining <= 0.0 {
        if i < |sorted| {
          BandStarts(kind, sorted, i);
        }
        break;
      }
    }
    TailPaysNothing(kind, sorted, i, basis);
    LastWideIsApplied(kind, sorted, i, basis, lastTierOrder);
  }

  /** Of the first i tiers, all of them below the basis, the last one of any width. */
  predicate LastWide(sorted: seq<Tier>, i: nat, basis: real, order: Option<int>)
    requires i <= |sorted|
  {
    match order
    case None => forall k :: 0 <= k < i ==> !Wide(sorted[k])
    case Some(o) =>
      && 1 <= o <= i
      && sorted[o - 1].tierOrder == o && Wide(sorted[o - 1]) && sorted[o - 1].min < basis
      && forall k :: o <= k < i ==> !Wide(sorted[k])
  }

  /** The walk ends at the end of the tiers, in the band that holds the basis, or, before any tier of width, below the
      basis. */
  lemma LastWideIsApplied(kind: PlanType, sorted: seq<Tier>, i: nat, basis: real, order: Option<int>)
    requires Ladder(kind, sorted) && i <= |sorted| && LastWide(sorted, i, basis, order)
    requires i < |sorted| ==> basis <= sorted[i].min
    requires i < |sorted| && order.Some? ==> InBand(basis, sorted[order.value - 1])
    ensures AppliedTier(sorted, basis, order)
  {
    if order.None? {
      forall t | t in sorted && Wide(t)
        ensures basis <= t.min
      {
        var k :| 0 <= k < |sorted| && sorted[k] == t;
        MinsAscend(kind, sorted, i, k);
      }
    }
  }

  lemma ClosedTierPaysNothing(kind: PlanType, t: Tier, basis: real)
    requires Overlap(basis, t) == 0.0 && basis > t.min
    ensures BandShareOf(basis, t) == 0.0 && !InBand(basis, t)
  {
  }

  lemma SliceShare(basis: real, t: Tier, width: real)
    requires width == Overlap(basis, t)
    ensures width * (NumberOf(t.rate) / 100.0) == BandShareOf(basis, t)
  {
  }

  /** What a tier that starts below the basis adds: its share, or its fee in place of the fees below it. */
  lemma TierPays(kind: PlanType, sorted: seq<Tier>, i: nat, basis: real)
    requires Ladder(kind, sorted) && i < |sorted| && basis > sorted[i].min
    ensures
      var before := SumReal(sorted[..i], TierWeight(kind, basis));
      var after := SumReal(sorted[..i + 1], TierWeight(kind, basis));
      after == if kind == PERCENTAGE then before + BandShareOf(basis, sorted[i])
               else if InBand(basis, sorted[i]) then NumberOf(sorted[i].fixedAmount) else before
  {
    assert sorted[..i + 1] == sorted[..i] + [sorted[i]];
    SumRealAppend(sorted[..i], sorted[i], TierWeight(kind, basis));
    if kind == FIXED {
      EarlierFeesAreZero(sorted, i, basis);
    }
  }

  /** The basis is past the end of tier i - 1 by what remains of it. */
  predicate Passed(sorted: seq<Tier>, i: nat, basis: real, remaining: real)
    requires 0 < i <= |sorted|
  {
    remaining > 0.0 && sorted[i - 1].max.Some? && remaining == basis - sorted[i - 1].max.value
  }

  lemma BandStarts(kind: PlanType, sorted: seq<Tier>, i: nat)
    requires Ladder(kind, sorted) && i < |sorted|
    ensures
      var t := sorted[i];
      && t.tierOrder == i + 1 && (t.max.Some? ==> t.max.value >= t.min)
      && (if i == 0 then t.min == 0.0 else sorted[i - 1].max == Some(t.min))
      && (i < |sorted| - 1 ==> t.max.Some?)
  {
    assert TierFits(kind, sorted, i);
  }

  /** Bands that end at or before the start of a tier above them do not hold a basis past that start. */
  lemma EarlierFeesAreZero(sorted: seq<Tier>, i: nat, basis: real)
    requires Ladder(FIXED, sorted) && i < |sorted| && basis > sorted[i].min
    ensures SumReal(sorted[..i], TierWeight(FIXED, basis)) == 0.0
  {
    forall t | t in sorted[..i]
      ensures TierWeight(FIXED, basis)(t) == 0.0
    {
      var k :| 0 <= k < i && sorted[k] == t;
      assert TierFits(FIXED, sorted, k) && TierFits(FIXED, sorted, k + 1);
      MinsAscend(FIXED, sorted, k + 1, i);
    }
    SumRealZero(sorted[..i], TierWeight(FIXED, basis));
  }

  // ---- The basis ----

  datatype BasisType = GROSS | NET

  datatype CollectionBasis = FULL | COLLECTED

  /** A confirmed sale; the schedule is the total due and what each instalment has paid, in cents. */
  datatype Schedules = Installments(totalAmount: int, amountsPaid: seq<int>)

  datatype Allocation = Allocation(salePrice: int, schedule: Option<Schedules>)

  datatype BasisInput = BasisInput(basisType: BasisType, discountAmount: real, collectionBasis: CollectionBasis)

  datatype Basis = Basis(commissionBasisAmount: real, collectedPercent: real, proratedBasisAmount: real)

  function PaidOf(n: int): int { n }

  function ComputeBasis(a: Allocation, d: BasisInput): Result<Basis> {
    var gross := a.salePrice as real;
    if d.discountAmount > gross then Err(BadRequest)
    else
      var amount := if d.basisType == GROSS then gross else gross - d.discountAmount;
      if d.collectionBasis == FULL then Ok(Basis(amount, 1.0, amount))
      else if a.schedule.None? then Err(BadRequest)
      else
        var total, paid := a.schedule.value.totalAmount, Sum(a.schedule.value.amountsPaid, PaidOf);
        var percent := if total > 0 then Clamp(paid as real / total as real) else 0.0;
        Ok(Basis(amount, percent, amount * percent))
  }

  function Clamp(x: real): real {
    if x < 0.0 then 0.0 else if x > 1.0 then 1.0 else x
  }

  /** Whatever was paid, the prorated basis is a part between nothing and all of a basis that is never negative. */
  lemma BasisProrated(a: Allocation, d: BasisInput)
    requires d.discountAmount >= 0.0 && ComputeBasis(a, d).Ok?
    ensures
      var b := ComputeBasis(a, d).value;
      && b.commissionBasisAmount >= 0.0 && 0.0 <= b.collectedPercent <= 1.0
      && b.proratedBasisAmount == b.collectedPercent * b.commissionBasisAmount
      && ComputeBasis(a, d.(collectionBasis := FULL))
         == Ok(Basis(b.commissionBasisAmount, 1.0, b.commissionBasisAmount))
  {
  }
}

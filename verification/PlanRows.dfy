/** Which rate shapes and targets a commission plan may have, and what create and update leave of it, column by
    column. */
module PlanRows {
  import opened Money
  import opened CommissionPlan

  // ---- Shapes ----

  /** The value that the plan type asks for is given and the other is not. */
  predicate OneValue(kind: PlanType, rate: Option<real>, fixedAmount: Option<real>) {
    match kind
    case PERCENTAGE => rate != None && fixedAmount == None
    case FIXED => rate == None && fixedAmount != None
  }

  /** s is some arrangement of the tiers: numbered from 1, starting at zero, each ending above its start and where the
      next one starts; only the last may be open. */
  predicate Arranges(kind: PlanType, tiers: seq<Tier>, s: seq<Tier>) {
    && s != [] && multiset(s) == multiset(tiers) && s[0].min == 0.0
    && (forall k :: 0 <= k < |s| ==>
          && s[k].tierOrder == k + 1 && OneValue(kind, s[k].rate, s[k].fixedAmount)
          && (s[k].max != None ==> s[k].min < s[k].max.value))
    && (forall k :: 0 <= k < |s| - 1 ==> s[k].max == Some(s[k + 1].min))
  }

  ghost predicate CanArrange(kind: PlanType, tiers: seq<Tier>) {
    exists s :: Arranges(kind, tiers, s)
  }

  lemma AcceptedArranges(kind: PlanType, tiers: seq<Tier>)
    requires Schedule(kind, SortByOrder(tiers))
    ensures Arranges(kind, tiers, SortByOrder(tiers))
  {
    var s := SortByOrder(tiers);
    SortSorts(tiers);
    hide SortByOrder;
    forall k | 0 <= k < |s|
      ensures s[k].tierOrder == k + 1 && OneValue(kind, s[k].rate, s[k].fixedAmount)
              && (s[k].max != None ==> s[k].min < s[k].max.value)
      ensures k < |s| - 1 ==> s[k].max == Some(s[k + 1].min)
      ensures k == 0 ==> s[k].min == 0.0
    {
      assert TierAccepted(kind, s, k);
      assert k < |s| - 1 ==> TierAccepted(kind, s, k + 1);
    }
  }

  lemma ArrangedTier(kind: PlanType, tiers: seq<Tier>, s: seq<Tier>, k: nat)
    requires Arranges(kind, tiers, s) && k < |s|
    ensures TierAccepted(kind, s, k)
  {
    var t := s[k];
    assert t.tierOrder == k + 1 && OneValue(kind, t.rate, t.fixedAmount);
    assert k > 0 ==> s[k - 1].max == Some(s[k - 1 + 1].min);
    assert k < |s| - 1 ==> t.max == Some(s[k + 1].min);
  }

  lemma ArrangedIsAccepted(kind: PlanType, tiers: seq<Tier>, s: seq<Tier>)
    requires Arranges(kind, tiers, s)
    ensures Schedule(kind, SortByOrder(tiers))
  {
    hide SortByOrder, TierAccepted, OneValue;
    SortSorts(tiers);
    SortedIsUnique(s, SortByOrder(tiers));
    forall k | 0 <= k < |s|
      ensures TierAccepted(kind, s, k)
    {
      ArrangedTier(kind, tiers, s, k);
    }
  }

  /** validateRateShape, whatever the order in which the tiers are supplied. */
  lemma ShapeRows(kind: PlanType, isTiered: bool, rate: Option<real>, fixedAmount: Option<real>,
                  tiers: Option<seq<Tier>>)
    ensures RateShapeValid(kind, isTiered, rate, fixedAmount, tiers) <==>
            if isTiered then rate == None && fixedAmount == None && tiers != None && CanArrange(kind, tiers.value)
            else OneValue(kind, rate, fixedAmount) && tiers in {None, Some([])}
  {
    if isTiered && tiers != None {
      hide Schedule, SortByOrder, Arranges;
      if Schedule(kind, SortByOrder(tiers.value)) {
        AcceptedArranges(kind, tiers.value);
      }
      if CanArrange(kind, tiers.value) {
        var s :| Arranges(kind, tiers.value, s);
        ArrangedIsAccepted(kind, tiers.value, s);
      }
    }
  }

  /** The one target that the scope names is given, and no other. */
  lemma TargetRows(scope: PlanScope, t: Targets)
    ensures ScopeTargetValid(scope, t) <==>
            match scope
            case GLOBAL => t == Targets(None, None, None, None)
            case PROJECT => t.project != None && t == Targets(t.project, None, None, None)
            case ESTATE => t.estate != None && t == Targets(None, t.estate, None, None)
            case UNIT => t.unit != None && t == Targets(None, None, t.unit, None)
            case AGENT => t.agent != None && t == Targets(None, None, None, t.agent)
  {
  }

  // ---- What is stored ----

  function Cents(x: Option<real>): Option<real> {
    if x == None then None else Some(Store(x.value) as real)
  }

  /** What a numeric(9,4) column keeps. */
  function FourDecimals(x: Option<real>): Option<real> {
    if x == None then None else Some(Store(10000.0 * x.value) as real / 10000.0)
  }

  /** Each tier in its place, its bounds and fee rounded to cents and its rate to four decimals. */
  predicate TiersStored(given: seq<Tier>, stored: seq<Tier>) {
    |stored| == |given| && forall k :: 0 <= k < |given| ==>
      var t := given[k];
      stored[k] == Tier(t.tierOrder, Store(t.min) as real, Cents(t.max), FourDecimals(t.rate), Cents(t.fixedAmount))
  }

  lemma StoredTiers(given: seq<Tier>)
    ensures TiersStored(given, StoreTiers(given))
  {
    hide Store;
  }

  lemma StoredValues(rate: Option<real>, fixedAmount: Option<real>)
    ensures StoreRate(rate) == FourDecimals(rate) && StoreAmount(fixedAmount) == Cents(fixedAmount)
  {
    hide Store;
  }

  /** create: a new code, a target that fits the scope, and a valid shape. */
  lemma CreateRows(plans: Plans, code: nat, c: CreateInput)
    ensures
      var o := Created(plans, code, c);
      var valid := ScopeTargetValid(c.scope, c.targets)
                   && RateShapeValid(c.kind, c.isTiered, c.rate, c.fixedAmount, c.tiers);
      && o.result == (if code in plans then Err(Conflict) else if !valid then Err(BadRequest) else Ok(code))
      && (o.result.Err? ==> o.plans == plans)
      && (o.result.Ok? ==>
            && o.plans == plans[code := o.plans[code]]
            && var p := o.plans[code];
            && p.kind == c.kind && p.isTiered == c.isTiered
            && (if c.isTiered then p.rate == None && p.fixedAmount == None && TiersStored(c.tiers.value, p.tiers)
                else p.rate == FourDecimals(c.rate) && p.fixedAmount == Cents(c.fixedAmount) && p.tiers == []))
  {
    hide Schedule, StoreTiers, TiersStored, StoreRate, StoreAmount, ScopeTargetValid;
    StoredValues(c.rate, c.fixedAmount);
    if c.tiers.Some? {
      StoredTiers(c.tiers.value);
    }
    NothingStored();
  }

  lemma NothingStored()
    ensures StoreRate(None) == None && StoreAmount(None) == None
  {
  }

  /** The value that an update leaves a plan without tiers: the new one if given, or else the old one. */
  function Merged(given: Option<real>, old_: Option<real>): Option<real> {
    if given != None then given else old_
  }

  /** update of a plan that has tiers afterwards: by the tiers supplied or, without any, by the old ones, which then
      stay; a rate or fee supplied with it is refused. */
  lemma UpdateTieredRows(plans: Plans, code: nat, u: UpdateInput)
    requires code in plans
    requires u.isTiered == Some(true) || (u.isTiered == None && plans[code].isTiered)
    ensures
      var o, p := Updated(plans, code, u), plans[code];
      var tiers := if u.tiers != None then u.tiers.value else p.tiers;
      if u.rate != None || u.fixedAmount != None || !RateShapeValid(p.kind, true, None, None, Some(tiers)) then
        o == PlansOutcome(plans, Err(BadRequest))
      else
        && o.result == Ok(code) && o.plans == plans[code := o.plans[code]]
        && var after := o.plans[code];
        && after.kind == p.kind && after.isTiered && after.rate == None && after.fixedAmount == None
        && (if u.tiers == None then after.tiers == p.tiers else TiersStored(u.tiers.value, after.tiers))
  {
    hide Schedule, StoreTiers, TiersStored;
    if u.tiers.Some? {
      StoredTiers(u.tiers.value);
    }
  }

  /** update of a plan that has none: the values supplied, and the old ones for the rest, must be the one value of its
      type; tiers may be supplied only if there are none, which takes the old ones away. */
  lemma UpdateFlatRows(plans: Plans, code: nat, u: UpdateInput)
    requires code in plans
    requires u.isTiered == Some(false) || (u.isTiered == None && !plans[code].isTiered)
    ensures
      var o, p := Updated(plans, code, u), plans[code];
      var rate, fixedAmount := Merged(u.rate, p.rate), Merged(u.fixedAmount, p.fixedAmount);
      if !OneValue(p.kind, rate, fixedAmount) || u.tiers !in {None, Some([])} then
        o == PlansOutcome(plans, Err(BadRequest))
      else
        && o.result == Ok(code) && o.plans == plans[code := o.plans[code]]
        && var after := o.plans[code];
        && after.kind == p.kind && !after.isTiered
        && after.rate == FourDecimals(rate) && after.fixedAmount == Cents(fixedAmount)
        && after.tiers == if u.tiers == None then p.tiers else []
  {
    hide Schedule, StoreRate, StoreAmount;
    StoredValues(Merged(u.rate, plans[code].rate), Merged(u.fixedAmount, plans[code].fixedAmount));
  }

  lemma UpdateMissing(plans: Plans, code: nat, u: UpdateInput)
    requires code !in plans
    ensures Updated(plans, code, u) == PlansOutcome(plans, Err(NotFound))
  {
  }
}

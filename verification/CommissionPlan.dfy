/** Commission plans: which rate shapes are accepted, and what is stored of them. */
module CommissionPlan {
  import opened Money

  datatype PlanType = PERCENTAGE | FIXED

  datatype PlanScope = GLOBAL | PROJECT | ESTATE | UNIT | AGENT

  /** A tier as supplied or as stored; a stored one holds what its columns keep. */
  datatype Tier = Tier(tierOrder: int, min: real, max: Option<real>, rate: Option<real>, fixedAmount: Option<real>)

  datatype Plan = Plan(
    kind: PlanType, isTiered: bool, rate: Option<real>, fixedAmount: Option<real>, tiers: seq<Tier>)

  // ---- Sorting by tierOrder ----

  /** Stable: t goes behind the tiers of equal order. */
  function Inserted(sorted: seq<Tier>, t: Tier): seq<Tier> {
    if sorted == [] || sorted[|sorted| - 1].tierOrder <= t.tierOrder then sorted + [t]
    else Inserted(sorted[..|sorted| - 1], t) + [sorted[|sorted| - 1]]
  }

  function SortByOrder(tiers: seq<Tier>): seq<Tier> {
    if tiers == [] then [] else Inserted(SortByOrder(tiers[..|tiers| - 1]), tiers[|tiers| - 1])
  }

  predicate Ascending(tiers: seq<Tier>) {
    forall j, k :: 0 <= j < k < |tiers| ==> tiers[j].tierOrder <= tiers[k].tierOrder
  }

  lemma {:induction false} InsertedHolds(sorted: seq<Tier>, t: Tier)
    ensures multiset(Inserted(sorted, t)) == multiset(sorted) + multiset{t}
  {
    if sorted != [] && sorted[|sorted| - 1].tierOrder > t.tierOrder {
      var n := |sorted| - 1;
      assert Inserted(sorted, t) == Inserted(sorted[..n], t) + [sorted[n]];
      assert sorted == sorted[..n] + [sorted[n]];
      hide *;
      InsertedHolds(sorted[..n], t);
    }
  }

  lemma InsertedFrom(sorted: seq<Tier>, t: Tier, x: Tier)
    requires x in Inserted(sorted, t)
    ensures x == t || x in sorted
  {
    InsertedHolds(sorted, t);
    assert x in multiset(Inserted(sorted, t));
  }

  lemma {:induction false} InsertedSorts(sorted: seq<Tier>, t: Tier)
    requires Ascending(sorted)
    ensures Ascending(Inserted(sorted, t))
  {
    if sorted != [] && sorted[|sorted| - 1].tierOrder > t.tierOrder {
      var n := |sorted| - 1;
      InsertedSorts(sorted[..n], t);
      var front := Inserted(sorted[..n], t);
      forall j | 0 <= j < |front|
        ensures front[j].tierOrder <= sorted[n].tierOrder
      {
        InsertedFrom(sorted[..n], t, front[j]);
      }
    }
  }

  lemma {:induction false} SortSorts(tiers: seq<Tier>)
    ensures Ascending(SortByOrder(tiers))
    ensures multiset(SortByOrder(tiers)) == multiset(tiers)
  {
    if tiers != [] {
      var n := |tiers| - 1;
      assert SortByOrder(tiers) == Inserted(SortByOrder(tiers[..n]), tiers[n]);
      assert tiers == tiers[..n] + [tiers[n]];
      hide *;
      SortSorts(tiers[..n]);
      InsertedSorts(SortByOrder(tiers[..n]), tiers[n]);
      InsertedHolds(SortByOrder(tiers[..n]), tiers[n]);
    }
  }

  predicate StrictlyAscending(tiers: seq<Tier>) {
    forall j, k :: 0 <= j < k < |tiers| ==> tiers[j].tierOrder < tiers[k].tierOrder
  }

  lemma SameFirst(s: seq<Tier>, t: seq<Tier>)
    requires StrictlyAscending(s) && Ascending(t) && s != [] && multiset(s) == multiset(t)
    ensures t != [] && s[0] == t[0]
  {
    assert s[0] in multiset(t);
    var k :| 0 <= k < |t| && t[k] == s[0];
    assert t[0] in multiset(s);
    var j :| 0 <= j < |s| && s[j] == t[0];
  }

  lemma SameRest(s: seq<Tier>, t: seq<Tier>)
    requires s != [] && t != [] && s[0] == t[0] && multiset(s) == multiset(t)
    ensures multiset(s[1..]) == multiset(t[1..])
  {
    assert s == [s[0]] + s[1..] && t == [t[0]] + t[1..];
    assert multiset(s[1..]) == multiset(s) - multiset{s[0]};
    assert multiset(t[1..]) == multiset(t) - multiset{t[0]};
  }

  /** Two sorted arrangements of the same tiers are the same when no two share an order. */
  lemma {:induction false} SortedIsUnique(s: seq<Tier>, t: seq<Tier>)
    requires StrictlyAscending(s) && Ascending(t) && multiset(s) == multiset(t)
    ensures s == t
  {
    if s != [] {
      SameFirst(s, t);
      SameRest(s, t);
      SortedIsUnique(s[1..], t[1..]);
      assert s == [s[0]] + s[1..] && t == [t[0]] + t[1..];
    } else {
      assert |multiset(t)| == 0;
    }
  }

  // ---- The accepted shapes ----

  function OwnValue(kind: PlanType, rate: Option<real>, fixedAmount: Option<real>): Option<real> {
    if kind == PERCENTAGE then rate else fixedAmount
  }

  function OtherValue(kind: PlanType, rate: Option<real>, fixedAmount: Option<real>): Option<real> {
    if kind == PERCENTAGE then fixedAmount else rate
  }

  /** The tier at idx of the sorted tiers has its own value, and starts where the tier below it ends. */
  predicate TierFits(kind: PlanType, sorted: seq<Tier>, idx: nat)
    requires idx < |sorted|
  {
    var t := sorted[idx];
    && t.tierOrder == idx + 1
    && OwnValue(kind, t.rate, t.fixedAmount).Some?
    && OtherValue(kind, t.rate, t.fixedAmount).None?
    && (t.max.Some? ==> t.max.value >= t.min)
    && (idx < |sorted| - 1 ==> t.max.Some?)
    && (if idx > 0 then sorted[idx - 1].max == Some(t.min) else t.min == 0.0)
  }

  /** The band has some width: rounding has not closed it. */
  predicate Wide(t: Tier) {
    t.max.Some? ==> t.max.value > t.min
  }

  /** The checks validateRateShape makes of the tier at idx of the sorted tiers. */
  predicate TierAccepted(kind: PlanType, sorted: seq<Tier>, idx: nat)
    requires idx < |sorted|
  {
    TierFits(kind, sorted, idx) && Wide(sorted[idx])
  }

  /** Gapless and ascending from zero; a tier may have no width. */
  predicate Ladder(kind: PlanType, sorted: seq<Tier>) {
    sorted != [] && forall idx :: 0 <= idx < |sorted| ==> TierFits(kind, sorted, idx)
  }

  /** A gapless ascending schedule from zero, as validateRateShape accepts it. */
  predicate Schedule(kind: PlanType, sorted: seq<Tier>) {
    sorted != [] && forall idx :: 0 <= idx < |sorted| ==> TierAccepted(kind, sorted, idx)
  }

  lemma ScheduleIsLadder(kind: PlanType, sorted: seq<Tier>)
    requires Schedule(kind, sorted)
    ensures Ladder(kind, sorted)
  {
    forall idx | 0 <= idx < |sorted|
      ensures TierFits(kind, sorted, idx)
    {
      assert TierAccepted(kind, sorted, idx);
    }
  }

  predicate RateShapeValid(kind: PlanType, isTiered: bool, rate: Option<real>, fixedAmount: Option<real>,
                           tiers: Option<seq<Tier>>) {
    if !isTiered then
      && (tiers.Some? ==> tiers.value == [])
      && OwnValue(kind, rate, fixedAmount).Some? && OtherValue(kind, rate, fixedAmount).None?
    else
      && rate.None? && fixedAmount.None?
      && tiers.Some? && Schedule(kind, SortByOrder(tiers.value))
  }

  /** The order in which an accepted schedule's tiers are supplied makes no difference to it. */
  lemma SuppliedOrderIrrelevant(kind: PlanType, tiers: seq<Tier>, shuffled: seq<Tier>)
    requires multiset(tiers) == multiset(shuffled) && Schedule(kind, SortByOrder(tiers))
    ensures SortByOrder(shuffled) == SortByOrder(tiers)
  {
    SortSorts(tiers);
    SortSorts(shuffled);
    var sorted := SortByOrder(tiers);
    forall j, k | 0 <= j < k < |sorted|
      ensures sorted[j].tierOrder < sorted[k].tierOrder
    {
      assert TierAccepted(kind, sorted, j) && TierAccepted(kind, sorted, k);
    }
    SortedIsUnique(sorted, SortByOrder(shuffled));
  }

  // ---- Storing ----

  function StoreAmount(x: Option<real>): Option<real> {
    match x
    case None => None
    case Some(v) => Some(Store(v) as real)
  }

  /** A numeric(9,4) column. */
  function StoreRate(x: Option<real>): Option<real> {
    match x
    case None => None
    case Some(v) => Some(Store(v * 10000.0) as real / 10000.0)
  }

  function StoreTier(t: Tier): Tier {
    Tier(t.tierOrder, Store(t.min) as real, StoreAmount(t.max), StoreRate(t.rate), StoreAmount(t.fixedAmount))
  }

  function StoreTiers(tiers: seq<Tier>): (stored: seq<Tier>)
    ensures |stored| == |tiers|
  {
    seq(|tiers|, i requires 0 <= i < |tiers| => StoreTier(tiers[i]))
  }

  /** The shape applyPlan will read passes the checks again. */
  predicate Usable(p: Plan) {
    RateShapeValid(p.kind, p.isTiered, p.rate, p.fixedAmount, if p.isTiered then Some(p.tiers) else None)
  }

  /** The shape every stored plan has: what validateRateShape accepts, up to tiers that rounding closed. */
  predicate Walkable(p: Plan) {
    if p.isTiered then p.rate.None? && p.fixedAmount.None? && Ladder(p.kind, SortByOrder(p.tiers))
    else OwnValue(p.kind, p.rate, p.fixedAmount).Some? && OtherValue(p.kind, p.rate, p.fixedAmount).None?
  }

  // ---- Create and update ----

  datatype Targets = Targets(project: Option<nat>, estate: Option<nat>, unit: Option<nat>, agent: Option<nat>)

  /** Exactly the target that the scope names is set. */
  predicate ScopeTargetValid(scope: PlanScope, t: Targets) {
    && (t.project.Some? <==> scope == PROJECT) && (t.estate.Some? <==> scope == ESTATE)
    && (t.unit.Some? <==> scope == UNIT) && (t.agent.Some? <==> scope == AGENT)
  }

  datatype CreateInput = CreateInput(
    kind: PlanType, scope: PlanScope, targets: Targets, rate: Option<real>, fixedAmount: Option<real>,
    isTiered: bool, tiers: Option<seq<Tier>>)

  datatype UpdateInput = UpdateInput(
    rate: Option<real>, fixedAmount: Option<real>, isTiered: Option<bool>, tiers: Option<seq<Tier>>)

  type Plans = map<nat, Plan>

  datatype PlansOutcome = PlansOutcome(plans: Plans, result: Result<nat>)

  function Or<T>(x: Option<T>, y: Option<T>): Option<T> {
    if x.Some? then x else y
  }

  function Created(plans: Plans, code: nat, c: CreateInput): PlansOutcome {
    if code in plans then PlansOutcome(plans, Err(Conflict))
    else if !ScopeTargetValid(c.scope, c.targets) then PlansOutcome(plans, Err(BadRequest))
    else if !RateShapeValid(c.kind, c.isTiered, c.rate, c.fixedAmount, c.tiers) then
      PlansOutcome(plans, Err(BadRequest))
    else
      var tiers := if c.isTiered && c.tiers.Some? then StoreTiers(c.tiers.value) else [];
      PlansOutcome(plans[code := Plan(c.kind, c.isTiered, StoreRate(c.rate), StoreAmount(c.fixedAmount), tiers)],
                   Ok(code))
  }

  function Updated(plans: Plans, code: nat, u: UpdateInput): PlansOutcome {
    if code !in plans then PlansOutcome(plans, Err(NotFound))
    else
      var p := plans[code];
      var isTiered := if u.isTiered.Some? then u.isTiered.value else p.isTiered;
      var rate := Or(u.rate, if isTiered then None else p.rate);
      var fixedAmount := Or(u.fixedAmount, if isTiered then None else p.fixedAmount);
      var tiers := Or(u.tiers, if isTiered then Some(p.tiers) else None);
      if !RateShapeValid(p.kind, isTiered, rate, fixedAmount, tiers) then PlansOutcome(plans, Err(BadRequest))
      else
        var rows := if u.tiers.Some? then StoreTiers(u.tiers.value) else p.tiers;
        var stored := if isTiered then Plan(p.kind, true, None, None, rows)
                      else Plan(p.kind, false, StoreRate(rate), StoreAmount(fixedAmount), rows);
        PlansOutcome(plans[code := stored], Ok(code))
  }

  // ---- Stored plans stay usable ----

  predicate TierSurvives(t: Tier) {
    t.max.Some? ==> Store(t.min) < Store(t.max.value)
  }

  /** No tier is so narrow that rounding to cents closes it. */
  predicate SurvivesRounding(tiers: Option<seq<Tier>>) {
    tiers.Some? ==> forall t :: t in tiers.value ==> TierSurvives(t)
  }

  lemma {:induction false} InsertedStores(sorted: seq<Tier>, t: Tier)
    ensures StoreTiers(Inserted(sorted, t)) == Inserted(StoreTiers(sorted), StoreTier(t))
  {
    if sorted != [] && sorted[|sorted| - 1].tierOrder > t.tierOrder {
      var n := |sorted| - 1;
      InsertedStores(sorted[..n], t);
      assert StoreTiers(sorted)[..n] == StoreTiers(sorted[..n]);
    }
  }

  /** Rounding keeps the order numbers, so it commutes with sorting. */
  lemma {:induction false} SortStores(tiers: seq<Tier>)
    ensures StoreTiers(SortByOrder(tiers)) == SortByOrder(StoreTiers(tiers))
  {
    if tiers != [] {
      var n := |tiers| - 1;
      SortStores(tiers[..n]);
      InsertedStores(SortByOrder(tiers[..n]), tiers[n]);
      assert StoreTiers(tiers)[..n] == StoreTiers(tiers[..n]);
    }
  }

  lemma StoredTier(kind: PlanType, sorted: seq<Tier>, idx: nat)
    requires Schedule(kind, sorted) && idx < |sorted|
    ensures TierAccepted(kind, StoreTiers(sorted), idx) <==> TierSurvives(sorted[idx])
  {
    assert TierAccepted(kind, sorted, idx);
    StoreWhole(0);
  }

  lemma StoredSorted(kind: PlanType, sorted: seq<Tier>)
    requires Schedule(kind, sorted)
    ensures Schedule(kind, StoreTiers(sorted)) <==> forall idx :: 0 <= idx < |sorted| ==> TierSurvives(sorted[idx])
  {
    var stored := StoreTiers(sorted);
    forall idx: nat | idx < |sorted|
      ensures TierAccepted(kind, stored, idx) <==> TierSurvives(sorted[idx])
    {
      StoredTier(kind, sorted, idx);
    }
    assert stored != [];
  }

  lemma SameMembers(s: seq<Tier>, t: seq<Tier>)
    requires multiset(s) == multiset(t)
    ensures forall x :: x in s <==> x in t
  {
    assert forall x :: x in s <==> x in multiset(s);
    assert forall x :: x in t <==> x in multiset(t);
  }

  /** What is stored of an accepted schedule is a schedule exactly when no tier closes under rounding. */
  lemma StoredSchedule(kind: PlanType, tiers: seq<Tier>)
    requires Schedule(kind, SortByOrder(tiers))
    ensures Schedule(kind, SortByOrder(StoreTiers(tiers))) <==> SurvivesRounding(Some(tiers))
  {
    var sorted := SortByOrder(tiers);
    SortStores(tiers);
    StoredSorted(kind, sorted);
    SortSorts(tiers);
    SameMembers(sorted, tiers);
  }

  datatype PlanStep =
    | Create(code: nat, create: CreateInput)
    | Update(code: nat, update: UpdateInput)

  function ApplyPlanStep(plans: Plans, s: PlanStep): PlansOutcome {
    match s
    case Create(code, c) => Created(plans, code, c)
    case Update(code, u) => Updated(plans, code, u)
  }

  function SuppliedTiers(s: PlanStep): Option<seq<Tier>> {
    match s
    case Create(_, c) => c.tiers
    case Update(_, u) => u.tiers
  }

  predicate AllUsable(plans: Plans) {
    forall code :: code in plans ==> Usable(plans[code])
  }

  /** A call leaves every plan usable exactly when it is refused or the tiers it supplies survive rounding:
      switching tiers off and on again, with old tier rows left behind, can do no harm. */
  lemma StepUsable(plans: Plans, s: PlanStep)
    requires AllUsable(plans)
    ensures AllUsable(ApplyPlanStep(plans, s).plans) <==>
            (ApplyPlanStep(plans, s).result.Ok? ==> SurvivesRounding(SuppliedTiers(s)))
  {
    var o := ApplyPlanStep(plans, s);
    if o.result.Ok? {
      var p := o.plans[s.code];
      var supplied := SuppliedTiers(s);
      if p.isTiered && supplied.Some? {
        StoredSchedule(p.kind, supplied.value);
      }
      assert Usable(p) <==> SurvivesRounding(supplied);
      assert forall code :: code in plans && code != s.code ==> o.plans[code] == plans[code];
    }
  }

  lemma StoredLadder(kind: PlanType, tiers: seq<Tier>)
    requires Schedule(kind, SortByOrder(tiers))
    ensures Ladder(kind, SortByOrder(StoreTiers(tiers)))
  {
    var sorted := SortByOrder(tiers);
    var stored := StoreTiers(sorted);
    SortStores(tiers);
    forall idx | 0 <= idx < |stored|
      ensures TierFits(kind, stored, idx)
    {
      assert TierAccepted(kind, sorted, idx);
      StoreWhole(0);
      if sorted[idx].max.Some? {
        StoreMonotone(sorted[idx].min, sorted[idx].max.value);
      }
    }
  }

  predicate AllWalkable(plans: Plans) {
    forall code :: code in plans ==> Walkable(plans[code])
  }

  /** Whatever is supplied, a call leaves every stored plan in a shape that applyPlan can walk. */
  lemma StepWalkable(plans: Plans, s: PlanStep)
    requires AllWalkable(plans)
    ensures AllWalkable(ApplyPlanStep(plans, s).plans)
  {
    var o := ApplyPlanStep(plans, s);
    if o.result.Ok? {
      var p := o.plans[s.code];
      var supplied := SuppliedTiers(s);
      if p.isTiered && supplied.Some? {
        StoredLadder(p.kind, supplied.value);
      } else if p.isTiered {
        ScheduleIsLadder(p.kind, SortByOrder(p.tiers));
      }
      assert Walkable(p);
      assert forall code :: code in plans && code != s.code ==> o.plans[code] == plans[code];
    }
  }

  /** After any sequence of creates and partial updates, every stored plan can be walked. */
  lemma {:induction false} PlansStayWalkable(plans: Plans, steps: seq<PlanStep>)
    requires AllWalkable(plans)
    ensures AllWalkable(RunPlans(plans, steps))
    decreases |steps|
  {
    if steps != [] {
      hide AllWalkable, ApplyPlanStep;
      StepWalkable(plans, steps[0]);
      PlansStayWalkable(ApplyPlanStep(plans, steps[0]).plans, steps[1..]);
    }
  }

  /** A plan's type is fixed when it is created. */
  predicate KeepsKinds(plans: Plans, later: Plans) {
    forall code :: code in plans ==> code in later && later[code].kind == plans[code].kind
  }

  function RunPlans(plans: Plans, steps: seq<PlanStep>): Plans
    decreases |steps|
  {
    if steps == [] then plans else RunPlans(ApplyPlanStep(plans, steps[0]).plans, steps[1..])
  }

  /** After any sequence of creates and partial updates whose tiers survive rounding, every stored plan is
      usable for the type it was created with. */
  lemma {:induction false} PlansStayUsable(plans: Plans, steps: seq<PlanStep>)
    requires AllUsable(plans)
    requires forall s :: s in steps ==> SurvivesRounding(SuppliedTiers(s))
    ensures AllUsable(RunPlans(plans, steps)) && KeepsKinds(plans, RunPlans(plans, steps))
    decreases |steps|
  {
    if steps != [] {
      StepUsable(plans, steps[0]);
      PlansStayUsable(ApplyPlanStep(plans, steps[0]).plans, steps[1..]);
    }
  }

  /** Tiers supplied in ascending order are left as they are. */
  lemma AlreadySorted(tiers: seq<Tier>)
    requires StrictlyAscending(tiers)
    ensures SortByOrder(tiers) == tiers
  {
    SortSorts(tiers);
    SortedIsUnique(tiers, SortByOrder(tiers));
  }

  const NARROW := [Tier(1, 0.0, Some(0.4), Some(5.0), None), Tier(2, 0.4, None, Some(6.0), None)]

  const NARROW_PLAN := CreateInput(PERCENTAGE, GLOBAL, Targets(None, None, None, None), None, None, true, Some(NARROW))

  lemma NarrowIsAccepted()
    ensures SortByOrder(NARROW) == NARROW && Schedule(PERCENTAGE, NARROW) && !SurvivesRounding(Some(NARROW))
  {
    hide SortByOrder, Store;
    var first, second := NARROW[0], NARROW[1];
    assert NARROW == [first, second] && first in NARROW;
    AlreadySorted(NARROW);
    assert TierAccepted(PERCENTAGE, NARROW, 0) && TierAccepted(PERCENTAGE, NARROW, 1);
    ClosesUnderRounding();
  }

  lemma ClosesUnderRounding()
    ensures Store(0.0) == 0 && Store(0.4) == 0
  {
  }

  /** A tier from 0 to 0.4 cents is accepted and stored from 0 to 0: applyPlan walks what would now be refused. */
  lemma TierCanClose(code: nat)
    ensures
      var o := Created(map[], code, NARROW_PLAN);
      o.result == Ok(code) && !Usable(o.plans[code]) && Walkable(o.plans[code])
  {
    NarrowIsAccepted();
    hide Schedule, SortByOrder, SurvivesRounding, StoreTiers;
    assert Created(map[], code, NARROW_PLAN).result == Ok(code);
    assert AllUsable(map[]);
    StepUsable(map[], Create(code, NARROW_PLAN));
    StepWalkable(map[], Create(code, NARROW_PLAN));
  }

  /** Whole cents always survive: a tier accepted with max above min keeps it above. */
  lemma WholeCentTiersSurvive(kind: PlanType, tiers: seq<Tier>)
    requires Schedule(kind, SortByOrder(tiers))
    requires forall t :: t in tiers ==> WholeCents(t.min) && (t.max.Some? ==> WholeCents(t.max.value))
    ensures SurvivesRounding(Some(tiers))
  {
    var sorted := SortByOrder(tiers);
    SortSorts(tiers);
    SameMembers(sorted, tiers);
    forall t | t in tiers
      ensures TierSurvives(t)
    {
      var idx :| 0 <= idx < |sorted| && sorted[idx] == t;
      assert TierAccepted(kind, sorted, idx);
      StoreWhole(t.min.Floor);
      if t.max.Some? {
        StoreWhole(t.max.value.Floor);
      }
    }
  }

  // ---- The service ----

  class PlanService {
    var plans: Plans

    constructor ()
      ensures plans == map[]
    {
      plans := map[];
    }

    method ValidateRateShape(kind: PlanType, isTiered: bool, rate: Option<real>, fixedAmount: Option<real>,
                             tiers: Option<seq<Tier>>)
      returns (valid: bool)
      ensures valid <==> RateShapeValid(kind, isTiered, rate, fixedAmount, tiers)
    {
      if !isTiered {
        if tiers.Some? && |tiers.value| > 0 {
          return false;
        }
        return OwnValue(kind, rate, fixedAmount).Some? && OtherValue(kind, rate, fixedAmount).None?;
      }
      if rate.Some? || fixedAmount.Some? {
        return false;
      }
      if tiers.None? || |tiers.value| == 0 {
        assert tiers.Some? ==> tiers.value == [];
        return false;
      }
      var sorted := SortByOrder(tiers.value);
      SortSorts(tiers.value);
      assert |sorted| == |multiset(sorted)| == |tiers.value|;
      for idx := 0 to |sorted|
        invariant forall k :: 0 <= k < idx ==> TierAccepted(kind, sorted, k)
      {
        if !TierAccepted(kind, sorted, idx) {
          return false;
        }
      }
      return true;
    }

    method CreatePlan(code: nat, c: CreateInput) returns (result: Result<nat>)
      modifies this
      ensures PlansOutcome(plans, result) == Created(old(plans), code, c)
    {
      if code in plans {
        return Err(Conflict);
      }
      if !ScopeTargetValid(c.scope, c.targets) {
        return Err(BadRequest);
      }
      var valid := ValidateRateShape(c.kind, c.isTiered, c.rate, c.fixedAmount, c.tiers);
      if !valid {
        return Err(BadRequest);
      }
      var plan := Plan(c.kind, c.isTiered, StoreRate(c.rate), StoreAmount(c.fixedAmount), []);
      if c.isTiered && c.tiers.Some? {
        plan := plan.(tiers := StoreTiers(c.tiers.value));
      }
      plans := plans[code := plan];
      return Ok(code);
    }

    method UpdatePlan(code: nat, u: UpdateInput) returns (result: Result<nat>)
      modifies this
      ensures PlansOutcome(plans, result) == Updated(old(plans), code, u)
    {
      if code !in plans {
        return Err(NotFound);
      }
      var plan := plans[code];
      var isTiered := if u.isTiered.Some? then u.isTiered.value else plan.isTiered;
      var rate := Or(u.rate, if isTiered then None else plan.rate);
      var fixedAmount := Or(u.fixedAmount, if isTiered then None else plan.fixedAmount);
      var tiers := Or(u.tiers, if isTiered then Some(plan.tiers) else None);
      var valid := ValidateRateShape(plan.kind, isTiered, rate, fixedAmount, tiers);
      if !valid {
        return Err(BadRequest);
      }
      if u.tiers.Some? {
        plan := plan.(tiers := []); // deleteMany
      }
      plan := plan.(isTiered := isTiered,
                    rate := if isTiered then None else StoreRate(rate),
                    fixedAmount := if isTiered then None else StoreAmount(fixedAmount));
      if u.tiers.Some? {
        plan := plan.(tiers := StoreTiers(u.tiers.value));
      }
      plans := plans[code := plan];
      return Ok(code);
    }
  }
}

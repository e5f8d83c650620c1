/** Straight-line depreciation of one asset, month by month, and its closed form. */
module Depreciation {
  import opened Money
  import opened Sums
  import opened Calendar
  import opened Ledger

  datatype AssetStatus = ACTIVE | FULLY_DEPRECIATED | DISPOSED

  datatype Category = Category(assetAccount: AccountId, accumulatedAccount: AccountId, expenseAccount: AccountId)

  /** A depreciation entry: the month is counted from year 0, the journal is the entry it posted. */
  datatype Posting = Posting(month: int, amount: int, accumulated: int, netBookValue: int, journal: EntryId)

  /** The two accounts are those the disposal's journal lines name. */
  datatype Disposal = Disposal(
    proceeds: int, netBookValue: int, gainLoss: int, journal: EntryId,
    proceedsAccount: AccountId, gainLossAccount: AccountId)

  datatype Asset = Asset(
    entity: EntityId, category: Category, acquired: Date, cost: int, residual: int, lifeYears: nat,
    department: Option<nat>, costCenter: Option<nat>, status: AssetStatus, lastThrough: Option<int>,
    postings: seq<Posting>, disposal: Option<Disposal>)

  predicate ValidTerms(a: Asset) {
    0 <= a.residual <= a.cost && a.lifeYears >= 1
  }

  function Base(a: Asset): int {
    a.cost - a.residual
  }

  function Months(a: Asset): int {
    a.lifeYears * 12
  }

  function Monthly(a: Asset): real
    requires a.lifeYears >= 1
  {
    Base(a) as real / Months(a) as real
  }

  /** The monthly amount as it is posted, in whole cents. */
  function MonthlyCents(a: Asset): int
    requires a.lifeYears >= 1
  {
    RoundHalfUp(Monthly(a))
  }

  /** The posting with the latest month, whatever order the months were run in. */
  function Latest(postings: seq<Posting>): Option<Posting> {
    if postings == [] then None
    else
      var last, earlier := postings[|postings| - 1], Latest(postings[..|postings| - 1]);
      if earlier.None? || last.month > earlier.value.month then Some(last) else earlier
  }

  /** getAccumulatedDepreciation. */
  function Accumulated(postings: seq<Posting>): int {
    match Latest(postings)
    case None => 0
    case Some(p) => p.accumulated
  }

  function AmountOf(p: Posting): int { p.amount }

  predicate HasMonth(postings: seq<Posting>, month: int) {
    exists k :: 0 <= k < |postings| && postings[k].month == month
  }

  // ---- One asset, one month ----

  datatype Handling = AlreadyPosted | AlreadyFull | Depreciated

  datatype Depreciated = After(ledger: Ledger, asset: Asset, result: Result<Handling>)

  function DepreciationLines(a: Asset, amount: int): seq<LineInput> {
    var expense := NO_DIMENSIONS.(department := a.department, costCenter := a.costCenter);
    [LineInput(a.category.expenseAccount, amount as real, 0.0, expense),
     LineInput(a.category.accumulatedAccount, 0.0, amount as real, NO_DIMENSIONS)]
  }

  /** The unrounded amount of a month that finds this much accumulated. */
  function Share(a: Asset, prior: int): real
    requires a.lifeYears >= 1
  {
    Min(Monthly(a), (Base(a) - prior) as real)
  }

  function DepreciationInput(a: Asset, month: int): EntryInput
    requires a.lifeYears >= 1
  {
    EntryInput(a.entity, StartOfMonth(month), DepreciationLines(a, RoundHalfUp(Share(a, Accumulated(a.postings)))))
  }

  /** What runDepreciation does to one selected asset. */
  function Depreciate(l: Ledger, master: Master, a: Asset, month: int, user: UserId): Depreciated
    requires a.lifeYears >= 1
  {
    if HasMonth(a.postings, month) then After(l, a, Ok(AlreadyPosted))
    else
      var prior := Accumulated(a.postings);
      var remaining := (Base(a) - prior) as real;
      if remaining <= TOLERANCE then After(l, a.(status := FULLY_DEPRECIATED), Ok(AlreadyFull))
      else
        var amount := Share(a, prior);
        var accumulated := prior as real + amount;
        var netBookValue := a.cost as real - accumulated;
        var posted := PostSystem(l, master, DepreciationInput(a, month), user);
        match posted.result
        case Err(e) => After(posted.ledger, a, Err(e))
        case Ok(journal) =>
          var p := Posting(month, RoundHalfUp(amount), RoundHalfUp(accumulated), RoundHalfUp(netBookValue), journal);
          var status := if netBookValue <= TOLERANCE then FULLY_DEPRECIATED else ACTIVE;
          After(posted.ledger, a.(postings := a.postings + [p], lastThrough := Some(month), status := status),
                Ok(Depreciated))
  }

  // ---- Rounding ----

  /** Capping and then rounding is rounding and then capping, when the cap is a whole cent. */
  lemma RoundedMin(x: real, cap: int)
    ensures RoundHalfUp(Min(x, cap as real)) == MinInt(RoundHalfUp(x), cap)
  {
  }

  lemma RoundedSum(n: int, x: real)
    ensures RoundHalfUp(n as real + x) == n + RoundHalfUp(x)
  {
    RoundHalfUpIs(n as real + x, n + RoundHalfUp(x));
  }

  /** Rounding a difference loses the cent that half-up rounding gave away twice. */
  lemma RoundedDifference(n: int, x: real)
    ensures RoundHalfUp(n as real - x) == n - RoundHalfUp(x) + if HalfCent(x) then 1 else 0
  {
    var r := RoundHalfUp(x);
    if x == r as real - 0.5 {
      assert x.Floor == r - 1;
      RoundHalfUpIs(n as real - x, n - r + 1);
    } else {
      assert !HalfCent(x) by {
        if HalfCent(x) {
          RoundHalfUpIs(x, x.Floor + 1);
        }
      }
      RoundHalfUpIs(n as real - x, n - r);
    }
  }

  // ---- Histories ----

  /** Posting k takes the monthly cents, or what is left of the base, on top of the accumulation it found. */
  predicate Follows(base: int, monthly: int, postings: seq<Posting>, k: nat)
    requires k < |postings|
  {
    var prior := Accumulated(postings[..k]);
    && postings[k].amount == MinInt(monthly, base - prior)
    && postings[k].amount >= 1
    && postings[k].accumulated == prior + postings[k].amount
    && !HasMonth(postings[..k], postings[k].month)
  }

  predicate History(base: int, monthly: int, postings: seq<Posting>) {
    forall k :: 0 <= k < |postings| ==> Follows(base, monthly, postings, k)
  }

  predicate Increasing(postings: seq<Posting>) {
    forall j, k :: 0 <= j < k < |postings| ==> postings[j].month < postings[k].month
  }

  lemma HistoryPrefix(base: int, monthly: int, postings: seq<Posting>, n: nat)
    requires History(base, monthly, postings) && n <= |postings|
    ensures History(base, monthly, postings[..n])
  {
    forall k | 0 <= k < n
      ensures Follows(base, monthly, postings[..n], k)
    {
      assert Follows(base, monthly, postings, k);
      assert postings[..n][..k] == postings[..k];
    }
  }

  lemma HistoryGrows(base: int, monthly: int, postings: seq<Posting>, p: Posting)
    requires History(base, monthly, postings)
    requires p.amount == MinInt(monthly, base - Accumulated(postings)) >= 1
    requires p.accumulated == Accumulated(postings) + p.amount
    requires !HasMonth(postings, p.month)
    ensures History(base, monthly, postings + [p])
  {
    var grown := postings + [p];
    forall k | 0 <= k < |grown|
      ensures Follows(base, monthly, grown, k)
    {
      assert grown[..k] == postings[..k];
      if k < |postings| {
        assert Follows(base, monthly, postings, k);
      } else {
        assert postings[..k] == postings;
      }
    }
  }

  lemma {:induction false} LatestIsMaximum(postings: seq<Posting>)
    ensures Latest(postings).None? <==> postings == []
    ensures Latest(postings).Some? ==> Latest(postings).value in postings
    ensures forall p :: p in postings ==> p.month <= Latest(postings).value.month
  {
    if postings != [] {
      var n := |postings| - 1;
      LatestIsMaximum(postings[..n]);
      assert postings == postings[..n] + [postings[n]];
    }
  }

  lemma IncreasingLatest(postings: seq<Posting>)
    requires postings != [] && Increasing(postings)
    ensures Latest(postings) == Some(postings[|postings| - 1])
  {
    var n := |postings| - 1;
    LatestIsMaximum(postings[..n]);
    if n > 0 {
      var p := Latest(postings[..n]).value;
      assert p in postings[..n];
    }
  }

  /** After k postings in increasing months the accumulation is min(k * monthly, base). */
  lemma {:induction false} ClosedForm(base: int, monthly: int, postings: seq<Posting>)
    requires base >= 0 && History(base, monthly, postings) && Increasing(postings)
    ensures Accumulated(postings) == MinInt(|postings| * monthly, base)
    ensures Sum(postings, AmountOf) == Accumulated(postings)
    ensures postings != [] ==> (|postings| - 1) * monthly < base && monthly >= 1
  {
    if postings != [] {
      var n := |postings| - 1;
      HistoryPrefix(base, monthly, postings, n);
      ClosedForm(base, monthly, postings[..n]);
      IncreasingLatest(postings);
      assert Follows(base, monthly, postings, n);
      SumAppend(postings[..n], postings[n], AmountOf);
      assert postings == postings[..n] + [postings[n]];
      assert |postings| * monthly == n * monthly + monthly;
    }
  }

  /** The stored accumulation is the sum of the posted amounts exactly when the months were run in
      increasing order; a month run late is posted to the ledger and lost to the accumulation. */
  lemma {:induction false} AccumulationIsSum(base: int, monthly: int, postings: seq<Posting>)
    requires History(base, monthly, postings)
    ensures Accumulated(postings) <= Sum(postings, AmountOf)
    ensures Accumulated(postings) == Sum(postings, AmountOf) <==> Increasing(postings)
  {
    if postings != [] {
      var n := |postings| - 1;
      var front, last := postings[..n], postings[n];
      HistoryPrefix(base, monthly, postings, n);
      AccumulationIsSum(base, monthly, front);
      assert Follows(base, monthly, postings, n);
      assert postings == front + [last];
      SumAppend(front, last, AmountOf);
      LatestIsMaximum(front);
      IncreasingGrows(front, last);
    }
  }

  lemma IncreasingGrows(front: seq<Posting>, last: Posting)
    ensures Increasing(front + [last]) <==>
            Increasing(front) && (front == [] || last.month > Latest(front).value.month)
  {
    var postings, n := front + [last], |front|;
    LatestIsMaximum(front);
    if Increasing(postings) {
      forall j, k | 0 <= j < k < n
        ensures front[j].month < front[k].month
      {
        assert postings[j].month < postings[k].month;
      }
      if front != [] {
        var k :| 0 <= k < n && front[k] == Latest(front).value;
        assert postings[k].month < postings[n].month;
      }
    } else {
      var j, k :| 0 <= j < k <= n && postings[j].month >= postings[k].month;
      if k == n {
        assert postings[j] in front;
      }
    }
  }

  // ---- How long it takes ----

  function CeilDiv(a: int, b: int): int
    requires b > 0
  {
    (a + b - 1) / b
  }

  lemma MulMonotone(x: int, y: int, p: int)
    requires x <= y && p >= 0
    ensures x * p <= y * p
  {
  }

  lemma CeilDivBounds(a: int, b: int)
    requires b > 0
    ensures (CeilDiv(a, b) - 1) * b < a <= CeilDiv(a, b) * b
  {
  }

  lemma CeilingArithmetic(base: int, p: int, k: nat, full: int)
    requires base >= 0 && p >= 1
    requires (full - 1) * p < base <= full * p
    requires k > 0 ==> (k - 1) * p < base
    ensures k <= full
    ensures base <= k * p <==> k == full
  {
    if full < 0 {
      MulMonotone(full, -1, p);
    }
    if full < k {
      MulMonotone(full, k - 1, p);
    } else if k < full {
      MulMonotone(k, full - 1, p);
    }
  }

  /** The base is used up after exactly ceil(base / monthly) postings and not before. */
  lemma FullAfterCeiling(base: int, monthly: int, postings: seq<Posting>)
    requires base >= 0 && monthly >= 1 && History(base, monthly, postings) && Increasing(postings)
    ensures |postings| <= CeilDiv(base, monthly)
    ensures Accumulated(postings) == base <==> |postings| == CeilDiv(base, monthly)
  {
    ClosedForm(base, monthly, postings);
    CeilDivBounds(base, monthly);
    CeilingArithmetic(base, monthly, |postings|, CeilDiv(base, monthly));
  }

  /** Rounding the monthly amount moves the end of the asset's life by at most ceil(N / 2p) months. */
  lemma LifeWithinRounding(a: Asset)
    requires ValidTerms(a) && MonthlyCents(a) >= 1
    ensures
      var n, p := Months(a), MonthlyCents(a);
      n - CeilDiv(n, 2 * p) <= CeilDiv(Base(a), p) <= n + CeilDiv(n, 2 * p)
  {
    var b, n, p := Base(a), Months(a), MonthlyCents(a);
    var c, d := CeilDiv(b, p), CeilDiv(n, 2 * p);
    MonthlyBounds(a);
    CeilDivBounds(b, p);
    CeilDivBounds(n, 2 * p);
    LifeArithmetic(b, n, p, c, d);
  }

  lemma MonthlyBounds(a: Asset)
    requires ValidTerms(a)
    ensures Months(a) * (2 * MonthlyCents(a) - 1) <= 2 * Base(a) < Months(a) * (2 * MonthlyCents(a) + 1)
  {
    QuotientBounds(Base(a), Months(a), MonthlyCents(a));
  }

  lemma QuotientBounds(b: int, n: int, p: int)
    requires n >= 1
    requires p as real - 0.5 <= b as real / n as real < p as real + 0.5
    ensures n * (2 * p - 1) <= 2 * b < n * (2 * p + 1)
  {
    var x := b as real / n as real;
    assert x * n as real == b as real;
    RealMonotone(p as real - 0.5, x, n as real);
    RealStrict(x, p as real + 0.5, n as real);
    assert (p as real - 0.5) * n as real == (p * n) as real - 0.5 * n as real;
    assert (p as real + 0.5) * n as real == (p * n) as real + 0.5 * n as real;
    assert n * (2 * p - 1) == 2 * (p * n) - n && n * (2 * p + 1) == 2 * (p * n) + n;
  }

  lemma RealMonotone(x: real, y: real, n: real)
    requires x <= y && n >= 0.0
    ensures x * n <= y * n
  {
  }

  lemma RealStrict(x: real, y: real, n: real)
    requires x < y && n > 0.0
    ensures x * n < y * n
  {
  }

  /** A monthly amount below half a cent is exactly a base below half a cent per month. */
  lemma PostableWhenHalfCent(a: Asset)
    requires ValidTerms(a)
    ensures MonthlyCents(a) >= 1 <==> 2 * Base(a) >= Months(a)
  {
    var n, p := Months(a), MonthlyCents(a);
    MonthlyBounds(a);
    if p >= 1 {
      MulMonotone(1, 2 * p - 1, n);
    } else {
      MulMonotone(2 * p + 1, 1, n);
    }
  }

  lemma Distribute(x: int, y: int, p: int)
    ensures (x + y) * p == x * p + y * p && (x - y) * p == x * p - y * p
  {
  }

  lemma LifeArithmetic(b: int, n: int, p: int, c: int, d: int)
    requires p >= 1
    requires n * (2 * p - 1) <= 2 * b < n * (2 * p + 1)
    requires (c - 1) * p < b <= c * p
    requires n <= d * (2 * p)
    ensures n - d <= c <= n + d
  {
    assert n * (2 * p - 1) == 2 * (n * p) - n && n * (2 * p + 1) == 2 * (n * p) + n;
    assert d * (2 * p) == 2 * (d * p);
    Distribute(n, d, p);
    Distribute(c, 1, p);
    LifeLinear(b, n, p, c, d, n * p, d * p, c * p);
  }

  /** The same with the products named, so that only the two comparisons multiply. */
  lemma LifeLinear(b: int, n: int, p: int, c: int, d: int, np: int, dp: int, cp: int)
    requires p >= 1 && 2 * np - n <= 2 * b < 2 * np + n && n <= 2 * dp
    requires cp - p < b <= cp
    requires cp - p == (c - 1) * p && cp + p == (c + 1) * p
    requires np + dp == (n + d) * p && np - dp == (n - d) * p
    ensures n - d <= c <= n + d
  {
    if c > n + d {
      MulMonotone(n + d, c - 1, p);
    } else if c < n - d {
      MulMonotone(c + 1, n - d, p);
    }
  }
}

/** The shape of tiered percentage commission: how it grows with the basis, and how proration bends it. */
module CommissionShape {
  import opened Money
  import opened Sums
  import opened CommissionPlan
  import opened Commission

  // ---- Products ----

  /** The part c of an amount. */
  function Part(c: real, x: real): real {
    c * x
  }

  /** rate percent of an amount. */
  function AtRate(x: real, rate: real): real {
    Part(rate / 100.0, x)
  }

  lemma PartAdds(c: real, x: real, y: real)
    ensures Part(c, x + y) == Part(c, x) + Part(c, y)
  {
  }

  lemma PartSubtracts(c: real, x: real, y: real)
    ensures Part(c, x - y) == Part(c, x) - Part(c, y)
  {
    assert c * (x - y) == c * x - c * y;
  }

  lemma PartSign(c: real, x: real)
    ensures c >= 0.0 && x >= 0.0 ==> Part(c, x) >= 0.0
    ensures c > 0.0 && x > 0.0 ==> Part(c, x) > 0.0
    ensures c <= 0.0 && x >= 0.0 ==> Part(c, x) <= 0.0
    ensures c < 0.0 && x > 0.0 ==> Part(c, x) < 0.0
    ensures c == 0.0 || x == 0.0 ==> Part(c, x) == 0.0
  {
  }

  lemma PartOfMore(c: real, x: real, y: real)
    requires c >= 0.0 && x <= y
    ensures Part(c, x) <= Part(c, y)
  {
    PartSubtracts(c, y, x);
    PartSign(c, y - x);
  }

  lemma MoreOf(c: real, d: real, x: real)
    requires c <= d && x >= 0.0
    ensures Part(c, x) <= Part(d, x)
  {
    PartSwaps(c, x);
    PartSwaps(d, x);
    PartOfMore(x, c, d);
  }

  lemma PartSwaps(c: real, x: real)
    ensures Part(c, x) == Part(x, c)
  {
  }

  lemma PartOfPart(c: real, d: real, x: real)
    ensures Part(c, Part(d, x)) == Part(d, Part(c, x))
  {
    assert c * (d * x) == (c * d) * x == (d * c) * x == d * (c * x);
  }

  lemma PartTo(x: real, y: real) returns (c: real)
    requires 0.0 <= x < y
    ensures 0.0 <= c < 1.0 && Part(c, y) == x
  {
    c := x / y;
    assert c * y == x;
    if c < 0.0 {
      PartSign(c, y);
    }
    if c >= 1.0 {
      MoreOf(1.0, c, y);
    }
  }

  // ---- Linear facts about sums over tiers ----

  /** When each term is at least g - h and each h is met by the next g, the sum is at least first g - last h. */
  lemma {:induction false} Telescope(s: seq<Tier>, f: Tier -> real, g: Tier -> real, h: Tier -> real)
    requires s != []
    requires forall t :: t in s ==> f(t) >= g(t) - h(t)
    requires forall k :: 0 <= k < |s| - 1 ==> g(s[k + 1]) >= h(s[k])
    ensures SumReal(s, f) >= g(s[0]) - h(s[|s| - 1])
  {
    if |s| == 1 {
      assert s[1..] == [];
    } else {
      Telescope(s[1..], f, g, h);
    }
  }

  lemma {:induction false} SumRealOrdered(s: seq<Tier>, v: Tier -> real, w: Tier -> real)
    requires forall t :: t in s ==> v(t) <= w(t)
    ensures SumReal(s, v) <= SumReal(s, w)
  {
    if s != [] {
      SumRealOrdered(s[1..], v, w);
    }
  }

  lemma {:induction false} SumRealMinus(s: seq<Tier>, f: Tier -> real, v: Tier -> real, w: Tier -> real)
    requires forall t :: t in s ==> f(t) == v(t) - w(t)
    ensures SumReal(s, f) == SumReal(s, v) - SumReal(s, w)
  {
    if s != [] {
      SumRealMinus(s[1..], f, v, w);
    }
  }

  lemma {:induction false} SumRealPart(s: seq<Tier>, c: real, f: Tier -> real, v: Tier -> real)
    requires forall t :: t in s ==> f(t) == Part(c, v(t))
    ensures SumReal(s, f) == Part(c, SumReal(s, v))
  {
    hide Part;
    if s == [] {
      PartSign(c, 0.0);
    } else {
      SumRealPart(s[1..], c, f, v);
      PartAdds(c, v(s[0]), SumReal(s[1..], v));
    }
  }

  // ---- Bands ----

  /** What of the basis lies past a point. */
  function Past(basis: real, point: real): real {
    if basis > point then basis - point else 0.0
  }

  /** What of the basis lies past the end of the band. */
  function PastEnd(basis: real, t: Tier): real {
    if t.max.Some? then Past(basis, t.max.value) else 0.0
  }

  function RateOf(t: Tier): real {
    NumberOf(t.rate) / 100.0
  }

  predicate Ascends(t: Tier) {
    t.min >= 0.0 && (t.max.Some? ==> t.max.value >= t.min)
  }

  lemma OverlapIsPast(basis: real, t: Tier)
    requires Ascends(t)
    ensures Overlap(basis, t) == Past(basis, t.min) - PastEnd(basis, t)
  {
  }

  lemma ShareIsPart(basis: real, t: Tier)
    ensures BandShareOf(basis, t) == Part(RateOf(t), Overlap(basis, t))
  {
    PartSwaps(RateOf(t), Overlap(basis, t));
  }

  lemma InLadder(s: seq<Tier>, t: Tier)
    requires Ladder(PERCENTAGE, s) && t in s
    ensures Ascends(t)
  {
    var k :| 0 <= k < |s| && s[k] == t;
    BandStarts(PERCENTAGE, s, k);
    BandStarts(PERCENTAGE, s, 0);
    MinsAscend(PERCENTAGE, s, 0, k);
  }

  // ---- Growth of the overlaps ----

  function OverlapAt(basis: real): Tier -> real {
    (t: Tier) => Overlap(basis, t)
  }

  function Gain(b: real, c: real, t: Tier): real {
    Overlap(c, t) - Overlap(b, t)
  }

  function GainOf(b: real, c: real): Tier -> real {
    (t: Tier) => Gain(b, c, t)
  }

  function Loss(b: real, c: real): Tier -> real {
    (t: Tier) => Overlap(b, t) - Overlap(c, t)
  }

  function LeftBehind(b: real, c: real): Tier -> real {
    (t: Tier) => Past(b, t.min) - Past(c, t.min)
  }

  function LeftAfter(b: real, c: real): Tier -> real {
    (t: Tier) => PastEnd(b, t) - PastEnd(c, t)
  }

  lemma GainNonNegative(t: Tier, b: real, c: real)
    requires Ascends(t) && b <= c
    ensures Gain(b, c, t) >= 0.0
    ensures Loss(b, c)(t) == LeftBehind(b, c)(t) - LeftAfter(b, c)(t)
  {
    OverlapIsPast(b, t);
    OverlapIsPast(c, t);
  }

  lemma LossesMeet(s: seq<Tier>, b: real, c: real)
    requires Ladder(PERCENTAGE, s) && b <= c
    ensures forall k :: 0 <= k < |s| - 1 ==> LeftBehind(b, c)(s[k + 1]) >= LeftAfter(b, c)(s[k])
    ensures LeftBehind(b, c)(s[0]) >= b - c && LeftAfter(b, c)(s[|s| - 1]) <= 0.0
  {
    forall k | 0 <= k < |s| - 1
      ensures LeftBehind(b, c)(s[k + 1]) >= LeftAfter(b, c)(s[k])
    {
      BandStarts(PERCENTAGE, s, k + 1);
    }
    BandStarts(PERCENTAGE, s, 0);
  }

  /** Between two bases each overlap grows, and all of them together by no more than the difference. */
  lemma OverlapsGrow(s: seq<Tier>, b: real, c: real)
    requires Ladder(PERCENTAGE, s) && b <= c
    ensures forall t :: t in s ==> Gain(b, c, t) >= 0.0
    ensures 0.0 <= SumReal(s, GainOf(b, c)) <= c - b
  {
    assert s != [];
    var zero := (t: Tier) => 0.0;
    hide Ladder, SumReal, Overlap, Past, PastEnd, Gain, Ascends;
    forall t | t in s
      ensures Gain(b, c, t) >= 0.0
      ensures Loss(b, c)(t) == LeftBehind(b, c)(t) - LeftAfter(b, c)(t)
    {
      InLadder(s, t);
      GainNonNegative(t, b, c);
    }
    GainsAndLosses(s, b, c);
    SumRealZero(s, zero);
    SumRealOrdered(s, zero, GainOf(b, c));
    LossesMeet(s, b, c);
    Telescope(s, Loss(b, c), LeftBehind(b, c), LeftAfter(b, c));
  }

  lemma GainsAndLosses(s: seq<Tier>, b: real, c: real)
    ensures SumReal(s, GainOf(b, c)) == -SumReal(s, Loss(b, c))
  {
    hide SumReal, Overlap;
    SumRealMinus(s, GainOf(b, c), OverlapAt(c), OverlapAt(b));
    SumRealMinus(s, Loss(b, c), OverlapAt(b), OverlapAt(c));
  }

  // ---- Growth of the commission ----

  /** The rates of all tiers of any width lie between low and high. */
  predicate RatesWithin(s: seq<Tier>, low: real, high: real) {
    forall t :: t in s && Wide(t) ==> low <= NumberOf(t.rate) <= high
  }

  function RatedGain(b: real, c: real, rate: real): Tier -> real {
    (t: Tier) => Part(rate / 100.0, Gain(b, c, t))
  }

  function ShareGain(b: real, c: real): Tier -> real {
    (t: Tier) => BandShareOf(c, t) - BandShareOf(b, t)
  }

  lemma GainPays(t: Tier, low: real, high: real, b: real, c: real)
    requires Ascends(t) && b <= c && (Wide(t) ==> low <= NumberOf(t.rate) <= high)
    ensures RatedGain(b, c, low)(t) <= ShareGain(b, c)(t) <= RatedGain(b, c, high)(t)
  {
    ShareIsPart(b, t);
    ShareIsPart(c, t);
    PartSubtracts(RateOf(t), Overlap(c, t), Overlap(b, t));
    GainNonNegative(t, b, c);
    if Wide(t) {
      hide Part, Overlap;
      MoreOf(low / 100.0, RateOf(t), Gain(b, c, t));
      MoreOf(RateOf(t), high / 100.0, Gain(b, c, t));
    } else {
      assert Gain(b, c, t) == 0.0;
      hide Part, Overlap;
      PartSign(low / 100.0, 0.0);
      PartSign(RateOf(t), 0.0);
      PartSign(high / 100.0, 0.0);
    }
  }

  /** Between two bases the commission moves by no more than the highest rate, and no less than the lowest, on the
      difference; either bound may be zero, where the schedule is capped. */
  lemma ShareGrows(s: seq<Tier>, low: real, high: real, b: real, c: real)
    requires Ladder(PERCENTAGE, s) && RatesWithin(s, low, high) && low <= 0.0 <= high && b <= c
    ensures AtRate(c - b, low) <= SumReal(s, BandShare(c)) - SumReal(s, BandShare(b)) <= AtRate(c - b, high)
  {
    var gained := SumReal(s, GainOf(b, c));
    assert forall t :: t in s && Wide(t) ==> low <= NumberOf(t.rate) <= high;
    hide Ladder, RatesWithin, SumReal, BandShareOf, Part, Gain, Wide, Ascends;
    OverlapsGrow(s, b, c);
    forall t | t in s
      ensures RatedGain(b, c, low)(t) <= ShareGain(b, c)(t) <= RatedGain(b, c, high)(t)
    {
      InLadder(s, t);
      GainPays(t, low, high, b, c);
    }
    SumRealOrdered(s, RatedGain(b, c, low), ShareGain(b, c));
    SumRealOrdered(s, ShareGain(b, c), RatedGain(b, c, high));
    SumRealMinus(s, ShareGain(b, c), BandShare(c), BandShare(b));
    SumRealPart(s, low / 100.0, RatedGain(b, c, low), GainOf(b, c));
    SumRealPart(s, high / 100.0, RatedGain(b, c, high), GainOf(b, c));
    PartOfMore(high / 100.0, gained, c - b);
    LessOfMore(low / 100.0, gained, c - b);
  }

  lemma LessOfMore(c: real, x: real, y: real)
    requires c <= 0.0 && x <= y
    ensures Part(c, y) <= Part(c, x)
  {
    PartSubtracts(c, y, x);
    PartSign(c, y - x);
  }

  // ---- Monotone exactly when no rate is negative ----

  predicate NoNegativeRate(s: seq<Tier>) {
    forall t :: t in s && Wide(t) ==> NumberOf(t.rate) >= 0.0
  }

  /** Between the ends of a band only that band's overlap moves. */
  lemma OneBandMoves(s: seq<Tier>, k: nat, j: nat, top: real)
    requires Ladder(PERCENTAGE, s) && k < |s| && j < |s|
    requires s[k].min <= top && (s[k].max.Some? ==> top <= s[k].max.value)
    ensures Gain(s[k].min, top, s[j]) == if j == k then top - s[k].min else 0.0
  {
    InLadder(s, s[j]);
    BandStarts(PERCENTAGE, s, k);
    BandStarts(PERCENTAGE, s, j);
    if j < k {
      BandStarts(PERCENTAGE, s, j + 1);
      MinsAscend(PERCENTAGE, s, j + 1, k);
    } else if j > k {
      BandStarts(PERCENTAGE, s, k + 1);
      MinsAscend(PERCENTAGE, s, k + 1, j);
    }
  }

  lemma {:induction false} SumOfOne(s: seq<Tier>, k: nat, w: Tier -> real)
    requires k < |s| && forall j :: 0 <= j < |s| && j != k ==> w(s[j]) == 0.0
    ensures SumReal(s, w) == w(s[k])
  {
    assert s == (s[..k] + [s[k]]) + s[k + 1..];
    SumRealConcat(s[..k] + [s[k]], s[k + 1..], w);
    SumRealAppend(s[..k], s[k], w);
    SumRealZero(s[..k], w);
    SumRealZero(s[k + 1..], w);
  }

  /** Across a band the commission moves by its rate on its width. */
  lemma BandStep(s: seq<Tier>, k: nat, top: real)
    requires Ladder(PERCENTAGE, s) && k < |s|
    requires s[k].min <= top && (s[k].max.Some? ==> top <= s[k].max.value)
    ensures SumReal(s, BandShare(top)) - SumReal(s, BandShare(s[k].min)) == Part(RateOf(s[k]), top - s[k].min)
  {
    var b := s[k].min;
    hide Ladder, SumReal, BandShareOf, Part, Gain, Overlap;
    forall j: nat | j < |s|
      ensures ShareGain(b, top)(s[j]) == if j == k then Part(RateOf(s[k]), top - b) else 0.0
    {
      OneBandMoves(s, k, j, top);
      GainIsPart(s[j], b, top);
      PartSign(RateOf(s[j]), Gain(b, top, s[j]));
    }
    SumOfOne(s, k, ShareGain(b, top));
    SumRealMinus(s, ShareGain(b, top), BandShare(top), BandShare(b));
  }

  lemma GainIsPart(t: Tier, b: real, c: real)
    ensures ShareGain(b, c)(t) == Part(RateOf(t), Gain(b, c, t))
  {
    ShareIsPart(b, t);
    ShareIsPart(c, t);
    PartSubtracts(RateOf(t), Overlap(c, t), Overlap(b, t));
  }

  /** The commission never falls as the basis grows. */
  ghost predicate Rises(s: seq<Tier>) {
    forall b, c :: 0.0 <= b <= c ==> SumReal(s, BandShare(b)) <= SumReal(s, BandShare(c))
  }

  lemma NegativeRateFalls(s: seq<Tier>, k: nat) returns (b: real, c: real)
    requires Ladder(PERCENTAGE, s) && k < |s| && Wide(s[k]) && NumberOf(s[k].rate) < 0.0
    ensures 0.0 <= b <= c && SumReal(s, BandShare(b)) > SumReal(s, BandShare(c))
  {
    InLadder(s, s[k]);
    b := s[k].min;
    c := if s[k].max.Some? then s[k].max.value else b + 1.0;
    hide Ladder, SumReal, BandShareOf, Part;
    BandStep(s, k, c);
    PartSign(RateOf(s[k]), c - b);
  }

  lemma {:induction false} HighestRate(s: seq<Tier>) returns (high: real)
    requires NoNegativeRate(s)
    ensures high >= 0.0 && RatesWithin(s, 0.0, high)
  {
    high := 0.0;
    if s != [] {
      high := HighestRate(s[1..]);
      if NumberOf(s[0].rate) > high {
        high := NumberOf(s[0].rate);
      }
    }
  }

  lemma NoNegativeRateRises(s: seq<Tier>, b: real, c: real)
    requires Ladder(PERCENTAGE, s) && NoNegativeRate(s) && b <= c
    ensures SumReal(s, BandShare(b)) <= SumReal(s, BandShare(c))
  {
    hide Ladder, NoNegativeRate, RatesWithin, SumReal, BandShareOf, Part;
    var high := HighestRate(s);
    ShareGrows(s, 0.0, high, b, c);
    PartSign(0.0 / 100.0, c - b);
  }

  /** The commission of a schedule never falls exactly when no tier of any width has a negative rate. */
  lemma RisesExactly(s: seq<Tier>)
    requires Ladder(PERCENTAGE, s)
    ensures Rises(s) <==> NoNegativeRate(s)
  {
    hide Ladder, SumReal, BandShareOf;
    if NoNegativeRate(s) {
      forall b, c | 0.0 <= b <= c
        ensures SumReal(s, BandShare(b)) <= SumReal(s, BandShare(c))
      {
        NoNegativeRateRises(s, b, c);
      }
    } else {
      var t :| t in s && Wide(t) && NumberOf(t.rate) < 0.0;
      var k :| 0 <= k < |s| && s[k] == t;
      var b, c := NegativeRateFalls(s, k);
      assert !(SumReal(s, BandShare(b)) <= SumReal(s, BandShare(c)));
    }
  }

  // ---- Proration ----

  predicate RatesRise(s: seq<Tier>) {
    forall k :: 0 <= k < |s| - 1 ==> NumberOf(s[k].rate) <= NumberOf(s[k + 1].rate)
  }

  /** How far c times what lies past a point exceeds what of the part c of the basis lies past it. */
  function Spare(b: real, c: real, point: real): real {
    Part(c, Past(b, point)) - Past(Part(c, b), point)
  }

  function SpareAtEnd(b: real, c: real, t: Tier): real {
    if t.max.Some? then Spare(b, c, t.max.value) else 0.0
  }

  lemma SpareNonNegative(b: real, c: real, point: real)
    requires 0.0 <= c <= 1.0 && point >= 0.0 && b >= 0.0
    ensures Spare(b, c, point) >= 0.0
    ensures b <= point ==> Spare(b, c, point) == 0.0
    ensures point == 0.0 ==> Spare(b, c, point) == 0.0
  {
    MoreOf(c, 1.0, b);
    MoreOf(c, 1.0, point);
    assert Part(1.0, b) == b && Part(1.0, point) == point;
    PartSubtracts(c, b, point);
    hide Part;
    PartSign(c, b);
    PartSign(c, Past(b, point));
    PartSign(c, point);
  }

  lemma BandProrates(t: Tier, b: real, c: real)
    requires Ascends(t)
    ensures Part(c, BandShareOf(b, t)) - BandShareOf(Part(c, b), t)
            == Part(RateOf(t), Spare(b, c, t.min)) - Part(RateOf(t), SpareAtEnd(b, c, t))
  {
    var r, cb := RateOf(t), Part(c, b);
    ShareIsPart(b, t);
    ShareIsPart(cb, t);
    OverlapIsPast(b, t);
    OverlapIsPast(cb, t);
    SpareEndIs(b, c, t);
    hide Part, Overlap, Past, PastEnd, BandShareOf, SpareAtEnd;
    PartOfPart(c, r, Overlap(b, t));
    PartSubtracts(c, Past(b, t.min), PastEnd(b, t));
    PartSubtracts(r, Part(c, Overlap(b, t)), Overlap(cb, t));
    PartSubtracts(r, Spare(b, c, t.min), SpareAtEnd(b, c, t));
  }

  lemma SpareEndIs(b: real, c: real, t: Tier)
    ensures SpareAtEnd(b, c, t) == Part(c, PastEnd(b, t)) - PastEnd(Part(c, b), t)
  {
    PartSign(c, 0.0);
  }

  /** The last tier is open, or the basis does not run past it. */
  predicate WithinCap(s: seq<Tier>, b: real)
    requires s != []
  {
    s[|s| - 1].max.Some? ==> b <= s[|s| - 1].max.value
  }

  function SpareOf(b: real, c: real): Tier -> real {
    (t: Tier) => Part(RateOf(t), Spare(b, c, t.min))
  }

  function SpareAfter(b: real, c: real): Tier -> real {
    (t: Tier) => Part(RateOf(t), SpareAtEnd(b, c, t))
  }

  function PartShare(b: real, c: real): Tier -> real {
    (t: Tier) => Part(c, BandShareOf(b, t))
  }

  /** What a part of the commission on the whole leaves over the commission on that part. */
  function Excess(b: real, c: real): Tier -> real {
    (t: Tier) => Part(c, BandShareOf(b, t)) - BandShareOf(Part(c, b), t)
  }

  lemma SpareRises(s: seq<Tier>, k: nat, b: real, c: real)
    requires Ladder(PERCENTAGE, s) && RatesRise(s) && k < |s| - 1 && 0.0 <= c <= 1.0 && b >= 0.0
    ensures SpareOf(b, c)(s[k + 1]) >= SpareAfter(b, c)(s[k])
  {
    BandStarts(PERCENTAGE, s, k + 1);
    InLadder(s, s[k + 1]);
    SpareNonNegative(b, c, s[k + 1].min);
    assert SpareAtEnd(b, c, s[k]) == Spare(b, c, s[k + 1].min);
    assert RateOf(s[k]) <= RateOf(s[k + 1]);
    hide Part, Spare;
    MoreOf(RateOf(s[k]), RateOf(s[k + 1]), Spare(b, c, s[k + 1].min));
  }

  lemma SpareEnds(s: seq<Tier>, b: real, c: real)
    requires Ladder(PERCENTAGE, s) && WithinCap(s, b) && 0.0 <= c <= 1.0 && b >= 0.0
    ensures SpareOf(b, c)(s[0]) == 0.0 && SpareAfter(b, c)(s[|s| - 1]) == 0.0
  {
    var last := s[|s| - 1];
    BandStarts(PERCENTAGE, s, 0);
    InLadder(s, last);
    SpareNonNegative(b, c, 0.0);
    if last.max.Some? {
      SpareNonNegative(b, c, last.max.value);
    }
    hide Part, Spare;
    PartSign(RateOf(s[0]), 0.0);
    PartSign(RateOf(last), 0.0);
  }

  lemma ExcessSum(s: seq<Tier>, b: real, c: real)
    ensures SumReal(s, Excess(b, c)) == Part(c, SumReal(s, BandShare(b))) - SumReal(s, BandShare(Part(c, b)))
  {
    hide SumReal, BandShareOf, Part;
    SumRealMinus(s, Excess(b, c), PartShare(b, c), BandShare(Part(c, b)));
    SumRealPart(s, c, PartShare(b, c), BandShare(b));
  }

  /** Within the cap, a part of the basis earns no more than that part of the commission on the whole. */
  lemma ProratesWithinCap(s: seq<Tier>, b: real, c: real)
    requires Ladder(PERCENTAGE, s) && RatesRise(s) && WithinCap(s, b) && 0.0 <= c <= 1.0 && b >= 0.0
    ensures SumReal(s, BandShare(Part(c, b))) <= Part(c, SumReal(s, BandShare(b)))
  {
    assert s != [];
    hide Ladder, RatesRise, WithinCap, SumReal, BandShareOf, Part, Spare, SpareAtEnd, Ascends;
    forall t | t in s
      ensures Excess(b, c)(t) >= SpareOf(b, c)(t) - SpareAfter(b, c)(t)
    {
      InLadder(s, t);
      BandProrates(t, b, c);
    }
    forall k | 0 <= k < |s| - 1
      ensures SpareOf(b, c)(s[k + 1]) >= SpareAfter(b, c)(s[k])
    {
      SpareRises(s, k, b, c);
    }
    SpareEnds(s, b, c);
    Telescope(s, Excess(b, c), SpareOf(b, c), SpareAfter(b, c));
    ExcessSum(s, b, c);
  }

  // ---- Past the cap ----

  lemma EndsByCap(s: seq<Tier>, t: Tier)
    requires Ladder(PERCENTAGE, s) && t in s && s[|s| - 1].max.Some?
    ensures t.max.Some? && t.max.value <= s[|s| - 1].max.value
  {
    var k :| 0 <= k < |s| && s[k] == t;
    BandStarts(PERCENTAGE, s, |s| - 1);
    if k < |s| - 1 {
      BandStarts(PERCENTAGE, s, k + 1);
      MinsAscend(PERCENTAGE, s, k + 1, |s| - 1);
    }
  }

  /** A basis past the cap earns what the cap earns. */
  lemma PastCap(s: seq<Tier>, b: real, cap: real)
    requires Ladder(PERCENTAGE, s) && s[|s| - 1].max == Some(cap) && cap <= b
    ensures SumReal(s, BandShare(b)) == SumReal(s, BandShare(cap))
  {
    forall t | t in s
      ensures BandShare(b)(t) == BandShare(cap)(t)
    {
      EndsByCap(s, t);
    }
    hide *;
    SumRealMapped(s, s, BandShare(b), BandShare(cap));
  }

  lemma CapIsNotNegative(s: seq<Tier>, cap: real)
    requires Ladder(PERCENTAGE, s) && s[|s| - 1].max == Some(cap)
    ensures cap >= 0.0
  {
    InLadder(s, s[|s| - 1]);
  }

  /** A capped commission that is not positive is never more than a part of itself. */
  lemma UnpaidProrates(s: seq<Tier>, b: real, cap: real, c: real)
    requires Ladder(PERCENTAGE, s) && RatesRise(s) && s[|s| - 1].max == Some(cap) && cap < b
    requires SumReal(s, BandShare(b)) <= 0.0 && 0.0 <= c <= 1.0
    ensures SumReal(s, BandShare(Part(c, b))) <= Part(c, SumReal(s, BandShare(b)))
  {
    var full, basis := SumReal(s, BandShare(b)), Part(c, b);
    CapIsNotNegative(s, cap);
    assert WithinCap(s, cap);
    assert Part(1.0, full) == full;
    hide Ladder, RatesRise, WithinCap, SumReal, BandShareOf, Part;
    PastCap(s, b, cap);
    PartSign(c, b);
    if basis >= cap {
      PastCap(s, basis, cap);
      PartSwaps(c, full);
      PartSwaps(1.0, full);
      LessOfMore(full, c, 1.0);
    } else {
      var d := PartTo(basis, cap);
      ProratesWithinCap(s, cap, d);
      WiderPart(c, d, b, cap);
      PartSwaps(c, full);
      PartSwaps(d, full);
      LessOfMore(full, c, d);
    }
  }

  /** The same amount is a larger part of a smaller whole. */
  lemma WiderPart(c: real, d: real, b: real, cap: real)
    requires Part(c, b) == Part(d, cap) && 0.0 <= cap < b && 0.0 <= c && 0.0 <= d
    ensures c <= d
  {
    if c > d {
      PartSubtracts(c, b, cap);
      PartSign(c, b - cap);
      MoreOf(d, c, cap);
    }
  }

  /** Past a cap that pays, the part of the basis up to the cap earns more than its part. */
  lemma PaidDoesNotProrate(s: seq<Tier>, b: real, cap: real) returns (c: real)
    requires Ladder(PERCENTAGE, s) && s[|s| - 1].max == Some(cap) && cap < b && SumReal(s, BandShare(b)) > 0.0
    ensures 0.0 <= c <= 1.0 && SumReal(s, BandShare(Part(c, b))) > Part(c, SumReal(s, BandShare(b)))
  {
    var full := SumReal(s, BandShare(b));
    CapIsNotNegative(s, cap);
    assert Part(1.0, full) == full;
    hide Ladder, SumReal, BandShareOf, Part;
    PastCap(s, b, cap);
    c := PartTo(cap, b);
    PartSwaps(c, full);
    PartSwaps(1.0, full);
    PartSubtracts(full, 1.0, c);
    PartSign(full, 1.0 - c);
  }

  // ---- Whole plans ----

  predicate PercentagePlan(p: Plan) {
    Walkable(p) && p.kind == PERCENTAGE
  }

  predicate PlanRatesWithin(p: Plan, low: real, high: real) {
    if p.isTiered then RatesWithin(SortByOrder(p.tiers), low, high) else low <= NumberOf(p.rate) <= high
  }

  lemma GrossIsShare(p: Plan, b: real)
    requires p.isTiered && p.kind == PERCENTAGE
    ensures Gross(p, b) == SumReal(SortByOrder(p.tiers), BandShare(b))
  {
    SortedSum(p.tiers, BandShare(b));
  }

  lemma GrossIsPart(p: Plan, b: real)
    requires !p.isTiered && p.kind == PERCENTAGE
    ensures Gross(p, b) == AtRate(b, NumberOf(p.rate))
  {
    PartSwaps(NumberOf(p.rate) / 100.0, b);
  }

  /** The gross commission moves by no more than the highest rate, and no less than the lowest, on the difference. */
  lemma GrossGrows(p: Plan, low: real, high: real, b: real, c: real)
    requires PercentagePlan(p) && PlanRatesWithin(p, low, high) && low <= 0.0 <= high && b <= c
    ensures AtRate(c - b, low) <= Gross(p, c) - Gross(p, b) <= AtRate(c - b, high)
  {
    if p.isTiered {
      hide Ladder, SortByOrder, RatesWithin, Gross, SumReal, Part;
      GrossIsShare(p, b);
      GrossIsShare(p, c);
      ShareGrows(SortByOrder(p.tiers), low, high, b, c);
    } else {
      var rate := NumberOf(p.rate);
      GrossIsPart(p, b);
      GrossIsPart(p, c);
      PartSubtracts(rate / 100.0, c, b);
      hide Part, Gross;
      MoreOf(low / 100.0, rate / 100.0, c - b);
      MoreOf(rate / 100.0, high / 100.0, c - b);
    }
  }

  /** No rate that can apply is negative. */
  predicate NoNegativePlanRate(p: Plan) {
    if p.isTiered then NoNegativeRate(SortByOrder(p.tiers)) else NumberOf(p.rate) >= 0.0
  }

  ghost predicate GrossRises(p: Plan) {
    forall b, c :: 0.0 <= b <= c ==> Gross(p, b) <= Gross(p, c)
  }

  lemma FlatRisesExactly(p: Plan)
    requires PercentagePlan(p) && !p.isTiered
    ensures GrossRises(p) <==> NumberOf(p.rate) >= 0.0
  {
    var rate := NumberOf(p.rate);
    hide Gross;
    forall b
      ensures Gross(p, b) == AtRate(b, rate)
    {
      GrossIsPart(p, b);
    }
    hide Part;
    if rate >= 0.0 {
      forall b, c | 0.0 <= b <= c
        ensures Gross(p, b) <= Gross(p, c)
      {
        PartOfMore(rate / 100.0, b, c);
      }
    } else {
      PartSign(rate / 100.0, 0.0);
      PartSign(rate / 100.0, 1.0);
      assert !(Gross(p, 0.0) <= Gross(p, 1.0));
    }
  }

  /** For every stored percentage plan: the gross commission never falls as a non-negative basis grows exactly when no
      rate that can apply is negative. */
  lemma GrossRisesExactly(p: Plan)
    requires PercentagePlan(p)
    ensures GrossRises(p) <==> NoNegativePlanRate(p)
  {
    if p.isTiered {
      var s := SortByOrder(p.tiers);
      forall b
        ensures Gross(p, b) == SumReal(s, BandShare(b))
      {
        GrossIsShare(p, b);
      }
      hide Gross, SumReal, SortByOrder, Ladder, NoNegativeRate;
      RisesExactly(s);
    } else {
      FlatRisesExactly(p);
    }
  }

  /** For the same sale, the commission on what was collected never exceeds the commission on the whole. */
  lemma CollectedWithinFull(p: Plan, a: Allocation, d: BasisInput)
    requires PercentagePlan(p) && NoNegativePlanRate(p) && d.discountAmount >= 0.0 && ComputeBasis(a, d).Ok?
    ensures ComputeBasis(a, d.(collectionBasis := FULL)).Ok?
    ensures Gross(p, ComputeBasis(a, d).value.proratedBasisAmount)
            <= Gross(p, ComputeBasis(a, d.(collectionBasis := FULL)).value.proratedBasisAmount)
  {
    var collected, full := ComputeBasis(a, d).value, ComputeBasis(a, d.(collectionBasis := FULL)).value;
    BasisProrated(a, d);
    assert collected.proratedBasisAmount == Part(collected.collectedPercent, collected.commissionBasisAmount);
    assert full.proratedBasisAmount == collected.commissionBasisAmount == Part(1.0, collected.commissionBasisAmount);
    hide ComputeBasis, Part, Gross, NoNegativePlanRate;
    PartSign(collected.collectedPercent, collected.commissionBasisAmount);
    MoreOf(collected.collectedPercent, 1.0, collected.commissionBasisAmount);
    GrossRisesExactly(p);
    assert 0.0 <= collected.proratedBasisAmount <= full.proratedBasisAmount;
  }

  const CLAWING := CreateInput(PERCENTAGE, GLOBAL, Targets(None, None, None, None), Some(-5.0), None, false, None)

  /** A plan at minus five percent is accepted, and pays more on the half of a sale that was collected than on all of
      it. */
  lemma NegativeRateIsAccepted(code: nat)
    ensures
      var o := Created(map[], code, CLAWING);
      var a := Allocation(1_000, Some(Installments(1_000, [500])));
      var collected := ComputeBasis(a, BasisInput(GROSS, 0.0, COLLECTED));
      var full := ComputeBasis(a, BasisInput(GROSS, 0.0, FULL));
      && o.result == Ok(code) && collected.Ok? && full.Ok?
      && Gross(o.plans[code], collected.value.proratedBasisAmount)
         > Gross(o.plans[code], full.value.proratedBasisAmount)
  {
    var paid := [500];
    assert Sum(paid, PaidOf) == 500 by {
      assert paid[1..] == [];
    }
    assert 500.0 / 1_000.0 == 0.5;
    assert Store(-50_000.0) == -50_000;
  }

  /** Paying on a part of the basis pays no more than that part of the commission. */
  predicate PaysAtMostPart(p: Plan, b: real, c: real) {
    Gross(p, Part(c, b)) <= Part(c, Gross(p, b))
  }

  lemma ProratesAtMost(p: Plan, b: real, c: real)
    requires PercentagePlan(p) && p.isTiered && RatesRise(SortByOrder(p.tiers)) && b > 0.0 && 0.0 <= c <= 1.0
    requires WithinCap(SortByOrder(p.tiers), b) || Gross(p, b) <= 0.0
    ensures PaysAtMostPart(p, b, c)
  {
    var s := SortByOrder(p.tiers);
    var last := s[|s| - 1];
    hide Gross, SumReal, SortByOrder, Ladder, RatesRise, Part, BandShareOf;
    GrossIsShare(p, b);
    GrossIsShare(p, Part(c, b));
    if WithinCap(s, b) {
      ProratesWithinCap(s, b, c);
    } else {
      UnpaidProrates(s, b, last.max.value, c);
    }
  }

  lemma ProratesBeyond(p: Plan, b: real) returns (c: real)
    requires PercentagePlan(p) && p.isTiered && b > 0.0
    requires SortByOrder(p.tiers) != [] && !WithinCap(SortByOrder(p.tiers), b) && Gross(p, b) > 0.0
    ensures 0.0 <= c <= 1.0 && !PaysAtMostPart(p, b, c)
  {
    var s := SortByOrder(p.tiers);
    hide Gross, SumReal, SortByOrder, Ladder, Part, BandShareOf;
    GrossIsShare(p, b);
    c := PaidDoesNotProrate(s, b, s[|s| - 1].max.value);
    GrossIsShare(p, Part(c, b));
  }

  /** With rates that rise from tier to tier, of whatever sign, a part of the basis never earns more than its part of
      the commission exactly when the basis does not run past a cap, or earns nothing. */
  lemma ProratesExactlyWhenUncapped(p: Plan, b: real)
    requires PercentagePlan(p) && p.isTiered && RatesRise(SortByOrder(p.tiers)) && b > 0.0
    ensures SortByOrder(p.tiers) != []
    ensures (forall c :: 0.0 <= c <= 1.0 ==> PaysAtMostPart(p, b, c))
            <==> WithinCap(SortByOrder(p.tiers), b) || Gross(p, b) <= 0.0
  {
    var s := SortByOrder(p.tiers);
    assert s != [];
    hide Gross, WithinCap, PaysAtMostPart, SortByOrder, Ladder, RatesRise;
    if WithinCap(s, b) || Gross(p, b) <= 0.0 {
      forall c | 0.0 <= c <= 1.0
        ensures PaysAtMostPart(p, b, c)
      {
        ProratesAtMost(p, b, c);
      }
    } else {
      var c := ProratesBeyond(p, b);
    }
  }

  const CAPPED := Plan(PERCENTAGE, true, None, None, [Tier(1, 0.0, Some(100_000.0), Some(10.0), None)])

  /** Ten percent up to 1000.00 and nothing beyond: half of 2000.00 earns as much as all of it. */
  lemma HalfCanEarnTheWhole()
    ensures Usable(CAPPED) && Gross(CAPPED, 100_000.0) == Gross(CAPPED, 200_000.0) == 10_000.0
    ensures !PaysAtMostPart(CAPPED, 200_000.0, 0.5)
  {
    var tiers := CAPPED.tiers;
    AlreadySorted(tiers);
    assert TierAccepted(PERCENTAGE, tiers, 0);
    assert tiers == [] + [tiers[0]];
    SumRealAppend([], tiers[0], BandShare(100_000.0));
    SumRealAppend([], tiers[0], BandShare(200_000.0));
    assert Part(0.5, 200_000.0) == 100_000.0 && Part(0.5, 10_000.0) == 5_000.0;
  }

  /** The order in which tiers are supplied changes neither acceptance nor any commission. */
  lemma SupplyOrderIrrelevant(p: Plan, shuffled: seq<Tier>, b: real)
    requires Usable(p) && p.isTiered && multiset(p.tiers) == multiset(shuffled)
    ensures
      var q := p.(tiers := shuffled);
      Usable(q) && Gross(q, b) == Gross(p, b) && SortByOrder(q.tiers) == SortByOrder(p.tiers)
  {
    SuppliedOrderIrrelevant(p.kind, p.tiers, shuffled);
    SortedSum(p.tiers, TierWeight(p.kind, b));
    SortedSum(shuffled, TierWeight(p.kind, b));
  }

  // ---- Splitting a tier ----

  function Shifted(s: seq<Tier>): (t: seq<Tier>)
    ensures |t| == |s|
  {
    seq(|s|, i requires 0 <= i < |s| => s[i].(tierOrder := s[i].tierOrder + 1))
  }

  function LowerHalf(t: Tier, x: real): Tier {
    t.(max := Some(x))
  }

  function UpperHalf(t: Tier, x: real): Tier {
    t.(tierOrder := t.tierOrder + 1, min := x)
  }

  /** Tier k becomes two tiers that meet at x, and the tiers above it move up one. */
  function SplitAt(s: seq<Tier>, k: nat, x: real): seq<Tier>
    requires k < |s|
  {
    s[..k] + [LowerHalf(s[k], x), UpperHalf(s[k], x)] + Shifted(s[k + 1..])
  }

  lemma SumOfSplit(front: seq<Tier>, t: Tier, lower: Tier, upper: Tier, back: seq<Tier>, moved: seq<Tier>,
                   w: Tier -> real)
    requires w(t) == w(lower) + w(upper)
    requires |moved| == |back| && forall i :: 0 <= i < |back| ==> w(back[i]) == w(moved[i])
    ensures SumReal(front + [lower, upper] + moved, w) == SumReal(front + [t] + back, w)
  {
    SumRealConcat(front + [t], back, w);
    SumRealAppend(front, t, w);
    assert front + [lower, upper] == front + [lower] + [upper];
    SumRealConcat(front + [lower, upper], moved, w);
    SumRealAppend(front + [lower], upper, w);
    SumRealAppend(front, lower, w);
    SumRealMapped(back, moved, w, w);
  }

  /** Splitting a tier at an interior point leaves an accepted schedule that pays the same on every basis. */
  lemma SplitPaysTheSame(s: seq<Tier>, k: nat, x: real, b: real)
    requires Schedule(PERCENTAGE, s) && k < |s| && s[k].min < x && (s[k].max.Some? ==> x < s[k].max.value)
    ensures Schedule(PERCENTAGE, SplitAt(s, k, x))
    ensures SumReal(SplitAt(s, k, x), BandShare(b)) == SumReal(s, BandShare(b))
  {
    SplitAccepted(s, k, x);
    SplitSum(s, k, x, b);
  }

  lemma SplitSum(s: seq<Tier>, k: nat, x: real, b: real)
    requires k < |s| && s[k].min < x && (s[k].max.Some? ==> x < s[k].max.value)
    ensures SumReal(SplitAt(s, k, x), BandShare(b)) == SumReal(s, BandShare(b))
  {
    SplitBand(b, s[k], x);
    ShiftedPaysTheSame(s[k + 1..], b);
    WholeAndSplit(s, k, x);
    hide *;
    SumOfSplit(s[..k], s[k], LowerHalf(s[k], x), UpperHalf(s[k], x), s[k + 1..], Shifted(s[k + 1..]), BandShare(b));
  }

  lemma WholeAndSplit(s: seq<Tier>, k: nat, x: real)
    requires k < |s|
    ensures s == s[..k] + [s[k]] + s[k + 1..]
    ensures SplitAt(s, k, x) == s[..k] + [LowerHalf(s[k], x), UpperHalf(s[k], x)] + Shifted(s[k + 1..])
  {
  }

  lemma ShiftedPaysTheSame(s: seq<Tier>, b: real)
    ensures forall i :: 0 <= i < |s| ==> BandShare(b)(s[i]) == BandShare(b)(Shifted(s)[i])
  {
  }

  lemma SplitBand(b: real, t: Tier, x: real)
    requires t.min < x && (t.max.Some? ==> x < t.max.value)
    ensures BandShare(b)(t) == BandShare(b)(LowerHalf(t, x)) + BandShare(b)(UpperHalf(t, x))
  {
    ShareIsPart(b, t);
    ShareIsPart(b, LowerHalf(t, x));
    ShareIsPart(b, UpperHalf(t, x));
    assert Overlap(b, t) == Overlap(b, LowerHalf(t, x)) + Overlap(b, UpperHalf(t, x));
    PartAdds(RateOf(t), Overlap(b, LowerHalf(t, x)), Overlap(b, UpperHalf(t, x)));
  }

  lemma SplitAccepted(s: seq<Tier>, k: nat, x: real)
    requires Schedule(PERCENTAGE, s) && k < |s| && s[k].min < x && (s[k].max.Some? ==> x < s[k].max.value)
    ensures Schedule(PERCENTAGE, SplitAt(s, k, x))
  {
    var split := SplitAt(s, k, x);
    forall i | 0 <= i < |split|
      ensures TierAccepted(PERCENTAGE, split, i)
    {
      if i <= k {
        assert TierAccepted(PERCENTAGE, s, i);
      } else {
        assert TierAccepted(PERCENTAGE, s, i - 1);
        assert i > k + 1 ==> TierAccepted(PERCENTAGE, s, i - 2);
      }
    }
  }
}

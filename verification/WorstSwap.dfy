/** When a swap passes its own slippage check for every draw: the worst draw decides. */
module WorstSwap {
  import opened Decimals
  import opened DexRouter
  import opened Products

  ghost predicate PassesFor(n: nat, s: real, r: real)
    requires n > 0
  {
    PassesSlippage(Fixed9(n), Fixed9(ExecutedUnits(Fixed9(n), s, r)), s)
  }

  ghost predicate AlwaysPasses(n: nat, s: real)
    requires n > 0
  {
    forall r :: 0.0 <= r < 1.0 ==> PassesFor(n, s, r)
  }

  // ---- A lower price never passes in place of a higher one ----

  lemma RatioMonotone(a: real, a': real, b: real)
    requires 0.0 <= a <= a' && b > 0.0
    ensures 0.0 <= Ratio(a, b) <= Ratio(a', b)
  {
  }

  lemma CheckMonotone(n: nat, m: nat, m': nat, s: real)
    requires 0 < n && n as real < Shift(1.0, PRECISION) && m <= m' <= n
    requires PassesSlippage(Fixed9(n), Fixed9(m), s)
    ensures PassesSlippage(Fixed9(n), Fixed9(m'), s)
  {
    DistanceExact(n, m);
    DistanceExact(n, m');
    RatioMonotone(Fixed9(n - m'), Fixed9(n - m), Fixed9(n));
    RoundMonotone(Ratio(Fixed9(n - m'), Fixed9(n)), Ratio(Fixed9(n - m), Fixed9(n)), PRECISION);
  }

  /** Among the draws up to a largest one, the largest decides for them all. */
  lemma LargestDrawDecides(n: nat, s: real, largest: real)
    requires ValidSwap(n, s, largest)
    ensures (forall r :: 0.0 <= r <= largest ==> PassesFor(n, s, r)) <==> PassesFor(n, s, largest)
  {
    if PassesFor(n, s, largest) {
      forall r | 0.0 <= r <= largest
        ensures PassesFor(n, s, r)
      {
        ExecutedAtMostExpected(n, s, r, largest);
        CheckMonotone(n, ExecutedUnits(Fixed9(n), s, largest), ExecutedUnits(Fixed9(n), s, r), s);
      }
    }
  }

  // ---- The worst draw ----

  /** The factor of the draws next to 1: what is left of the price by the number just below
      the tolerance. */
  function WorstFactor(s: real): real
    requires 0.0 <= s
  {
    Round(1.0 - RoundBelow(s, PRECISION), PRECISION)
  }

  /** The lowest executed price, in units of 10^-9. */
  function WorstUnits(n: int, s: real): int
    requires 0.0 <= s
  {
    Units9(Round(Times(Fixed9(n), WorstFactor(s)), PRECISION))
  }

  lemma BelowAtMostOne(s: real)
    requires 0.0 <= s < 1.0
    ensures 0.0 <= RoundBelow(s, PRECISION) <= 1.0
  {
    if s > 0.0 {
      RoundBelowBounds(s, PRECISION);
      ShiftGrows(1.0, Exponent(s), Exponent(s));
      SmallFits();
      RoundMonotone(s, 1.0, PRECISION);
    }
  }

  lemma FactorLeast(s: real, r: real)
    requires 0.0 <= s < 1.0 && 0.0 <= r < 1.0
    ensures 0.0 <= WorstFactor(s) <= Variance(s, r)
  {
    var x := Times(r, s);
    BelowAtMostOne(s);
    DrawnSlippage(s, r);
    if s > 0.0 { RoundBelowMost(x, s, PRECISION); }
    RoundMonotone(1.0 - RoundBelow(s, PRECISION), 1.0 - Round(x, PRECISION), PRECISION);
  }

  /** Some draw close enough to 1 has the worst factor. */
  lemma FactorReached(s: real) returns (r: real)
    requires 0.0 <= s < 1.0
    ensures 0.0 <= r < 1.0 && Variance(s, r) == WorstFactor(s)
  {
    if s == 0.0 {
      r := 0.0;
    } else {
      var y := RoundBelowReached(s, PRECISION);
      r := Ratio(y, s);
      RatioTimes(y, s);
      Commute(r, s);
      if r >= 1.0 { Scale(1.0, r, s); }
    }
  }

  lemma UnitsLeast(n: nat, s: real, r: real)
    requires ValidSwap(n, s, r)
    ensures 0 <= WorstUnits(n, s) <= ExecutedUnits(Fixed9(n), s, r) <= n
  {
    var e := Fixed9(n);
    FactorLeast(s, r);
    Scale(0.0, WorstFactor(s), e);
    Scale(WorstFactor(s), Variance(s, r), e);
    RoundMonotone(Times(e, WorstFactor(s)), Times(e, Variance(s, r)), PRECISION);
    UnitsMonotone(Round(Times(e, WorstFactor(s)), PRECISION), Product(n, s, r));
    ExecutedAtMostExpected(n, s, r, r);
  }

  /** A swap passes its own check for every draw exactly when the lowest executed price
      passes it: for every price that fits and every tolerance the schema admits. */
  lemma AlwaysPassesIff(n: nat, s: real)
    requires ValidTerms(n, s)
    ensures AlwaysPasses(n, s) <==> PassesSlippage(Fixed9(n), Fixed9(WorstUnits(n, s)), s)
  {
    var worst := FactorReached(s);
    if PassesSlippage(Fixed9(n), Fixed9(WorstUnits(n, s)), s) {
      forall r | 0.0 <= r < 1.0
        ensures PassesFor(n, s, r)
      {
        UnitsLeast(n, s, r);
        CheckMonotone(n, WorstUnits(n, s), ExecutedUnits(Fixed9(n), s, r), s);
      }
    } else {
      assert !PassesFor(n, s, worst);
    }
  }

  // ---- The same in closed form, for tolerances and prices of few digits ----

  /** The most units any draw can cost: the tolerance k * n / t, halves rounded down. */
  function MaxLoss(n: nat, k: nat, t: nat): int
    requires 0 < t
  {
    (k * n) / t + (if 2 * ((k * n) % t) <= t then 0 else 1)
  }

  /** n units at tolerance k / t: what the full tolerance leaves, in whole units. */
  lemma UnitsLeft(n: nat, k: nat, t: nat)
    requires 0 < n && 0 < t && k < t
    ensures HalfUp(Mul(n, t - k) as real / t as real) == n - MaxLoss(n, k, t)
  {
    var a, c := (k * n) / t, (k * n) % t;
    var f := c as real / t as real;
    assert n * (t - k) == (n - a) * t - c;
    FractionSplit(n - a, c, t, n * (t - k));
    HalveFraction(c, t, f);
    var h := HalfUp((n - a) as real - f);
  }

  lemma FractionSplit(z: int, c: nat, t: nat, p: int)
    requires 0 < t && p == z * t - c
    ensures p as real / t as real == z as real - c as real / t as real
  {
    var x, y := t as real, z as real;
    IntTimes(z, t);
    assert p as real == Times(y, x) - c as real;
    assert (Times(y, x) - c as real) / x == Times(y, x) / x - c as real / x;
    assert Times(y, x) / x == y;
  }

  lemma HalveFraction(c: nat, t: nat, f: real)
    requires c < t && f == c as real / t as real
    ensures 0.0 <= f < 1.0
    ensures f <= 0.5 <==> 2 * c <= t
  {
    var x := t as real;
    assert Times(x, f) == c as real by {
      RatioTimes(c as real, x);
    }
    if f <= 0.5 { Scale(f, 0.5, x); } else { ScaleStrict(0.5, f, x); }
    if f >= 1.0 { Scale(1.0, f, x); }
    if f < 0.0 { ScaleStrict(f, 0.0, x); }
  }

  /** An expected price of n units and a tolerance k / t with t = 10^b, few digits in all. */
  ghost predicate SmallTerms(n: nat, k: nat, b: int, t: nat)
  {
    0 <= b && 0 < n && 0 < t && t as real == Shift(1.0, b) && k < t
    && Mul(n, t) as real <= Shift(1.0, PRECISION - 1)
  }

  lemma ToleranceFits(n: nat, k: nat, b: int, t: nat)
    requires SmallTerms(n, k, b, t)
    ensures 0.0 <= Shift(k as real, -b) < 1.0
    ensures n as real < Shift(1.0, PRECISION) && t as real < Shift(1.0, PRECISION)
    ensures Round(Shift(k as real, -b), PRECISION) == Shift(k as real, -b)
    ensures (k == 0 ==> Shift(k as real, -b) == 0.0) && (k > 0 ==> Shift(k as real, -b) > 0.0)
  {
    ToleranceTimes(k, b, t, Shift(k as real, -b));
    Factors(n, t);
    OneFits(n);
    OneFits(t);
    RoundExact(Shift(k as real, -b), k, -b, PRECISION);
    ShiftZero(-b);
    ShiftMonotone(0.0, k as real, -b);
  }

  lemma PriceTermFits(n: nat, j: nat, t: nat)
    requires 0 < n && j <= t && Mul(n, t) as real <= Shift(1.0, PRECISION - 1)
    ensures 0 <= Mul(n, j) && Mul(n, j) as real < Shift(1.0, PRECISION)
  {
    assert 0 <= Mul(n, j) <= Mul(n, t);
    OneFits(Mul(n, j));
  }

  /** The factor and the price that the full tolerance leaves. */
  function FullFactor(k: nat, b: int): real { 1.0 - Shift(k as real, -b) }
  function FullPrice(n: nat, k: nat, b: int): real { Times(Fixed9(n), FullFactor(k, b)) }

  lemma FullFactorExact(n: nat, k: nat, b: int, t: nat)
    requires SmallTerms(n, k, b, t)
    ensures FullFactor(k, b) == Shift((t - k) as real, -b)
    ensures Round(FullFactor(k, b), PRECISION) == FullFactor(k, b) >= 0.0
  {
    ToleranceFits(n, k, b, t);
    ShiftLinear((t - k) as real, k as real, -b);
    ShiftAdd(1.0, b, -b);
    RoundExact(FullFactor(k, b), t - k, -b, PRECISION);
  }

  /** n units times j * 10^-b, with no rounding. */
  lemma PriceExact(n: nat, j: nat, b: int, f: real)
    requires f == Shift(j as real, -b) && f >= 0.0
    requires 0 <= Mul(n, j) && Mul(n, j) as real < Shift(1.0, PRECISION)
    ensures Times(Fixed9(n), f) == Shift(Mul(n, j) as real, -9 - b)
    ensures Round(Times(Fixed9(n), f), PRECISION) == Times(Fixed9(n), f) >= 0.0
  {
    Fixed9Shift(n);
    ShiftProduct(n as real, -9, j as real, -b);
    IntTimes(n, j);
    RoundExact(Shift(Mul(n, j) as real, -9 - b), Mul(n, j), -9 - b, PRECISION);
    Scale(0.0, f, Fixed9(n));
  }

  /** The price at the full tolerance is computed without rounding; here it is in units. */
  lemma FullPriceExact(n: nat, k: nat, b: int, t: nat)
    requires SmallTerms(n, k, b, t)
    ensures Round(FullPrice(n, k, b), PRECISION) == FullPrice(n, k, b) >= 0.0
    ensures Units9(FullPrice(n, k, b)) == n - MaxLoss(n, k, t)
  {
    FullFactorExact(n, k, b, t);
    PriceTermFits(n, t - k, t);
    PriceExact(n, t - k, b, FullFactor(k, b));
    ScaledLow(n, t - k, t, b, FullPrice(n, k, b));
    UnitsLeft(n, k, t);
  }

  lemma ScaledLow(n: nat, j: nat, t: nat, b: int, low: real)
    requires 0 < t && t as real == Shift(1.0, b)
    requires low == Shift(Mul(n, j) as real, -9 - b)
    ensures low * 1000000000.0 == Mul(n, j) as real / t as real
  {
    var p := Mul(n, j) as real;
    ShiftAdd(p, -b, -9);
    MinusNine(Shift(p, -b));
    ShiftAdd(p, -b, b);
    ShiftScale(Shift(p, -b), 1.0, b);
    assert Times(Shift(p, -b), 1.0) == Shift(p, -b);
    Commute(Shift(p, -b), t as real);
    RatioTimes(p, t as real);
    CancelTimes(Shift(p, -b), Ratio(p, t as real), t as real);
    CancelTimes(Ratio(p, t as real), Shift(p, -b), t as real);
  }

  /** The lowest executed price in whole units. */
  lemma WorstExact(n: nat, k: nat, b: int, t: nat)
    requires SmallTerms(n, k, b, t)
    ensures Shift(k as real, -b) >= 0.0
    ensures WorstUnits(n, Shift(k as real, -b)) == n - MaxLoss(n, k, t)
  {
    var s := Shift(k as real, -b);
    ToleranceFits(n, k, b, t);
    FullFactorExact(n, k, b, t);
    FullPriceExact(n, k, b, t);
    if s > 0.0 { RoundBelowExact(s, k, -b, PRECISION); }
  }

  /** The check in units: at most the whole part of k * n / t may be lost. */
  lemma ExecutedDecides(n: nat, k: nat, b: int, t: nat, m: nat)
    requires SmallTerms(n, k, b, t) && m <= n
    ensures PassesSlippage(Fixed9(n), Fixed9(m), Shift(k as real, -b)) <==> n - m <= (k * n) / t
  {
    ToleranceFits(n, k, b, t);
    CheckDecidesExactly(n, m, k, b, t);
    WholePart(n - m, k * n, t);
  }

  lemma WholePart(d: nat, p: nat, t: nat)
    requires 0 < t
    ensures d * t <= p <==> d <= p / t
  {
    var a := p / t;
    if d <= a {
      assert d * t <= a * t;
    } else {
      assert d * t >= (a + 1) * t;
    }
  }

  lemma PassesForIff(n: nat, k: nat, b: int, t: nat, r: real)
    requires SmallTerms(n, k, b, t) && 0.0 <= r < 1.0
    ensures PassesFor(n, Shift(k as real, -b), r)
       <==> n - ExecutedUnits(Fixed9(n), Shift(k as real, -b), r) <= (k * n) / t
  {
    ToleranceFits(n, k, b, t);
    ExecutedAtMostExpected(n, Shift(k as real, -b), r, r);
    ExecutedDecides(n, k, b, t, ExecutedUnits(Fixed9(n), Shift(k as real, -b), r));
  }

  /** With few digits, the swap passes its own check for every draw exactly when
      the part of k * n / t after the point is at most one half. */
  lemma AlwaysPassesInTerms(n: nat, k: nat, b: int, t: nat)
    requires SmallTerms(n, k, b, t)
    ensures AlwaysPasses(n, Shift(k as real, -b)) <==> 2 * ((k * n) % t) <= t
  {
    var s := Shift(k as real, -b);
    ToleranceFits(n, k, b, t);
    AlwaysPassesIff(n, s);
    UnitsLeast(n, s, 0.0);
    WorstExact(n, k, b, t);
    ExecutedDecides(n, k, b, t, WorstUnits(n, s));
  }
}

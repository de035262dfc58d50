/** Draws of at most fifteen decimals, which is what a random double shows: whether a swap
    can fail its own slippage check for one of them. */
module ShortDraws {
  import opened Decimals
  import opened DexRouter
  import opened Products
  import opened WorstSwap

  function ShortDraw(j: nat): real { Shift(j as real, -15) }

  /** The tolerances and prices this is about: b decimals of tolerance with t = 10^b,
      and a product of price and tolerance far enough below 10^15. */
  ghost predicate Ordinary(n: nat, k: nat, b: int, t: nat)
  {
    SmallTerms(n, k, b, t) && 2 * k <= t && b <= 5
    && Mul(n, t) <= 1_000_000_000_000_000_000 && 4 * Mul(k, n) <= 1_000_000_000_000_000
  }

  lemma Tens()
    ensures Shift(1.0, 5) == 100000.0 && Shift(1.0, 13) == 10000000000000.0
    ensures Shift(1.0, 15) == 1000000000000000.0
    ensures Shift(1.0, 20) == 100000000000000000000.0
  {
    assert Shift(1.0, 1) == 10.0 && Shift(1.0, 2) == 100.0 && Shift(1.0, 3) == 1000.0 && Shift(1.0, 4) == 10000.0;
    assert Shift(1.0, 5) == 100000.0;
    assert Shift(1.0, 6) == 1000000.0 && Shift(1.0, 7) == 10000000.0 && Shift(1.0, 8) == 100000000.0;
    assert Shift(1.0, 9) == 1000000000.0 && Shift(1.0, 10) == 10000000000.0 && Shift(1.0, 11) == 100000000000.0;
    assert Shift(1.0, 12) == 1000000000000.0 && Shift(1.0, 13) == 10000000000000.0;
    assert Shift(1.0, 14) == 100000000000000.0 && Shift(1.0, 15) == 1000000000000000.0;
    assert Shift(1.0, 16) == 10000000000000000.0 && Shift(1.0, 17) == 100000000000000000.0;
    assert Shift(1.0, 18) == 1000000000000000000.0 && Shift(1.0, 19) == 10000000000000000000.0;
  }

  lemma SmallTolerance(b: int, t: nat)
    requires 0 <= b <= 5 && t as real == Shift(1.0, b)
    ensures t <= 100000
  {
    Tens();
    ShiftGrows(1.0, b, 5);
  }

  lemma FitsTwenty(x: nat)
    requires x < 100_000_000_000_000_000_000
    ensures x as real < Shift(1.0, PRECISION)
  {
    Tens();
  }

  /** A whole number of k more decimals. */
  lemma ShiftWhole(x: nat, k: nat, ten: nat, y: nat, m: int)
    requires ten as real == Shift(1.0, k) && y == x * ten
    ensures Shift(y as real, m) == Shift(x as real, k + m)
  {
    ShiftScale(x as real, 1.0, k);
    assert Times(x as real, 1.0) == x as real;
    IntTimes(x, ten);
    ShiftAdd(x as real, k, m);
  }

  // ---- The largest short draw ----

  lemma DrawTimes(k: nat, x: nat, b: int)
    requires x == 999_999_999_999_999 * k
    ensures Times(ShortDraw(999_999_999_999_999), Shift(k as real, -b)) == Shift(x as real, -b - 15)
  {
    ShiftProduct(999999999999999.0, -15, k as real, -b);
    assert Times(999999999999999.0, k as real) == x as real;
  }

  lemma One(b: int, t: nat)
    requires 0 <= b && t as real == Shift(1.0, b)
    ensures Shift((t * 1_000_000_000_000_000) as real, -b - 15) == 1.0
  {
    Tens();
    ShiftWhole(t, 15, 1_000_000_000_000_000, t * 1_000_000_000_000_000, -b - 15);
    ShiftAdd(1.0, b, -b);
  }

  lemma VarianceIs(s: real, r: real, x: nat, y: nat, m: int)
    requires Times(r, s) == Shift(x as real, m) && Shift((x + y) as real, m) == 1.0
    requires x < 100_000_000_000_000_000_000 && y < 100_000_000_000_000_000_000
    ensures Variance(s, r) == Shift(y as real, m)
  {
    ShortExact(x, m);
    ShortExact(y, m);
    ShiftLinear(y as real, x as real, m);
    assert y as real + x as real == (x + y) as real;
  }

  lemma ShortExact(x: nat, m: int)
    requires x < 100_000_000_000_000_000_000
    ensures Round(Shift(x as real, m), PRECISION) == Shift(x as real, m)
  {
    FitsTwenty(x);
    RoundExact(Shift(x as real, m), x, m, PRECISION);
  }

  /** What the largest short draw leaves of the price, in units of 10^(-b-15). */
  function Left(k: nat, t: nat): int { t * 1_000_000_000_000_000 - k * 999_999_999_999_999 }

  lemma ShortVariance(k: nat, b: int, t: nat)
    requires 0 <= b <= 5 && 0 < k && 2 * k <= t && t as real == Shift(1.0, b)
    ensures 0 <= Left(k, t)
    ensures Variance(Shift(k as real, -b), ShortDraw(999_999_999_999_999)) == Shift(Left(k, t) as real, -b - 15)
  {
    var x := 999_999_999_999_999 * k;
    SmallTolerance(b, t);
    DrawTimes(k, x, b);
    One(b, t);
    VarianceIs(Shift(k as real, -b), ShortDraw(999_999_999_999_999), x, Left(k, t), -b - 15);
  }

  // ---- Just under half a unit below a whole price ----

  function Threshold(nt: int, nk: int, c: int, t: int): int { 4 * (nt - nk + c) - 2 * t - 1 }

  lemma LeftTimes(n: nat, k: nat, t: nat)
    ensures Mul(n, Left(k, t)) == Mul(n, t) * 1_000_000_000_000_000 - Mul(k, n) * 999_999_999_999_999
  {
  }

  lemma HalfTolerance(n: nat, k: nat, t: nat)
    requires 2 * k <= t
    ensures 2 * Mul(k, n) <= Mul(n, t)
  {
    assert 0 <= Mul(n, t - 2 * k);
  }

  lemma ThresholdBounds(nt: nat, nk: nat, c: nat, t: nat, p: int)
    requires 0 < t < 2 * c && c <= nk && 2 * nk <= nt
    requires nt <= 1_000_000_000_000_000_000 && 4 * nk <= 1_000_000_000_000_000
    requires p == nt * 1_000_000_000_000_000 - nk * 999_999_999_999_999
    ensures var w := Threshold(nt, nk, c, t);
            0 <= w && 25 * w < 100_000_000_000_000_000_000 && p <= 25 * w * 10_000_000_000_000
  {
  }

  /** A whole number less a fraction of more than a half rounds to the number below. */
  lemma RoundsBelow(z: int, c: nat, t: nat, p: int)
    requires c < t < 2 * c && p == z * t - c
    ensures HalfUp(p as real / t as real) == z - 1
  {
    var f := c as real / t as real;
    FractionSplit(z, c, t, p);
    HalveFraction(c, t, f);
    var h := HalfUp(z as real - f);
  }

  lemma HundredTimes(b: int, t: nat)
    requires 0 <= b && t as real == Shift(1.0, b)
    ensures (100 * t) as real == Shift(1.0, b + 2)
  {
    ShiftNext(1.0, b);
    ShiftNext(1.0, b + 1);
  }

  lemma ThresholdUnits(b: int, t: nat, z: int, c: nat, w: nat)
    requires 0 <= b && 0 < t && t as real == Shift(1.0, b)
    requires c < t < 2 * c && 25 * w == z * (100 * t) - (50 * t + 25)
    ensures Units9(Shift((25 * w) as real, -11 - b)) == z - 1
    ensures Shift((25 * w) as real, -11 - b) >= 0.0
  {
    var x := Shift((25 * w) as real, -11 - b);
    HundredTimes(b, t);
    assert Mul(25, w) == 25 * w;
    ScaledLow(25, w, 100 * t, b + 2, x);
    RoundsBelow(z, 50 * t + 25, 100 * t, 25 * w);
    ShiftZero(-11 - b);
    ShiftMonotone(0.0, (25 * w) as real, -11 - b);
  }

  // ---- The swap ----

  lemma ShortPrice(n: nat, k: nat, b: int, t: nat)
    requires Ordinary(n, k, b, t) && 0 < k
    ensures 0 <= Left(k, t) && 0 <= Mul(n, Left(k, t))
    ensures Times(Fixed9(n), Variance(Shift(k as real, -b), ShortDraw(999_999_999_999_999)))
         == Shift(Mul(n, Left(k, t)) as real, -24 - b)
  {
    ShortVariance(k, b, t);
    Fixed9Shift(n);
    ShiftProduct(n as real, -9, Left(k, t) as real, -b - 15);
    IntTimes(n, Left(k, t));
    NatProduct(n, Left(k, t));
  }

  lemma NatProduct(a: nat, b: nat)
    ensures 0 <= Mul(a, b)
  {
  }

  lemma AtMostThreshold(p: nat, w: nat, b: int)
    requires p <= 25 * w * 10_000_000_000_000 && 25 * w < 100_000_000_000_000_000_000
    ensures 0.0 <= Round(Shift(p as real, -24 - b), PRECISION) <= Shift((25 * w) as real, -11 - b)
  {
    var q := 25 * w * 10_000_000_000_000;
    Tens();
    ShiftWhole(25 * w, 13, 10_000_000_000_000, q, -24 - b);
    ShiftMonotone(p as real, q as real, -24 - b);
    ShortExact(25 * w, -11 - b);
    ShiftZero(-24 - b);
    ShiftMonotone(0.0, p as real, -24 - b);
    RoundMonotone(0.0, Shift(p as real, -24 - b), PRECISION);
    RoundMonotone(Shift(p as real, -24 - b), Shift((25 * w) as real, -11 - b), PRECISION);
  }

  lemma ThresholdAt(n: nat, k: nat, t: nat, a: nat, c: nat)
    requires Mul(k, n) == a * t + c
    ensures 25 * Threshold(Mul(n, t), Mul(k, n), c, t) == (n - a) * (100 * t) - (50 * t + 25)
  {
    assert Mul(n, t) - a * t == (n - a) * t;
  }

  lemma UnitsBelow(p: nat, b: int, t: nat, z: int, c: nat, w: nat)
    requires 0 <= b && 0 < t && t as real == Shift(1.0, b)
    requires c < t < 2 * c && 25 * w == z * (100 * t) - (50 * t + 25)
    requires p <= 25 * w * 10_000_000_000_000 && 25 * w < 100_000_000_000_000_000_000
    ensures Units9(Round(Shift(p as real, -24 - b), PRECISION)) <= z - 1
  {
    ThresholdUnits(b, t, z, c, w);
    AtMostThreshold(p, w, b);
    UnitsMonotone(Round(Shift(p as real, -24 - b), PRECISION), Shift((25 * w) as real, -11 - b));
  }

  lemma ShortLoss(n: nat, k: nat, b: int, t: nat, a: nat, c: nat)
    requires Ordinary(n, k, b, t) && 0 < k
    requires Mul(k, n) == a * t + c && c <= Mul(k, n) && c < t < 2 * c
    ensures ExecutedUnits(Fixed9(n), Shift(k as real, -b), ShortDraw(999_999_999_999_999)) <= n - a - 1
  {
    ShortPrice(n, k, b, t);
    LeftTimes(n, k, t);
    HalfTolerance(n, k, t);
    ThresholdBounds(Mul(n, t), Mul(k, n), c, t, Mul(n, Left(k, t)));
    ThresholdAt(n, k, t, a, c);
    UnitsBelow(Mul(n, Left(k, t)), b, t, n - a, c, Threshold(Mul(n, t), Mul(k, n), c, t));
  }

  lemma Division(p: nat, t: nat)
    requires 0 < t
    ensures p == (p / t) * t + p % t && p % t < t && p % t <= p
  {
    NatProduct(p / t, t);
  }

  lemma SomeFraction(n: nat, k: nat, t: nat)
    requires 0 < t && 2 * ((k * n) % t) > t
    ensures k > 0
  {
    assert k == 0 ==> k * n == 0;
  }

  /** The largest draw of fifteen decimals loses more than the tolerance allows. */
  lemma ShortDrawFails(n: nat, k: nat, b: int, t: nat)
    requires Ordinary(n, k, b, t) && 2 * ((k * n) % t) > t
    ensures !PassesFor(n, Shift(k as real, -b), ShortDraw(999_999_999_999_999))
  {
    SomeFraction(n, k, t);
    Division(k * n, t);
    ShortLoss(n, k, b, t, (k * n) / t, (k * n) % t);
    DrawInRange(999_999_999_999_999);
    PassesForIff(n, k, b, t, ShortDraw(999_999_999_999_999));
  }

  lemma DrawInRange(j: nat)
    requires j < 1_000_000_000_000_000
    ensures 0.0 <= ShortDraw(j) < 1.0
  {
    Tens();
    ShiftAdd(1.0, 15, -15);
    ShiftZero(-15);
    ShiftMonotone(0.0, j as real, -15);
    ShiftMonotone(j as real, 1000000000000000.0, -15);
  }

  ghost predicate AlwaysPassesShort(n: nat, s: real)
    requires n > 0
  {
    forall j: nat :: j < 1_000_000_000_000_000 ==> PassesFor(n, s, ShortDraw(j))
  }

  lemma DrawAtMostLargest(j: nat)
    requires j < 1_000_000_000_000_000
    ensures 0.0 <= ShortDraw(j) <= ShortDraw(999_999_999_999_999) < 1.0
  {
    DrawInRange(j);
    DrawInRange(999_999_999_999_999);
    ShiftMonotone(j as real, 999999999999999.0, -15);
  }

  /** A swap passes its own check for every draw of at most fifteen decimals exactly when it
      passes for the largest of them: for every price that fits and every tolerance the
      schema admits. */
  lemma AlwaysPassesShortIff(n: nat, s: real)
    requires ValidTerms(n, s)
    ensures AlwaysPassesShort(n, s) <==> PassesFor(n, s, ShortDraw(999_999_999_999_999))
  {
    DrawAtMostLargest(0);
    LargestDrawDecides(n, s, ShortDraw(999_999_999_999_999));
    if PassesFor(n, s, ShortDraw(999_999_999_999_999)) {
      forall j: nat | j < 1_000_000_000_000_000
        ensures PassesFor(n, s, ShortDraw(j))
      {
        DrawAtMostLargest(j);
      }
    }
  }

  /** For ordinary prices and tolerances that is so exactly when the part of k * n / t after
      the point is at most one half: the same condition as for all real draws. */
  lemma AlwaysPassesShortInTerms(n: nat, k: nat, b: int, t: nat)
    requires Ordinary(n, k, b, t)
    ensures AlwaysPassesShort(n, Shift(k as real, -b)) <==> 2 * ((k * n) % t) <= t
  {
    var s := Shift(k as real, -b);
    AlwaysPassesInTerms(n, k, b, t);
    if 2 * ((k * n) % t) <= t {
      forall j: nat | j < 1_000_000_000_000_000
        ensures PassesFor(n, s, ShortDraw(j))
      {
        DrawInRange(j);
      }
    } else {
      ShortDrawFails(n, k, b, t);
    }
  }

  /** A swap at a price the simulators produce that fails its own check: 100.000000002 at a
      tolerance of 30% with draw 0.999999999999999. */
  lemma SimulatedSwapCanFail()
    ensures ValidSwap(100_000_000_002, 0.3, ShortDraw(999_999_999_999_999))
    ensures 97.0 <= Fixed9(100_000_000_002) <= 103.0
    ensures !PassesFor(100_000_000_002, 0.3, ShortDraw(999_999_999_999_999))
  {
    assert Shift(3.0, -1) == 0.3 && Shift(1.0, 1) == 10.0;
    DrawInRange(999_999_999_999_999);
    TwelveDigits(100_000_000_002);
    FitsNineteen(Mul(100_000_000_002, 10));
    ShortDrawFails(100_000_000_002, 3, 1, 10);
  }

  lemma FitsNineteen(x: nat)
    requires x <= 1_000_000_000_000_000
    ensures x as real <= Shift(1.0, PRECISION - 1)
  {
    Tens();
    ShiftGrows(1.0, 15, PRECISION - 1);
  }
}

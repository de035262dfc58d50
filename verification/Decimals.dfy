/** decimal.js arithmetic as the router uses it: exact values rounded half-up to
    a number of significant digits after every operation, and toFixed(9). */
module Decimals {

  /** The library's default precision, in significant digits. */
  const PRECISION: nat := 20

  /** x * 10^k. */
  function Shift(x: real, k: int): real
    decreases if k < 0 then -k else k
  {
    if k == 0 then x else if k > 0 then 10.0 * Shift(x, k - 1) else Shift(x, k + 1) / 10.0
  }

  function Magnitude(x: real): real { if x < 0.0 then -x else x }

  function Times(a: real, b: real): real { a * b }

  function AbsDiff(a: real, b: real): real { Magnitude(a - b) }

  /** The decimal exponent of a positive number. */
  function Exponent(x: real): (e: int)
    requires x > 0.0
    ensures Shift(1.0, e) <= x < Shift(1.0, e + 1)
    decreases x < 1.0, if x < 1.0 then (1.0 / x).Floor else x.Floor
  {
    if x < 1.0 then
      assert 1.0 / (10.0 * x) == (1.0 / x) / 10.0;
      assert 1.0 / x > 1.0;
      var e := Exponent(10.0 * x) - 1;
      assert Shift(1.0, e + 1) == 10.0 * Shift(1.0, e) && Shift(1.0, e + 2) == 10.0 * Shift(1.0, e + 1);
      e
    else if x < 10.0 then
      assert Shift(1.0, 1) == 10.0;
      0
    else
      var e := Exponent(x / 10.0) + 1;
      assert Shift(1.0, e) == 10.0 * Shift(1.0, e - 1) && Shift(1.0, e + 1) == 10.0 * Shift(1.0, e);
      e
  }

  /** The nearest integer to a non-negative number, halves upwards. */
  function HalfUp(x: real): int { (x + 0.5).Floor }

  /** The exponent of the last of d significant digits. */
  function LastDigit(x: real, d: nat): int
    requires x > 0.0
  {
    Exponent(x) + 1 - d
  }

  /** A positive number rounded to d significant digits, halves upwards. */
  function RoundUp(x: real, d: nat): real
    requires x > 0.0
  {
    var m := LastDigit(x, d);
    Shift(HalfUp(Shift(x, -m)) as real, m)
  }

  /** The nearest integer, halves downwards. */
  function HalfDown(x: real): int { -(0.5 - x).Floor }

  /** What the numbers just below a non-negative one are rounded to. */
  function RoundBelow(x: real, d: nat): real
    requires x >= 0.0
  {
    if x == 0.0 then 0.0 else
      var m := LastDigit(x, d);
      Shift(HalfDown(Shift(x, -m)) as real, m)
  }

  /** Rounding to d significant digits, halves away from zero. */
  function Round(x: real, d: nat): real
  {
    if x == 0.0 then 0.0 else if x > 0.0 then RoundUp(x, d) else -RoundUp(-x, d)
  }

  /** toFixed(9), as the number of units of 10^-9. */
  function Units9(x: real): int
  {
    if x >= 0.0 then HalfUp(x * 1000000000.0) else -HalfUp(-x * 1000000000.0)
  }

  function Fixed9(units: int): real { units as real / 1000000000.0 }

  // ---- Shifting ----

  lemma ShiftNext(x: real, k: int)
    ensures Shift(x, k + 1) == 10.0 * Shift(x, k)
  {
  }

  lemma {:induction false} ShiftAdd(x: real, i: int, j: int)
    ensures Shift(Shift(x, i), j) == Shift(x, i + j)
    decreases if j < 0 then -j else j
  {
    if j > 0 {
      ShiftAdd(x, i, j - 1);
      ShiftNext(x, i + j - 1);
    } else if j < 0 {
      ShiftAdd(x, i, j + 1);
      ShiftNext(x, i + j);
    }
  }

  lemma {:induction false} ShiftLinear(x: real, y: real, k: int)
    ensures Shift(x + y, k) == Shift(x, k) + Shift(y, k)
    decreases if k < 0 then -k else k
  {
    if k > 0 {
      ShiftLinear(x, y, k - 1);
    } else if k < 0 {
      ShiftLinear(x, y, k + 1);
    }
  }

  lemma {:induction false} ShiftMonotone(x: real, y: real, k: int)
    requires x <= y
    ensures Shift(x, k) <= Shift(y, k)
    ensures x < y ==> Shift(x, k) < Shift(y, k)
    decreases if k < 0 then -k else k
  {
    if k > 0 {
      ShiftMonotone(x, y, k - 1);
    } else if k < 0 {
      ShiftMonotone(x, y, k + 1);
    }
  }

  lemma {:induction false} ShiftZero(k: int)
    ensures Shift(0.0, k) == 0.0
    decreases if k < 0 then -k else k
  {
    if k > 0 {
      ShiftZero(k - 1);
    } else if k < 0 {
      ShiftZero(k + 1);
    }
  }

  lemma {:induction false} ShiftScale(a: real, x: real, k: int)
    ensures Shift(Times(a, x), k) == Times(a, Shift(x, k))
    decreases if k < 0 then -k else k
  {
    if k > 0 {
      ShiftScale(a, x, k - 1);
    } else if k < 0 {
      ShiftScale(a, x, k + 1);
    }
  }

  lemma {:induction false} ShiftGrows(x: real, i: int, j: int)
    requires x >= 0.0 && i <= j
    ensures 0.0 <= Shift(x, i) <= Shift(x, j)
    decreases j - i
  {
    ShiftZero(i);
    ShiftMonotone(0.0, x, i);
    if i < j {
      ShiftGrows(x, i, j - 1);
      ShiftNext(x, j - 1);
    }
  }

  lemma {:induction false} ShiftInt(n: nat, k: nat) returns (m: nat)
    ensures Shift(n as real, k) == m as real
  {
    if k == 0 {
      m := n;
    } else {
      var l := ShiftInt(n, k - 1);
      m := 10 * l;
    }
  }

  // ---- One rounding ----

  /** The error of one rounding, in absolute terms. */
  lemma RoundUpNear(x: real, d: nat)
    requires x > 0.0
    ensures Shift(0.5, LastDigit(x, d)) >= 0.0
    ensures x - Shift(0.5, LastDigit(x, d)) <= RoundUp(x, d) <= x + Shift(0.5, LastDigit(x, d))
  {
    var m := LastDigit(x, d);
    var q := Shift(x, -m);
    var n := HalfUp(q) as real;
    assert q <= n + 0.5 && n <= q + 0.5;
    ShiftMonotone(q, n + 0.5, m);
    ShiftMonotone(n, q + 0.5, m);
    ShiftLinear(n, 0.5, m);
    ShiftLinear(q, 0.5, m);
    ShiftAdd(x, -m, m);
    ShiftGrows(0.5, m, m);
  }

  /** Half of 10^(1-d) times x: the relative error of one rounding to d digits. */
  function Err(x: real, d: nat): real { Shift(x, 1 - d) / 2.0 }

  lemma RoundError(x: real, d: nat)
    requires x >= 0.0
    ensures x - Err(x, d) <= Round(x, d) <= x + Err(x, d)
  {
    ShiftZero(1 - d);
    if x > 0.0 {
      var e := Exponent(x);
      RoundUpNear(x, d);
      ShiftMonotone(Shift(1.0, e), x, 1 - d);
      ShiftAdd(1.0, e, 1 - d);
      ShiftScale(0.5, 1.0, e + 1 - d);
      assert Times(0.5, 1.0) == 0.5;
    }
  }

  lemma ErrMonotone(x: real, y: real, d: nat)
    requires 0.0 <= x <= y && d > 0
    ensures 0.0 <= Err(x, d) <= Err(y, d)
    ensures Err(x, d) <= x / 2.0
  {
    ShiftMonotone(x, y, 1 - d);
    ShiftGrows(x, 1 - d, 0);
  }

  lemma ErrScale(a: real, x: real, d: nat)
    ensures Err(Times(a, x), d) == Times(a, Err(x, d))
  {
    ShiftScale(a, x, 1 - d);
    Halve(a, Shift(x, 1 - d));
  }

  lemma Halve(a: real, x: real)
    ensures (a * x) / 2.0 == a * (x / 2.0)
  {
  }

  lemma ErrAdd(x: real, y: real, d: nat)
    ensures Err(x + y, d) == Err(x, d) + Err(y, d)
  {
    ShiftLinear(x, y, 1 - d);
  }

  /** In the scale of its last digit a number lies between two powers of ten. */
  lemma ScaledDecade(x: real, d: nat) returns (lo: nat, hi: nat)
    requires x > 0.0 && d > 0
    ensures var m := LastDigit(x, d);
            && lo as real <= Shift(x, -m) < hi as real == Shift(1.0, d)
            && Shift(lo as real, m) == Shift(1.0, Exponent(x))
            && Shift(hi as real, m) == Shift(1.0, Exponent(x) + 1)
    ensures 0 < lo
  {
    var e, m := Exponent(x), LastDigit(x, d);
    lo := ShiftInt(1, d - 1);
    hi := ShiftInt(1, d);
    ShiftMonotone(Shift(1.0, e), x, -m);
    ShiftMonotone(x, Shift(1.0, e + 1), -m);
    ShiftAdd(1.0, e, -m);
    ShiftAdd(1.0, e + 1, -m);
    ShiftAdd(1.0, d - 1, m);
    ShiftAdd(1.0, d, m);
    ShiftGrows(1.0, 0, d - 1);
  }

  /** A rounded number stays within its decade, ends included. */
  lemma RoundDecade(x: real, d: nat)
    requires x > 0.0 && d > 0
    ensures Shift(1.0, Exponent(x)) <= RoundUp(x, d) <= Shift(1.0, Exponent(x) + 1)
  {
    var m := LastDigit(x, d);
    var lo, hi := ScaledDecade(x, d);
    assert lo <= HalfUp(Shift(x, -m)) <= hi;
    ShiftMonotone(lo as real, HalfUp(Shift(x, -m)) as real, m);
    ShiftMonotone(HalfUp(Shift(x, -m)) as real, hi as real, m);
  }

  lemma RoundSign(x: real, d: nat)
    requires d > 0
    ensures Round(-x, d) == -Round(x, d)
    ensures x >= 0.0 ==> Round(x, d) >= 0.0
    ensures Magnitude(Round(x, d)) == Round(Magnitude(x), d)
  {
    if x != 0.0 {
      RoundDecade(Magnitude(x), d);
      ShiftGrows(1.0, Exponent(Magnitude(x)), Exponent(Magnitude(x)));
    }
  }

  lemma ExponentMonotone(x: real, y: real)
    requires 0.0 < x <= y
    ensures Exponent(x) <= Exponent(y)
  {
    var e, f := Exponent(x), Exponent(y);
    if f < e {
      ShiftGrows(1.0, f + 1, e);
    }
  }

  lemma RoundUpMonotone(x: real, y: real, d: nat)
    requires 0.0 < x <= y && d > 0
    ensures RoundUp(x, d) <= RoundUp(y, d)
  {
    ExponentMonotone(x, y);
    var m := LastDigit(x, d);
    if Exponent(x) == Exponent(y) {
      var p, q := Shift(x, -m), Shift(y, -m);
      ShiftMonotone(x, y, -m);
      assert HalfUp(p) <= HalfUp(q);
      ShiftMonotone(HalfUp(p) as real, HalfUp(q) as real, m);
    } else {
      RoundDecade(x, d);
      RoundDecade(y, d);
      ShiftGrows(1.0, Exponent(x) + 1, Exponent(y));
    }
  }

  lemma RoundMonotone(x: real, y: real, d: nat)
    requires 0.0 <= x <= y && d > 0
    ensures 0.0 <= Round(x, d) <= Round(y, d)
  {
    RoundSign(x, d);
    RoundSign(y, d);
    if x > 0.0 {
      RoundUpMonotone(x, y, d);
    }
  }

  /** x is c * 10^k with at most d digits in c. */
  ghost predicate Fits(x: real, c: nat, k: int, d: nat)
  {
    x == Shift(c as real, k) && c as real < Shift(1.0, d)
  }

  /** A number of at most d significant digits is whole in its own last digit. */
  lemma FitsWhole(x: real, c: nat, k: int, d: nat) returns (n: nat)
    requires Fits(x, c, k, d) && d > 0 && x > 0.0
    ensures Shift(x, -LastDigit(x, d)) == n as real
  {
    var e, m := Exponent(x), LastDigit(x, d);
    ShiftMonotone(c as real, Shift(1.0, d), k);
    ShiftAdd(1.0, d, k);
    if k < m {
      ShiftGrows(1.0, d + k, e);
    }
    n := ShiftInt(c, k - m);
    ShiftAdd(c as real, k, -m);
  }

  /** Rounding leaves every number of at most d significant digits alone. */
  lemma RoundExact(x: real, c: nat, k: int, d: nat)
    requires Fits(x, c, k, d) && d > 0
    ensures Round(x, d) == x
  {
    ShiftZero(k);
    ShiftMonotone(0.0, c as real, k);
    if c > 0 {
      var n := FitsWhole(x, c, k, d);
      ShiftAdd(x, -LastDigit(x, d), LastDigit(x, d));
      assert HalfUp(Shift(x, -LastDigit(x, d))) == n;
    }
  }

  lemma ExponentNear(x: real, y: real)
    requires 0.0 < x / 10.0 <= y <= x
    ensures Exponent(x) - 1 <= Exponent(y) <= Exponent(x)
  {
    var e, f := Exponent(x), Exponent(y);
    ExponentMonotone(y, x);
    if f + 1 <= e - 1 {
      ShiftGrows(1.0, f + 1, e - 1);
      ShiftNext(1.0, e - 1);
    }
  }

  /** In the scale of the smaller number the larger one is whole ... */
  lemma WholeBelow(x: real, n: nat, d: nat, m: int) returns (w: nat)
    requires x > 0.0 && d > 0
    requires Shift(x, -LastDigit(x, d)) == n as real
    requires m <= LastDigit(x, d)
    ensures Shift(x, -m) == w as real
  {
    var l := LastDigit(x, d);
    w := ShiftInt(n, l - m);
    ShiftAdd(x, -l, l - m);
  }

  /** ... and less than a hundredth above. */
  lemma JustAbove(x: real, d: nat, m: int)
    requires x > 0.0 && d > 0
    requires LastDigit(x, d) - 1 <= m
    ensures 0.0 <= Shift(Shift(x, -3 - d), -m) <= 0.01
  {
    var e, k := Exponent(x), -3 - d - m;
    ShiftAdd(x, -3 - d, -m);
    ShiftMonotone(x, Shift(1.0, e + 1), k);
    ShiftAdd(1.0, e + 1, k);
    ShiftGrows(1.0, e + 1 + k, -2);
    ShiftGrows(x, k, k);
    assert Shift(1.0, -2) == 0.01;
  }

  /** A positive number of d digits is also what slightly smaller numbers round to. */
  lemma RoundsBackUp(x: real, c: nat, k: int, d: nat)
    requires Fits(x, c, k, d) && d > 0 && x > 0.0
    ensures 0.0 < x - Shift(x, -3 - d) < x
    ensures Round(x - Shift(x, -3 - d), d) == x
  {
    var y := x - Shift(x, -3 - d);
    ShiftZero(-3 - d);
    ShiftMonotone(0.0, x, -3 - d);
    ShiftGrows(x, -3 - d, -1);
    ExponentNear(x, y);
    var n := FitsWhole(x, c, k, d);
    RoundsTo(x, n, d, y);
  }

  lemma RoundsTo(x: real, n: nat, d: nat, y: real)
    requires x > 0.0 && d > 0 && y > 0.0 && y + Shift(x, -3 - d) == x
    requires Shift(x, -LastDigit(x, d)) == n as real
    requires Exponent(x) - 1 <= Exponent(y) <= Exponent(x)
    ensures RoundUp(y, d) == x
  {
    var m := LastDigit(y, d);
    var w := WholeBelow(x, n, d, m);
    JustAbove(x, d, m);
    ShiftLinear(y, Shift(x, -3 - d), -m);
    assert HalfUp(Shift(y, -m)) == w;
    ShiftAdd(x, -m, m);
  }

  // ---- What numbers just below are rounded to ----

  lemma RoundBelowBounds(x: real, d: nat)
    requires x > 0.0 && d > 0
    ensures Shift(1.0, Exponent(x)) <= RoundBelow(x, d) <= Round(x, d)
  {
    var m := LastDigit(x, d);
    var q := Shift(x, -m);
    var lo, _ := ScaledDecade(x, d);
    assert lo <= HalfDown(q) <= HalfUp(q);
    ShiftMonotone(lo as real, HalfDown(q) as real, m);
    ShiftMonotone(HalfDown(q) as real, HalfUp(q) as real, m);
  }

  /** No smaller number is rounded to more ... */
  lemma RoundBelowMost(y: real, x: real, d: nat)
    requires 0.0 <= y < x && d > 0
    ensures Round(y, d) <= RoundBelow(x, d)
  {
    RoundBelowBounds(x, d);
    ShiftGrows(1.0, Exponent(x), Exponent(x));
    if y > 0.0 {
      ExponentMonotone(y, x);
      if Exponent(y) == Exponent(x) {
        var m := LastDigit(x, d);
        ShiftMonotone(y, x, -m);
        assert HalfUp(Shift(y, -m)) <= HalfDown(Shift(x, -m));
        ShiftMonotone(HalfUp(Shift(y, -m)) as real, HalfDown(Shift(x, -m)) as real, m);
      } else {
        RoundDecade(y, d);
        ShiftGrows(1.0, Exponent(y) + 1, Exponent(x));
      }
    }
  }

  /** ... and some smaller number to just this. */
  lemma RoundBelowReached(x: real, d: nat) returns (y: real)
    requires x > 0.0 && d > 0
    ensures 0.0 < y < x && Round(y, d) == RoundBelow(x, d)
  {
    var m := LastDigit(x, d);
    var q := Shift(x, -m);
    var lo, hi := ScaledDecade(x, d);
    ShiftAdd(x, -m, m);
    var z := HalfDown(q);
    if q == z as real {
      RoundsBackUp(x, z, m, d);
      y := x - Shift(x, -3 - d);
    } else {
      var p := JustBelow(q, lo);
      y := Shift(p, m);
      ShiftMonotone(lo as real, p, m);
      ShiftMonotone(p, q, m);
      ShiftGrows(1.0, Exponent(x), Exponent(x));
      ShiftMonotone(q, hi as real, m);
      SameDecade(x, y);
      ShiftAdd(p, m, -m);
    }
  }

  /** Slightly less than a number that is not whole is rounded to what it is, halves downwards. */
  lemma JustBelow(q: real, lo: nat) returns (p: real)
    requires lo as real <= q && q != HalfDown(q) as real
    ensures lo as real <= p < q && HalfUp(p) == HalfDown(q)
  {
    var z := HalfDown(q);
    WholeHalvesDown(lo);
    var bound := if z as real - 0.5 < lo as real then lo as real else z as real - 0.5;
    assert bound < q <= z as real + 0.5;
    p := (bound + q) / 2.0;
    assert z as real <= p + 0.5 < z as real + 1.0;
  }

  lemma WholeHalvesDown(n: int)
    ensures HalfDown(n as real) == n
  {
    assert (0.5 - n as real) == 0.5 + (-n) as real;
  }

  lemma SameDecade(x: real, y: real)
    requires x > 0.0 && y > 0.0 && Shift(1.0, Exponent(x)) <= y <= x
    ensures Exponent(y) == Exponent(x)
  {
    ExponentMonotone(y, x);
    if Exponent(y) < Exponent(x) {
      ShiftGrows(1.0, Exponent(y) + 1, Exponent(x));
    }
  }

  /** A number of few digits is also what numbers just below it are rounded to. */
  lemma RoundBelowExact(x: real, c: nat, k: int, d: nat)
    requires Fits(x, c, k, d) && d > 0 && x > 0.0
    ensures RoundBelow(x, d) == x
  {
    var n := FitsWhole(x, c, k, d);
    ShiftAdd(x, -LastDigit(x, d), LastDigit(x, d));
    WholeHalvesDown(n);
  }

  /** Below one a rounding changes a number by at most a tenth of the error at one. */
  lemma RoundErrorBelowOne(x: real, d: nat)
    requires 0.0 <= x <= 1.0 && d > 0
    ensures x - 0.1 * Err(1.0, d) <= Round(x, d) <= x + 0.1 * Err(1.0, d)
  {
    ErrMonotone(1.0, 1.0, d);
    if x == 1.0 {
      ShiftGrows(1.0, 1, d);
      assert Shift(1.0, 1) == 10.0;
      RoundExact(1.0, 1, 0, d);
    } else if x > 0.0 {
      RoundUpNear(x, d);
      if Exponent(x) >= 0 {
        ShiftGrows(1.0, 0, Exponent(x));
      }
      ShiftGrows(0.5, LastDigit(x, d), 0 - d);
      ShiftNext(0.5, 0 - d);
      ShiftScale(0.5, 1.0, 1 - d);
      assert Times(0.5, 1.0) == 0.5;
    }
  }

  // ---- The nearest number of d digits ----

  /** toFixed(9) is the nearest unit of 10^-9, halves away from zero. */
  lemma UnitsNearest(x: real)
    ensures var y := Magnitude(x);
            && y * 1000000000.0 - 0.5 < Magnitude(Units9(x) as real) <= y * 1000000000.0 + 0.5
            && (x >= 0.0 ==> Units9(x) >= 0) && (x <= 0.0 ==> Units9(x) <= 0)
  {
    var y := Magnitude(x) * 1000000000.0;
    assert y >= 0.0;
    assert y - 0.5 < HalfUp(y) as real <= y + 0.5;
  }

  lemma TwentyTimes(x: real)
    ensures Shift(x, 20) == x * 100000000000000000000.0
  {
    assert Shift(x, 5) == x * 100000.0;
    ShiftAdd(x, 5, 5);
    assert Shift(Shift(x, 5), 5) == Shift(x, 5) * 100000.0;
    ShiftAdd(x, 10, 5);
    assert Shift(Shift(x, 10), 5) == Shift(x, 10) * 100000.0;
    ShiftAdd(x, 15, 5);
    assert Shift(Shift(x, 15), 5) == Shift(x, 15) * 100000.0;
  }

  lemma SameDecadeAs(x: real, e: int)
    requires x > 0.0 && Shift(1.0, e) <= x < Shift(1.0, e + 1)
    ensures Exponent(x) == e
  {
    if Exponent(x) < e {
      ShiftGrows(1.0, Exponent(x) + 1, e);
    } else if Exponent(x) > e {
      ShiftGrows(1.0, e + 1, Exponent(x));
    }
  }

  /** A rounding, from the decade of the number and its nearest integer in the last digit's scale. */
  lemma RoundIs(x: real, e: int, n: nat, d: nat)
    requires x > 0.0 && Shift(1.0, e) <= x < Shift(1.0, e + 1)
    requires n as real - 0.5 <= Shift(x, d - 1 - e) < n as real + 0.5
    ensures Round(x, d) == Shift(n as real, e + 1 - d)
  {
    SameDecadeAs(x, e);
    assert HalfUp(Shift(x, d - 1 - e)) == n;
  }

  /** Twenty digits: two thirds, rounded. */
  lemma TwoThirds()
    ensures Round(2.0 / 3.0, PRECISION) == 0.66666666666666666667
  {
    assert Shift(1.0, -1) == 0.1 && Shift(1.0, 0) == 1.0;
    TwentyTimes(2.0 / 3.0);
    RoundIs(2.0 / 3.0, -1, 66666666666666666667, PRECISION);
    TwentyTimes(0.66666666666666666667);
    ShiftAdd(0.66666666666666666667, 20, -20);
  }

  lemma NearestInteger(q: real, z: int)
    requires q >= 0.0
    ensures AbsDiff(HalfUp(q) as real, q) <= AbsDiff(z as real, q)
    ensures AbsDiff(HalfUp(q) as real, q) == AbsDiff(z as real, q) ==> z <= HalfUp(q)
  {
    var n := HalfUp(q);
    assert n as real - 0.5 <= q < n as real + 0.5;
    if z > n {
      assert z as real >= n as real + 1.0;
    } else if z < n {
      assert z as real <= n as real - 1.0;
    }
  }

  /** In the rounding's own scale: an integer, or something below the decade. */
  lemma NearestScaled(q: real, w: real, z: int)
    requires w == z as real || w <= z as real <= q
    requires q >= 0.0
    ensures AbsDiff(HalfUp(q) as real, q) <= AbsDiff(w, q)
    ensures AbsDiff(HalfUp(q) as real, q) == AbsDiff(w, q) ==> w <= HalfUp(q) as real
  {
    NearestInteger(q, z);
  }

  lemma ScaledCandidate(x: real, c: nat, k: int, d: nat) returns (z: int)
    requires x > 0.0 && d > 0 && c as real < Shift(1.0, d)
    ensures var m := LastDigit(x, d);
            var w := Shift(c as real, k - m);
            w == z as real || w <= z as real <= Shift(x, -m)
    ensures Shift(x, -LastDigit(x, d)) >= 0.0
  {
    var m := LastDigit(x, d);
    ShiftGrows(x, -m, -m);
    if k >= m {
      z := ShiftInt(c, k - m);
    } else {
      z := ShiftInt(1, d - 1);
      ShiftMonotone(c as real, Shift(1.0, d), k - m);
      ShiftAdd(1.0, d, k - m);
      ShiftGrows(1.0, d + k - m, d - 1);
      ShiftMonotone(Shift(1.0, Exponent(x)), x, -m);
      ShiftAdd(1.0, Exponent(x), -m);
    }
  }

  /** No number of at most d significant digits is nearer than the rounded one, and none as
      near is greater: halves go up. */
  lemma RoundNearest(x: real, c: nat, k: int, d: nat)
    requires x > 0.0 && d > 0 && c as real < Shift(1.0, d)
    ensures AbsDiff(Round(x, d), x) <= AbsDiff(Shift(c as real, k), x)
    ensures AbsDiff(Round(x, d), x) == AbsDiff(Shift(c as real, k), x) ==> Shift(c as real, k) <= Round(x, d)
  {
    var m := LastDigit(x, d);
    var q, w := Shift(x, -m), Shift(c as real, k - m);
    var z := ScaledCandidate(x, c, k, d);
    NearestScaled(q, w, z);
    ShiftDistance(HalfUp(q) as real, q, w, m);
    if w <= HalfUp(q) as real { ShiftMonotone(w, HalfUp(q) as real, m); }
    ShiftAdd(x, -m, m);
    ShiftAdd(c as real, k - m, m);
  }

  /** Shifting keeps the order of two distances from one point. */
  lemma ShiftDistance(n: real, q: real, w: real, m: int)
    requires AbsDiff(n, q) <= AbsDiff(w, q)
    ensures AbsDiff(Shift(n, m), Shift(q, m)) <= AbsDiff(Shift(w, m), Shift(q, m))
    ensures AbsDiff(n, q) < AbsDiff(w, q) ==> AbsDiff(Shift(n, m), Shift(q, m)) < AbsDiff(Shift(w, m), Shift(q, m))
  {
    ShiftAbs(n, q, m);
    ShiftAbs(w, q, m);
    ShiftMonotone(AbsDiff(n, q), AbsDiff(w, q), m);
  }

  lemma ShiftAbs(a: real, b: real, m: int)
    ensures AbsDiff(Shift(a, m), Shift(b, m)) == Shift(AbsDiff(a, b), m)
  {
    var lo, hi := if a <= b then a else b, if a <= b then b else a;
    ShiftLinear(hi - lo, lo, m);
    ShiftMonotone(lo, hi, m);
    assert hi == (hi - lo) + lo;
  }
}

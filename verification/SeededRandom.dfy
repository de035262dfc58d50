/** The linear congruential generator behind the simulated quotes. */
module SeededRandom {
  import opened Products
  import opened StringHash

  /** One draw's effect on the generator's state. */
  function Advance(seed: nat): (r: nat)
    ensures r < 233280
  {
    (seed * 9301 + 49297) % 233280
  }

  /** The state after n draws. */
  function State(seed: nat, n: nat): nat
  {
    if n == 0 then seed else Advance(State(seed, n - 1))
  }

  /** 1 + a + ... + a^(n-1) for the multiplier a. */
  function Geo(n: nat): nat
  {
    if n == 0 then 0 else 1 + 9301 * Geo(n - 1)
  }

  /** The first draw of a generator seeded with "market". */
  lemma MarketDraw()
    ensures State(Abs(ToInt32(Poly31([109, 97, 114, 107, 101, 116]))), 1) == 92_709
  {
    MarketHash();
    assert State(1_081_306_052, 0) == 1_081_306_052;
  }

  // ---- Closed form ----

  lemma {:induction false} PowGeo(n: nat)
    ensures Pow(9301, n) == 1 + 9300 * Geo(n)
  {
    if n > 0 {
      PowGeo(n - 1);
    }
  }

  /** The state after n draws before any reduction by the modulus. */
  function Unreduced(seed: nat, n: nat): int
  {
    Mul(Pow(9301, n), seed) + 49297 * Geo(n)
  }

  lemma UnreducedNext(seed: nat, n: nat)
    ensures Unreduced(seed, n + 1) == 9301 * Unreduced(seed, n) + 49297
  {
    MulAssoc(9301, Pow(9301, n), seed);
    assert Pow(9301, n + 1) == Mul(9301, Pow(9301, n));
  }

  /** The state after n draws, without iteration: the unreduced value less q moduli. */
  lemma {:induction false} ClosedForm(seed: nat, n: nat) returns (q: int)
    ensures Unreduced(seed, n) == State(seed, n) + 233280 * q
  {
    if n == 0 {
      assert Pow(9301, 0) == 1;
      q := 0;
    } else {
      var p := ClosedForm(seed, n - 1);
      UnreducedNext(seed, n - 1);
      q := 9301 * p + (State(seed, n - 1) * 9301 + 49297) / 233280;
    }
  }

  lemma {:induction false} StateAdd(seed: nat, n: nat, k: nat)
    ensures State(seed, n + k) == State(State(seed, n), k)
  {
    if k > 0 {
      StateAdd(seed, n, k - 1);
    }
  }

  // ---- Divisibility of the geometric sum ----

  /** The primes that matter twice in the modulus. */
  type Prime = p: nat | p == 2 || p == 3 witness 2

  function Rem(p: Prime, x: int): int { if p == 2 then x % 2 else x % 3 }
  function Quot(p: Prime, x: int): int { if p == 2 then x / 2 else x / 3 }

  /** p^e divides x, by repeated exact division. */
  predicate DividesPow(p: Prime, e: nat, x: int)
  {
    e == 0 || (Rem(p, x) == 0 && DividesPow(p, e - 1, Quot(p, x)))
  }

  lemma Distribute(x: int, p: int, q: int, r: int)
    ensures Mul(x, p * q + r) == p * Mul(x, q) + r * x
  {
  }

  lemma OddMultiple(x: int, y: int, z: int)
    requires z == 2 * y + x
    ensures z % 2 == 0 <==> x % 2 == 0
  {
  }

  lemma UnitMultiple(x: int, y: int, z: int)
    requires z == 3 * y + x || z == 3 * y + 2 * x
    ensures z % 3 == 0 <==> x % 3 == 0
  {
  }

  lemma PrimeFactor(p: Prime, x: int, h: int)
    requires Rem(p, h) != 0
    ensures Rem(p, Mul(x, h)) == 0 <==> Rem(p, x) == 0
  {
    if p == 2 {
      Distribute(x, 2, h / 2, 1);
      OddMultiple(x, Mul(x, h / 2), Mul(x, h));
    } else {
      Distribute(x, 3, h / 3, h % 3);
      UnitMultiple(x, Mul(x, h / 3), Mul(x, h));
    }
  }

  lemma FiveMultiple(x: int, y: int, z: int)
    requires z == 5 * y + 2 * x
    ensures z % 5 == 0 <==> x % 5 == 0
  {
  }

  lemma FiveFactor(x: int, h: int)
    requires h % 5 == 2
    ensures Mul(x, h) % 5 == 0 <==> x % 5 == 0
  {
    Distribute(x, 5, h / 5, 2);
    FiveMultiple(x, Mul(x, h / 5), Mul(x, h));
  }

  lemma QuotMul(p: Prime, x: int, h: int)
    requires Rem(p, x) == 0
    ensures Quot(p, Mul(x, h)) == Mul(Quot(p, x), h)
    ensures Rem(p, Mul(x, h)) == 0
  {
    MulCommute(x, h);
    MulCommute(Quot(p, x), h);
    if p == 2 {
      Distribute(h, 2, x / 2, 0);
    } else {
      Distribute(h, 3, x / 3, 0);
    }
  }

  /** A factor prime to p neither adds nor removes powers of p. */
  lemma {:induction false} CancelUnit(p: Prime, e: nat, x: int, h: int)
    requires Rem(p, h) != 0
    ensures DividesPow(p, e, Mul(x, h)) <==> DividesPow(p, e, x)
  {
    if e > 0 {
      PrimeFactor(p, x, h);
      if Rem(p, x) == 0 {
        QuotMul(p, x, h);
        CancelUnit(p, e - 1, Quot(p, x), h);
      }
    }
  }

  lemma {:induction false} GeoAdd(i: nat, j: nat)
    ensures Geo(i + j) == Geo(i) + Mul(Pow(9301, i), Geo(j))
  {
    if i > 0 {
      GeoAdd(i - 1, j);
      MulAssoc(9301, Pow(9301, i - 1), Geo(j));
    }
  }

  lemma {:induction false} GeoResidues(n: nat) returns (d: int)
    ensures Geo(n) == n + 30 * d
  {
    if n == 0 {
      d := 0;
    } else {
      d := GeoResidues(n - 1);
      d := 310 * Geo(n - 1) + d;
    }
  }

  function DoubleFactor(g: int): int { 1 + 4650 * g }

  function TripleFactor(g: int): int { 1 + 3 * (3100 * g + 9610000 * Mul(g, g)) }

  lemma OddFactor(g: int)
    ensures DoubleFactor(g) % 2 == 1
  {
    OneMore(2325 * g);
  }

  lemma UnitFactor(g: int)
    ensures TripleFactor(g) % 3 == 1
  {
    OneMore(3100 * g + 9610000 * Mul(g, g));
  }

  lemma OneMore(z: int)
    ensures (1 + 2 * z) % 2 == 1
    ensures (1 + 3 * z) % 3 == 1
  {
  }

  /** Doubling the length doubles the sum, up to an odd factor. */
  lemma GeoDouble(j: nat) returns (h: int)
    ensures h % 2 == 1
    ensures Geo(2 * j) == 2 * Mul(Geo(j), h)
  {
    h := DoubleFactor(Geo(j));
    OddFactor(Geo(j));
    GeoSplit(j);
    DoubleProduct(Geo(j));
  }

  lemma DoubleProduct(g: int)
    ensures g + Mul(1 + 9300 * g, g) == 2 * Mul(g, DoubleFactor(g))
  {
    Distribute(g, 4650, g, 1);
    MulCommute(1 + 9300 * g, g);
    Distribute(g, 9300, g, 1);
  }

  /** Tripling the length triples the sum, up to a factor prime to 3. */
  lemma GeoTriple(j: nat) returns (h: int)
    ensures h % 3 == 1
    ensures Geo(3 * j) == 3 * Mul(Geo(j), h)
  {
    h := TripleFactor(Geo(j));
    UnitFactor(Geo(j));
    GeoSplit(j);
    TripleProduct(Geo(j), Geo(2 * j));
  }

  lemma GeoSplit(j: nat)
    ensures Geo(2 * j) == Geo(j) + Mul(1 + 9300 * Geo(j), Geo(j))
    ensures Geo(3 * j) == Geo(j) + Mul(1 + 9300 * Geo(j), Geo(2 * j))
  {
    PowGeo(j);
    GeoAdd(j, j);
    GeoAdd(j, 2 * j);
  }

  lemma TripleProduct(g: int, d: int)
    requires d == g + Mul(1 + 9300 * g, g)
    ensures g + Mul(1 + 9300 * g, d) == 3 * Mul(g, TripleFactor(g))
  {
    MulCommute(1 + 9300 * g, g);
    Distribute(g, 9300, g, 1);
    MulCommute(1 + 9300 * g, d);
    Distribute(d, 9300, g, 1);
    Distribute(g, 3100, g + d, 1);
    MulCommute(g, g + d);
    MulAdd(g, d, g);
  }

  /** The powers of 2 and of 3 in the sum are those in its length. */
  lemma {:induction false} GeoPowers(p: Prime, e: nat, k: nat)
    ensures DividesPow(p, e, Geo(k)) <==> DividesPow(p, e, k)
    decreases e
  {
    GeoRem(p, k);
    if e > 0 && Rem(p, k) == 0 {
      var h := GeoQuot(p, k);
      CancelUnit(p, e - 1, Geo(Quot(p, k)), h);
      GeoPowers(p, e - 1, Quot(p, k));
    }
  }

  lemma GeoRem(p: Prime, k: nat)
    ensures Rem(p, Geo(k)) == Rem(p, k)
  {
    var d := GeoResidues(k);
    SameRem(Geo(k), k, d);
  }

  lemma SameRem(x: int, y: int, d: int)
    requires x == y + 30 * d
    ensures x % 2 == y % 2 && x % 3 == y % 3 && x % 5 == y % 5
  {
    assert x % 2 == y % 2 by { SameEven(x, y, 15 * d); }
    assert x % 3 == y % 3 by { SameThird(x, y, 10 * d); }
    assert x % 5 == y % 5 by { SameFifth(x, y, 6 * d); }
  }

  lemma SameEven(x: int, y: int, d: int)
    requires x == y + 2 * d
    ensures x % 2 == y % 2
  {
  }

  lemma SameThird(x: int, y: int, d: int)
    requires x == y + 3 * d
    ensures x % 3 == y % 3
  {
  }

  lemma SameFifth(x: int, y: int, d: int)
    requires x == y + 5 * d
    ensures x % 5 == y % 5
  {
  }

  lemma GeoQuot(p: Prime, k: nat) returns (h: int)
    requires Rem(p, k) == 0
    ensures Rem(p, h) == 1
    ensures Quot(p, Geo(k)) == Mul(Geo(Quot(p, k)), h)
  {
    if p == 2 {
      h := GeoDouble(k / 2);
    } else {
      h := GeoTriple(k / 3);
    }
  }

  lemma {:induction false} Quotient(p: Prime, e: nat, x: int) returns (q: int)
    requires DividesPow(p, e, x)
    ensures x == Mul(Pow(p, e), q)
  {
    if e == 0 {
      q := x;
    } else {
      q := Quotient(p, e - 1, Quot(p, x));
      MulAssoc(p, Pow(p, e - 1), q);
    }
  }

  lemma {:induction false} FromQuotient(p: Prime, e: nat, q: int)
    ensures DividesPow(p, e, Mul(Pow(p, e), q))
  {
    if e > 0 {
      FromQuotient(p, e - 1, q);
      MulAssoc(p, Pow(p, e - 1), q);
      var y := Mul(Pow(p, e - 1), q);
      assert Mul(p, y) == if p == 2 then 2 * y else 3 * y;
    }
  }

  /** 233280 = 2^6 * 3^6 * 5. */
  lemma ModulusSplits(x: int)
    ensures x % 233280 == 0 <==> DividesPow(2, 6, x) && DividesPow(3, 6, x) && x % 5 == 0
  {
    SixthPowers();
    if x % 233280 == 0 {
      var k := x / 233280;
      FromQuotient(2, 6, 3645 * k);
      FromQuotient(3, 6, 320 * k);
    }
    if DividesPow(2, 6, x) && DividesPow(3, 6, x) && x % 5 == 0 {
      var a := Quotient(2, 6, x);
      var b := Quotient(3, 6, x);
      Combine(x, a, b, x / 5);
    }
  }

  lemma SixthPowers()
    ensures Pow(2, 6) == 64 && Pow(3, 6) == 729
  {
    assert Pow(2, 3) == 8 && Pow(3, 3) == 27;
    PowAdd(2, 3, 3);
    PowAdd(3, 3, 3);
  }

  lemma Combine(x: int, a: int, b: int, c: int)
    requires x == 64 * a == 729 * b == 5 * c
    ensures x % 233280 == 0
  {
    var d := 262 * b - 23 * a;
    assert x == 233280 * (c - 9331 * d);
  }

  // ---- Full period ----

  /** k more draws lead back to a state exactly when the modulus divides the sum of k powers. */
  lemma ReturnsIff(t: nat, k: nat)
    requires t < 233280
    ensures State(t, k) == t <==> Geo(k) % 233280 == 0
  {
    var u, g := 9300 * t + 49297, Geo(k);
    ReturnsBy(t, k);
    ModulusSplits(Mul(g, u));
    ModulusSplits(g);
    UnitResidues(t);
    CancelUnit(2, 6, g, u);
    CancelUnit(3, 6, g, u);
    FiveFactor(g, u);
  }

  lemma UnitResidues(t: nat)
    ensures var u := 9300 * t + 49297; Rem(2, u) == 1 && Rem(3, u) == 1 && u % 5 == 2
  {
    OneMore(4650 * t + 24648);
    OneMore(3100 * t + 16432);
    TwoMore(1860 * t + 9859);
  }

  lemma TwoMore(z: int)
    ensures (2 + 5 * z) % 5 == 2
  {
  }

  lemma ReturnsBy(t: nat, k: nat)
    requires t < 233280
    ensures State(t, k) == t <==> Mul(Geo(k), 9300 * t + 49297) % 233280 == 0
  {
    var q := ClosedForm(t, k);
    StateBelow(t, k);
    PowGeo(k);
    Distribute(Geo(k), 9300, t, 49297);
    MulCommute(Pow(9301, k), t);
    Distribute(t, 9300, Geo(k), 1);
    MulCommute(t, Geo(k));
    SumResidue(State(t, k), t, Mul(Geo(k), 9300 * t + 49297), q);
  }

  lemma SumResidue(s: nat, t: nat, d: int, q: int)
    requires s < 233280 && t < 233280
    requires t + d == s + 233280 * q
    ensures s == t <==> d % 233280 == 0
  {
  }

  lemma StateBelow(t: nat, k: nat)
    requires t < 233280
    ensures State(t, k) < 233280
  {
    if k > 0 {
      assert State(t, k) == Advance(State(t, k - 1));
    }
  }

  /** k more draws lead back to a state exactly when the modulus divides k. */
  lemma ReturnsAfter(t: nat, k: nat)
    requires t < 233280
    ensures State(t, k) == t <==> k % 233280 == 0
  {
    ReturnsIff(t, k);
    GeoModulus(k);
  }

  /** Two draws from one state leave equal states exactly when the modulus
      divides the number of draws between them. */
  lemma SameStateIff(t: nat, i: nat, k: nat)
    requires t < 233280
    ensures State(t, i + k) == State(t, i) <==> k % 233280 == 0
  {
    StateBelow(t, i);
    StateAdd(t, i, k);
    ReturnsAfter(State(t, i), k);
  }

  lemma SmallMultiple(d: nat)
    requires d < 233280 && d % 233280 == 0
    ensures d == 0
  {
  }

  /** Within one period no state comes twice. */
  lemma MeetsOnce(t: nat, k: nat, l: nat)
    requires t < 233280 && k <= l < 233280 && State(t, k) == State(t, l)
    ensures k == l
  {
    SameStateIff(t, k, l - k);
    SmallMultiple(l - k);
  }

  /** From any seed, after the first draw, two states coincide exactly when the
      number of draws between them is a multiple of 233280. */
  lemma FullPeriod(seed: nat, n: nat, k: nat)
    requires n >= 1
    ensures State(seed, n + k) == State(seed, n) <==> k % 233280 == 0
  {
    assert State(seed, n) == Advance(State(seed, n - 1));
    StateAdd(seed, n, k);
    ReturnsAfter(State(seed, n), k);
  }

  /** The modulus divides the geometric sum exactly when it divides its length. */
  lemma GeoModulus(k: nat)
    ensures Geo(k) % 233280 == 0 <==> k % 233280 == 0
  {
    ModulusSplits(Geo(k));
    ModulusSplits(k);
    GeoPowers(2, 6, k);
    GeoPowers(3, 6, k);
    var d := GeoResidues(k);
    SameRem(Geo(k), k, d);
  }

  /** The states met in the first j draws from state t, t itself included. */
  ghost function Window(t: nat, j: nat): set<nat>
  {
    if j == 0 then {} else Window(t, j - 1) + {State(t, j - 1)}
  }

  lemma {:induction false} WindowMember(t: nat, j: nat, r: nat) returns (k: nat)
    requires r in Window(t, j)
    ensures k < j && State(t, k) == r
  {
    if r == State(t, j - 1) {
      k := j - 1;
    } else {
      k := WindowMember(t, j - 1, r);
    }
  }

  lemma NewState(t: nat, j: nat)
    requires t < 233280 && j < 233280
    ensures State(t, j) !in Window(t, j)
  {
    if State(t, j) in Window(t, j) {
      var k := WindowMember(t, j, State(t, j));
      MeetsOnce(t, k, j);
    }
  }

  lemma {:induction false} WindowSize(t: nat, j: nat)
    requires t < 233280 && j <= 233280
    ensures |Window(t, j)| == j
    ensures forall r :: r in Window(t, j) ==> r < 233280
  {
    if j > 0 {
      WindowSize(t, j - 1);
      StateBelow(t, j - 1);
      NewState(t, j - 1);
    }
  }

  /** A set of m numbers below m holds every one of them. */
  lemma FullSet(s: set<nat>, m: nat, r: nat)
    requires forall x :: x in s ==> x < m
    requires |s| >= m && r < m
    ensures r in s
  {
    if r !in s {
      SizeBelow(s, m, r);
    }
  }

  /** Numbers below m other than r: fewer than m of them. */
  lemma {:induction false} SizeBelow(s: set<nat>, m: nat, r: nat)
    requires forall x :: x in s ==> x < m && x != r
    requires r < m
    ensures |s| < m
    decreases m
  {
    if r == m - 1 {
      AtMost(s, m - 1);
    } else {
      SizeBelow(s - {m - 1}, m - 1, r);
    }
  }

  lemma {:induction false} AtMost(s: set<nat>, m: nat)
    requires forall x :: x in s ==> x < m
    ensures |s| <= m
  {
    if m > 0 {
      AtMost(s - {m - 1}, m - 1);
    } else {
      assert s == {};
    }
  }

  /** From any state, 233280 consecutive draws meet every state exactly once. */
  lemma MeetsEveryState(t: nat, r: nat) returns (k: nat)
    requires t < 233280 && r < 233280
    ensures k < 233280 && State(t, k) == r
    ensures forall l: nat :: l < 233280 && State(t, l) == r ==> l == k
  {
    WindowSize(t, 233280);
    FullSet(Window(t, 233280), 233280, r);
    k := WindowMember(t, 233280, r);
    forall l: nat | l < 233280 && State(t, l) == r
      ensures l == k
    {
      if k <= l { MeetsOnce(t, k, l); } else { MeetsOnce(t, l, k); }
    }
  }

  /** The generator object: a seed field, hashed from MOCK_SEED and advanced in place. */
  class Generator {
    var seed: nat

    ghost predicate Valid()
      reads this
    {
      seed <= 0x8000_0000
    }

    constructor (mockSeed: seq<CodeUnit>)
      requires mockSeed != []
      ensures Valid()
      ensures seed == Abs(ToInt32(Poly31(mockSeed)))
    {
      var hash := HashString(mockSeed);
      seed := hash;
    }

    /** Draws the next number. The product stays below 2^53, where the integers
        of the model and the doubles of the program agree. */
    method Next() returns (draw: real)
      requires Valid()
      modifies this
      ensures Valid()
      ensures old(seed) * 9301 + 49297 < 0x20_0000_0000_0000
      ensures seed == Advance(old(seed))
      ensures draw == seed as real / 233280.0 && 0.0 <= draw < 1.0
    {
      seed := (seed * 9301 + 49297) % 233280;
      draw := seed as real / 233280.0;
    }
  }
}

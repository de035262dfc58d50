/** Venue choice, the simulated swap and the slippage check. */
module DexRouter {
  import opened Decimals
  import opened Products

  datatype Dex = Raydium | Meteora

  datatype Quote = Quote(price: real, fee: real)

  function KeptFraction(q: Quote): real { 1.0 - q.fee }

  /** The price after fees, exactly. */
  function NetPrice(q: Quote): real { Times(q.price, KeptFraction(q)) }

  /** The price after fees, as the router computes it. */
  function EffectivePrice(q: Quote): real
  {
    Round(Times(q.price, Round(KeptFraction(q), PRECISION)), PRECISION)
  }

  function SelectBestDex(raydium: Quote, meteora: Quote): Dex
  {
    if EffectivePrice(raydium) >= EffectivePrice(meteora) then Raydium else Meteora
  }

  /** The factor the simulated swap applies to the expected price, for a draw in [0, 1). */
  function Variance(slippage: real, draw: real): real
  {
    Round(1.0 - Round(Times(draw, slippage), PRECISION), PRECISION)
  }

  /** The executed price, in units of 10^-9. */
  function ExecutedUnits(expected: real, slippage: real, draw: real): int
  {
    Units9(Round(Times(expected, Variance(slippage, draw)), PRECISION))
  }

  function Ratio(a: real, b: real): real
    requires b > 0.0
  {
    a / b
  }

  /** The relative distance between two prices, as checkSlippage computes it. */
  function ActualSlippage(expected: real, executed: real): real
    requires expected > 0.0
  {
    Round(Ratio(Magnitude(Round(expected - executed, PRECISION)), expected), PRECISION)
  }

  predicate PassesSlippage(expected: real, executed: real, slippage: real)
    requires expected > 0.0
  {
    ActualSlippage(expected, executed) <= slippage
  }

  // ---- Products of reals ----

  lemma Scale(a: real, b: real, u: real)
    requires a <= b && u >= 0.0
    ensures Times(u, a) <= Times(u, b)
  {
  }

  lemma ScaleStrict(a: real, b: real, u: real)
    requires a < b && u > 0.0
    ensures Times(u, a) < Times(u, b)
  {
  }

  /** A factor known up to e makes a product known up to p * e. */
  lemma ScaleBand(p: real, f: real, e: real, w: real)
    requires p >= 0.0 && f - e <= w <= f + e
    ensures Times(p, f) - Times(p, e) <= Times(p, w) <= Times(p, f) + Times(p, e)
  {
    Scale(f - e, w, p);
    Scale(w, f + e, p);
  }

  lemma SmallFits()
    ensures Round(1.0, PRECISION) == 1.0 && Round(0.5, PRECISION) == 0.5
  {
    ShiftGrows(1.0, 1, PRECISION);
    assert Shift(1.0, 1) == 10.0;
    assert Shift(5.0, -1) == 0.5;
    RoundExact(1.0, 1, 0, PRECISION);
    RoundExact(0.5, 5, -1, PRECISION);
  }

  // ---- Venue choice ----

  ghost predicate ValidQuote(q: Quote) { q.price > 0.0 && 0.0 <= q.fee < 1.0 }

  /** One more rounding of a value already off by one relative error. */
  lemma ErrorsAdd(n: real, g: real)
    requires n >= 0.0 && g >= 0.0
    requires n - Err(n, PRECISION) <= g <= n + Err(n, PRECISION)
    ensures n - 3.0 * Err(n, PRECISION) <= Round(g, PRECISION) <= n + 3.0 * Err(n, PRECISION)
  {
    var e := Err(n, PRECISION);
    RoundError(g, PRECISION);
    ErrMonotone(n, n, PRECISION);
    ErrMonotone(g, n + e, PRECISION);
    ErrAdd(n, e, PRECISION);
    ErrMonotone(e, e, PRECISION);
  }

  lemma RoundedFactor(p: real, f: real)
    requires p > 0.0 && f >= 0.0
    ensures var n, g := Times(p, f), Times(p, Round(f, PRECISION));
            n >= 0.0 && g >= 0.0 && n - Err(n, PRECISION) <= g <= n + Err(n, PRECISION)
  {
    RoundError(f, PRECISION);
    RoundSign(f, PRECISION);
    ErrScale(p, f, PRECISION);
    ScaleBand(p, f, Err(f, PRECISION), Round(f, PRECISION));
    Scale(0.0, Round(f, PRECISION), p);
    Scale(0.0, f, p);
  }

  /** The effective price is the net price up to three relative errors. */
  lemma EffectiveError(q: Quote)
    requires ValidQuote(q)
    ensures NetPrice(q) - 3.0 * Err(NetPrice(q), PRECISION) <= EffectivePrice(q)
    ensures EffectivePrice(q) <= NetPrice(q) + 3.0 * Err(NetPrice(q), PRECISION)
  {
    RoundedFactor(q.price, KeptFraction(q));
    ErrorsAdd(NetPrice(q), Times(q.price, Round(KeptFraction(q), PRECISION)));
  }

  function QuoteOf(dex: Dex, raydium: Quote, meteora: Quote): Quote
  {
    if dex.Raydium? then raydium else meteora
  }

  function Other(dex: Dex): Dex { if dex.Raydium? then Meteora else Raydium }

  /** The chosen venue's net price is at least the other's, up to the roundings of both. */
  lemma ChosenNearlyBest(raydium: Quote, meteora: Quote)
    requires ValidQuote(raydium) && ValidQuote(meteora)
    ensures var best := NetPrice(QuoteOf(SelectBestDex(raydium, meteora), raydium, meteora));
            var other := NetPrice(QuoteOf(Other(SelectBestDex(raydium, meteora)), raydium, meteora));
            best + 3.0 * Err(best, PRECISION) >= other - 3.0 * Err(other, PRECISION)
  {
    EffectiveError(raydium);
    EffectiveError(meteora);
  }

  /** When 1 - fee needs no rounding, as for every fee of at most 20 decimals, the two
      errors left add up to one unit in the twentieth digit. */
  lemma ChosenBestToOneUnit(raydium: Quote, meteora: Quote)
    requires ValidQuote(raydium) && ValidQuote(meteora)
    requires Round(KeptFraction(raydium), PRECISION) == KeptFraction(raydium)
    requires Round(KeptFraction(meteora), PRECISION) == KeptFraction(meteora)
    ensures var best := NetPrice(QuoteOf(SelectBestDex(raydium, meteora), raydium, meteora));
            var other := NetPrice(QuoteOf(Other(SelectBestDex(raydium, meteora)), raydium, meteora));
            best >= other - (Err(best, PRECISION) + Err(other, PRECISION))
  {
    Scale(0.0, raydium.price, KeptFraction(raydium));
    Scale(0.0, meteora.price, KeptFraction(meteora));
    Commute(raydium.price, KeptFraction(raydium));
    Commute(meteora.price, KeptFraction(meteora));
    RoundError(NetPrice(raydium), PRECISION);
    RoundError(NetPrice(meteora), PRECISION);
  }

  /** price = p * 10^i and 1 - fee = f * 10^j with p * f of at most 20 digits. */
  ghost predicate DigitsFit(q: Quote, p: nat, i: int, f: nat, j: int)
  {
    q.price == Shift(p as real, i) && KeptFraction(q) == Shift(f as real, j)
    && f as real < Shift(1.0, PRECISION)
    && (p * f) as real < Shift(1.0, PRECISION)
  }

  lemma EffectiveExact(q: Quote, p: nat, i: int, f: nat, j: int)
    requires DigitsFit(q, p, i, f, j)
    ensures EffectivePrice(q) == NetPrice(q)
  {
    RoundExact(KeptFraction(q), f, j, PRECISION);
    ShiftProduct(p as real, i, f as real, j);
    assert Times(p as real, f as real) == (p * f) as real;
    RoundExact(NetPrice(q), p * f, i + j, PRECISION);
  }

  lemma ShiftProduct(x: real, i: int, y: real, j: int)
    ensures Times(Shift(x, i), Shift(y, j)) == Shift(Times(x, y), i + j)
  {
    ShiftScale(Shift(x, i), y, j);
    ShiftScale(y, x, i);
    Commute(Shift(x, i), y);
    Commute(x, y);
    ShiftAdd(Times(y, x), i, j);
  }

  lemma Commute(a: real, b: real)
    ensures Times(a, b) == Times(b, a)
  {
  }

  /** With few enough digits the choice is the exact argmax, ties going to Raydium. */
  lemma ChosenBest(raydium: Quote, meteora: Quote,
                   p: nat, i: int, f: nat, j: int, p': nat, i': int, f': nat, j': int)
    requires DigitsFit(raydium, p, i, f, j) && DigitsFit(meteora, p', i', f', j')
    ensures SelectBestDex(raydium, meteora) == Raydium <==> NetPrice(raydium) >= NetPrice(meteora)
  {
    EffectiveExact(raydium, p, i, f, j);
    EffectiveExact(meteora, p', i', f', j');
  }

  // ---- Simulated quotes ----

  /** Raydium's simulated quote for a draw: 100 up to 2.5% either way, fee 0.3%. */
  function RaydiumQuote(draw: real): Quote
  {
    Quote(Fixed9(Units9(100.0 * (1.0 + (draw * 0.05 - 0.025)))), 0.003)
  }

  /** Meteora's simulated quote for a draw: 100 up to 3% either way, fee 0.2%. */
  function MeteoraQuote(draw: real): Quote
  {
    Quote(Fixed9(Units9(100.0 * (1.0 + (draw * 0.06 - 0.03)))), 0.002)
  }

  lemma Fixed9Shift(units: int)
    ensures Fixed9(units) == Shift(units as real, -9)
  {
    MinusNine(units as real);
  }

  lemma MinusNine(x: real)
    ensures Shift(x, -9) == x / 1000000000.0
  {
    assert Shift(x, -6) == x / 1000000.0 by {
      assert Shift(x, -3) == x / 1000.0;
    }
  }

  lemma TwelveDigits(n: int)
    requires n <= 999_999_999_999
    ensures n as real < Shift(1.0, PRECISION)
    ensures n <= 200_000_000_000 ==> (n * 998) as real < Shift(1.0, PRECISION)
  {
    ShiftGrows(1.0, 15, PRECISION);
    assert Shift(1.0, 15) == 1000000000000000.0 by {
      assert Shift(1.0, 5) == 100000.0;
      assert Shift(1.0, 10) == 10000000000.0;
    }
  }

  /** Between any two prices of nine decimals up to 200 the simulated fees make the choice
      the exact argmax of the net price: however a simulated price was rounded. */
  lemma NineDecimalChoice(m: nat, n: nat)
    requires 0 < m <= 200_000_000_000 && 0 < n <= 200_000_000_000
    ensures SelectBestDex(Quote(Fixed9(m), 0.003), Quote(Fixed9(n), 0.002)) == Raydium
       <==> NetPrice(Quote(Fixed9(m), 0.003)) >= NetPrice(Quote(Fixed9(n), 0.002))
    ensures SelectBestDex(Quote(Fixed9(m), 0.003), Quote(Fixed9(n), 0.002)) == Raydium <==> 997 * m >= 998 * n
  {
    Fixed9Shift(m);
    Fixed9Shift(n);
    TwelveDigits(998);
    TwelveDigits(m);
    TwelveDigits(n);
    assert Shift(997.0, -3) == 0.997 && Shift(998.0, -3) == 0.998;
    ChosenBest(Quote(Fixed9(m), 0.003), Quote(Fixed9(n), 0.002), m, -9, 997, -3, n, -9, 998, -3);
    assert NetPrice(Quote(Fixed9(m), 0.003)) == (997 * m) as real / 1000000000000.0;
    assert NetPrice(Quote(Fixed9(n), 0.002)) == (998 * n) as real / 1000000000000.0;
  }

  /** A simulated price is linear in its draw, from 97.5 to 102.5 and from 97 to 103, up to
      half a unit of 10^-9, and the fees are 0.3% and 0.2%. */
  lemma SimulatedQuotes(draw: real)
    requires 0.0 <= draw < 1.0
    ensures AbsDiff(RaydiumQuote(draw).price, 97.5 + 5.0 * draw) <= 0.0000000005 && RaydiumQuote(draw).fee == 0.003
    ensures AbsDiff(MeteoraQuote(draw).price, 97.0 + 6.0 * draw) <= 0.0000000005 && MeteoraQuote(draw).fee == 0.002
  {
    UnitsNear(97.5 + 5.0 * draw);
    UnitsNear(97.0 + 6.0 * draw);
    assert 100.0 * (1.0 + (draw * 0.05 - 0.025)) == 97.5 + 5.0 * draw;
    assert 100.0 * (1.0 + (draw * 0.06 - 0.03)) == 97.0 + 6.0 * draw;
  }

  /** Simulated prices stay in their bands, and between them the router picks
      the exact argmax of the net price. */
  lemma SimulatedChoice(a: real, b: real)
    requires 0.0 <= a < 1.0 && 0.0 <= b < 1.0
    ensures 97.5 <= RaydiumQuote(a).price <= 102.5 && 97.0 <= MeteoraQuote(b).price <= 103.0
    ensures SelectBestDex(RaydiumQuote(a), MeteoraQuote(b)) == Raydium
       <==> NetPrice(RaydiumQuote(a)) >= NetPrice(MeteoraQuote(b))
  {
    var m := Units9(100.0 * (1.0 + (a * 0.05 - 0.025)));
    var n := Units9(100.0 * (1.0 + (b * 0.06 - 0.03)));
    assert 97_500_000_000 <= m <= 102_500_000_000;
    assert 97_000_000_000 <= n <= 103_000_000_000;
    NineDecimalChoice(m, n);
  }

  // ---- The swap ----

  /** A swap of an accepted order: the schema's pattern admits only tolerances below one. */
  ghost predicate ValidSwap(units: int, slippage: real, draw: real)
  {
    ValidTerms(units, slippage) && 0.0 <= draw < 1.0
  }

  ghost predicate ValidTerms(units: int, slippage: real)
  {
    units > 0 && units as real < Shift(1.0, PRECISION) && 0.0 <= slippage < 1.0
  }

  lemma DrawnSlippage(s: real, r: real)
    requires 0.0 <= s < 1.0 && 0.0 <= r < 1.0
    ensures 0.0 <= Times(r, s) <= s && (s > 0.0 ==> Times(r, s) < s)
    ensures 0.0 <= Round(Times(r, s), PRECISION) <= 1.0
  {
    Scale(0.0, r, s);
    Scale(r, 1.0, s);
    if s > 0.0 { ScaleStrict(r, 1.0, s); }
    Commute(r, s);
    SmallFits();
    RoundMonotone(Times(r, s), 1.0, PRECISION);
  }

  lemma VarianceBounds(s: real, r: real)
    requires 0.0 <= s < 1.0 && 0.0 <= r < 1.0
    ensures 0.0 <= Variance(s, r) <= 1.0
    ensures Variance(s, r) >= 1.0 - (Times(r, s) + 0.2 * Err(1.0, PRECISION))
    ensures Variance(s, r) <= 1.0 - (Times(r, s) - 0.2 * Err(1.0, PRECISION))
  {
    DrawnSlippage(s, r);
    LeftAfter(Times(r, s));
  }

  lemma LeftAfter(x: real)
    requires 0.0 <= x <= 1.0 && 0.0 <= Round(x, PRECISION) <= 1.0
    ensures var v := Round(1.0 - Round(x, PRECISION), PRECISION);
            && 0.0 <= v <= 1.0
            && 1.0 - (x + 0.2 * Err(1.0, PRECISION)) <= v <= 1.0 - (x - 0.2 * Err(1.0, PRECISION))
  {
    var p := Round(x, PRECISION);
    SmallFits();
    RoundMonotone(1.0 - p, 1.0, PRECISION);
    RoundErrorBelowOne(x, PRECISION);
    RoundErrorBelowOne(1.0 - p, PRECISION);
  }

  /** A larger draw never raises the executed price. */
  lemma VarianceAntitone(s: real, r: real, r': real)
    requires 0.0 <= s < 1.0 && 0.0 <= r <= r' < 1.0
    ensures Variance(s, r') <= Variance(s, r)
  {
    DrawnSlippage(s, r);
    DrawnSlippage(s, r');
    Scale(r, r', s);
    Commute(r, s);
    Commute(r', s);
    RoundMonotone(Times(r, s), Times(r', s), PRECISION);
    RoundMonotone(1.0 - Round(Times(r', s), PRECISION), 1.0 - Round(Times(r, s), PRECISION), PRECISION);
  }

  /** A whole number of units that fits is left alone by rounding. */
  lemma UnitsExact(units: nat)
    requires units as real < Shift(1.0, PRECISION)
    ensures Round(Fixed9(units), PRECISION) == Fixed9(units)
  {
    Fixed9Shift(units);
    RoundExact(Fixed9(units), units, -9, PRECISION);
  }

  lemma UnitsMonotone(x: real, y: real)
    requires 0.0 <= x <= y
    ensures 0 <= Units9(x) <= Units9(y)
  {
  }

  lemma UnitsNear(x: real)
    requires x >= 0.0
    ensures x - 0.0000000005 <= Fixed9(Units9(x)) <= x + 0.0000000005
  {
    UnitsNearest(x);
  }

  /** What the swap hands on before toFixed(9). */
  function Product(units: int, s: real, r: real): real
  {
    Round(Times(Fixed9(units), Variance(s, r)), PRECISION)
  }

  /** The executed price never exceeds the expected one, and a larger draw never raises it. */
  lemma ExecutedAtMostExpected(units: int, s: real, r: real, r': real)
    requires ValidSwap(units, s, r) && r <= r' < 1.0
    ensures 0 <= ExecutedUnits(Fixed9(units), s, r') <= ExecutedUnits(Fixed9(units), s, r) <= units
  {
    var e := Fixed9(units);
    VarianceBounds(s, r);
    VarianceBounds(s, r');
    VarianceAntitone(s, r, r');
    Scale(0.0, Variance(s, r'), e);
    Scale(Variance(s, r'), Variance(s, r), e);
    Scale(Variance(s, r), 1.0, e);
    RoundMonotone(Times(e, Variance(s, r')), Times(e, Variance(s, r)), PRECISION);
    RoundMonotone(Times(e, Variance(s, r)), e, PRECISION);
    UnitsExact(units);
    UnitsMonotone(Product(units, s, r'), Product(units, s, r));
    UnitsMonotone(Product(units, s, r), e);
    assert Units9(e) == units;
  }

  /** What the rounded factor and the rounded product leave of the expected price. */
  lemma ProductNear(units: int, s: real, r: real)
    requires ValidSwap(units, s, r)
    ensures var e := Fixed9(units);
            && 0.0 <= Product(units, s, r)
            && e - Times(e, Times(r, s)) - 1.2 * Err(e, PRECISION) <= Product(units, s, r)
            && Product(units, s, r) <= e - Times(e, Times(r, s)) + 1.2 * Err(e, PRECISION)
  {
    var e, v, h := Fixed9(units), Variance(s, r), Err(1.0, PRECISION);
    VarianceBounds(s, r);
    Scale(1.0 - (Times(r, s) + 0.2 * h), v, e);
    Scale(v, 1.0 - (Times(r, s) - 0.2 * h), e);
    Scale(v, 1.0, e);
    Scale(0.0, v, e);
    Spread(e, Times(r, s), h);
    ErrScale(e, 1.0, PRECISION);
    RoundError(Times(e, v), PRECISION);
    ErrMonotone(Times(e, v), e, PRECISION);
    RoundSign(Times(e, v), PRECISION);
  }

  /** For every draw and tolerance the executed price is the expected one less the drawn part
      of the tolerance, up to half a unit of 10^-9 and 1.2 relative errors either way. */
  lemma ExecutedNear(units: int, s: real, r: real)
    requires ValidSwap(units, s, r)
    ensures var e := Fixed9(units);
            var exact, error := e - Times(e, Times(r, s)), 1.2 * Err(e, PRECISION) + 0.0000000005;
            exact - error <= Fixed9(ExecutedUnits(e, s, r)) <= exact + error
  {
    ProductNear(units, s, r);
    UnitsNear(Product(units, s, r));
  }

  lemma Spread(e: real, x: real, h: real)
    ensures Times(e, 1.0 - (x + 0.2 * h)) == e - Times(e, x) - 0.2 * Times(e, h)
    ensures Times(e, 1.0 - (x - 0.2 * h)) == e - Times(e, x) + 0.2 * Times(e, h)
  {
  }

  // ---- Every rounding counts ----

  /** Rounding a number in [0.1, 1), or one in [1, 10). */
  lemma RoundBelowOne(x: real, n: nat)
    requires 0.1 <= x < 1.0 && n as real - 0.5 <= x * 100000000000000000000.0 < n as real + 0.5
    ensures Round(x, PRECISION) == n as real / 100000000000000000000.0
  {
    assert Shift(1.0, -1) == 0.1 && Shift(1.0, 0) == 1.0;
    TwentyTimes(x);
    RoundIs(x, -1, n, PRECISION);
    TwentyTimes(Shift(n as real, -20));
    ShiftAdd(n as real, -20, 20);
  }

  lemma RoundBelowTen(x: real, n: nat)
    requires 1.0 <= x < 10.0 && n as real - 0.5 <= x * 10000000000000000000.0 < n as real + 0.5
    ensures Round(x, PRECISION) == n as real / 10000000000000000000.0
  {
    assert Shift(1.0, 0) == 1.0 && Shift(1.0, 1) == 10.0;
    TwentyTimes(x);
    ShiftNext(x, 19);
    RoundIs(x, 0, n, PRECISION);
    TwentyTimes(Shift(n as real, -19));
    ShiftAdd(n as real, -19, 20);
    assert Shift(n as real, 1) == 10.0 * n as real;
  }

  /** Both operations of the effective price round: 1 - fee to 0.98999999999999999999 first. */
  lemma EffectiveRoundsTwice()
    ensures EffectivePrice(Quote(0.007, 0.010000000000000000006)) == 0.0069299999999999999999
  {
    RoundBelowOne(1.0 - 0.010000000000000000006, 98999999999999999999);
    var x := Times(0.007, 0.98999999999999999999);
    assert Shift(1.0, -3) == 0.001 && Shift(1.0, -2) == 0.01;
    TwentyTimes(x);
    ShiftNext(x, 20);
    ShiftNext(x, 21);
    RoundIs(x, -3, 69299999999999999999, PRECISION);
    TwentyTimes(0.0069299999999999999999);
    ShiftNext(0.0069299999999999999999, 20);
    ShiftNext(0.0069299999999999999999, 21);
    ShiftAdd(0.0069299999999999999999, 22, -22);
  }

  /** So do both of the variance: draw times slippage is rounded before it is taken from 1. */
  lemma VarianceRoundsTwice()
    ensures Variance(0.0200000000000000000100002, 0.5) == 0.99
  {
    var x := Times(0.5, 0.0200000000000000000100002);
    assert x == 0.0100000000000000000050001;
    assert Shift(1.0, -2) == 0.01 && Shift(1.0, -1) == 0.1;
    TwentyTimes(x);
    ShiftNext(x, 20);
    RoundIs(x, -2, 10000000000000000005, PRECISION);
    TwentyTimes(0.010000000000000000005);
    ShiftNext(0.010000000000000000005, 20);
    ShiftAdd(0.010000000000000000005, 21, -21);
    RoundBelowOne(1.0 - 0.010000000000000000005, 99000000000000000000);
  }

  /** And the executed price rounds to 20 digits before toFixed(9) does: 2.70000000049999999998
      becomes 2.7000000005 and then 2.700000001. */
  lemma ExecutedRoundsTwice()
    ensures ExecutedUnits(3.0, 0.19999999966666666668, 0.5) == 2_700_000_001
  {
    assert Times(0.5, 0.19999999966666666668) == 0.09999999983333333334;
    assert Shift(1.0, -2) == 0.01 && Shift(1.0, -1) == 0.1;
    TwentyTimes(0.09999999983333333334);
    ShiftNext(0.09999999983333333334, 20);
    RoundIs(0.09999999983333333334, -2, 99999999833333333340, PRECISION);
    ShiftAdd(0.09999999983333333334, 21, -21);
    RoundBelowOne(1.0 - 0.09999999983333333334, 90000000016666666666);
    assert Times(3.0, 0.90000000016666666666) == 2.70000000049999999998;
    RoundBelowTen(2.70000000049999999998, 27000000005000000000);
  }

  // ---- The check ----

  lemma RatioTimes(a: real, b: real)
    requires b > 0.0
    ensures Times(b, Ratio(a, b)) == a
  {
  }

  lemma CancelTimes(a: real, b: real, u: real)
    requires u > 0.0 && Times(u, a) <= Times(u, b)
    ensures a <= b
  {
    if b < a {
      ScaleStrict(b, a, u);
    }
  }

  lemma TimesAdd(u: real, a: real, b: real)
    ensures Times(u, a + b) == Times(u, a) + Times(u, b)
  {
  }

  /** The distance of two prices that fit is computed without rounding. */
  lemma DistanceExact(n: nat, m: nat)
    requires n as real < Shift(1.0, PRECISION) && m as real < Shift(1.0, PRECISION)
    ensures var d: nat := if n < m then m - n else n - m;
            Magnitude(Round(Fixed9(n) - Fixed9(m), PRECISION)) == Fixed9(d)
  {
    var d: nat := if n < m then m - n else n - m;
    RoundSign(Fixed9(n) - Fixed9(m), PRECISION);
    assert Magnitude(Fixed9(n) - Fixed9(m)) == Fixed9(d);
    UnitsExact(d);
  }

  /** A price whose distance, with a tenth of one relative error, is within tolerance passes. */
  lemma PassesWithin(n: nat, m: nat, s: real)
    requires 0 < n && m <= n && n as real < Shift(1.0, PRECISION)
    requires Fixed9(n) - Fixed9(m) + 0.1 * Err(Fixed9(n), PRECISION) <= Times(Fixed9(n), s)
    ensures PassesSlippage(Fixed9(n), Fixed9(m), s)
  {
    var e, h := Fixed9(n), Err(1.0, PRECISION);
    DistanceExact(n, m);
    var y := Ratio(Fixed9(n - m), e);
    assert Fixed9(n - m) == e - Fixed9(m);
    RatioTimes(Fixed9(n - m), e);
    RatioBelowOne(Fixed9(n - m), e);
    RoundErrorBelowOne(y, PRECISION);
    ErrScale(e, 1.0, PRECISION);
    assert Times(e, 1.0) == e;
    TimesAdd(e, y, 0.1 * h);
    Tenth(e, h);
    CancelTimes(y + 0.1 * h, s, e);
  }

  lemma Tenth(u: real, h: real)
    ensures Times(u, 0.1 * h) == 0.1 * Times(u, h)
  {
  }

  lemma RatioBelowOne(a: real, b: real)
    requires 0.0 <= a <= b && b > 0.0
    ensures 0.0 <= Ratio(a, b) <= 1.0
  {
  }

  /** The slippage the check computes is the relative distance of the two prices, up to one
      relative error. */
  lemma SlippageNear(n: nat, m: nat)
    requires 0 < n && n as real < Shift(1.0, PRECISION) && m as real < Shift(1.0, PRECISION)
    ensures var d: nat := if n < m then m - n else n - m;
            var exact := Ratio(d as real, n as real);
            && exact - Err(exact, PRECISION) <= ActualSlippage(Fixed9(n), Fixed9(m))
            && ActualSlippage(Fixed9(n), Fixed9(m)) <= exact + Err(exact, PRECISION)
  {
    var d: nat := if n < m then m - n else n - m;
    DistanceExact(n, m);
    SameRatio(d, n);
    RoundError(Ratio(d as real, n as real), PRECISION);
  }

  lemma SameRatio(d: nat, n: nat)
    requires 0 < n
    ensures Ratio(Fixed9(d), Fixed9(n)) == Ratio(d as real, n as real) >= 0.0
  {
    var y := Ratio(d as real, n as real);
    RatioTimes(d as real, n as real);
    RatioTimes(Fixed9(d), Fixed9(n));
    assert Times(Fixed9(n), y) == Times(n as real, y) / 1000000000.0;
    if Ratio(Fixed9(d), Fixed9(n)) < y { ScaleStrict(Ratio(Fixed9(d), Fixed9(n)), y, Fixed9(n)); }
    if y < Ratio(Fixed9(d), Fixed9(n)) { ScaleStrict(y, Ratio(Fixed9(d), Fixed9(n)), Fixed9(n)); }
    if y < 0.0 { ScaleStrict(y, 0.0, n as real); }
  }

  /** The swap passes its own check unless the tolerance left over by the draw is
      worth less than half a unit of 10^-9 plus 1.3 relative errors.
      Every failure therefore lies in that band. */
  lemma SwapPassesOutsideBand(units: int, s: real, r: real)
    requires ValidSwap(units, s, r)
    requires s == 0.0
          || Times(Fixed9(units), s) - Times(Fixed9(units), Times(r, s))
             >= 0.0000000005 + 1.3 * Err(Fixed9(units), PRECISION)
    ensures PassesSlippage(Fixed9(units), Fixed9(ExecutedUnits(Fixed9(units), s, r)), s)
  {
    var m := ExecutedUnits(Fixed9(units), s, r);
    ExecutedAtMostExpected(units, s, r, r);
    if s == 0.0 {
      ZeroSlippage(units, r);
      DistanceExact(units, units);
    } else {
      ExecutedNear(units, s, r);
      PassesWithin(units, m, s);
    }
  }

  lemma ZeroSlippage(units: int, r: real)
    requires ValidSwap(units, 0.0, r)
    ensures ExecutedUnits(Fixed9(units), 0.0, r) == units
  {
    SmallFits();
    UnitsExact(units);
    assert Times(r, 0.0) == 0.0;
    assert Variance(0.0, r) == 1.0;
    assert Times(Fixed9(units), 1.0) == Fixed9(units);
  }

  // ---- The check decides exactly ----

  lemma OneFits(n: nat)
    requires n as real <= Shift(1.0, PRECISION - 1)
    ensures n as real < Shift(1.0, PRECISION)
  {
    ShiftNext(1.0, PRECISION - 1);
    ShiftGrows(1.0, 0, PRECISION - 1);
  }

  /** Two different multiples of 1/nt with nt at most 10^19 are at least 10^-19 apart. */
  lemma Gap(nt: nat, y: real, s: real)
    requires 0 < nt && nt as real <= Shift(1.0, PRECISION - 1)
    requires Times(nt as real, y) >= Times(nt as real, s) + 1.0
    ensures y >= s + 2.0 * Err(1.0, PRECISION)
  {
    var gap := 2.0 * Err(1.0, PRECISION);
    ShiftAdd(1.0, 1 - PRECISION, PRECISION - 1);
    ShiftScale(gap, 1.0, PRECISION - 1);
    assert Times(gap, 1.0) == gap;
    assert Shift(gap, PRECISION - 1) == 1.0;
    ErrMonotone(1.0, 1.0, PRECISION);
    Scale(nt as real, Shift(1.0, PRECISION - 1), gap);
    Commute(gap, nt as real);
    TimesAdd(nt as real, s, gap);
    CancelTimes(s + gap, y, nt as real);
  }

  /** Rounding a quotient keeps its order against a tolerance with few digits. */
  lemma RoundedOrder(nt: nat, y: real, s: real)
    requires 0 < nt && nt as real <= Shift(1.0, PRECISION - 1)
    requires 0.0 <= y && 0.0 <= s < 1.0 && Round(s, PRECISION) == s
    requires Times(nt as real, y) > Times(nt as real, s) ==> Times(nt as real, y) >= Times(nt as real, s) + 1.0
    ensures Round(y, PRECISION) <= s <==> Times(nt as real, y) <= Times(nt as real, s)
  {
    if Times(nt as real, y) <= Times(nt as real, s) {
      CancelTimes(y, s, nt as real);
      RoundMonotone(y, s, PRECISION);
    } else {
      Gap(nt, y, s);
      ErrMonotone(1.0, 1.0, PRECISION);
      if y <= 1.0 {
        RoundError(y, PRECISION);
        ErrMonotone(y, 1.0, PRECISION);
        ShiftGrows(1.0, 1 - PRECISION, -1);
        ShiftMonotone(0.0, 1.0, 1 - PRECISION);
        ShiftZero(1 - PRECISION);
      } else {
        SmallFits();
        RoundMonotone(1.0, y, PRECISION);
      }
    }
  }

  /** For an expected price of n units, an executed price of m units and a
      tolerance of k / 10^b, with n * 10^b at most 10^19, the check passes exactly
      when the distance is within the tolerance as rationals. */
  lemma CheckDecidesExactly(n: nat, m: nat, k: nat, b: int, t: nat)
    requires 0 <= b && 0 < n && m as real < Shift(1.0, PRECISION)
    requires t as real == Shift(1.0, b) && k < t
    requires (n * t) as real <= Shift(1.0, PRECISION - 1)
    ensures PassesSlippage(Fixed9(n), Fixed9(m), Shift(k as real, -b))
       <==> (if n < m then m - n else n - m) * t <= k * n
  {
    var d: nat := if n < m then m - n else n - m;
    ToleranceTimes(k, b, t, Shift(k as real, -b));
    Factors(n, t);
    OneFits(n);
    OneFits(t);
    RoundExact(Shift(k as real, -b), k, -b, PRECISION);
    DistanceExact(n, m);
    QuotientDecides(n, d, k, b, t, n * t);
  }

  lemma QuotientDecides(n: nat, d: nat, k: nat, b: int, t: nat, nt: nat)
    requires 0 <= b && 0 < n && nt == n * t && 0 < nt
    requires t as real == Shift(1.0, b) && k < t
    requires nt as real <= Shift(1.0, PRECISION - 1)
    requires Round(Shift(k as real, -b), PRECISION) == Shift(k as real, -b)
    ensures Round(Ratio(Fixed9(d), Fixed9(n)), PRECISION) <= Shift(k as real, -b) <==> d * t <= k * n
  {
    var s, y := Shift(k as real, -b), Ratio(Fixed9(d), Fixed9(n));
    ToleranceTimes(k, b, t, s);
    QuotientTimes(n, t, d, y);
    ToleranceProduct(n, k, t, s);
    QuotientOrder(nt, y, s, d * t, k * n);
  }

  lemma ToleranceProduct(n: nat, k: nat, t: nat, s: real)
    requires Times(t as real, s) == k as real
    ensures Times((n * t) as real, s) == (k * n) as real
  {
    TimesSwap(n, t, s);
    IntTimes(k, n);
  }

  lemma QuotientOrder(nt: nat, y: real, s: real, p: int, q: int)
    requires 0 < nt && nt as real <= Shift(1.0, PRECISION - 1)
    requires 0.0 <= y && 0.0 <= s < 1.0 && Round(s, PRECISION) == s
    requires Times(nt as real, y) == p as real && Times(nt as real, s) == q as real
    ensures Round(y, PRECISION) <= s <==> p <= q
  {
    RoundedOrder(nt, y, s);
  }

  lemma ToleranceTimes(k: nat, b: int, t: nat, s: real)
    requires b >= 0
    requires s == Shift(k as real, -b) && t as real == Shift(1.0, b) && k < t
    ensures Times(t as real, s) == k as real
    ensures 0.0 <= s < 1.0
    ensures t > 0
  {
    ShiftAdd(k as real, -b, b);
    ShiftScale(s, 1.0, b);
    assert Times(s, 1.0) == s;
    Commute(s, t as real);
    ShiftMonotone(0.0, 1.0, b);
    ShiftZero(b);
    ShiftZero(-b);
    ShiftMonotone(0.0, k as real, -b);
    if s >= 1.0 { Scale(1.0, s, t as real); }
  }

  lemma Factors(n: nat, t: nat)
    requires 0 < n && 0 < t
    ensures n <= n * t && t <= n * t && 0 < n * t
  {
  }

  lemma IntTimes(a: int, b: int)
    ensures Times(a as real, b as real) == (a * b) as real
  {
  }

  lemma TimesSwap(n: nat, t: nat, s: real)
    ensures Times((n * t) as real, s) == Times(Times(t as real, s), n as real)
  {
    IntTimes(n, t);
    TimesAssoc(n as real, t as real, s);
    Commute(n as real, Times(t as real, s));
  }

  lemma TimesAssoc(a: real, b: real, c: real)
    ensures Times(Times(a, b), c) == Times(a, Times(b, c))
  {
  }

  lemma QuotientTimes(n: nat, t: nat, d: nat, y: real)
    requires 0 < n && y == Ratio(Fixed9(d), Fixed9(n))
    ensures Times((n * t) as real, y) == (d * t) as real
    ensures y >= 0.0
  {
    RatioTimes(Fixed9(d), Fixed9(n));
    assert Times(n as real, y) == d as real by {
      assert n as real == Times(1000000000.0, Fixed9(n));
      TimesAssoc(1000000000.0, Fixed9(n), y);
    }
    IntTimes(t, n);
    Commute(t as real, n as real);
    TimesAssoc(t as real, n as real, y);
    IntTimes(t, d);
  }

  lemma ExactDigits(c: nat, k: int)
    requires c <= 999
    ensures Round(Shift(c as real, k), PRECISION) == Shift(c as real, k)
  {
    TwelveDigits(c);
    RoundExact(Shift(c as real, k), c, k, PRECISION);
  }

  lemma ExampleVariance()
    ensures Variance(0.3, 0.9) == 0.73
  {
    assert Times(0.9, 0.3) == 0.27;
    assert Shift(27.0, -2) == 0.27 && Shift(73.0, -2) == 0.73;
    ExactDigits(27, -2);
    ExactDigits(73, -2);
  }

  /** The swap can fail its own check: 3 * 10^-9 at 30% tolerance with draw 0.9. */
  lemma SwapCanFail()
    ensures ValidSwap(3, 0.3, 0.9)
    ensures ExecutedUnits(Fixed9(3), 0.3, 0.9) == 2
    ensures !PassesSlippage(Fixed9(3), Fixed9(2), 0.3)
  {
    TwelveDigits(3);
    ExampleVariance();
    assert Times(Fixed9(3), 0.73) == 0.00000000219;
    assert Shift(219.0, -2) == 2.19;
    ShiftAdd(219.0, -2, -9);
    MinusNine(2.19);
    ExactDigits(219, -11);
    assert Units9(0.00000000219) == 2;
    OneFits(2) by {
      ShiftGrows(1.0, 1, PRECISION - 1);
      assert Shift(1.0, 1) == 10.0;
    }
    ShiftGrows(1.0, 2, PRECISION - 1);
    assert Shift(1.0, 2) == 100.0 && Shift(1.0, 1) == 10.0 && Shift(3.0, -1) == 0.3;
    CheckDecidesExactly(3, 2, 3, 1, 10);
  }
}

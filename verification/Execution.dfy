/** The pipeline with the mock router: what routing and slippage arithmetic mean for
    the rows and attempts of the engine. */
module Execution {
  import opened Decimals
  import opened DexRouter
  import opened Options
  import opened Orders
  import opened Pipeline
  import opened Engine
  import opened Provenance
  import opened ShortDraws
  import opened WorstSwap

  /** In every reachable state a CONFIRMED row names the venue the router picks for the
      stored quotes, and its executed price is within the order's tolerance of that
      venue's own stored quote. */
  lemma ConfirmedWithinTolerance(c: Config, ms: seq<Move>, id: nat) returns (price: int)
    requires c.maxRetries >= 1 && c.router == MockRouter() && Runs(Init(), c, ms)
    requires id < |After(Init(), c, ms).orders|
    requires var o := After(Init(), c, ms).orders[id]; o.row.Some? && o.row.value.status == CONFIRMED
    ensures var o := After(Init(), c, ms).orders[id];
            var row := o.row.value;
            && row.raydiumQuote.Some? && row.meteoraQuote.Some?
            && var dex := SelectBestDex(Quote(Fixed9(row.raydiumQuote.value), 0.003),
                                    Quote(Fixed9(row.meteoraQuote.value), 0.002));
            && row.dexUsed == Some(dex)
            && var quote := if dex == Raydium then row.raydiumQuote.value else row.meteoraQuote.value;
            && quote > 0 && PassesSlippage(Fixed9(quote), Fixed9(price), o.request.slippage)
  {
    price := ConfirmedRow(c, ms, id);
  }

  /** And that price is what the draw of the order's last swap leaves of the fetched quote:
      the quote less the drawn part of the tolerance, up to half a unit of 10^-9 and 1.2
      relative errors, for every quote the arithmetic can hold. */
  lemma ConfirmedAtDrawnPrice(c: Config, ms: seq<Move>, id: nat)
    returns (raydium: int, meteora: int, txHash: nat, draw: real, price: int)
    requires c.maxRetries >= 1 && c.router == MockRouter() && Runs(Init(), c, ms)
    requires id < |After(Init(), c, ms).orders|
    requires var o := After(Init(), c, ms).orders[id];
             && o.row.Some? && o.row.value.status == CONFIRMED && 0.0 <= o.request.slippage < 1.0
    ensures LastQuotes(ms, id) == Some(Quotes(raydium, meteora)) && LastSwap(ms, id) == Some(Swapped(txHash, draw))
    ensures var o := After(Init(), c, ms).orders[id];
            var dex := SelectBestDex(Quote(Fixed9(raydium), 0.003), Quote(Fixed9(meteora), 0.002));
            var quote := if dex.Raydium? then raydium else meteora;
            var exact := Fixed9(quote) - Times(Fixed9(quote), Times(draw, o.request.slippage));
            var error := 1.2 * Err(Fixed9(quote), PRECISION) + 0.0000000005;
            && o.row.value.raydiumQuote == Some(raydium) && o.row.value.meteoraQuote == Some(meteora)
            && o.row.value.dexUsed == Some(dex) && o.row.value.txHash == Some(txHash)
            && (quote as real < Shift(1.0, PRECISION) ==> exact - error <= Fixed9(price) <= exact + error)
            && o.row.value.logs != []
            && o.row.value.logs[|o.row.value.logs| - 1]
               == LogEntry(CONFIRMED, None, Some(txHash), Some(price), None, None, None)
  {
    raydium, meteora, txHash, draw, price := ConfirmedFromReplies(c, ms, id);
    var dex := SelectBestDex(Quote(Fixed9(raydium), 0.003), Quote(Fixed9(meteora), 0.002));
    var quote := if dex.Raydium? then raydium else meteora;
    if quote as real < Shift(1.0, PRECISION) {
      ExecutedNear(quote, After(Init(), c, ms).orders[id].request.slippage, draw);
    }
  }

  /** The attempt is waiting for a swap at a price the arithmetic can hold. */
  ghost predicate AwaitsSwapAt(o: Order, c: Config, routing: Routing)
  {
    && c.router == MockRouter()
    && o.row.Some? && o.job.Some? && o.job.value.phase == Active(Swap(routing))
    && ExpectedPrice(routing) > 0 && ExpectedPrice(routing) as real < Shift(1.0, PRECISION)
    && 0.0 <= o.request.slippage < 1.0
  }

  /** The reply of a swap sends the attempt on to SUBMITTED. */
  ghost predicate GoesOn(o: Order, c: Config, txHash: nat, draw: real)
    requires Enabled(o, Await(Swapped(txHash, draw)))
  {
    var phase := AwaitStep(o, c, Swapped(txHash, draw)).job.value.phase;
    phase.Active? && phase.pc.WriteSubmitted?
  }

  /** Outside the narrow band next to the tolerance a swap is submitted, at no more
      than the venue's quote: only inside it can an attempt fail on slippage. */
  lemma SwapGoesOnOutsideBand(o: Order, c: Config, routing: Routing, txHash: nat, draw: real)
    requires AwaitsSwapAt(o, c, routing) && 0.0 <= draw < 1.0
    requires var e, s := Fixed9(ExpectedPrice(routing)), o.request.slippage;
             s == 0.0 || Times(e, s) - Times(e, Times(draw, s)) >= 0.0000000005 + 1.3 * Err(e, PRECISION)
    ensures Enabled(o, Await(Swapped(txHash, draw))) && GoesOn(o, c, txHash, draw)
    ensures AwaitStep(o, c, Swapped(txHash, draw)).job.value.phase.pc.price <= ExpectedPrice(routing)
  {
    SwapPassesOutsideBand(ExpectedPrice(routing), o.request.slippage, draw);
    ExecutedAtMostExpected(ExpectedPrice(routing), o.request.slippage, draw, draw);
  }

  ghost predicate NeverFailsOnSlippage(o: Order, c: Config, routing: Routing)
    requires AwaitsSwapAt(o, c, routing)
  {
    forall txHash, draw | 0.0 <= draw < 1.0 ::
      Enabled(o, Await(Swapped(txHash, draw))) && GoesOn(o, c, txHash, draw)
  }

  lemma GoesOnIff(o: Order, c: Config, routing: Routing, txHash: nat, draw: real)
    requires AwaitsSwapAt(o, c, routing) && 0.0 <= draw < 1.0
    ensures Enabled(o, Await(Swapped(txHash, draw)))
    ensures GoesOn(o, c, txHash, draw) <==> PassesFor(ExpectedPrice(routing), o.request.slippage, draw)
  {
  }

  lemma NeverFailsIffAlwaysPasses(o: Order, c: Config, routing: Routing)
    requires AwaitsSwapAt(o, c, routing)
    ensures NeverFailsOnSlippage(o, c, routing) <==> AlwaysPasses(ExpectedPrice(routing), o.request.slippage)
  {
    var n: nat, s := ExpectedPrice(routing), o.request.slippage;
    forall txHash: nat, draw | 0.0 <= draw < 1.0
      ensures Enabled(o, Await(Swapped(txHash, draw)))
      ensures GoesOn(o, c, txHash, draw) <==> PassesFor(n, s, draw)
    {
      GoesOnIff(o, c, routing, txHash, draw);
    }
    if !AlwaysPasses(n, s) {
      var draw :| 0.0 <= draw < 1.0 && !PassesFor(n, s, draw);
      assert !GoesOn(o, c, 0, draw);
    }
  }

  /** No draw makes the attempt fail on slippage exactly when the lowest price a swap can
      execute at is within the order's tolerance of the quote. */
  lemma NeverFailsOnSlippageIff(o: Order, c: Config, routing: Routing)
    requires AwaitsSwapAt(o, c, routing)
    ensures var n, s := ExpectedPrice(routing), o.request.slippage;
            NeverFailsOnSlippage(o, c, routing) <==> PassesSlippage(Fixed9(n), Fixed9(WorstUnits(n, s)), s)
  {
    NeverFailsIffAlwaysPasses(o, c, routing);
    AlwaysPassesIff(ExpectedPrice(routing), o.request.slippage);
  }

  /** For a quote of n * 10^-9 and a tolerance of k / t, t a power of ten, that is so exactly
      when the part of k * n / t after the point is at most one half. */
  lemma NeverFailsOnSlippageInTerms(o: Order, c: Config, routing: Routing, k: nat, b: int, t: nat)
    requires AwaitsSwapAt(o, c, routing)
    requires SmallTerms(ExpectedPrice(routing), k, b, t) && o.request.slippage == Shift(k as real, -b)
    ensures NeverFailsOnSlippage(o, c, routing) <==> 2 * ((k * ExpectedPrice(routing)) % t) <= t
  {
    NeverFailsIffAlwaysPasses(o, c, routing);
    AlwaysPassesInTerms(ExpectedPrice(routing), k, b, t);
  }

  ghost predicate NeverFailsOnShortDraws(o: Order, c: Config, routing: Routing)
    requires AwaitsSwapAt(o, c, routing)
  {
    forall txHash, j: nat | j < 1_000_000_000_000_000 ::
      Enabled(o, Await(Swapped(txHash, ShortDraw(j)))) && GoesOn(o, c, txHash, ShortDraw(j))
  }

  lemma NeverFailsIffAlwaysPassesShort(o: Order, c: Config, routing: Routing)
    requires AwaitsSwapAt(o, c, routing)
    ensures NeverFailsOnShortDraws(o, c, routing)
       <==> AlwaysPassesShort(ExpectedPrice(routing), o.request.slippage)
  {
    var n: nat, s := ExpectedPrice(routing), o.request.slippage;
    forall txHash: nat, j: nat | j < 1_000_000_000_000_000
      ensures Enabled(o, Await(Swapped(txHash, ShortDraw(j))))
      ensures GoesOn(o, c, txHash, ShortDraw(j)) <==> PassesFor(n, s, ShortDraw(j))
    {
      DrawInRange(j);
      GoesOnIff(o, c, routing, txHash, ShortDraw(j));
    }
    if !AlwaysPassesShort(n, s) {
      var j: nat :| j < 1_000_000_000_000_000 && !PassesFor(n, s, ShortDraw(j));
      assert !GoesOn(o, c, 0, ShortDraw(j));
    }
  }

  /** No draw of at most fifteen decimals makes the attempt fail on slippage exactly when the
      largest does not ... */
  lemma NeverFailsOnShortDrawsIff(o: Order, c: Config, routing: Routing)
    requires AwaitsSwapAt(o, c, routing)
    ensures NeverFailsOnShortDraws(o, c, routing)
       <==> PassesFor(ExpectedPrice(routing), o.request.slippage, ShortDraw(999_999_999_999_999))
  {
    NeverFailsIffAlwaysPassesShort(o, c, routing);
    AlwaysPassesShortIff(ExpectedPrice(routing), o.request.slippage);
  }

  /** ... which for ordinary prices and tolerances is the same condition as for all draws. */
  lemma NeverFailsOnShortDrawsInTerms(o: Order, c: Config, routing: Routing, k: nat, b: int, t: nat)
    requires AwaitsSwapAt(o, c, routing)
    requires Ordinary(ExpectedPrice(routing), k, b, t) && o.request.slippage == Shift(k as real, -b)
    ensures NeverFailsOnShortDraws(o, c, routing) <==> 2 * ((k * ExpectedPrice(routing)) % t) <= t
  {
    NeverFailsIffAlwaysPassesShort(o, c, routing);
    AlwaysPassesShortInTerms(ExpectedPrice(routing), k, b, t);
  }
}

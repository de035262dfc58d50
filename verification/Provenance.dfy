/** Where the contents of a row come from: the replies of the run that wrote it. */
module Provenance {
  import opened DexRouter
  import opened Options
  import opened Orders
  import opened Pipeline
  import opened LogShape
  import opened OrderLife
  import opened Engine

  // ---- The replies an order got ----

  predicate IsReply(m: Move, id: nat) { m.On? && m.id == id && m.event.Await? }

  /** The last reply to an await of the order. */
  function LastReply(ms: seq<Move>, id: nat): Option<Reply>
  {
    if ms == [] then None
    else if IsReply(ms[|ms| - 1], id) then Some(ms[|ms| - 1].event.reply)
    else LastReply(ms[..|ms| - 1], id)
  }

  /** The last quotes it was given. */
  function LastQuotes(ms: seq<Move>, id: nat): Option<Reply>
  {
    if ms == [] then None
    else if IsReply(ms[|ms| - 1], id) && ms[|ms| - 1].event.reply.Quotes? then Some(ms[|ms| - 1].event.reply)
    else LastQuotes(ms[..|ms| - 1], id)
  }

  /** The last swap that came back to it. */
  function LastSwap(ms: seq<Move>, id: nat): Option<Reply>
  {
    if ms == [] then None
    else if IsReply(ms[|ms| - 1], id) && ms[|ms| - 1].event.reply.Swapped? then Some(ms[|ms| - 1].event.reply)
    else LastSwap(ms[..|ms| - 1], id)
  }

  lemma LastOnes(ms: seq<Move>, m: Move, id: nat)
    ensures LastReply(ms + [m], id) == if IsReply(m, id) then Some(m.event.reply) else LastReply(ms, id)
    ensures LastQuotes(ms + [m], id)
         == if IsReply(m, id) && m.event.reply.Quotes? then Some(m.event.reply) else LastQuotes(ms, id)
    ensures LastSwap(ms + [m], id)
         == if IsReply(m, id) && m.event.reply.Swapped? then Some(m.event.reply) else LastSwap(ms, id)
  {
    assert (ms + [m])[..|ms|] == ms;
  }

  // ---- What an attempt carries along ----

  /** The quotes as they were fetched, and the venue the router picks for them. */
  ghost predicate QuotedAs(c: Config, ms: seq<Move>, id: nat, routing: Routing)
  {
    && LastQuotes(ms, id) == Some(Quotes(routing.raydium, routing.meteora))
    && routing.raydium > 0 && routing.meteora > 0
    && routing.selected == c.router.choose(routing.raydium, routing.meteora)
  }

  /** The price a draw makes of the chosen venue's quote. */
  function PriceFor(c: Config, request: Request, routing: Routing, draw: real): int
  {
    c.router.execute(if routing.selected.Raydium? then routing.raydium else routing.meteora, request.slippage, draw)
  }

  ghost predicate SwappedAs(c: Config, request: Request, ms: seq<Move>, id: nat,
                            routing: Routing, txHash: nat, price: int)
  {
    exists draw ::
      && LastSwap(ms, id) == Some(Swapped(txHash, draw)) && 0.0 <= draw < 1.0
      && price == PriceFor(c, request, routing, draw)
  }

  /** The price the draw makes of the fetched quotes does not pass the slippage check. */
  ghost predicate FailsCheck(c: Config, request: Request, ms: seq<Move>, id: nat, routing: Routing, draw: real)
  {
    QuotedAs(c, ms, id, routing) && !SwapPassed(c, request, routing, PriceFor(c, request, routing, draw))
  }

  /** Why an attempt failed: the last call threw, or the last swap came back at a price that
      does not pass. */
  ghost predicate CausedBy(c: Config, request: Request, ms: seq<Move>, id: nat, reason: string)
  {
    match LastReply(ms, id)
    case Some(Threw(message, _)) => reason == message
    case Some(Swapped(_, draw)) =>
      reason == "Slippage exceeded" && exists routing :: FailsCheck(c, request, ms, id, routing, draw)
    case _ => false
  }

  ghost predicate PcFrom(c: Config, request: Request, ms: seq<Move>, id: nat, pc: Pc)
  {
    match pc
    case WriteQuotes(raydium, meteora) =>
      LastQuotes(ms, id) == Some(Quotes(raydium, meteora)) && raydium > 0 && meteora > 0
    case WriteBuilding(routing) => QuotedAs(c, ms, id, routing)
    case Swap(routing) => QuotedAs(c, ms, id, routing)
    case WriteSubmitted(routing, tx, price) =>
      QuotedAs(c, ms, id, routing) && SwappedAs(c, request, ms, id, routing, tx, price)
    case WriteConfirmed(routing, tx, price) =>
      QuotedAs(c, ms, id, routing) && SwappedAs(c, request, ms, id, routing, tx, price)
    case WriteFailed(reason) => CausedBy(c, request, ms, id, reason)
    case _ => true
  }

  predicate RowRouted(row: Row, routing: Routing)
  {
    && row.raydiumQuote == Some(routing.raydium) && row.meteoraQuote == Some(routing.meteora)
    && row.dexUsed == Some(routing.selected)
  }

  /** The row while the attempt is suspended at pc: routed once that is written, and not
      CONFIRMED from the attempt's first write to its last. */
  ghost predicate PcRow(row: Row, pc: Pc)
  {
    match pc
    case FetchQuotes => row.status != CONFIRMED
    case WriteQuotes(_, _) => row.status != CONFIRMED
    case WriteBuilding(routing) => row.status != CONFIRMED && RowRouted(row, routing)
    case Swap(routing) => row.status != CONFIRMED && RowRouted(row, routing)
    case WriteSubmitted(routing, _, _) => row.status != CONFIRMED && RowRouted(row, routing)
    case WriteConfirmed(routing, _, _) => row.status != CONFIRMED && RowRouted(row, routing)
    case _ => true
  }

  // ---- What a row holds ----

  /** The routing columns are empty, or the reply of one fetch and the venue picked for it. */
  ghost predicate RoutingFrom(c: Config, ms: seq<Move>, id: nat, row: Row)
  {
    || (row.raydiumQuote.None? && row.meteoraQuote.None? && row.dexUsed.None?)
    || (row.raydiumQuote.Some? && row.meteoraQuote.Some?
        && row.dexUsed == Some(c.router.choose(row.raydiumQuote.value, row.meteoraQuote.value))
        && On(id, Await(Quotes(row.raydiumQuote.value, row.meteoraQuote.value))) in ms)
  }

  /** A CONFIRMED row is what the last quotes and the last swap make of it. */
  ghost predicate ConfirmedFrom(c: Config, request: Request, ms: seq<Move>, id: nat, row: Row, price: int)
  {
    && row.raydiumQuote.Some? && row.meteoraQuote.Some? && row.dexUsed.Some? && row.txHash.Some? && row.logs != []
    && var routing := Routing(row.raydiumQuote.value, row.meteoraQuote.value, row.dexUsed.value);
    && QuotedAs(c, ms, id, routing)
    && SwappedAs(c, request, ms, id, routing, row.txHash.value, price)
    && row.logs[|row.logs| - 1].executedPrice == Some(price)
    && row.amountOut == Some(AmountOut(request, price))
  }

  /** Some beginning of the run ends in what the row says went wrong. */
  ghost predicate FailedFrom(c: Config, request: Request, ms: seq<Move>, id: nat, reason: string)
  {
    exists n :: 0 <= n <= |ms| && CausedBy(c, request, ms[..n], id, reason)
  }

  ghost predicate RowFrom(c: Config, request: Request, ms: seq<Move>, id: nat, row: Row)
  {
    && RoutingFrom(c, ms, id, row)
    && (row.status == CONFIRMED ==> exists price :: ConfirmedFrom(c, request, ms, id, row, price))
    && (row.failureReason.Some? ==> FailedFrom(c, request, ms, id, row.failureReason.value))
  }

  ghost predicate From(c: Config, ms: seq<Move>, id: nat, o: Order)
  {
    && (PcOf(o).Some? ==> PcFrom(c, o.request, ms, id, PcOf(o).value))
    && (o.row.Some? && PcOf(o).Some? ==> PcRow(o.row.value, PcOf(o).value))
    && (o.row.Some? ==> RowFrom(c, o.request, ms, id, o.row.value))
  }

  // ---- Every step keeps it ----

  lemma RoutingStays(c: Config, ms: seq<Move>, m: Move, id: nat, row: Row, row': Row)
    requires RoutingFrom(c, ms, id, row)
    requires row'.raydiumQuote == row.raydiumQuote && row'.meteoraQuote == row.meteoraQuote
    requires row'.dexUsed == row.dexUsed
    ensures RoutingFrom(c, ms + [m], id, row')
  {
  }

  lemma FailedStays(c: Config, request: Request, ms: seq<Move>, m: Move, id: nat, reason: string)
    requires FailedFrom(c, request, ms, id, reason)
    ensures FailedFrom(c, request, ms + [m], id, reason)
  {
    var n :| 0 <= n <= |ms| && CausedBy(c, request, ms[..n], id, reason);
    assert (ms + [m])[..n] == ms[..n];
  }

  lemma FailsNow(c: Config, request: Request, ms: seq<Move>, m: Move, id: nat, reason: string)
    requires CausedBy(c, request, ms, id, reason)
    ensures FailedFrom(c, request, ms + [m], id, reason)
  {
    assert (ms + [m])[..|ms|] == ms;
  }

  /** A move that brings the order neither quotes nor a swap leaves what those were. */
  lemma RowStays(c: Config, request: Request, ms: seq<Move>, m: Move, id: nat, row: Row)
    requires RowFrom(c, request, ms, id, row)
    requires row.status == CONFIRMED && IsReply(m, id) ==> !m.event.reply.Quotes? && !m.event.reply.Swapped?
    ensures RowFrom(c, request, ms + [m], id, row)
  {
    LastOnes(ms, m, id);
    RoutingStays(c, ms, m, id, row, row);
    if row.status == CONFIRMED {
      var price :| ConfirmedFrom(c, request, ms, id, row, price);
      assert ConfirmedFrom(c, request, ms + [m], id, row, price);
    }
    if row.failureReason.Some? { FailedStays(c, request, ms, m, id, row.failureReason.value); }
  }

  lemma CauseStays(c: Config, request: Request, ms: seq<Move>, ms': seq<Move>, id: nat, reason: string)
    requires CausedBy(c, request, ms, id, reason)
    requires LastReply(ms', id) == LastReply(ms, id) && LastQuotes(ms', id) == LastQuotes(ms, id)
    ensures CausedBy(c, request, ms', id, reason)
  {
    if LastReply(ms, id).value.Swapped? {
      var draw := LastReply(ms, id).value.draw;
      var routing :| FailsCheck(c, request, ms, id, routing, draw);
      assert FailsCheck(c, request, ms', id, routing, draw);
    }
  }

  /** A move of another order, or one that is no reply. */
  lemma NoReplyKeeps(c: Config, ms: seq<Move>, m: Move, id: nat, o: Order)
    requires From(c, ms, id, o) && !IsReply(m, id)
    ensures From(c, ms + [m], id, o)
  {
    LastOnes(ms, m, id);
    if o.row.Some? { RowStays(c, o.request, ms, m, id, o.row.value); }
    match PcOf(o)
    case Some(WriteFailed(reason)) => CauseStays(c, o.request, ms, ms + [m], id, reason);
    case _ =>
  }

  lemma QuietKeeps(c: Config, ms: seq<Move>, id: nat, o: Order, e: Event)
    requires From(c, ms, id, o) && Enabled(o, e) && !e.Await?
    ensures From(c, ms + [On(id, e)], id, OrderStep(o, c, e))
  {
    NoReplyKeeps(c, ms, On(id, e), id, o);
  }

  /** The write that an await makes, if it takes effect. */
  lemma WriteKeeps(c: Config, ms: seq<Move>, id: nat, o: Order, r: Reply)
    requires From(c, ms, id, o) && Enabled(o, Await(r))
    ensures AwaitStep(o, c, r).row.Some?
    ensures RowFrom(c, o.request, ms + [On(id, Await(r))], id, AwaitStep(o, c, r).row.value)
  {
    var m, pc, row, row' := On(id, Await(r)), o.job.value.phase.pc, o.row.value, AwaitStep(o, c, r).row.value;
    if row' == row {
      RowStays(c, o.request, ms, m, id, row);
    } else if pc.WriteQuotes? {
      QuotesWritten(c, ms, id, o, r);
    } else if pc.WriteConfirmed? {
      ConfirmationWritten(c, ms, id, o, r);
    } else if pc.WriteFailed? {
      FailureWritten(c, ms, id, o, r);
    } else {
      StatusOnly(o, c, r);
      StatusWritten(c, o.request, ms, m, id, row, row');
    }
  }

  /** The other writes set the status and a log entry, and no column else. */
  lemma StatusOnly(o: Order, c: Config, r: Reply)
    requires Enabled(o, Await(r)) && AwaitStep(o, c, r).row != o.row
    requires var pc := o.job.value.phase.pc; !pc.WriteQuotes? && !pc.WriteConfirmed? && !pc.WriteFailed?
    ensures AwaitStep(o, c, r).row.Some?
    ensures var row, row' := o.row.value, AwaitStep(o, c, r).row.value;
            && row'.raydiumQuote == row.raydiumQuote && row'.meteoraQuote == row.meteoraQuote
            && row'.dexUsed == row.dexUsed && row'.failureReason == row.failureReason && row'.status != CONFIRMED
  {
  }

  lemma StatusWritten(c: Config, request: Request, ms: seq<Move>, m: Move, id: nat, row: Row, row': Row)
    requires RowFrom(c, request, ms, id, row) && row'.status != CONFIRMED && row'.failureReason == row.failureReason
    requires row'.raydiumQuote == row.raydiumQuote && row'.meteoraQuote == row.meteoraQuote
    requires row'.dexUsed == row.dexUsed
    ensures RowFrom(c, request, ms + [m], id, row')
  {
    RoutingStays(c, ms, m, id, row, row');
    if row'.failureReason.Some? { FailedStays(c, request, ms, m, id, row'.failureReason.value); }
  }

  lemma QuotesWritten(c: Config, ms: seq<Move>, id: nat, o: Order, r: Reply)
    requires From(c, ms, id, o) && Enabled(o, Await(r)) && Applied(r) && o.job.value.phase.pc.WriteQuotes?
    ensures AwaitStep(o, c, r).row.Some?
    ensures RowFrom(c, o.request, ms + [On(id, Await(r))], id, AwaitStep(o, c, r).row.value)
  {
    var pc, row' := o.job.value.phase.pc, AwaitStep(o, c, r).row.value;
    LastIsIn(ms, id, pc.raydium, pc.meteora);
    if row'.failureReason.Some? { FailedStays(c, o.request, ms, On(id, Await(r)), id, row'.failureReason.value); }
  }

  lemma {:induction false} LastIsIn(ms: seq<Move>, id: nat, raydium: int, meteora: int)
    requires LastQuotes(ms, id) == Some(Quotes(raydium, meteora))
    ensures On(id, Await(Quotes(raydium, meteora))) in ms
  {
    if !(IsReply(ms[|ms| - 1], id) && ms[|ms| - 1].event.reply.Quotes?) {
      LastIsIn(ms[..|ms| - 1], id, raydium, meteora);
    }
  }

  lemma ConfirmationWritten(c: Config, ms: seq<Move>, id: nat, o: Order, r: Reply)
    requires From(c, ms, id, o) && Enabled(o, Await(r)) && Applied(r) && o.job.value.phase.pc.WriteConfirmed?
    ensures AwaitStep(o, c, r).row.Some?
    ensures RowFrom(c, o.request, ms + [On(id, Await(r))], id, AwaitStep(o, c, r).row.value)
  {
    var m, pc, row' := On(id, Await(r)), o.job.value.phase.pc, AwaitStep(o, c, r).row.value;
    LastOnes(ms, m, id);
    RoutingStays(c, ms, m, id, o.row.value, row');
    assert pc.routing == Routing(pc.routing.raydium, pc.routing.meteora, pc.routing.selected);
    assert ConfirmedFrom(c, o.request, ms + [m], id, row', pc.price);
    if row'.failureReason.Some? { FailedStays(c, o.request, ms, m, id, row'.failureReason.value); }
  }

  lemma FailureWritten(c: Config, ms: seq<Move>, id: nat, o: Order, r: Reply)
    requires From(c, ms, id, o) && Enabled(o, Await(r)) && Applied(r) && o.job.value.phase.pc.WriteFailed?
    ensures AwaitStep(o, c, r).row.Some?
    ensures RowFrom(c, o.request, ms + [On(id, Await(r))], id, AwaitStep(o, c, r).row.value)
  {
    RoutingStays(c, ms, On(id, Await(r)), id, o.row.value, AwaitStep(o, c, r).row.value);
    FailsNow(c, o.request, ms, On(id, Await(r)), id, o.job.value.phase.pc.reason);
  }

  /** What the attempt carries into its next await. */
  lemma CarriesOn(c: Config, ms: seq<Move>, id: nat, o: Order, r: Reply)
    requires From(c, ms, id, o) && Enabled(o, Await(r)) && PcOf(AwaitStep(o, c, r)).Some?
    ensures PcFrom(c, o.request, ms + [On(id, Await(r))], id, PcOf(AwaitStep(o, c, r)).value)
  {
    var m, pc := On(id, Await(r)), o.job.value.phase.pc;
    LastOnes(ms, m, id);
    if pc.Swap? && r.Swapped? {
      var price := PriceFor(c, o.request, pc.routing, r.draw);
      assert SwappedAs(c, o.request, ms + [m], id, pc.routing, r.txHash, price);
      assert QuotedAs(c, ms + [m], id, pc.routing);
      if !SwapPassed(c, o.request, pc.routing, price) {
        assert FailsCheck(c, o.request, ms + [m], id, pc.routing, r.draw);
      }
    }
  }

  lemma RowGoesWith(o: Order, c: Config, r: Reply)
    requires Enabled(o, Await(r)) && PcRow(o.row.value, o.job.value.phase.pc) && PcOf(AwaitStep(o, c, r)).Some?
    ensures AwaitStep(o, c, r).row.Some?
    ensures PcRow(AwaitStep(o, c, r).row.value, PcOf(AwaitStep(o, c, r)).value)
  {
    if r.Threw? {
      ThrownReports(o, c, r);
    }
  }

  lemma ThrownReports(o: Order, c: Config, r: Reply)
    requires Enabled(o, Await(r)) && r.Threw? && PcOf(AwaitStep(o, c, r)).Some?
    ensures AwaitStep(o, c, r).row.Some? && Reporting(PcOf(AwaitStep(o, c, r)).value)
  {
  }

  lemma AwaitKeepsFrom(c: Config, ms: seq<Move>, id: nat, o: Order, r: Reply)
    requires From(c, ms, id, o) && Enabled(o, Await(r))
    ensures From(c, ms + [On(id, Await(r))], id, AwaitStep(o, c, r))
  {
    WriteKeeps(c, ms, id, o, r);
    if PcOf(AwaitStep(o, c, r)).Some? { NextFrom(c, ms, id, o, r); }
    RequestStays(o, c, r);
    Together(c, ms + [On(id, Await(r))], id, o, AwaitStep(o, c, r));
  }

  lemma RequestStays(o: Order, c: Config, r: Reply)
    requires Enabled(o, Await(r))
    ensures AwaitStep(o, c, r).request == o.request
  {
  }

  lemma NextFrom(c: Config, ms: seq<Move>, id: nat, o: Order, r: Reply)
    requires From(c, ms, id, o) && Enabled(o, Await(r)) && PcOf(AwaitStep(o, c, r)).Some?
    ensures AwaitStep(o, c, r).row.Some?
    ensures PcFrom(c, o.request, ms + [On(id, Await(r))], id, PcOf(AwaitStep(o, c, r)).value)
    ensures PcRow(AwaitStep(o, c, r).row.value, PcOf(AwaitStep(o, c, r)).value)
  {
    CarriesOn(c, ms, id, o, r);
    RowGoesWith(o, c, r);
  }

  lemma Together(c: Config, ms: seq<Move>, id: nat, o: Order, o': Order)
    requires o'.request == o.request && o'.row.Some? && RowFrom(c, o.request, ms, id, o'.row.value)
    requires PcOf(o').Some? ==>
               PcFrom(c, o.request, ms, id, PcOf(o').value) && PcRow(o'.row.value, PcOf(o').value)
    ensures From(c, ms, id, o')
  {
  }

  lemma MoveKeeps(s: State, c: Config, ms: seq<Move>, m: Move, id: nat)
    requires Inv(s, c) && CanMove(s, m) && (id < |s.orders| ==> From(c, ms, id, s.orders[id]))
    ensures id < |Step(s, c, m).orders| ==> From(c, ms + [m], id, Step(s, c, m).orders[id])
  {
    if id < |s.orders| {
      var o := s.orders[id];
      assert OrderOk(o, c);
      if IsReply(m, id) {
        AwaitKeepsFrom(c, ms, id, o, m.event.reply);
      } else if m.On? && m.id == id {
        QuietKeeps(c, ms, id, o, m.event);
      } else {
        NoReplyKeeps(c, ms, m, id, o);
      }
    }
  }

  lemma {:induction false} RunKeepsFrom(s: State, c: Config, before: seq<Move>, ms: seq<Move>, id: nat)
    requires c.maxRetries >= 1 && Inv(s, c) && Runs(s, c, ms)
    requires id < |s.orders| ==> From(c, before, id, s.orders[id])
    ensures id < |After(s, c, ms).orders| ==> From(c, before + ms, id, After(s, c, ms).orders[id])
    decreases |ms|
  {
    if ms == [] {
      assert before + ms == before;
    } else {
      MoveKeeps(s, c, before, ms[0], id);
      InvStep(s, c, ms[0]);
      RunKeepsFrom(Step(s, c, ms[0]), c, before + [ms[0]], ms[1..], id);
      assert before + [ms[0]] + ms[1..] == before + ms;
    }
  }

  lemma ReachedFrom(c: Config, ms: seq<Move>, id: nat)
    requires c.maxRetries >= 1 && Runs(Init(), c, ms) && id < |After(Init(), c, ms).orders|
    ensures From(c, ms, id, After(Init(), c, ms).orders[id])
  {
    RunKeepsFrom(Init(), c, [], ms, id);
    assert [] + ms == ms;
  }

  // ---- The results ----

  /** In every reachable state the quotes of a row are those of one reply to its order's
      fetch, each in its own column, with the venue the router picks for them; without such
      a reply there are neither quotes nor venue. */
  lemma QuotesWereFetched(c: Config, ms: seq<Move>, id: nat)
    requires c.maxRetries >= 1 && Runs(Init(), c, ms)
    requires id < |After(Init(), c, ms).orders| && After(Init(), c, ms).orders[id].row.Some?
    ensures var row := After(Init(), c, ms).orders[id].row.value;
            if row.dexUsed.None? then row.raydiumQuote.None? && row.meteoraQuote.None?
            else
              && row.raydiumQuote.Some? && row.meteoraQuote.Some?
              && On(id, Await(Quotes(row.raydiumQuote.value, row.meteoraQuote.value))) in ms
              && row.dexUsed.value == c.router.choose(row.raydiumQuote.value, row.meteoraQuote.value)
  {
    ReachedFrom(c, ms, id);
  }

  /** In every reachable state a CONFIRMED row is what the order's last quotes and its last
      swap make of it: both quotes in their columns, the venue picked for them, that swap's
      hash, and in the log and the amount the price its draw gives the chosen venue's quote,
      which passed the check. */
  lemma ConfirmedFromReplies(c: Config, ms: seq<Move>, id: nat)
    returns (raydium: int, meteora: int, txHash: nat, draw: real, price: int)
    requires c.maxRetries >= 1 && Runs(Init(), c, ms) && id < |After(Init(), c, ms).orders|
    requires var o := After(Init(), c, ms).orders[id]; o.row.Some? && o.row.value.status == CONFIRMED
    ensures LastQuotes(ms, id) == Some(Quotes(raydium, meteora)) && raydium > 0 && meteora > 0
    ensures LastSwap(ms, id) == Some(Swapped(txHash, draw)) && 0.0 <= draw < 1.0
    ensures var o := After(Init(), c, ms).orders[id];
            var row, dex := o.row.value, c.router.choose(raydium, meteora);
            var quote := if dex.Raydium? then raydium else meteora;
            && row.raydiumQuote == Some(raydium) && row.meteoraQuote == Some(meteora) && row.dexUsed == Some(dex)
            && row.txHash == Some(txHash) && row.amountOut == Some(AmountOut(o.request, price))
            && price == c.router.execute(quote, o.request.slippage, draw)
            && c.router.passes(quote, price, o.request.slippage)
            && row.logs != []
            && row.logs[|row.logs| - 1] == LogEntry(CONFIRMED, None, Some(txHash), Some(price), None, None, None)
  {
    ReachedFrom(c, ms, id);
    var o := After(Init(), c, ms).orders[id];
    var row := o.row.value;
    var p :| ConfirmedFrom(c, o.request, ms, id, row, p);
    var routing := Routing(row.raydiumQuote.value, row.meteoraQuote.value, row.dexUsed.value);
    var d :| LastSwap(ms, id) == Some(Swapped(row.txHash.value, d)) && 0.0 <= d < 1.0
             && p == PriceFor(c, o.request, routing, d);
    raydium, meteora, txHash, draw, price := routing.raydium, routing.meteora, row.txHash.value, d, p;
    var q := ConfirmedRow(c, ms, id);
  }

  /** In every reachable state a FAILED row's last entry is that of the last attempt allowed,
      and its reason, the row's own, is what the attempt's last call threw, or "Slippage
      exceeded" if that call was a swap whose price does not pass against the quotes. */
  lemma FailedFromReplies(c: Config, ms: seq<Move>, id: nat) returns (reason: string, n: nat)
    requires c.maxRetries >= 1 && Runs(Init(), c, ms) && id < |After(Init(), c, ms).orders|
    requires var o := After(Init(), c, ms).orders[id]; o.row.Some? && o.row.value.status == FAILED
    ensures var o := After(Init(), c, ms).orders[id];
            var row := o.row.value;
            && row.failureReason == Some(reason) && row.logs != []
            && row.logs[|row.logs| - 1]
               == LogEntry(FAILED, None, None, None, Some(reason), Some(c.maxRetries), Some(c.maxRetries))
            && n <= |ms| && CausedBy(c, o.request, ms[..n], id, reason)
  {
    ReachedFrom(c, ms, id);
    LogLanguage(c, ms, id);
    var o := After(Init(), c, ms).orders[id];
    reason := o.row.value.failureReason.value;
    n :| 0 <= n <= |ms| && CausedBy(c, o.request, ms[..n], id, reason);
    InvReached(c, ms);
    assert OrderOk(o, c);
    FailedEntryIs(o, c);
  }

  lemma FailedEntryIs(o: Order, c: Config)
    requires OrderInv(o, c) && o.row.Some? && o.row.value.status == FAILED
    ensures o.row.value.logs != [] && IsFailure(o.row.value.logs[|o.row.value.logs| - 1], c)
    ensures o.row.value.failureReason == o.row.value.logs[|o.row.value.logs| - 1].reason
  {
    var past, cur, tail :| Shape(o, c, past, cur, tail);
    NotFailedYet(c, o.request, o.row.value, past, cur, tail);
    assert o.row.value.logs[|o.row.value.logs| - 1] == tail[0];
  }

  // ---- Where rows and jobs come from ----

  predicate TookEffect(r: Reply) { r.Done? || (r.Threw? && r.applied) }

  ghost predicate Inserted(ms: seq<Move>, id: nat)
  {
    exists r :: On(id, Insert(r)) in ms && TookEffect(r)
  }

  ghost predicate Enqueued(ms: seq<Move>, id: nat)
  {
    exists r :: On(id, Enqueue(r)) in ms && TookEffect(r)
  }

  ghost predicate SubmissionThrew(ms: seq<Move>, id: nat)
  {
    exists r: Reply :: r.Threw? && (On(id, Insert(r)) in ms || On(id, Enqueue(r)) in ms)
  }

  /** The row, the job and the answer, from what the submission's two calls did. */
  ghost predicate SubmittedFrom(ms: seq<Move>, id: nat, o: Order)
  {
    && (o.row.Some? <==> Inserted(ms, id))
    && (o.job.Some? <==> Enqueued(ms, id))
    && (o.submission.Rejected? <==> SubmissionThrew(ms, id))
    && (o.submission.Accepted? <==> On(id, Accept) in ms)
  }

  lemma InsertedGrows(ms: seq<Move>, m: Move, id: nat)
    ensures Inserted(ms + [m], id)
       <==> Inserted(ms, id) || (m.On? && m.id == id && m.event.Insert? && TookEffect(m.event.reply))
    ensures Enqueued(ms + [m], id)
       <==> Enqueued(ms, id) || (m.On? && m.id == id && m.event.Enqueue? && TookEffect(m.event.reply))
  {
    if m.On? && m.id == id && m.event.Insert? { assert m == On(id, Insert(m.event.reply)); }
    if m.On? && m.id == id && m.event.Enqueue? { assert m == On(id, Enqueue(m.event.reply)); }
  }

  lemma ThrewGrows(ms: seq<Move>, m: Move, id: nat)
    ensures SubmissionThrew(ms + [m], id)
       <==> SubmissionThrew(ms, id)
            || (m.On? && m.id == id && (m.event.Insert? || m.event.Enqueue?) && m.event.reply.Threw?)
  {
    if m.On? && m.id == id && (m.event.Insert? || m.event.Enqueue?) && m.event.reply.Threw? {
      assert On(id, Insert(m.event.reply)) in ms + [m] || On(id, Enqueue(m.event.reply)) in ms + [m];
    }
  }

  lemma SubmittedStep(c: Config, ms: seq<Move>, id: nat, o: Order, e: Event)
    requires SubmittedFrom(ms, id, o) && OrderInv(o, c) && Enabled(o, e)
    ensures SubmittedFrom(ms + [On(id, e)], id, OrderStep(o, c, e))
  {
    InsertedGrows(ms, On(id, e), id);
    ThrewGrows(ms, On(id, e), id);
    if e.Await? { AwaitLeaves(o, c, e.reply); }
  }

  lemma AwaitLeaves(o: Order, c: Config, r: Reply)
    requires Enabled(o, Await(r))
    ensures AwaitStep(o, c, r).row.Some? && AwaitStep(o, c, r).job.Some?
    ensures AwaitStep(o, c, r).submission == o.submission
  {
  }

  /** No move so far is about an order still to be submitted. */
  ghost predicate NoneAhead(ms: seq<Move>, s: State)
  {
    forall m :: m in ms && m.On? ==> m.id < |s.orders|
  }

  ghost predicate AllSubmitted(ms: seq<Move>, s: State)
  {
    NoneAhead(ms, s) && forall id :: 0 <= id < |s.orders| ==> SubmittedFrom(ms, id, s.orders[id])
  }

  lemma SubmittedMove(s: State, c: Config, ms: seq<Move>, m: Move)
    requires Inv(s, c) && CanMove(s, m) && AllSubmitted(ms, s)
    ensures AllSubmitted(ms + [m], Step(s, c, m))
  {
    var s' := Step(s, c, m);
    forall id: nat | id < |s'.orders|
      ensures SubmittedFrom(ms + [m], id, s'.orders[id])
    {
      InsertedGrows(ms, m, id);
      ThrewGrows(ms, m, id);
      if m.On? && m.id == id {
        assert OrderOk(s.orders[id], c);
        SubmittedStep(c, ms, id, s.orders[id], m.event);
      }
    }
  }

  lemma {:induction false} RunSubmits(s: State, c: Config, before: seq<Move>, ms: seq<Move>)
    requires c.maxRetries >= 1 && Inv(s, c) && Runs(s, c, ms) && AllSubmitted(before, s)
    ensures AllSubmitted(before + ms, After(s, c, ms))
    decreases |ms|
  {
    if ms == [] {
      assert before + ms == before;
    } else {
      SubmittedMove(s, c, before, ms[0]);
      InvStep(s, c, ms[0]);
      RunSubmits(Step(s, c, ms[0]), c, before + [ms[0]], ms[1..]);
      assert before + [ms[0]] + ms[1..] == before + ms;
    }
  }

  /** In every run an order has a row exactly if its insert took effect, whether or not its
      reply came back, a job exactly if its enqueue did, and its client was answered 503
      exactly if one of the two calls threw. */
  lemma SubmissionIs(c: Config, ms: seq<Move>, id: nat)
    requires c.maxRetries >= 1 && Runs(Init(), c, ms) && id < |After(Init(), c, ms).orders|
    ensures SubmittedFrom(ms, id, After(Init(), c, ms).orders[id])
  {
    RunSubmits(Init(), c, [], ms);
    assert [] + ms == ms;
  }
}

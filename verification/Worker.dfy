/** The worker's code as it is written, statement by statement: the table it updates,
    the channel it publishes on, the counters it increments, and an attempt's try and
    catch. Every attempt is shown to be a run of the step machine. */
module Worker {
  import opened DexRouter
  import opened Options
  import opened Orders
  import opened Pipeline
  import opened OrderLife

  /** The orders table. */
  class OrderTable {
    var rows: map<nat, Row>

    constructor ()
      ensures rows == map[]
    {
      rows := map[];
    }

    method CreateOrder(id: nat) returns (inserted: bool)
      modifies this
      ensures inserted <==> id !in old(rows)
      ensures rows.Keys == old(rows).Keys + {id} && SameElsewhere(old(rows), rows, id)
      ensures rows[id] == if inserted then
                            Row(PENDING, None, None, None, None, None, None,
                                [LogEntry(PENDING, None, None, None, None, None, None)])
                          else old(rows)[id]
    {
      inserted := id !in rows;
      if inserted {
        rows := rows[id := NewRow()];
      }
    }

    method UpdateOrderStatus(id: nat, status: Status, txHash: Option<nat>) returns (row: Option<Row>)
      modifies this
      ensures rows.Keys == old(rows).Keys && SameElsewhere(old(rows), rows, id)
      ensures row == if id in old(rows) then Some(rows[id]) else None
      ensures id in old(rows) ==>
                var r := old(rows)[id];
                rows[id] == Row(status, r.raydiumQuote, r.meteoraQuote, r.dexUsed,
                                r.txHash, r.amountOut, r.failureReason,
                                r.logs + [LogEntry(status, None, txHash, None, None, None, None)])
    {
      if id !in rows { return None; }
      rows := rows[id := WithStatus(rows[id], status, txHash)];
      row := Some(rows[id]);
    }

    method UpdateOrderRouting(id: nat, routing: Routing) returns (row: Option<Row>)
      modifies this
      ensures rows.Keys == old(rows).Keys && SameElsewhere(old(rows), rows, id)
      ensures row == if id in old(rows) then Some(rows[id]) else None
      ensures id in old(rows) ==>
                var r := old(rows)[id];
                rows[id] == Row(ROUTING, Some(routing.raydium), Some(routing.meteora), Some(routing.selected),
                                r.txHash, r.amountOut, r.failureReason,
                                r.logs + [LogEntry(ROUTING, Some(routing), None, None, None, None, None)])
    {
      if id !in rows { return None; }
      rows := rows[id := WithRouting(rows[id], routing)];
      row := Some(rows[id]);
    }

    method UpdateOrderConfirmed(id: nat, txHash: nat, price: int, amountOut: int) returns (row: Option<Row>)
      modifies this
      ensures rows.Keys == old(rows).Keys && SameElsewhere(old(rows), rows, id)
      ensures row == if id in old(rows) then Some(rows[id]) else None
      ensures id in old(rows) ==>
                var r := old(rows)[id];
                rows[id] == Row(CONFIRMED, r.raydiumQuote, r.meteoraQuote, r.dexUsed, Some(txHash), Some(amountOut),
                                r.failureReason,
                                r.logs + [LogEntry(CONFIRMED, None, Some(txHash), Some(price), None, None, None)])
    {
      if id !in rows { return None; }
      rows := rows[id := WithConfirmed(rows[id], txHash, price, amountOut)];
      row := Some(rows[id]);
    }

    method UpdateOrderFailed(id: nat, reason: string, attempt: nat, maxAttempts: nat) returns (row: Option<Row>)
      modifies this
      ensures rows.Keys == old(rows).Keys && SameElsewhere(old(rows), rows, id)
      ensures row == if id in old(rows) then Some(rows[id]) else None
      ensures id in old(rows) ==>
                var r := old(rows)[id];
                rows[id] == Row(FAILED, r.raydiumQuote, r.meteoraQuote, r.dexUsed, r.txHash, r.amountOut, Some(reason),
                                r.logs + [LogEntry(FAILED, None, None, None,
                                                   Some(reason), Some(attempt), Some(maxAttempts))])
    {
      if id !in rows { return None; }
      rows := rows[id := WithFailed(rows[id], reason, attempt, maxAttempts)];
      row := Some(rows[id]);
    }
  }

  datatype Metric = OrdersTotal | OrdersCompleted | OrdersFailed

  /** The order counters of the metrics service. */
  class MetricsService {
    var total: nat
    var completed: nat
    var failed: nat

    constructor ()
      ensures total == completed == failed == 0
    {
      total, completed, failed := 0, 0, 0;
    }

    method Increment(metric: Metric)
      modifies this
      ensures total == old(total) + One(metric == OrdersTotal)
      ensures completed == old(completed) + One(metric == OrdersCompleted)
      ensures failed == old(failed) + One(metric == OrdersFailed)
    {
      match metric {
        case OrdersTotal => total := total + 1;
        case OrdersCompleted => completed := completed + 1;
        case OrdersFailed => failed := failed + 1;
      }
    }
  }

  /** How a call ends: it returns, or throws with a message. */
  datatype Outcome = Returned | Raised(reason: string)

  function OutcomeOf(r: Reply): Outcome
  {
    if r.Threw? then Raised(r.reason) else Returned
  }

  /** Where the job goes when the await ends. */
  function NextJob(o: Order, c: Config, r: Reply): Job
    requires Enabled(o, Await(r))
  {
    if r.Threw? then NextThrown(o.job.value, c, r.reason) else Next(o, c, r)
  }

  /** A write that takes effect changes the row and nothing else. */
  lemma WriteStep(o: Order, c: Config, r: Reply, row: Row)
    requires Enabled(o, Await(r)) && Effect(c, o, o.job.value.phase.pc) == o.(row := Some(row))
    ensures var o' := AwaitStep(o, c, r);
            && o'.row == (if Applied(r) then Some(row) else o.row)
            && o'.published == o.published && o'.request == o.request
            && o'.job == Some(NextJob(o, c, r))
            && Uncounted(o) == None
  {
  }

  /** One reply for every await: an attempt reaches each at most once. */
  ghost predicate Script(reply: Pc -> Reply)
  {
    forall pc: Pc :: !pc.CountCompleted? && !pc.CountFailed? ==> Fits(pc, reply(pc))
  }

  predicate Running(o: Order)
  {
    o.job.Some? && o.job.value.phase.Active?
  }

  /** What a running attempt does next, when its awaits end as the script says. */
  function NextEvent(o: Order, reply: Pc -> Reply): Event
    requires Running(o)
  {
    var pc := o.job.value.phase.pc;
    if pc.CountCompleted? || pc.CountFailed? then Resume else Await(reply(pc))
  }

  lemma NextEventMoves(o: Order, c: Config, reply: Pc -> Reply)
    requires Script(reply) && o.row.Some? && Running(o)
    ensures Enabled(o, NextEvent(o, reply))
    ensures var o' := OrderStep(o, c, NextEvent(o, reply));
            && o'.row.Some? && o'.job.Some?
            && (Running(o') ==> Rank(o'.job.value.phase.pc) < Rank(o.job.value.phase.pc))
  {
    if NextEvent(o, reply).Await? {
      AwaitMoves(o, c, NextEvent(o, reply).reply);
    }
  }

  /** The order when the attempt is over: the step machine, driven by the script. */
  ghost function Drive(o: Order, c: Config, reply: Pc -> Reply): Order
    requires Script(reply) && o.row.Some?
    decreases if Running(o) then Rank(o.job.value.phase.pc) + 1 else 0
  {
    if !Running(o) then o
    else
      NextEventMoves(o, c, reply);
      Drive(OrderStep(o, c, NextEvent(o, reply)), c, reply)
  }

  /** A driven attempt is a run of the step machine, made of worker steps only, and
      leaves the job completed, delayed or exhausted. */
  lemma {:induction false} DriveIsRun(o: Order, c: Config, reply: Pc -> Reply) returns (es: seq<Event>)
    requires Script(reply) && o.row.Some? && o.job.Some?
    ensures OrderRuns(o, c, es) && OrderAfter(o, c, es) == Drive(o, c, reply)
    ensures forall e :: e in es ==> WorkerStep(e)
    ensures !Running(Drive(o, c, reply))
    decreases if Running(o) then Rank(o.job.value.phase.pc) + 1 else 0
  {
    es := [];
    if Running(o) {
      var e := NextEvent(o, reply);
      NextEventMoves(o, c, reply);
      es := DriveIsRun(OrderStep(o, c, e), c, reply);
      OneMore(o, c, e, es);
      es := [e] + es;
    }
  }

  // ---- What a completed attempt leaves ----

  predicate Completes(o: Order) { o.job.Some? && o.job.value.phase.Completed? }

  predicate CatchBlock(pc: Pc) { pc.WriteFailed? || pc.CountFailed? || pc.PublishFailed? || pc.PublishPending? }

  /** No way leads back from the catch block. */
  lemma {:induction false} NoWayBack(o: Order, c: Config, reply: Pc -> Reply)
    requires Script(reply) && o.row.Some? && Running(o) && CatchBlock(o.job.value.phase.pc)
    ensures !Completes(Drive(o, c, reply))
    decreases Rank(o.job.value.phase.pc)
  {
    var o' := OrderStep(o, c, NextEvent(o, reply));
    NextEventMoves(o, c, reply);
    if Running(o') { NoWayBack(o', c, reply); }
  }

  /** In an attempt that completes every await returns. */
  lemma Returns(o: Order, c: Config, reply: Pc -> Reply) returns (o': Order)
    requires Script(reply) && o.row.Some? && Running(o) && Completes(Drive(o, c, reply))
    ensures Enabled(o, NextEvent(o, reply)) && o' == OrderStep(o, c, NextEvent(o, reply))
    ensures o'.row.Some? && Drive(o', c, reply) == Drive(o, c, reply)
    ensures !CatchBlock(o.job.value.phase.pc) && (Running(o') ==> !CatchBlock(o'.job.value.phase.pc))
    ensures NextEvent(o, reply).Await? ==> !reply(o.job.value.phase.pc).Threw?
  {
    NextEventMoves(o, c, reply);
    o' := OrderStep(o, c, NextEvent(o, reply));
    if CatchBlock(o.job.value.phase.pc) { NoWayBack(o, c, reply); }
    if Running(o') && CatchBlock(o'.job.value.phase.pc) { NoWayBack(o', c, reply); }
  }

  /** The quotes the script has the routers return, and the venue picked for them. */
  ghost predicate RoutedBy(c: Config, reply: Pc -> Reply, routing: Routing)
  {
    && reply(FetchQuotes).Quotes?
    && routing.raydium == reply(FetchQuotes).raydium && routing.meteora == reply(FetchQuotes).meteora
    && routing.selected == c.router.choose(routing.raydium, routing.meteora)
  }

  /** The swap the script has the chosen venue return, and the price its draw gives. */
  ghost predicate SwappedBy(c: Config, request: Request, reply: Pc -> Reply, routing: Routing, txHash: nat, price: int)
  {
    var quote := if routing.selected.Raydium? then routing.raydium else routing.meteora;
    && reply(Swap(routing)).Swapped? && txHash == reply(Swap(routing)).txHash
    && price == c.router.execute(quote, request.slippage, reply(Swap(routing)).draw)
    && c.router.passes(quote, price, request.slippage)
  }

  /** The row and the publications once the routing is recorded ... */
  ghost predicate Recorded(row: Row, row': Row, routing: Routing)
  {
    row' == Row(ROUTING, Some(routing.raydium), Some(routing.meteora), Some(routing.selected),
                row.txHash, row.amountOut, row.failureReason,
                row.logs + [LogEntry(ROUTING, None, None, None, None, None, None)]
                         + [LogEntry(ROUTING, Some(routing), None, None, None, None, None)])
  }

  /** ... and once the swap is. */
  ghost predicate Confirms(request: Request, row: Row, row': Row, routing: Routing, txHash: nat, price: int)
  {
    row' == Row(CONFIRMED, Some(routing.raydium), Some(routing.meteora), Some(routing.selected),
                Some(txHash), Some(AmountOut(request, price)), row.failureReason,
                row.logs + [LogEntry(ROUTING, None, None, None, None, None, None)]
                         + [LogEntry(ROUTING, Some(routing), None, None, None, None, None)]
                         + [LogEntry(BUILDING, None, None, None, None, None, None)]
                         + [LogEntry(SUBMITTED, None, Some(txHash), None, None, None, None)]
                         + [LogEntry(CONFIRMED, None, Some(txHash), Some(price), None, None, None)])
  }

  /** What a completed attempt makes of the order it began with. */
  ghost predicate CompletedAs(o: Order, c: Config, reply: Pc -> Reply, row: Row, published: seq<Status>)
  {
    && o.row.Some? && published == o.published + [ROUTING, CONFIRMED]
    && exists routing, txHash, price ::
         && RoutedBy(c, reply, routing) && SwappedBy(c, o.request, reply, routing, txHash, price)
         && Confirms(o.request, o.row.value, row, routing, txHash, price)
  }

  lemma QuotesAndVenue(o: Order, c: Config, reply: Pc -> Reply) returns (o': Order, routing: Routing)
    requires Script(reply) && o.row.Some? && Running(o) && o.job.value.phase.pc == PublishRouting
    requires Completes(Drive(o, c, reply))
    ensures o'.row.Some? && Drive(o', c, reply) == Drive(o, c, reply) && o'.request == o.request
    ensures RoutedBy(c, reply, routing)
    ensures o'.published == o.published + [ROUTING]
    ensures Recorded(o.row.value, o'.row.value, routing)
    ensures Running(o') && o'.job.value.phase.pc == WriteBuilding(routing)
  {
    o' := Returns(o, c, reply);
    o' := Returns(o', c, reply);
    o' := Returns(o', c, reply);
    o' := FetchedAsReplied(o', c, reply);
    routing := o'.job.value.phase.pc.routing;
  }

  lemma FetchedAsReplied(o: Order, c: Config, reply: Pc -> Reply) returns (o': Order)
    requires Script(reply) && o.row.Some? && Running(o) && reply(FetchQuotes).Quotes?
    requires o.job.value.phase.pc == WriteQuotes(reply(FetchQuotes).raydium, reply(FetchQuotes).meteora)
    requires Completes(Drive(o, c, reply))
    ensures o'.row.Some? && Drive(o', c, reply) == Drive(o, c, reply)
    ensures o'.request == o.request && o'.published == o.published
    ensures Running(o') && o'.job.value.phase.pc.WriteBuilding?
    ensures var routing := o'.job.value.phase.pc.routing;
            && RoutedBy(c, reply, routing)
            && o'.row.value == Row(ROUTING, Some(routing.raydium), Some(routing.meteora), Some(routing.selected),
                 o.row.value.txHash, o.row.value.amountOut, o.row.value.failureReason,
                 o.row.value.logs + [LogEntry(ROUTING, Some(routing), None, None, None, None, None)])
  {
    o' := Returns(o, c, reply);
  }

  lemma SwapAndCheck(o: Order, c: Config, reply: Pc -> Reply, routing: Routing)
    returns (o': Order, txHash: nat, price: int)
    requires Script(reply) && o.row.Some? && Running(o) && o.job.value.phase.pc == WriteBuilding(routing)
    requires Completes(Drive(o, c, reply))
    ensures o'.row.Some? && Drive(o', c, reply) == Drive(o, c, reply)
    ensures o'.request == o.request && o'.published == o.published
    ensures SwappedBy(c, o.request, reply, routing, txHash, price)
    ensures o'.row == Some(o.row.value.(status := BUILDING,
              logs := o.row.value.logs + [LogEntry(BUILDING, None, None, None, None, None, None)]))
    ensures Running(o') && o'.job.value.phase.pc == WriteSubmitted(routing, txHash, price)
  {
    o' := Returns(o, c, reply);
    o' := Returns(o', c, reply);
    txHash, price := o'.job.value.phase.pc.txHash, o'.job.value.phase.pc.price;
  }

  lemma SwapRecorded(o: Order, c: Config, reply: Pc -> Reply, routing: Routing, txHash: nat, price: int)
    requires Script(reply) && o.row.Some? && Running(o)
    requires o.job.value.phase.pc == WriteSubmitted(routing, txHash, price) && Completes(Drive(o, c, reply))
    ensures var row, end := o.row.value, Drive(o, c, reply);
            && end.published == o.published + [CONFIRMED]
            && end.row == Some(Row(CONFIRMED, row.raydiumQuote, row.meteoraQuote, row.dexUsed,
                 Some(txHash), Some(AmountOut(o.request, price)), row.failureReason,
                 row.logs + [LogEntry(SUBMITTED, None, Some(txHash), None, None, None, None)]
                          + [LogEntry(CONFIRMED, None, Some(txHash), Some(price), None, None, None)]))
  {
    var o1 := Returns(o, c, reply);
    var o2 := Returns(o1, c, reply);
    var o3 := Returns(o2, c, reply);
    var o4 := Returns(o3, c, reply);
  }

  /** For every script: an attempt that completes leaves the row with the quotes of the
      script's fetch, each in its column, the venue picked for them, and the hash and price of
      the script's swap there, one block of five entries in the log, and has published
      ROUTING and CONFIRMED. */
  lemma CompletedAttempt(o: Order, c: Config, reply: Pc -> Reply)
    requires Script(reply) && o.row.Some? && Running(o) && o.job.value.phase.pc == PublishRouting
    requires Completes(Drive(o, c, reply))
    ensures Drive(o, c, reply).row.Some?
    ensures CompletedAs(o, c, reply, Drive(o, c, reply).row.value, Drive(o, c, reply).published)
  {
    var end := Drive(o, c, reply);
    var o1, routing := QuotesAndVenue(o, c, reply);
    var o2, txHash, price := SwapAndCheck(o1, c, reply, routing);
    SwapRecorded(o2, c, reply, routing, txHash, price);
    assert o.published + [ROUTING] + [CONFIRMED] == o.published + [ROUTING, CONFIRMED];
    assert Confirms(o.request, o.row.value, end.row.value, routing, txHash, price);
  }

  lemma ClaimedAttempt(o: Order, c: Config, reply: Pc -> Reply)
    requires Script(reply) && o.row.Some? && o.job.Some? && o.job.value.phase.Waiting?
    requires Completes(Drive(OrderStep(o, c, Claim), c, reply))
    ensures var end := Drive(OrderStep(o, c, Claim), c, reply);
            end.row.Some? && CompletedAs(o, c, reply, end.row.value, end.published)
  {
    CompletedAttempt(OrderStep(o, c, Claim), c, reply);
  }

  /** One order along a driven attempt, and its share of the two counters. */
  datatype Stop = Stop(order: Order, confirmed: int, failed: int)

  function StopOf(o: Order): Stop
  {
    Stop(o, Credit(o, CONFIRMED), Credit(o, FAILED))
  }

  /** Marks a position of a path, so that facts about it are looked up where they are needed only. */
  ghost predicate IsStop(i: nat) { true }

  ghost predicate StopOk(path: seq<Stop>, i: nat, c: Config, reply: Pc -> Reply)
    requires i < |path|
  {
    var o := path[i].order;
    && o.row.Some? && path[i] == StopOf(o)
    && (i + 1 < |path| ==>
          && Running(o) && Enabled(o, NextEvent(o, reply))
          && path[i + 1].order == OrderStep(o, c, NextEvent(o, reply)))
  }

  /** The orders a driven attempt goes through, up to its end. */
  ghost predicate Path(path: seq<Stop>, c: Config, reply: Pc -> Reply)
  {
    && path != [] && !Running(path[|path| - 1].order)
    && forall i: nat {:trigger IsStop(i)} :: IsStop(i) && i < |path| ==> StopOk(path, i, c, reply)
  }

  lemma {:induction false} DrivePath(o: Order, c: Config, reply: Pc -> Reply) returns (path: seq<Stop>)
    requires Script(reply) && o.row.Some?
    ensures Path(path, c, reply) && path[0] == StopOf(o)
    ensures path[|path| - 1].order == Drive(o, c, reply)
    decreases if Running(o) then Rank(o.job.value.phase.pc) + 1 else 0
  {
    path := [StopOf(o)];
    if Running(o) {
      NextEventMoves(o, c, reply);
      var rest := DrivePath(OrderStep(o, c, NextEvent(o, reply)), c, reply);
      PathExtends(o, rest, c, reply);
      path := path + rest;
    }
  }

  /** A stop stays a stop one place later. */
  lemma StopShifts(first: Stop, rest: seq<Stop>, i: nat, c: Config, reply: Pc -> Reply)
    requires i < |rest| && StopOk(rest, i, c, reply)
    ensures StopOk([first] + rest, i + 1, c, reply)
  {
    var path := [first] + rest;
    assert path[i + 1] == rest[i];
    if i + 1 < |rest| { assert path[i + 2] == rest[i + 1]; }
  }

  lemma FirstStop(o: Order, rest: seq<Stop>, c: Config, reply: Pc -> Reply)
    requires o.row.Some? && Running(o) && Enabled(o, NextEvent(o, reply))
    requires rest != [] && rest[0].order == OrderStep(o, c, NextEvent(o, reply))
    ensures StopOk([StopOf(o)] + rest, 0, c, reply)
  {
    assert ([StopOf(o)] + rest)[1] == rest[0];
  }

  lemma PathExtends(o: Order, rest: seq<Stop>, c: Config, reply: Pc -> Reply)
    requires o.row.Some? && Running(o) && Enabled(o, NextEvent(o, reply))
    requires Path(rest, c, reply) && rest[0].order == OrderStep(o, c, NextEvent(o, reply))
    ensures Path([StopOf(o)] + rest, c, reply)
  {
    var path := [StopOf(o)] + rest;
    FirstStop(o, rest, c, reply);
    forall i: nat | IsStop(i) && i < |path|
      ensures StopOk(path, i, c, reply)
    {
      if i > 0 {
        assert IsStop(i - 1);
        StopShifts(StopOf(o), rest, i - 1, c, reply);
      }
    }
    assert path[|path| - 1] == rest[|rest| - 1];
  }

  class Worker {
    const c: Config
    const table: OrderTable
    const metrics: MetricsService
    var published: map<nat, seq<Status>>

    /** How the awaits of the current attempt end. */
    var reply: Pc -> Reply

    /** The order the attempt is for, as the step machine sees it, its place on the
        attempt's path, and the counters' share that belongs to other orders. */
    ghost var order: Order
    ghost var path: seq<Stop>
    ghost var at: nat
    ghost var completedBase: int
    ghost var failedBase: int

    constructor (config: Config, replies: Pc -> Reply)
      ensures c == config && reply == replies && fresh(table) && fresh(metrics)
      ensures table.rows == map[] && published == map[]
    {
      c := config;
      reply := replies;
      table := new OrderTable();
      metrics := new MetricsService();
      published := map[];
    }

    ghost predicate OnPath()
      reads this
    {
      Script(reply) && Path(path, c, reply) && at < |path| && order == path[at].order
    }

    /** The tables, the channel and the counters hold what the step machine's order says. */
    ghost predicate Follows(id: nat)
      reads this, table, metrics
    {
      && OnPath()
      && id in table.rows && order.row == Some(table.rows[id])
      && id in published && order.published == published[id]
      && metrics.completed == completedBase + path[at].confirmed
      && metrics.failed == failedBase + path[at].failed
    }

    /** The attempt is suspended at pc. */
    ghost predicate At(id: nat, pc: Pc)
      reads this, table, metrics
    {
      Follows(id) && order.job.Some? && order.job.value.phase == Active(pc)
    }

    /** The attempt has thrown and is about to handle it. */
    ghost predicate AtCatch(id: nat, attemptsMade: nat, reason: string)
      reads this, table, metrics
    {
      At(id, if attemptsMade + 1 >= c.maxRetries then WriteFailed(reason) else PublishPending)
    }

    /** The attempt is suspended in an await that ends with this reply. */
    ghost predicate Awaits(r: Reply)
      reads this
    {
      && Running(order) && order.row.Some? && Enabled(order, Await(r))
      && r == reply(order.job.value.phase.pc)
    }

    ghost method Take(e: Event)
      requires OnPath() && Running(order) && e == NextEvent(order, reply)
      modifies this`order, this`at
      ensures OnPath() && Enabled(old(order), e) && order == OrderStep(old(order), c, e)
      ensures path[at].confirmed == path[old(at)].confirmed + One(e.Resume? && Uncounted(old(order)) == Some(CONFIRMED))
      ensures path[at].failed == path[old(at)].failed + One(e.Resume? && Uncounted(old(order)) == Some(FAILED))
    {
      assert IsStop(at) && IsStop(at + 1);
      assert StopOk(path, at, c, reply);
      StepCredits(order, c, e, CONFIRMED);
      StepCredits(order, c, e, FAILED);
      at := at + 1;
      order := path[at].order;
    }

    /** A write's await: the row it leaves if it takes effect. */
    ghost method TakeWrite(r: Reply, row: Row)
      requires OnPath() && Awaits(r)
      requires Effect(c, order, order.job.value.phase.pc)
            == order.(row := Some(row))
      modifies this`order, this`at
      ensures OnPath()
      ensures order.row == (if Applied(r) then Some(row) else old(order).row)
      ensures order.published == old(order).published && order.request == old(order).request
      ensures order.job == Some(NextJob(old(order), c, r))
      ensures path[at].confirmed == path[old(at)].confirmed && path[at].failed == path[old(at)].failed
    {
      WriteStep(order, c, r, row);
      Take(Await(r));
    }

    method PublishStatus(id: nat, status: Status, r: Reply) returns (out: Outcome)
      requires Follows(id) && Awaits(r)
      requires Announcement(order.job.value.phase.pc) == Some(status)
      modifies this`published, this`order, this`at
      ensures Follows(id) && out == OutcomeOf(r)
      ensures order.request == old(order.request) && order.job == Some(NextJob(old(order), c, r))
      ensures SameElsewhere(old(published), published, id)
    {
      if Applied(r) {
        published := published[id := published[id] + [status]];
      }
      Take(Await(r));
      out := OutcomeOf(r);
    }

    method SetStatus(id: nat, status: Status, txHash: Option<nat>, r: Reply) returns (out: Outcome)
      requires Follows(id) && Awaits(r)
      requires Effect(c, order, order.job.value.phase.pc)
            == order.(row := Some(WithStatus(table.rows[id], status, txHash)))
      modifies table, this`order, this`at
      ensures Follows(id) && out == OutcomeOf(r)
      ensures order.request == old(order.request) && order.job == Some(NextJob(old(order), c, r))
      ensures SameElsewhere(old(table.rows), table.rows, id)
    {
      TakeWrite(r, WithStatus(table.rows[id], status, txHash));
      if Applied(r) {
        var _ := table.UpdateOrderStatus(id, status, txHash);
      }
      out := OutcomeOf(r);
    }

    method SetRouting(id: nat, routing: Routing, r: Reply) returns (out: Outcome)
      requires Follows(id) && Awaits(r)
      requires Effect(c, order, order.job.value.phase.pc)
            == order.(row := Some(WithRouting(table.rows[id], routing)))
      modifies table, this`order, this`at
      ensures Follows(id) && out == OutcomeOf(r)
      ensures order.request == old(order.request) && order.job == Some(NextJob(old(order), c, r))
      ensures SameElsewhere(old(table.rows), table.rows, id)
    {
      TakeWrite(r, WithRouting(table.rows[id], routing));
      if Applied(r) {
        var _ := table.UpdateOrderRouting(id, routing);
      }
      out := OutcomeOf(r);
    }

    method SetConfirmed(id: nat, txHash: nat, price: int, amountOut: int, r: Reply) returns (out: Outcome)
      requires Follows(id) && Awaits(r)
      requires Effect(c, order, order.job.value.phase.pc)
            == order.(row := Some(WithConfirmed(table.rows[id], txHash, price, amountOut)))
      modifies table, this`order, this`at
      ensures Follows(id) && out == OutcomeOf(r)
      ensures order.request == old(order.request) && order.job == Some(NextJob(old(order), c, r))
      ensures SameElsewhere(old(table.rows), table.rows, id)
    {
      TakeWrite(r, WithConfirmed(table.rows[id], txHash, price, amountOut));
      if Applied(r) {
        var _ := table.UpdateOrderConfirmed(id, txHash, price, amountOut);
      }
      out := OutcomeOf(r);
    }

    method SetFailed(id: nat, reason: string, attempt: nat, r: Reply) returns (out: Outcome)
      requires Follows(id) && Awaits(r)
      requires Effect(c, order, order.job.value.phase.pc)
            == order.(row := Some(WithFailed(table.rows[id], reason, attempt, c.maxRetries)))
      modifies table, this`order, this`at
      ensures Follows(id) && out == OutcomeOf(r)
      ensures order.request == old(order.request) && order.job == Some(NextJob(old(order), c, r))
      ensures SameElsewhere(old(table.rows), table.rows, id)
    {
      TakeWrite(r, WithFailed(table.rows[id], reason, attempt, c.maxRetries));
      if Applied(r) {
        var _ := table.UpdateOrderFailed(id, reason, attempt, c.maxRetries);
      }
      out := OutcomeOf(r);
    }

    method Count(id: nat, metric: Metric)
      requires At(id, if metric == OrdersCompleted then CountCompleted else CountFailed) && metric != OrdersTotal
      modifies metrics, this`order, this`at
      ensures Follows(id) && order.request == old(order.request)
      ensures order.job == Some(old(order).job.value.(
                phase := Active(if metric == OrdersCompleted then PublishConfirmed else PublishFailed)))
    {
      metrics.Increment(metric);
      Take(Resume);
    }

    /** Both quotes, or a timeout. */
    method GetQuotes(id: nat, r: Reply) returns (out: Outcome, raydium: int, meteora: int)
      requires At(id, FetchQuotes) && Awaits(r)
      modifies this`order, this`at
      ensures out == OutcomeOf(r) && order.request == old(order).request
      ensures order.job.Some? && order.job.value.attemptsMade == old(order).job.value.attemptsMade
      ensures match out
              case Returned => At(id, WriteQuotes(raydium, meteora))
              case Raised(reason) => AtCatch(id, order.job.value.attemptsMade, reason)
    {
      Take(Await(r));
      out := OutcomeOf(r);
      raydium, meteora := 0, 0;
      if out.Returned? {
        raydium, meteora := r.raydium, r.meteora;
      }
    }

    /** The swap, or a timeout, and then the slippage check. */
    method SwapWithinSlippage(id: nat, request: Request, routing: Routing, r: Reply)
      returns (out: Outcome, txHash: nat, price: int)
      requires At(id, Swap(routing)) && Awaits(r) && order.request == request
      modifies this`order, this`at
      ensures order.request == request
      ensures order.job.Some? && order.job.value.attemptsMade == old(order).job.value.attemptsMade
      ensures match out
              case Returned => At(id, WriteSubmitted(routing, txHash, price))
              case Raised(reason) => AtCatch(id, order.job.value.attemptsMade, reason)
    {
      Take(Await(r));
      out := OutcomeOf(r);
      txHash, price := 0, 0;
      if out.Returned? {
        var expected := ExpectedPrice(routing);
        txHash, price := r.txHash, c.router.execute(expected, request.slippage, r.draw);
        if !c.router.passes(expected, price, request.slippage) {
          out := Raised("Slippage exceeded");
        }
      }
    }

    /** The quotes, the venue, and the record of both. */
    method ChooseVenue(id: nat) returns (out: Outcome, routing: Routing)
      requires At(id, FetchQuotes)
      modifies table, this`order, this`at
      ensures order.request == old(order).request
      ensures order.job.Some? && order.job.value.attemptsMade == old(order).job.value.attemptsMade
      ensures match out
              case Returned => At(id, WriteBuilding(routing))
              case Raised(reason) => AtCatch(id, order.job.value.attemptsMade, reason)
      ensures SameElsewhere(old(table.rows), table.rows, id)
    {
      routing := Routing(0, 0, Raydium);
      var raydium, meteora;
      out, raydium, meteora := GetQuotes(id, reply(FetchQuotes));
      if out.Raised? { return; }

      routing := Choose(c, raydium, meteora);
      out := SetRouting(id, routing, reply(WriteQuotes(raydium, meteora)));
    }

    /** The service's first four steps: quotes, venue, and their record. */
    method RouteOrder(id: nat, attemptsMade: nat) returns (out: Outcome, routing: Routing)
      requires At(id, WriteRouting) && order.job.value.attemptsMade == attemptsMade
      modifies table, this`order, this`at
      ensures order.request == old(order).request
      ensures match out
              case Returned => At(id, Swap(routing))
              case Raised(reason) => AtCatch(id, attemptsMade, reason)
      ensures order.job.value.attemptsMade == attemptsMade
      ensures SameElsewhere(old(table.rows), table.rows, id)
    {
      routing := Routing(0, 0, Raydium);
      out := SetStatus(id, ROUTING, None, reply(WriteRouting));
      if out.Raised? { return; }

      out, routing := ChooseVenue(id);
      if out.Raised? { return; }

      out := SetStatus(id, BUILDING, None, reply(WriteBuilding(routing)));
    }

    /** Its last four: the swap, the slippage check, and the record of both. */
    method SwapOrder(id: nat, request: Request, routing: Routing, attemptsMade: nat) returns (out: Outcome)
      requires At(id, Swap(routing)) && order.job.value.attemptsMade == attemptsMade
      requires order.request == request
      modifies table, metrics, this`order, this`at
      ensures match out
              case Returned => At(id, PublishConfirmed)
              case Raised(reason) => AtCatch(id, attemptsMade, reason)
      ensures order.job.value.attemptsMade == attemptsMade
      ensures SameElsewhere(old(table.rows), table.rows, id)
    {
      var txHash, price;
      out, txHash, price := SwapWithinSlippage(id, request, routing, reply(Swap(routing)));
      if out.Raised? { return; }

      out := SetStatus(id, SUBMITTED, Some(txHash), reply(WriteSubmitted(routing, txHash, price)));
      if out.Raised? { return; }

      out := SetConfirmed(id, txHash, price, AmountOut(request, price), reply(WriteConfirmed(routing, txHash, price)));
      if out.Raised? { return; }
      Count(id, OrdersCompleted);
    }

    method ExecuteOrder(id: nat, request: Request, attemptsMade: nat) returns (out: Outcome)
      requires At(id, WriteRouting) && order.job.value.attemptsMade == attemptsMade
      requires order.request == request
      modifies table, metrics, this`order, this`at
      ensures match out
              case Returned => At(id, PublishConfirmed)
              case Raised(reason) => AtCatch(id, attemptsMade, reason)
      ensures order.job.value.attemptsMade == attemptsMade
      ensures SameElsewhere(old(table.rows), table.rows, id)
    {
      var routing;
      out, routing := RouteOrder(id, attemptsMade);
      if out.Returned? {
        out := SwapOrder(id, request, routing, attemptsMade);
      }
    }

    /** The try block. */
    method TryOrder(id: nat, request: Request, attemptsMade: nat) returns (out: Outcome)
      requires At(id, PublishRouting) && order.job.value.attemptsMade == attemptsMade
      requires order.request == request
      modifies table, metrics, this`published, this`order, this`at
      ensures match out
              case Returned => Follows(id) && order.job.Some? && order.job.value.phase.Completed?
              case Raised(reason) => AtCatch(id, attemptsMade, reason) && order.job.value.attemptsMade == attemptsMade
      ensures SameElsewhere(old(table.rows), table.rows, id)
      ensures SameElsewhere(old(published), published, id)
    {
      out := PublishStatus(id, ROUTING, reply(PublishRouting));
      if out.Raised? { return; }
      out := ExecuteOrder(id, request, attemptsMade);
      if out.Raised? { return; }
      out := PublishStatus(id, CONFIRMED, reply(PublishConfirmed));
    }

    method FailOrder(id: nat, reason: string, attempt: nat) returns (out: Outcome)
      requires At(id, WriteFailed(reason)) && order.job.value.attemptsMade + 1 == attempt
      modifies table, metrics, this`order, this`at
      ensures match out
              case Returned => At(id, PublishFailed)
              case Raised(_) => Follows(id) && order.job.Some? && order.job.value.phase in {Delayed, Exhausted}
      ensures order.request == old(order).request
      ensures SameElsewhere(old(table.rows), table.rows, id)
    {
      out := SetFailed(id, reason, attempt, reply(WriteFailed(reason)));
      if out.Raised? { return; }
      Count(id, OrdersFailed);
    }

    /** The catch block. */
    method HandleFailure(id: nat, reason: string, attemptsMade: nat)
      requires AtCatch(id, attemptsMade, reason) && order.job.value.attemptsMade == attemptsMade
      modifies table, metrics, this`published, this`order, this`at
      ensures Follows(id) && order.job.Some? && order.job.value.phase in {Delayed, Exhausted}
      ensures SameElsewhere(old(table.rows), table.rows, id)
      ensures SameElsewhere(old(published), published, id)
    {
      if attemptsMade + 1 >= c.maxRetries {
        var out := FailOrder(id, reason, attemptsMade + 1);
        if out.Raised? { return; }
        var _ := PublishStatus(id, FAILED, reply(PublishFailed));
      } else {
        var _ := PublishStatus(id, PENDING, reply(PublishPending));
      }
    }

    /** The try block and, if it throws, the catch block. */
    method TryOrHandle(id: nat, request: Request, attemptsMade: nat) returns (out: Outcome)
      requires At(id, PublishRouting) && order.job.value.attemptsMade == attemptsMade
      requires order.request == request
      modifies table, metrics, this`published, this`order, this`at
      ensures Follows(id) && order.job.Some?
      ensures if out.Returned? then order.job.value.phase.Completed? else order.job.value.phase in {Delayed, Exhausted}
      ensures SameElsewhere(old(table.rows), table.rows, id)
      ensures SameElsewhere(old(published), published, id)
    {
      out := TryOrder(id, request, attemptsMade);
      if out.Raised? {
        HandleFailure(id, out.reason, attemptsMade);
      }
    }

    /** Taking up a waiting job changes neither row, publications nor credits. */
    lemma ClaimStep(o: Order)
      requires o.row.Some? && o.job.Some? && o.job.value.phase.Waiting?
      ensures var o' := OrderStep(o, c, Claim);
              && o'.row == o.row && o'.published == o.published
              && o'.job.Some? && o'.job.value.phase == Active(PublishRouting)
              && StopOf(o').confirmed == StopOf(o).confirmed && StopOf(o').failed == StopOf(o).failed
    {
      StepCredits(o, c, Claim, CONFIRMED);
      StepCredits(o, c, Claim, FAILED);
    }

    ghost method Begin(id: nat)
      requires Script(reply)
      requires id in table.rows && order.row == Some(table.rows[id])
      requires id in published && order.published == published[id]
      requires order.job.Some? && order.job.value.phase.Waiting?
      modifies this`order, this`at, this`path, this`completedBase, this`failedBase
      ensures order == OrderStep(old(order), c, Claim)
      ensures completedBase == metrics.completed - Credit(old(order), CONFIRMED)
      ensures failedBase == metrics.failed - Credit(old(order), FAILED)
      ensures path != [] && path[|path| - 1].order == Drive(OrderStep(old(order), c, Claim), c, reply)
      ensures At(id, PublishRouting)
    {
      completedBase := metrics.completed - Credit(order, CONFIRMED);
      failedBase := metrics.failed - Credit(order, FAILED);
      ClaimStep(order);
      order, at := OrderStep(order, c, Claim), 0;
      path := DrivePath(order, c, reply);
    }

    /** The attempt is over: its path is at its end. */
    ghost method End(id: nat)
      requires Follows(id) && !Running(order)
      ensures order == path[|path| - 1].order
      ensures path[at].confirmed == Credit(order, CONFIRMED) && path[at].failed == Credit(order, FAILED)
    {
      assert IsStop(at);
    }

    /** One attempt of a claimed job: it does to the order's row, its channel and its
        job exactly what the step machine does under the same replies, returns normally
        exactly when that completes the job, touches no other order, and moves each
        counter by what the order's own log entries account for. */
    method ProcessOrder(id: nat, request: Request, attemptsMade: nat) returns (out: Outcome)
      requires Script(reply)
      requires id in table.rows && order.row == Some(table.rows[id])
      requires id in published && order.published == published[id]
      requires order.request == request && order.job.Some? && order.job.value.phase.Waiting?
      requires order.job.value.attemptsMade == attemptsMade
      modifies this`published, this`order, this`at, this`path, this`completedBase, this`failedBase, table, metrics
      ensures order == Drive(OrderStep(old(order), c, Claim), c, reply)
      ensures id in table.rows && order.row == Some(table.rows[id])
      ensures id in published && order.published == published[id]
      ensures order.job.Some?
      ensures if out.Returned? then order.job.value.phase.Completed? else order.job.value.phase in {Delayed, Exhausted}
      ensures out.Returned? ==> CompletedAs(old(order), c, reply, table.rows[id], published[id])
      ensures metrics.completed - old(metrics.completed) == Credit(order, CONFIRMED) - Credit(old(order), CONFIRMED)
      ensures metrics.failed - old(metrics.failed) == Credit(order, FAILED) - Credit(old(order), FAILED)
      ensures SameElsewhere(old(table.rows), table.rows, id)
      ensures SameElsewhere(old(published), published, id)
    {
      Begin(id);
      out := TryOrHandle(id, request, attemptsMade);
      End(id);
      if out.Returned? { ClaimedAttempt(old(order), c, reply); }
    }
  }

  ghost predicate SameElsewhere<T(!new)>(before: map<nat, T>, after: map<nat, T>, id: nat)
  {
    before.Keys + {id} == after.Keys + {id} && forall k :: k in before && k != id ==> after[k] == before[k]
  }
}

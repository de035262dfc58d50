/** The whole engine: any number of orders submitted, queued and worked on, their
    steps interleaved in any order, and the counters they share. */
module Engine {
  import opened Options
  import opened Orders
  import opened Pipeline
  import opened LogShape
  import opened OrderLife

  /** Orders by id, and the metrics service's counters. */
  datatype State = State(orders: seq<Order>, total: nat, completed: nat, failed: nat)

  datatype Move = Submit(request: Request) | On(id: nat, event: Event)

  function Init(): State { State([], 0, 0, 0) }

  function NewOrder(request: Request): Order
  {
    Order(request, Inserting, None, None, [], 0, 0)
  }

  predicate CanMove(s: State, m: Move)
  {
    match m
    case Submit(_) => true
    case On(id, e) => id < |s.orders| && Enabled(s.orders[id], e)
  }

  function Step(s: State, c: Config, m: Move): State
    requires CanMove(s, m)
  {
    match m
    case Submit(request) => s.(orders := s.orders + [NewOrder(request)])
    case On(id, e) =>
      var o := s.orders[id];
      State(
        s.orders[id := OrderStep(o, c, e)],
        s.total + One(e.Accept?),
        s.completed + One(e.Resume? && Uncounted(o) == Some(CONFIRMED)),
        s.failed + One(e.Resume? && Uncounted(o) == Some(FAILED)))
  }

  predicate Runs(s: State, c: Config, ms: seq<Move>)
    decreases |ms|
  {
    ms == [] || (CanMove(s, ms[0]) && Runs(Step(s, c, ms[0]), c, ms[1..]))
  }

  function After(s: State, c: Config, ms: seq<Move>): State
    requires Runs(s, c, ms)
    decreases |ms|
  {
    if ms == [] then s else After(Step(s, c, ms[0]), c, ms[1..])
  }

  // ---- Sums over orders ----

  function Sum(orders: seq<Order>, f: Order -> int): int
  {
    if orders == [] then 0 else Sum(orders[..|orders| - 1], f) + f(orders[|orders| - 1])
  }

  lemma SumAppend(orders: seq<Order>, o: Order, f: Order -> int)
    ensures Sum(orders + [o], f) == Sum(orders, f) + f(o)
  {
    assert (orders + [o])[..|orders|] == orders;
  }

  lemma {:induction false} SumUpdate(orders: seq<Order>, i: nat, o: Order, f: Order -> int)
    requires i < |orders|
    ensures Sum(orders[i := o], f) == Sum(orders, f) - f(orders[i]) + f(o)
  {
    var n := |orders| - 1;
    if i == n {
      assert orders[i := o][..n] == orders[..n];
    } else {
      SumUpdate(orders[..n], i, o, f);
      assert orders[i := o][..n] == orders[..n][i := o];
    }
  }

  lemma {:induction false} SumAdds(orders: seq<Order>, f: Order -> int, g: Order -> int, h: Order -> int)
    requires forall i :: 0 <= i < |orders| ==> f(orders[i]) == g(orders[i]) + h(orders[i])
    ensures Sum(orders, f) == Sum(orders, g) + Sum(orders, h)
  {
    if orders != [] {
      SumAdds(orders[..|orders| - 1], f, g, h);
    }
  }

  function CompletedCredit(o: Order): int { Credit(o, CONFIRMED) }
  function FailedCredit(o: Order): int { Credit(o, FAILED) }
  function IsAccepted(o: Order): int { One(o.submission.Accepted?) }

  // ---- What every run keeps ----

  ghost predicate OrderOk(o: Order, c: Config)
  {
    OrderInv(o, c) && AnnouncedAfterWritten(o, CONFIRMED) && AnnouncedAfterWritten(o, FAILED) && SwapsTally(o)
  }

  ghost predicate Inv(s: State, c: Config)
  {
    && (forall i :: 0 <= i < |s.orders| ==> OrderOk(s.orders[i], c))
    && Counters(s)
  }

  lemma OrderOkStep(o: Order, c: Config, e: Event)
    requires c.maxRetries >= 1 && OrderOk(o, c) && Enabled(o, e)
    ensures OrderOk(OrderStep(o, c, e), c)
  {
    StepKeepsShape(o, c, e);
    StepKeepsAnnounced(o, c, e, CONFIRMED);
    StepKeepsAnnounced(o, c, e, FAILED);
    StepKeepsSwaps(o, c, e);
  }

  lemma AcceptedStep(o: Order, c: Config, e: Event)
    requires Enabled(o, e)
    ensures IsAccepted(OrderStep(o, c, e)) == IsAccepted(o) + One(e.Accept?)
  {
  }

  ghost predicate Counters(s: State)
  {
    && s.total == Sum(s.orders, IsAccepted)
    && s.completed == Sum(s.orders, CompletedCredit)
    && s.failed == Sum(s.orders, FailedCredit)
  }

  lemma CountersStep(s: State, c: Config, m: Move)
    requires Counters(s) && CanMove(s, m)
    ensures Counters(Step(s, c, m))
  {
    match m
    case Submit(request) =>
      var o := NewOrder(request);
      SumAppend(s.orders, o, IsAccepted);
      SumAppend(s.orders, o, CompletedCredit);
      SumAppend(s.orders, o, FailedCredit);
    case On(id, e) =>
      var o, o' := s.orders[id], OrderStep(s.orders[id], c, e);
      AcceptedStep(o, c, e);
      StepCredits(o, c, e, CONFIRMED);
      StepCredits(o, c, e, FAILED);
      SumUpdate(s.orders, id, o', IsAccepted);
      SumUpdate(s.orders, id, o', CompletedCredit);
      SumUpdate(s.orders, id, o', FailedCredit);
  }

  lemma NewOrderOk(c: Config, request: Request)
    ensures OrderOk(NewOrder(request), c)
  {
  }

  lemma InvStep(s: State, c: Config, m: Move)
    requires c.maxRetries >= 1 && Inv(s, c) && CanMove(s, m)
    ensures Inv(Step(s, c, m), c)
  {
    CountersStep(s, c, m);
    if m.On? {
      OrderOkStep(s.orders[m.id], c, m.event);
    } else {
      NewOrderOk(c, m.request);
    }
  }

  lemma {:induction false} InvRun(s: State, c: Config, ms: seq<Move>)
    requires c.maxRetries >= 1 && Inv(s, c) && Runs(s, c, ms)
    ensures Inv(After(s, c, ms), c)
    decreases |ms|
  {
    if ms != [] {
      InvStep(s, c, ms[0]);
      InvRun(Step(s, c, ms[0]), c, ms[1..]);
    }
  }

  lemma InvReached(c: Config, ms: seq<Move>)
    requires c.maxRetries >= 1 && Runs(Init(), c, ms)
    ensures Inv(After(Init(), c, ms), c)
  {
    InvRun(Init(), c, ms);
  }

  // ---- The log language ----

  /** PENDING, at most MAX_RETRIES blocks, each the first entries of one attempt, and
      at most one FAILED, only after the last of them. */
  ghost predicate LogOf(c: Config, request: Request, logs: seq<LogEntry>, blocks: seq<Attempt>, tail: seq<LogEntry>)
  {
    && logs == [Opening()] + Blocks(blocks) + tail
    && |blocks| <= c.maxRetries
    && (forall a :: a in blocks ==> Good(c, request, a))
    && (tail == [] || (|tail| == 1 && IsFailure(tail[0], c) && |blocks| == c.maxRetries))
  }

  ghost predicate InLanguage(c: Config, request: Request, logs: seq<LogEntry>)
  {
    exists blocks, tail :: LogOf(c, request, logs, blocks, tail)
  }

  lemma ShapeInLanguage(o: Order, c: Config, past: seq<Attempt>, cur: Attempt, tail: seq<LogEntry>)
    requires c.maxRetries >= 1 && Shape(o, c, past, cur, tail)
    ensures InLanguage(c, o.request, o.row.value.logs)
  {
    if |past| < c.maxRetries {
      EndsBlock(c, o.request, o.row.value.logs, past, cur, tail);
      NoBlock(c, o.request, o.row.value.logs, past + [cur], Fresh(), tail);
      assert LogOf(c, o.request, o.row.value.logs, past + [cur], tail);
    } else {
      NoBlock(c, o.request, o.row.value.logs, past, cur, tail);
      assert LogOf(c, o.request, o.row.value.logs, past, tail);
    }
  }

  lemma NoBlock(c: Config, request: Request, logs: seq<LogEntry>, past: seq<Attempt>, cur: Attempt, tail: seq<LogEntry>)
    requires LogIs(c, request, logs, past, cur, tail) && cur.n == 0
    ensures logs == [Opening()] + Blocks(past) + tail
  {
    assert Block(cur) == [];
    assert [Opening()] + Blocks(past) + [] == [Opening()] + Blocks(past);
  }

  /** In every reachable state of every interleaving, every order's log is in the
      language and its row's status is its last entry's stage. */
  lemma LogLanguage(c: Config, ms: seq<Move>, id: nat)
    requires c.maxRetries >= 1 && Runs(Init(), c, ms)
    requires id < |After(Init(), c, ms).orders| && After(Init(), c, ms).orders[id].row.Some?
    ensures var o := After(Init(), c, ms).orders[id];
            InLanguage(c, o.request, o.row.value.logs) && RowOk(c, o.request, o.row.value)
  {
    InvReached(c, ms);
    var o := After(Init(), c, ms).orders[id];
    assert OrderOk(o, c);
    var past, cur, tail :| Shape(o, c, past, cur, tail);
    ShapeInLanguage(o, c, past, cur, tail);
  }

  /** The columns of a CONFIRMED row, and the two entries that end its log, all come
      from one attempt: the venue is the router's choice for the stored quotes, the
      executed price passed the check against that venue's own quote, and no failure
      reason is left over from earlier attempts. */
  lemma ConfirmedRow(c: Config, ms: seq<Move>, id: nat) returns (price: int)
    requires c.maxRetries >= 1 && Runs(Init(), c, ms)
    requires id < |After(Init(), c, ms).orders|
    requires var o := After(Init(), c, ms).orders[id]; o.row.Some? && o.row.value.status == CONFIRMED
    ensures var o := After(Init(), c, ms).orders[id];
            var row, n := o.row.value, |o.row.value.logs|;
            && row.raydiumQuote.Some? && row.meteoraQuote.Some? && row.txHash.Some?
            && var routing := Choose(c, row.raydiumQuote.value, row.meteoraQuote.value);
            && row.dexUsed == Some(routing.selected)
            && SwapPassed(c, o.request, routing, price)
            && row.amountOut == Some(AmountOut(o.request, price))
            && row.failureReason == None
            && n >= 5
            && row.logs[n - 5] == LogEntry(ROUTING, None, None, None, None, None, None)
            && row.logs[n - 4] == LogEntry(ROUTING, Some(routing), None, None, None, None, None)
            && row.logs[n - 3] == LogEntry(BUILDING, None, None, None, None, None, None)
            && row.logs[n - 2] == LogEntry(SUBMITTED, None, row.txHash, None, None, None, None)
            && row.logs[n - 1] == LogEntry(CONFIRMED, None, row.txHash, Some(price), None, None, None)
  {
    LogLanguage(c, ms, id);
    var o := After(Init(), c, ms).orders[id];
    var logs := o.row.value.logs;
    var a :| ConfirmedAs(c, o.request, o.row.value, a);
    price := a.price;
    var last := logs[|logs| - 5..];
    assert last == FullBlock(a);
    assert logs[|logs| - 5] == last[0] && logs[|logs| - 4] == last[1] && logs[|logs| - 3] == last[2];
    assert logs[|logs| - 2] == last[3] && logs[|logs| - 1] == last[4];
  }

  // ---- Finality over whole runs ----

  /** Nothing is taken from a log or a publication trace, and a settled row stays as it is. */
  ghost predicate Grew(o: Order, o': Order)
  {
    && Logs(o) <= Logs(o')
    && o.published <= o'.published
    && (Settled(o) ==> Settled(o') && o'.row == o.row)
  }

  lemma GrewFurther(o: Order, o': Order, o'': Order)
    requires Grew(o, o') && Grew(o', o'')
    ensures Grew(o, o'')
  {
  }

  lemma MoveGrows(s: State, c: Config, m: Move, id: nat)
    requires c.maxRetries >= 1 && Inv(s, c) && CanMove(s, m) && id < |s.orders|
    ensures id < |Step(s, c, m).orders| && Grew(s.orders[id], Step(s, c, m).orders[id])
  {
    if m.On? && m.id == id {
      var o := s.orders[id];
      assert OrderOk(o, c);
      StepGrows(o, c, m.event);
      if Settled(o) {
        SettledStep(o, c, m.event);
      }
    }
  }

  /** Along every run logs and publication traces only grow, and settled rows stay. */
  lemma {:induction false} RunGrows(s: State, c: Config, ms: seq<Move>, id: nat)
    requires c.maxRetries >= 1 && Inv(s, c) && Runs(s, c, ms) && id < |s.orders|
    ensures id < |After(s, c, ms).orders| && Grew(s.orders[id], After(s, c, ms).orders[id])
    decreases |ms|
  {
    if ms != [] {
      var s' := Step(s, c, ms[0]);
      InvStep(s, c, ms[0]);
      MoveGrows(s, c, ms[0], id);
      RunGrows(s', c, ms[1..], id);
      GrewFurther(s.orders[id], s'.orders[id], After(s', c, ms[1..]).orders[id]);
    }
  }

  /** Nothing is ever written after FAILED, in any continuation of any run. */
  lemma FailedIsFinal(c: Config, ms: seq<Move>, ns: seq<Move>, id: nat)
    requires c.maxRetries >= 1 && Runs(Init(), c, ms) && Runs(After(Init(), c, ms), c, ns)
    requires id < |After(Init(), c, ms).orders|
    requires var o := After(Init(), c, ms).orders[id]; o.row.Some? && o.row.value.status == FAILED
    ensures var s := After(Init(), c, ms);
            id < |After(s, c, ns).orders| && After(s, c, ns).orders[id].row == s.orders[id].row
  {
    InvReached(c, ms);
    var s := After(Init(), c, ms);
    assert OrderOk(s.orders[id], c);
    FailedIsSettled(s.orders[id], c);
    RunGrows(s, c, ns, id);
  }

  /** A completed job's row is CONFIRMED and stays as it is, and the last thing
      published about the order is that. */
  lemma CompletedIsFinal(c: Config, ms: seq<Move>, ns: seq<Move>, id: nat)
    requires c.maxRetries >= 1 && Runs(Init(), c, ms) && Runs(After(Init(), c, ms), c, ns)
    requires id < |After(Init(), c, ms).orders|
    requires var o := After(Init(), c, ms).orders[id]; o.job.Some? && o.job.value.phase.Completed?
    ensures var s := After(Init(), c, ms);
            && s.orders[id].row.Some? && s.orders[id].row.value.status == CONFIRMED
            && LastPublished(s.orders[id].published) == Some(CONFIRMED)
            && id < |After(s, c, ns).orders| && After(s, c, ns).orders[id].row == s.orders[id].row
  {
    InvReached(c, ms);
    RunTells(Init(), c, ms);
    var s := After(Init(), c, ms);
    assert OrderOk(s.orders[id], c) && Told(s.orders[id]);
    CompletedIsConfirmed(s.orders[id], c);
    RunGrows(s, c, ns, id);
  }

  lemma {:induction false} RunTells(s: State, c: Config, ms: seq<Move>)
    requires Runs(s, c, ms) && forall i :: 0 <= i < |s.orders| ==> Told(s.orders[i])
    ensures forall i :: 0 <= i < |After(s, c, ms).orders| ==> Told(After(s, c, ms).orders[i])
    decreases |ms|
  {
    if ms != [] {
      if ms[0].On? {
        StepTells(s.orders[ms[0].id], c, ms[0].event);
      }
      RunTells(Step(s, c, ms[0]), c, ms[1..]);
    }
  }

  lemma {:induction false} OrderSettled(o: Order, c: Config, es: seq<Event>)
    requires c.maxRetries >= 1 && OrderInv(o, c) && Settled(o) && OrderRuns(o, c, es)
    ensures OrderAfter(o, c, es).row == o.row
    decreases |es|
  {
    if es != [] {
      SettledStep(o, c, es[0]);
      StepKeepsShape(o, c, es[0]);
      OrderSettled(OrderStep(o, c, es[0]), c, es[1..]);
    }
  }

  ghost predicate StaysForever(o: Order, c: Config)
  {
    forall es :: OrderRuns(o, c, es) ==> OrderAfter(o, c, es).row == o.row
  }

  predicate RowIsFinal(o: Order)
    requires o.row.Some?
  {
    o.row.value.status == FAILED || Over(o) || (o.job.None? && o.submission.Rejected?)
  }

  lemma FinalIsSettled(o: Order, c: Config)
    requires OrderInv(o, c) && o.row.Some? && (o.row.value.status == FAILED || Over(o))
    ensures Settled(o)
  {
    if o.row.value.status == FAILED {
      FailedIsSettled(o, c);
    }
  }

  lemma OrphanStays(o: Order, c: Config, es: seq<Event>)
    requires o.row.Some? && o.job.None? && o.submission.Rejected? && OrderRuns(o, c, es)
    ensures OrderAfter(o, c, es) == o
  {
  }

  lemma FinalStays(o: Order, c: Config, es: seq<Event>)
    requires c.maxRetries >= 1 && OrderInv(o, c) && o.row.Some? && RowIsFinal(o) && OrderRuns(o, c, es)
    ensures OrderAfter(o, c, es).row == o.row
  {
    if o.row.value.status == FAILED || Over(o) {
      FinalIsSettled(o, c);
      OrderSettled(o, c, es);
    } else {
      OrphanStays(o, c, es);
    }
  }

  lemma OthersChange(o: Order, c: Config) returns (es: seq<Event>)
    requires c.maxRetries >= 1 && OrderInv(o, c) && o.row.Some? && !RowIsFinal(o)
    ensures OrderRuns(o, c, es) && OrderAfter(o, c, es).row != o.row
  {
    if o.job.Some? {
      es := CanStillChange(o, c);
    } else {
      var o' := OrderStep(o, c, Enqueue(Done));
      StepKeepsShape(o, c, Enqueue(Done));
      es := CanStillChange(o', c);
      OneMore(o, c, Enqueue(Done), es);
      es := [Enqueue(Done)] + es;
    }
  }

  lemma FinalIff(o: Order, c: Config)
    requires c.maxRetries >= 1 && OrderInv(o, c) && o.row.Some?
    ensures StaysForever(o, c) <==> RowIsFinal(o)
  {
    if RowIsFinal(o) {
      forall es | OrderRuns(o, c, es)
        ensures OrderAfter(o, c, es).row == o.row
      {
        FinalStays(o, c, es);
      }
    } else {
      var es := OthersChange(o, c);
    }
  }

  /** In every reachable state a row stays as it is in every continuation of its order if
      and only if it is FAILED, its job is over, or it was orphaned by a failed enqueue;
      so a CONFIRMED row is final exactly when its job is completed or exhausted. */
  lemma RowIsFinalIff(c: Config, ms: seq<Move>, id: nat)
    requires c.maxRetries >= 1 && Runs(Init(), c, ms)
    requires id < |After(Init(), c, ms).orders| && After(Init(), c, ms).orders[id].row.Some?
    ensures var o := After(Init(), c, ms).orders[id];
            && (StaysForever(o, c) <==> RowIsFinal(o))
            && (o.row.value.status == CONFIRMED ==> (StaysForever(o, c) <==> Over(o)))
  {
    InvReached(c, ms);
    var o := After(Init(), c, ms).orders[id];
    assert OrderOk(o, c);
    FinalIff(o, c);
    if o.row.value.status == CONFIRMED {
      ConfirmedHasJob(o, c);
    }
  }

  lemma ConfirmedHasJob(o: Order, c: Config)
    requires OrderInv(o, c) && o.row.Some? && o.row.value.status == CONFIRMED
    ensures o.job.Some?
  {
    var past, cur, tail :| Shape(o, c, past, cur, tail);
  }

  /** The last step of a confirmed attempt: it completes the job exactly when it returns. */
  lemma AnnouncingEnds(o: Order, c: Config, r: Reply)
    requires PcOf(o) == Some(PublishConfirmed) && o.row.Some? && Fits(PublishConfirmed, r)
    ensures Enabled(o, Await(r))
    ensures AwaitStep(o, c, r).row == o.row && AwaitStep(o, c, r).job.Some?
    ensures Over(AwaitStep(o, c, r)) <==> r.Done?
  {
  }

  /** A CONFIRMED row is final exactly when the publication right after the write comes
      back: if it throws, delivered or not, some run from there takes the row on to
      FAILED or back to ROUTING. */
  lemma ConfirmedIsFinalIffAnnounced(o: Order, c: Config, r: Reply)
    requires c.maxRetries >= 1 && OrderInv(o, c)
    requires PcOf(o) == Some(PublishConfirmed) && Fits(PublishConfirmed, r)
    ensures Enabled(o, Await(r))
    ensures AwaitStep(o, c, r).row == o.row && o.row.Some? && o.row.value.status == CONFIRMED
    ensures StaysForever(AwaitStep(o, c, r), c) <==> r.Done?
  {
    CompletedIsConfirmed(o, c);
    AnnouncingEnds(o, c, r);
    StepKeepsShape(o, c, Await(r));
    FinalIff(AwaitStep(o, c, r), c);
  }

  // ---- Announcements ----

  /** In every reachable state the terminal announcements made so far are no more
      than the terminal entries written so far: none precedes its write. */
  lemma AnnouncementsFollowWrites(c: Config, ms: seq<Move>, id: nat)
    requires c.maxRetries >= 1 && Runs(Init(), c, ms) && id < |After(Init(), c, ms).orders|
    ensures var o := After(Init(), c, ms).orders[id];
            && Announced(o.published, CONFIRMED) <= Count(Logs(o), CONFIRMED)
            && Announced(o.published, FAILED) <= Count(Logs(o), FAILED)
  {
    InvReached(c, ms);
    assert OrderOk(After(Init(), c, ms).orders[id], c);
  }

  /** No terminal write or publication throws along the run. */
  predicate Undisturbed(s: State, c: Config, ms: seq<Move>)
    requires Runs(s, c, ms)
    decreases |ms|
  {
    ms == []
    || (!(ms[0].On? && TerminalThrow(s.orders[ms[0].id], ms[0].event)) && Undisturbed(Step(s, c, ms[0]), c, ms[1..]))
  }

  lemma MoveOutcomes(s: State, c: Config, m: Move)
    requires Inv(s, c) && CanMove(s, m) && !(m.On? && TerminalThrow(s.orders[m.id], m.event))
    requires forall i :: 0 <= i < |s.orders| ==> OneOutcome(s.orders[i])
    ensures forall i :: 0 <= i < |Step(s, c, m).orders| ==> OneOutcome(Step(s, c, m).orders[i])
  {
    if m.On? {
      assert OrderOk(s.orders[m.id], c);
      StepKeepsOutcome(s.orders[m.id], c, m.event);
    }
  }

  lemma {:induction false} RunOutcomes(s: State, c: Config, ms: seq<Move>)
    requires c.maxRetries >= 1 && Inv(s, c) && Runs(s, c, ms) && Undisturbed(s, c, ms)
    requires forall i :: 0 <= i < |s.orders| ==> OneOutcome(s.orders[i])
    ensures forall i :: 0 <= i < |After(s, c, ms).orders| ==> OneOutcome(After(s, c, ms).orders[i])
    decreases |ms|
  {
    if ms != [] {
      MoveOutcomes(s, c, ms[0]);
      InvStep(s, c, ms[0]);
      RunOutcomes(Step(s, c, ms[0]), c, ms[1..]);
    }
  }

  /** In a run where no terminal write or publication throws, every order gets at most one
      terminal entry and at most one terminal announcement, and that after the entry. */
  lemma OutcomeAnnouncedOnce(c: Config, ms: seq<Move>, id: nat)
    requires c.maxRetries >= 1 && Runs(Init(), c, ms) && Undisturbed(Init(), c, ms)
    requires id < |After(Init(), c, ms).orders|
    ensures var o := After(Init(), c, ms).orders[id];
            && Count(Logs(o), CONFIRMED) + Count(Logs(o), FAILED) <= 1
            && Announced(o.published, CONFIRMED) <= Count(Logs(o), CONFIRMED)
            && Announced(o.published, FAILED) <= Count(Logs(o), FAILED)
  {
    RunOutcomes(Init(), c, ms);
    AnnouncementsFollowWrites(c, ms, id);
    assert OneOutcome(After(Init(), c, ms).orders[id]);
  }

  // ---- Termination ----

  /** The worker and queue steps a run takes for one order. */
  function JobSteps(ms: seq<Move>, id: nat): nat
  {
    if ms == [] then 0 else One(ms[0].On? && ms[0].id == id && WorkerStep(ms[0].event)) + JobSteps(ms[1..], id)
  }

  lemma {:induction false} StepsBounded(s: State, c: Config, ms: seq<Move>, id: nat)
    requires c.maxRetries >= 1 && Inv(s, c) && Runs(s, c, ms) && id < |s.orders|
    requires 0 <= Measure(s.orders[id], c)
    ensures JobSteps(ms, id) <= Measure(s.orders[id], c)
    decreases |ms|
  {
    if ms != [] {
      InvStep(s, c, ms[0]);
      if ms[0].On? && ms[0].id == id {
        assert OrderOk(s.orders[id], c);
        StepLowersMeasure(s.orders[id], c, ms[0].event);
      }
      StepsBounded(Step(s, c, ms[0]), c, ms[1..], id);
    }
  }

  /** Whatever the interleaving and whatever fails, a job takes at most 15 steps per
      allowed attempt from the moment it is enqueued. */
  lemma JobsTerminate(c: Config, ms: seq<Move>, ns: seq<Move>, id: nat)
    requires c.maxRetries >= 1 && Runs(Init(), c, ms) && id < |After(Init(), c, ms).orders|
    requires After(Init(), c, ms).orders[id].job.None?
    requires Runs(After(Init(), c, ms), c, ns)
    ensures JobSteps(ns, id) <= 15 * c.maxRetries
  {
    InvReached(c, ms);
    StepsBounded(After(Init(), c, ms), c, ns, id);
  }

  /** In every reachable state a job has made at most MAX_RETRIES attempts and started
      at most that many swaps; each SUBMITTED entry has a swap of its own that was not
      abandoned; and a job that is over is either completed, with its row CONFIRMED, or
      has used all its attempts, its row FAILED exactly when a failure write took effect. */
  lemma AttemptsBounded(c: Config, ms: seq<Move>, id: nat)
    requires c.maxRetries >= 1 && Runs(Init(), c, ms) && id < |After(Init(), c, ms).orders|
    requires After(Init(), c, ms).orders[id].job.Some?
    ensures var o := After(Init(), c, ms).orders[id];
            var job := o.job.value;
            && job.attemptsMade <= c.maxRetries && job.swaps <= c.maxRetries
            && Count(Logs(o), SUBMITTED) + job.abandoned <= job.swaps
            && (job.phase.Completed? ==> o.row.Some? && o.row.value.status == CONFIRMED)
            && (job.phase.Exhausted? ==>
                  && job.attemptsMade == c.maxRetries && o.row.Some?
                  && (o.row.value.status == FAILED <==> Count(Logs(o), FAILED) > 0))
  {
    InvReached(c, ms);
    var o := After(Init(), c, ms).orders[id];
    assert OrderOk(o, c);
    JobLimits(o, c);
    if o.job.value.phase.Completed? {
      CompletedIsConfirmed(o, c);
    }
  }

  lemma JobLimits(o: Order, c: Config)
    requires OrderOk(o, c) && o.job.Some?
    ensures o.job.value.attemptsMade <= c.maxRetries && o.job.value.swaps <= c.maxRetries
    ensures o.job.value.phase.Exhausted? ==>
              && o.job.value.attemptsMade == c.maxRetries && o.row.Some?
              && (o.row.value.status == FAILED <==> Count(Logs(o), FAILED) > 0)
  {
    var past, cur, tail :| Shape(o, c, past, cur, tail);
    if o.job.value.phase.Exhausted? {
      NotFailedYet(c, o.request, o.row.value, past, cur, tail);
      FailedCounted(c, o.request, o.row.value.logs, past, cur, tail);
    }
  }

  /** The log holds a FAILED entry exactly when it ends in one. */
  lemma FailedCounted(c: Config, request: Request, logs: seq<LogEntry>,
                      past: seq<Attempt>, cur: Attempt, tail: seq<LogEntry>)
    requires LogIs(c, request, logs, past, cur, tail)
    ensures Count(logs, FAILED) > 0 <==> tail != []
  {
    NoFailedBlocks(c, request, past);
    if tail == [] {
      forall entry | entry in logs
        ensures entry.stage != FAILED
      {
        assert entry == Opening() || entry in Blocks(past) || entry in Block(cur);
      }
      NoneCounted(logs, FAILED);
    } else {
      assert logs[|logs| - 1] == tail[0];
    }
  }

  lemma {:induction false} NoneCounted(logs: seq<LogEntry>, stage: Status)
    requires forall entry :: entry in logs ==> entry.stage != stage
    ensures Count(logs, stage) == 0
  {
    if logs != [] {
      NoneCounted(logs[..|logs| - 1], stage);
    }
  }

  lemma {:induction false} RunHashes(s: State, c: Config, ms: seq<Move>)
    requires Runs(s, c, ms) && forall i :: 0 <= i < |s.orders| ==> HashesWaited(s.orders[i])
    ensures forall i :: 0 <= i < |After(s, c, ms).orders| ==> HashesWaited(After(s, c, ms).orders[i])
    decreases |ms|
  {
    if ms != [] {
      if ms[0].On? {
        StepKeepsHashes(s.orders[ms[0].id], c, ms[0].event);
      }
      RunHashes(Step(s, c, ms[0]), c, ms[1..]);
    }
  }

  /** An abandoned swap may go through later, but whenever it does, its hash is in no log
      entry and not in the row: only a swap that was waited for can have put it there. */
  lemma AbandonedLeavesNoTrace(c: Config, ms: seq<Move>, id: nat, tx: nat)
    requires Runs(Init(), c, ms) && id < |After(Init(), c, ms).orders|
    requires var o := After(Init(), c, ms).orders[id];
             o.job.Some? && tx in o.job.value.late && tx !in o.job.value.hashes
    ensures var o := After(Init(), c, ms).orders[id];
            && (forall entry :: entry in Logs(o) ==> entry.txHash != Some(tx))
            && (o.row.Some? ==> o.row.value.txHash != Some(tx))
            && |o.job.value.late| <= o.job.value.abandoned
  {
    RunHashes(Init(), c, ms);
    assert HashesWaited(After(Init(), c, ms).orders[id]);
  }

  // ---- Conservation ----

  function IsCreated(o: Order): int { One(o.row.Some?) }
  function IsMidSubmit(o: Order): int { One(o.row.Some? && o.submission.Enqueuing?) }
  function IsEnqueued(o: Order): int { One(o.job.Some?) }
  function IsOrphaned(o: Order): int { One(o.row.Some? && o.job.None? && o.submission.Rejected?) }
  function IsQueuedOrOrphaned(o: Order): int { IsEnqueued(o) + IsOrphaned(o) }
  function IsUncounted(o: Order): int { One(o.submission.CountTotal?) }
  function IsUnacknowledged(o: Order): int { One(o.job.Some? && o.submission.Rejected?) }
  function IsUncountedOrUnacknowledged(o: Order): int { IsUncounted(o) + IsUnacknowledged(o) }
  function ConfirmedEntries(o: Order): int { Count(Logs(o), CONFIRMED) }
  function FailedEntries(o: Order): int { Count(Logs(o), FAILED) }
  function ConfirmedPending(o: Order): int { Lost(o, CONFIRMED) + One(Uncounted(o) == Some(CONFIRMED)) }
  function FailedPending(o: Order): int { Lost(o, FAILED) + One(Uncounted(o) == Some(FAILED)) }

  /** The created orders are partitioned into those still in submission, those in the
      queue and those orphaned by a failed enqueue; orders_total counts the queued ones
      up to increments in flight and lost replies; orders_completed and orders_failed
      count the CONFIRMED and FAILED entries over all orders, re-runs included, up to
      the same. */
  lemma Conservation(c: Config, ms: seq<Move>)
    requires c.maxRetries >= 1 && Runs(Init(), c, ms)
    ensures var s := After(Init(), c, ms);
            && Sum(s.orders, IsCreated)
               == Sum(s.orders, IsMidSubmit) + (Sum(s.orders, IsEnqueued) + Sum(s.orders, IsOrphaned))
            && Sum(s.orders, IsEnqueued)
               == s.total + (Sum(s.orders, IsUncounted) + Sum(s.orders, IsUnacknowledged))
            && Sum(s.orders, ConfirmedEntries) == s.completed + Sum(s.orders, ConfirmedPending)
            && Sum(s.orders, FailedEntries) == s.failed + Sum(s.orders, FailedPending)
  {
    InvReached(c, ms);
    var s := After(Init(), c, ms);
    forall i | 0 <= i < |s.orders|
      ensures IsCreated(s.orders[i]) == IsMidSubmit(s.orders[i]) + IsQueuedOrOrphaned(s.orders[i])
      ensures IsEnqueued(s.orders[i]) == IsAccepted(s.orders[i]) + IsUncountedOrUnacknowledged(s.orders[i])
    {
      assert OrderOk(s.orders[i], c);
      Partition(s.orders[i], c);
    }
    SumAdds(s.orders, IsCreated, IsMidSubmit, IsQueuedOrOrphaned);
    SumAdds(s.orders, IsQueuedOrOrphaned, IsEnqueued, IsOrphaned);
    SumAdds(s.orders, IsEnqueued, IsAccepted, IsUncountedOrUnacknowledged);
    SumAdds(s.orders, IsUncountedOrUnacknowledged, IsUncounted, IsUnacknowledged);
    SumAdds(s.orders, ConfirmedEntries, CompletedCredit, ConfirmedPending);
    SumAdds(s.orders, FailedEntries, FailedCredit, FailedPending);
  }

  lemma Partition(o: Order, c: Config)
    requires OrderInv(o, c)
    ensures IsCreated(o) == IsMidSubmit(o) + IsQueuedOrOrphaned(o)
    ensures IsEnqueued(o) == IsAccepted(o) + IsUncountedOrUnacknowledged(o)
  {
  }
}

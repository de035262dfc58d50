/** The shape of an order's log, and what its row's columns say, in every state an
    order can reach. */
module LogShape {
  import opened DexRouter
  import opened Options
  import opened Orders
  import opened Pipeline

  /** What one attempt has logged: the first n entries of a full block. */
  datatype Attempt = Attempt(n: nat, routing: Routing, txHash: nat, price: int)

  /** The entry a row begins with. */
  function Opening(): LogEntry { LogEntry(PENDING, None, None, None, None, None, None) }

  function FullBlock(a: Attempt): (b: seq<LogEntry>)
    ensures |b| == 5
  {
    [LogEntry(ROUTING, None, None, None, None, None, None),
     LogEntry(ROUTING, Some(a.routing), None, None, None, None, None),
     LogEntry(BUILDING, None, None, None, None, None, None),
     LogEntry(SUBMITTED, None, Some(a.txHash), None, None, None, None),
     LogEntry(CONFIRMED, None, Some(a.txHash), Some(a.price), None, None, None)]
  }

  /** The entry of a failure, which is always that of the last attempt. */
  predicate IsFailure(entry: LogEntry, c: Config)
  {
    entry == LogEntry(FAILED, None, None, None, entry.reason, Some(c.maxRetries), Some(c.maxRetries))
    && entry.reason.Some?
  }

  function Block(a: Attempt): seq<LogEntry>
  {
    if a.n <= 5 then FullBlock(a)[..a.n] else []
  }

  function Blocks(attempts: seq<Attempt>): seq<LogEntry>
  {
    if attempts == [] then []
    else Blocks(attempts[..|attempts| - 1]) + Block(attempts[|attempts| - 1])
  }

  /** An attempt's venue is the router's choice, and its price passed the check
      before anything was submitted. */
  ghost predicate Good(c: Config, request: Request, a: Attempt)
  {
    && a.n <= 5
    && (a.n >= 2 ==> a.routing == Choose(c, a.routing.raydium, a.routing.meteora))
    && (a.n >= 4 ==> SwapPassed(c, request, a.routing, a.price))
  }

  /** What the attempt has logged when it is suspended at pc. */
  ghost predicate Reached(c: Config, request: Request, a: Attempt, pc: Pc)
  {
    match pc
    case PublishRouting => a.n == 0
    case WriteRouting => a.n == 0
    case FetchQuotes => a.n == 1
    case WriteQuotes(_, _) => a.n == 1
    case WriteBuilding(routing) => a.n == 2 && a.routing == routing
    case Swap(routing) => a.n == 3 && a.routing == routing
    case WriteSubmitted(routing, _, price) =>
      a.n == 3 && a.routing == routing && SwapPassed(c, request, routing, price)
    case WriteConfirmed(routing, tx, price) =>
      a.n == 4 && a.routing == routing && a.txHash == tx && a.price == price
    case CountCompleted => a.n == 5
    case PublishConfirmed => a.n == 5
    case _ => true
  }

  ghost predicate PhaseOk(request: Request, job: Job, c: Config, cur: Attempt, tail: seq<LogEntry>)
  {
    match job.phase
    case Waiting => job.attemptsMade < c.maxRetries && cur.n == 0 && tail == []
    case Delayed => job.attemptsMade < c.maxRetries && cur.n == 0 && tail == []
    case Completed => job.attemptsMade < c.maxRetries && cur.n == 5 && tail == []
    case Exhausted => job.attemptsMade == c.maxRetries && cur.n == 0
    case Active(pc) =>
      && job.attemptsMade < c.maxRetries
      && Reached(c, request, cur, pc)
      && (pc.WriteFailed? || pc.CountFailed? || pc.PublishFailed? ==> job.attemptsMade + 1 == c.maxRetries)
      && (pc.PublishPending? ==> job.attemptsMade + 1 < c.maxRetries)
      && (tail != [] <==> pc.CountFailed? || pc.PublishFailed?)
  }

  /** PENDING, one block for every attempt, then FAILED at most once. */
  ghost predicate LogIs(c: Config, request: Request, logs: seq<LogEntry>,
                        past: seq<Attempt>, cur: Attempt, tail: seq<LogEntry>)
  {
    && logs == [Opening()] + Blocks(past) + Block(cur) + tail
    && (forall a :: a in past ==> Good(c, request, a))
    && Good(c, request, cur)
    && (tail == [] || (|tail| == 1 && IsFailure(tail[0], c)))
  }

  /** How far the job is in its attempts. */
  ghost predicate JobIs(o: Order, c: Config, past: seq<Attempt>, cur: Attempt, tail: seq<LogEntry>)
  {
    && (o.job.None? ==> past == [] && cur.n == 0 && tail == [])
    && (o.job.Some? ==> |past| == o.job.value.attemptsMade && PhaseOk(o.request, o.job.value, c, cur, tail))
  }

  /** The columns the current attempt's routing decision wrote. */
  ghost predicate RoutedAs(row: Row, routing: Routing)
  {
    && row.raydiumQuote == Some(routing.raydium)
    && row.meteoraQuote == Some(routing.meteora)
    && row.dexUsed == Some(routing.selected)
  }

  ghost predicate ConfirmedAs(c: Config, request: Request, row: Row, a: Attempt)
  {
    && a.n == 5 && Good(c, request, a)
    && |row.logs| >= 5 && row.logs[|row.logs| - 5..] == Block(a)
    && RoutedAs(row, a.routing)
    && row.txHash == Some(a.txHash)
    && row.amountOut == Some(AmountOut(request, a.price))
  }

  /** The status is the last entry's stage, the failure reason is the one a FAILED entry
      gives, and a CONFIRMED row's columns all come from the attempt that ends its log. */
  ghost predicate RowOk(c: Config, request: Request, row: Row)
  {
    && row.logs != [] && row.status == row.logs[|row.logs| - 1].stage
    && row.failureReason == (if row.status == FAILED then row.logs[|row.logs| - 1].reason else None)
    && (row.failureReason.Some? <==> row.status == FAILED)
    && (row.status == CONFIRMED ==> exists a :: ConfirmedAs(c, request, row, a))
  }

  ghost predicate RowIs(c: Config, request: Request, row: Row, past: seq<Attempt>, cur: Attempt, tail: seq<LogEntry>)
  {
    && LogIs(c, request, row.logs, past, cur, tail)
    && RowOk(c, request, row)
    && (cur.n >= 2 ==> RoutedAs(row, cur.routing))
  }

  ghost predicate Shape(o: Order, c: Config, past: seq<Attempt>, cur: Attempt, tail: seq<LogEntry>)
  {
    && o.row.Some?
    && RowIs(c, o.request, o.row.value, past, cur, tail)
    && JobIs(o, c, past, cur, tail)
  }

  ghost predicate OrderInv(o: Order, c: Config)
  {
    && (o.row.None? ==> o.job.None?)
    && (o.row.Some? ==> !o.submission.Inserting?)
    && (o.job.Some? ==> !o.submission.Enqueuing?)
    && (o.submission.Enqueuing? || o.submission.CountTotal? || o.submission.Accepted? ==> o.row.Some?)
    && (o.submission.CountTotal? || o.submission.Accepted? ==> o.job.Some?)
    && (o.row.Some? ==> exists past, cur, tail :: Shape(o, c, past, cur, tail))
  }

  // ---- What a step does to the row ----

  function Fresh(): Attempt { Attempt(0, Routing(0, 0, Raydium), 0, 0) }

  lemma BlocksAppend(past: seq<Attempt>, a: Attempt)
    ensures Blocks(past + [a]) == Blocks(past) + Block(a)
  {
    assert (past + [a])[..|past|] == past;
  }

  /** The attempt after the write it is suspended in has taken effect. */
  function Wrote(c: Config, cur: Attempt, pc: Pc): Attempt
  {
    match pc
    case WriteRouting => cur.(n := 1)
    case WriteQuotes(r, m) => cur.(n := 2, routing := Choose(c, r, m))
    case WriteBuilding(_) => cur.(n := 3)
    case WriteSubmitted(_, tx, price) => cur.(n := 4, txHash := tx, price := price)
    case WriteConfirmed(_, _, _) => cur.(n := 5)
    case _ => cur
  }

  predicate Writes(pc: Pc)
  {
    pc.WriteRouting? || pc.WriteQuotes? || pc.WriteBuilding? || pc.WriteSubmitted? || pc.WriteConfirmed?
  }

  /** A write of the attempt adds the block's next entry to the log. */
  lemma WriteAddsEntry(c: Config, o: Order, cur: Attempt, pc: Pc)
    requires o.row.Some? && o.job.Some? && Writes(pc)
    requires Reached(c, o.request, cur, pc) && Good(c, o.request, cur)
    ensures var w := Wrote(c, cur, pc);
            && Good(c, o.request, w) && w.n == cur.n + 1
            && Block(w) == Block(cur) + [FullBlock(w)[cur.n]]
            && Effect(c, o, pc).row.Some?
            && Effect(c, o, pc).row.value.logs == o.row.value.logs + [FullBlock(w)[cur.n]]
  {
    var w := Wrote(c, cur, pc);
    assert FullBlock(cur)[..cur.n] == FullBlock(w)[..cur.n];
  }

  lemma WriteKeepsLog(c: Config, o: Order, past: seq<Attempt>, cur: Attempt, pc: Pc)
    requires o.row.Some? && o.job.Some? && Writes(pc)
    requires Reached(c, o.request, cur, pc)
    requires LogIs(c, o.request, o.row.value.logs, past, cur, [])
    ensures Effect(c, o, pc).row.Some?
    ensures LogIs(c, o.request, Effect(c, o, pc).row.value.logs, past, Wrote(c, cur, pc), [])
  {
    var w, row, row' := Wrote(c, cur, pc), o.row.value, Effect(c, o, pc).row.value;
    WriteAddsEntry(c, o, cur, pc);
    var head := [Opening()] + Blocks(past);
    assert row.logs == head + Block(cur);
    assert row'.logs == head + Block(w);
    assert row'.logs == head + Block(w) + [];
  }

  lemma ConfirmedWrite(c: Config, o: Order, past: seq<Attempt>, cur: Attempt, pc: Pc)
    requires o.row.Some? && o.job.Some? && pc.WriteConfirmed? && Reached(c, o.request, cur, pc)
    requires Good(c, o.request, cur) && RoutedAs(o.row.value, cur.routing)
    requires LogIs(c, o.request, Effect(c, o, pc).row.value.logs, past, Wrote(c, cur, pc), [])
    ensures ConfirmedAs(c, o.request, Effect(c, o, pc).row.value, Wrote(c, cur, pc))
  {
    var w, row' := Wrote(c, cur, pc), Effect(c, o, pc).row.value;
    assert row'.logs == [Opening()] + Blocks(past) + Block(w);
    assert row'.logs[|row'.logs| - 5..] == Block(w);
  }

  lemma WriteKeepsRow(c: Config, o: Order, past: seq<Attempt>, cur: Attempt, pc: Pc)
    requires o.row.Some? && o.job.Some? && Writes(pc)
    requires Reached(c, o.request, cur, pc)
    requires RowIs(c, o.request, o.row.value, past, cur, [])
    requires o.row.value.status != FAILED
    ensures Effect(c, o, pc).row.Some?
    ensures RowIs(c, o.request, Effect(c, o, pc).row.value, past, Wrote(c, cur, pc), [])
  {
    WriteKeepsLog(c, o, past, cur, pc);
    if pc.WriteConfirmed? { ConfirmedWrite(c, o, past, cur, pc); }
  }

  lemma FailureKeepsRow(c: Config, o: Order, past: seq<Attempt>, cur: Attempt, reason: string)
    requires o.row.Some? && o.job.Some? && o.job.value.attemptsMade + 1 == c.maxRetries
    requires RowIs(c, o.request, o.row.value, past, cur, [])
    ensures var row' := Effect(c, o, WriteFailed(reason)).row.value;
            RowIs(c, o.request, row', past, cur, [FailedEntry(reason, o.job.value.attemptsMade + 1, c.maxRetries)])
  {
  }

  /** The log without a FAILED entry does not end in one. */
  lemma {:induction false} NoFailedBlocks(c: Config, request: Request, past: seq<Attempt>)
    requires forall a :: a in past ==> Good(c, request, a)
    ensures forall entry :: entry in Blocks(past) ==> entry.stage != FAILED
  {
    if past != [] {
      NoFailedBlocks(c, request, past[..|past| - 1]);
    }
  }

  lemma NotFailedYet(c: Config, request: Request, row: Row, past: seq<Attempt>, cur: Attempt, tail: seq<LogEntry>)
    requires RowIs(c, request, row, past, cur, tail)
    ensures row.status == FAILED <==> tail != []
  {
    NoFailedBlocks(c, request, past);
    var last := row.logs[|row.logs| - 1];
    if tail == [] {
      assert last in [Opening()] + Blocks(past) + Block(cur);
      assert last == Opening() || last in Blocks(past) || last in Block(cur);
    } else {
      assert last == tail[0];
    }
  }

  lemma EndsBlock(c: Config, request: Request, logs: seq<LogEntry>,
                  past: seq<Attempt>, cur: Attempt, tail: seq<LogEntry>)
    requires LogIs(c, request, logs, past, cur, tail)
    ensures LogIs(c, request, logs, past + [cur], Fresh(), tail)
  {
    BlocksAppend(past, cur);
    Regroup([Opening()], Blocks(past), Block(cur), tail);
    assert Block(Fresh()) == [];
  }

  lemma Regroup(a: seq<LogEntry>, b: seq<LogEntry>, d: seq<LogEntry>, e: seq<LogEntry>)
    ensures a + b + d + e == a + (b + d) + [] + e
  {
    assert a + b + d == a + (b + d) + [];
  }

  /** An attempt that ends becomes one more past attempt. */
  lemma EndsAttempt(c: Config, request: Request, row: Row, past: seq<Attempt>, cur: Attempt, tail: seq<LogEntry>)
    requires RowIs(c, request, row, past, cur, tail)
    ensures RowIs(c, request, row, past + [cur], Fresh(), tail)
  {
    EndsBlock(c, request, row.logs, past, cur, tail);
  }

  // ---- Every step keeps the shape ----

  lemma CaughtOk(request: Request, job: Job, c: Config, cur: Attempt, reason: string)
    requires job.attemptsMade < c.maxRetries
    ensures PhaseOk(request, Caught(job, c, reason), c, cur, [])
  {
  }

  lemma RethrownOk(request: Request, job: Job, c: Config, tail: seq<LogEntry>)
    requires job.attemptsMade < c.maxRetries
    requires tail != [] ==> job.attemptsMade + 1 == c.maxRetries
    ensures PhaseOk(request, Rethrown(job, c), c, Fresh(), tail)
  {
  }

  predicate Reporting(pc: Pc) { pc.WriteFailed? || pc.PublishFailed? || pc.PublishPending? }

  /** An await of the attempt proper leads to the attempt's next step or to the catch block. */
  lemma AttemptJob(c: Config, o: Order, r: Reply, cur: Attempt)
    requires Enabled(o, Await(r)) && !Reporting(o.job.value.phase.pc)
    requires PhaseOk(o.request, o.job.value, c, cur, [])
    ensures var pc := o.job.value.phase.pc;
            var job' := AwaitStep(o, c, r).job.value;
            && job'.attemptsMade == o.job.value.attemptsMade
            && PhaseOk(o.request, job', c, if Applied(r) then Wrote(c, cur, pc) else cur, [])
  {
    var pc := o.job.value.phase.pc;
    if r.Threw? {
      CaughtOk(o.request, o.job.value, c, if r.applied then Wrote(c, cur, pc) else cur, r.reason);
    } else if pc.Swap? {
      CaughtOk(o.request, o.job.value, c, cur, "Slippage exceeded");
    }
  }

  lemma AttemptRow(c: Config, o: Order, r: Reply, past: seq<Attempt>, cur: Attempt)
    requires Enabled(o, Await(r)) && !Reporting(o.job.value.phase.pc)
    requires Reached(c, o.request, cur, o.job.value.phase.pc)
    requires RowIs(c, o.request, o.row.value, past, cur, [])
    ensures AwaitStep(o, c, r).row.Some?
    ensures RowIs(c, o.request, AwaitStep(o, c, r).row.value, past,
                  if Applied(r) then Wrote(c, cur, o.job.value.phase.pc) else cur, [])
  {
    var pc := o.job.value.phase.pc;
    AttemptEffect(c, o, r);
    if Writes(pc) {
      NotFailedYet(c, o.request, o.row.value, past, cur, []);
      WriteKeepsRow(c, o, past, cur, pc);
    }
  }

  /** Of the attempt's own awaits only the writes touch the row, and only if they take effect. */
  lemma AttemptEffect(c: Config, o: Order, r: Reply)
    requires Enabled(o, Await(r)) && !Reporting(o.job.value.phase.pc)
    ensures var pc := o.job.value.phase.pc;
            && AwaitStep(o, c, r).row == (if Applied(r) then Effect(c, o, pc).row else o.row)
            && (!Writes(pc) ==> Effect(c, o, pc).row == o.row && Wrote(c, Fresh(), pc) == Fresh())
  {
  }

  /** The attempt has thrown for good: it becomes one more past attempt. */
  lemma Throws(c: Config, o: Order, o': Order, past: seq<Attempt>, cur: Attempt, tail: seq<LogEntry>)
    requires o'.row.Some? && o.job.Some? && o'.job == Some(Rethrown(o.job.value, c))
    requires o.job.value.attemptsMade == |past| < c.maxRetries
    requires tail != [] ==> |past| + 1 == c.maxRetries
    requires RowIs(c, o'.request, o'.row.value, past, cur, tail)
    ensures Shape(o', c, past + [cur], Fresh(), tail)
  {
    EndsAttempt(c, o'.request, o'.row.value, past, cur, tail);
    RethrownOk(o'.request, o.job.value, c, tail);
  }

  lemma FailureRecorded(o: Order, c: Config, r: Reply, past: seq<Attempt>, cur: Attempt) returns (tail: seq<LogEntry>)
    requires Enabled(o, Await(r)) && o.job.value.phase.pc.WriteFailed?
    requires o.job.value.attemptsMade + 1 == c.maxRetries
    requires RowIs(c, o.request, o.row.value, past, cur, [])
    ensures tail != [] <==> Applied(r)
    ensures RowIs(c, o.request, AwaitStep(o, c, r).row.value, past, cur, tail)
  {
    FailureKeepsRow(c, o, past, cur, o.job.value.phase.pc.reason);
    tail := if Applied(r)
      then [FailedEntry(o.job.value.phase.pc.reason, o.job.value.attemptsMade + 1, c.maxRetries)]
      else [];
  }

  /** A failure record that came back is counted next; any other report is the attempt's last step. */
  lemma FailureJob(o: Order, c: Config, r: Reply)
    requires Enabled(o, Await(r)) && Reporting(o.job.value.phase.pc)
    ensures var job, o' := o.job.value, AwaitStep(o, c, r);
            && o'.request == o.request
            && (!job.phase.pc.WriteFailed? ==> o'.row == o.row)
            && o'.job == Some(if job.phase.pc.WriteFailed? && r.Done? then At(job, CountFailed) else Rethrown(job, c))
  {
  }

  /** The failure record, then its announcement; or the announcement of a retry. */
  lemma FailureStep(o: Order, c: Config, r: Reply, past: seq<Attempt>, cur: Attempt, tail: seq<LogEntry>)
    requires Enabled(o, Await(r)) && Reporting(o.job.value.phase.pc)
    requires Shape(o, c, past, cur, tail)
    ensures exists past', cur', tail' :: Shape(AwaitStep(o, c, r), c, past', cur', tail')
  {
    var o', pc := AwaitStep(o, c, r), o.job.value.phase.pc;
    FailureJob(o, c, r);
    var tail' := tail;
    if pc.WriteFailed? {
      tail' := FailureRecorded(o, c, r, past, cur);
    }
    if pc.WriteFailed? && r.Done? {
      assert Shape(o', c, past, cur, tail');
    } else {
      Throws(c, o, o', past, cur, tail');
    }
  }

  lemma AttemptStep(o: Order, c: Config, r: Reply, past: seq<Attempt>, cur: Attempt)
    requires Enabled(o, Await(r)) && !Reporting(o.job.value.phase.pc)
    requires Shape(o, c, past, cur, [])
    ensures Shape(AwaitStep(o, c, r), c, past,
                  if Applied(r) then Wrote(c, cur, o.job.value.phase.pc) else cur, [])
  {
    AttemptJob(c, o, r, cur);
    AttemptRow(c, o, r, past, cur);
  }

  lemma AwaitShape(o: Order, c: Config, r: Reply, past: seq<Attempt>, cur: Attempt, tail: seq<LogEntry>)
    requires Enabled(o, Await(r)) && Shape(o, c, past, cur, tail)
    ensures exists past', cur', tail' :: Shape(AwaitStep(o, c, r), c, past', cur', tail')
  {
    if Reporting(o.job.value.phase.pc) {
      FailureStep(o, c, r, past, cur, tail);
    } else {
      AttemptStep(o, c, r, past, cur);
    }
  }

  lemma AwaitKeeps(o: Order, c: Config, r: Reply)
    requires OrderInv(o, c) && Enabled(o, Await(r))
    ensures OrderInv(AwaitStep(o, c, r), c)
  {
    var past, cur, tail :| Shape(o, c, past, cur, tail);
    AwaitShape(o, c, r, past, cur, tail);
  }

  lemma NewRowOk(c: Config, request: Request)
    ensures RowIs(c, request, NewRow(), [], Fresh(), [])
  {
    assert NewRow().logs == [Opening()] + Blocks([]) + Block(Fresh()) + [];
  }

  /** Every step of an order keeps the shape of its log and its row. */
  lemma StepKeepsShape(o: Order, c: Config, e: Event)
    requires c.maxRetries >= 1 && OrderInv(o, c) && Enabled(o, e)
    ensures OrderInv(OrderStep(o, c, e), c)
  {
    if e.Await? {
      AwaitKeeps(o, c, e.reply);
    } else if e.Insert? {
      NewRowOk(c, o.request);
      assert OrderStep(o, c, e).row.Some? ==> Shape(OrderStep(o, c, e), c, [], Fresh(), []);
    } else if o.row.Some? {
      QuietStep(o, c, e);
    }
  }

  lemma QuietJob(o: Order, c: Config, e: Event, past: seq<Attempt>, cur: Attempt, tail: seq<LogEntry>)
    requires c.maxRetries >= 1 && Enabled(o, e) && !e.Await? && !e.Insert?
    requires JobIs(o, c, past, cur, tail)
    ensures JobIs(OrderStep(o, c, e), c, past, cur, tail)
    ensures OrderStep(o, c, e).row == o.row && OrderStep(o, c, e).request == o.request
  {
  }

  /** Queue moves and counter increments leave the row alone. */
  lemma QuietStep(o: Order, c: Config, e: Event)
    requires c.maxRetries >= 1 && OrderInv(o, c) && Enabled(o, e) && o.row.Some?
    requires !e.Await? && !e.Insert?
    ensures OrderInv(OrderStep(o, c, e), c)
  {
    var past, cur, tail :| Shape(o, c, past, cur, tail);
    QuietJob(o, c, e, past, cur, tail);
    assert Shape(OrderStep(o, c, e), c, past, cur, tail);
  }
}

/** Orders from submission to their final attempt: every await is a step whose
    effect and reply may fail separately, and the steps of all orders interleave. */
module Pipeline {
  import opened Options
  import opened Orders

  /** Where an attempt stands: the await it is suspended in, or a counter still to
      be incremented once the reply is in. */
  datatype Pc =
    | PublishRouting
    | WriteRouting
    | FetchQuotes
    | WriteQuotes(raydium: int, meteora: int)
    | WriteBuilding(routing: Routing)
    | Swap(routing: Routing)
    | WriteSubmitted(routing: Routing, txHash: nat, price: int)
    | WriteConfirmed(routing: Routing, txHash: nat, price: int)
    | CountCompleted
    | PublishConfirmed
    | WriteFailed(reason: string)
    | CountFailed
    | PublishFailed
    | PublishPending

  datatype Phase =
    | Waiting
    | Active(pc: Pc)
    | Delayed
    | Completed
    | Exhausted

  /** A queued job. `swaps` and `abandoned` count the swaps it started and those an
      attempt gave up waiting for; `hashes` are the transactions of the swaps waited for,
      `late` those of abandoned swaps that went through all the same. */
  datatype Job = Job(phase: Phase, attemptsMade: nat, swaps: nat, abandoned: nat, hashes: set<nat>, late: seq<nat>)

  datatype Submission = Inserting | Enqueuing | CountTotal | Accepted | Rejected

  /** One order: its submission, its row and its job once they exist, what was
      published about it, and the terminal writes whose reply was lost. */
  datatype Order = Order(
    request: Request,
    submission: Submission,
    row: Option<Row>,
    job: Option<Job>,
    published: seq<Status>,
    lostConfirmed: nat,
    lostFailed: nat)

  /** How an await ends. A call that throws may still have taken effect. */
  datatype Reply =
    | Done
    | Quotes(raydium: int, meteora: int)
    | Swapped(txHash: nat, draw: real)
    | Threw(reason: string, applied: bool)

  datatype Event =
    | Insert(reply: Reply)
    | Enqueue(reply: Reply)
    | Accept
    | Resume
    | Claim
    | Await(reply: Reply)
    | Promote
    | Late(txHash: nat)

  // ---- One order ----

  predicate Applied(r: Reply) { !r.Threw? || r.applied }

  predicate Plain(r: Reply) { r.Done? || r.Threw? }

  predicate Fits(pc: Pc, r: Reply)
  {
    match pc
    case FetchQuotes => r.Threw? || (r.Quotes? && r.raydium > 0 && r.meteora > 0)
    case Swap(_) => r.Threw? || (r.Swapped? && 0.0 <= r.draw < 1.0)
    case CountCompleted => false
    case CountFailed => false
    case _ => Plain(r)
  }

  predicate Enabled(o: Order, e: Event)
  {
    match e
    case Insert(r) => o.submission.Inserting? && o.row.None? && o.job.None? && Plain(r)
    case Enqueue(r) => o.submission.Enqueuing? && o.row.Some? && o.job.None? && Plain(r)
    case Accept => o.submission.CountTotal?
    case Resume => o.job.Some? && o.job.value.phase.Active? && o.job.value.phase.pc in {CountCompleted, CountFailed}
    case Claim => o.job.Some? && o.job.value.phase.Waiting?
    case Await(r) => o.row.Some? && o.job.Some? && o.job.value.phase.Active? && Fits(o.job.value.phase.pc, r)
    case Promote => o.job.Some? && o.job.value.phase.Delayed?
    case Late(_) => o.job.Some? && |o.job.value.late| < o.job.value.abandoned
  }

  function At(job: Job, pc: Pc): Job { job.(phase := Active(pc)) }

  /** The catch block: the last attempt records the failure, any other announces a retry. */
  function Caught(job: Job, c: Config, reason: string): Job
  {
    At(job, if job.attemptsMade + 1 >= c.maxRetries then WriteFailed(reason) else PublishPending)
  }

  /** The attempt has thrown: the queue retries the job while attempts remain. */
  function Rethrown(job: Job, c: Config): Job
  {
    job.(phase := if job.attemptsMade + 1 < c.maxRetries then Delayed else Exhausted,
         attemptsMade := job.attemptsMade + 1)
  }

  /** What the statement or publication the attempt is suspended in does to the order. */
  function Effect(c: Config, o: Order, pc: Pc): Order
    requires o.row.Some? && o.job.Some?
  {
    var row := o.row.value;
    match pc
    case PublishRouting => o.(published := o.published + [ROUTING])
    case WriteRouting => o.(row := Some(WithStatus(row, ROUTING, None)))
    case WriteQuotes(r, m) => o.(row := Some(WithRouting(row, Choose(c, r, m))))
    case WriteBuilding(_) => o.(row := Some(WithStatus(row, BUILDING, None)))
    case WriteSubmitted(_, tx, _) => o.(row := Some(WithStatus(row, SUBMITTED, Some(tx))))
    case WriteConfirmed(_, tx, price) =>
      o.(row := Some(WithConfirmed(row, tx, price, AmountOut(o.request, price))))
    case PublishConfirmed => o.(published := o.published + [CONFIRMED])
    case WriteFailed(reason) => o.(row := Some(WithFailed(row, reason, o.job.value.attemptsMade + 1, c.maxRetries)))
    case PublishFailed => o.(published := o.published + [FAILED])
    case PublishPending => o.(published := o.published + [PENDING])
    case _ => o
  }

  /** Where the job goes when the await ends without throwing. */
  function Next(o: Order, c: Config, r: Reply): Job
    requires Enabled(o, Await(r)) && !r.Threw?
  {
    var job := o.job.value;
    match job.phase.pc
    case PublishRouting => At(job, WriteRouting)
    case WriteRouting => At(job, FetchQuotes)
    case FetchQuotes => At(job, WriteQuotes(r.raydium, r.meteora))
    case WriteQuotes(x, y) => At(job, WriteBuilding(Choose(c, x, y)))
    case WriteBuilding(routing) => At(job, Swap(routing)).(swaps := job.swaps + 1)
    case Swap(routing) =>
      var price := c.router.execute(ExpectedPrice(routing), o.request.slippage, r.draw);
      var job' := job.(hashes := job.hashes + {r.txHash});
      if SwapPassed(c, o.request, routing, price) then At(job', WriteSubmitted(routing, r.txHash, price))
      else Caught(job', c, "Slippage exceeded")
    case WriteSubmitted(routing, tx, price) => At(job, WriteConfirmed(routing, tx, price))
    case WriteConfirmed(_, _, _) => At(job, CountCompleted)
    case PublishConfirmed => job.(phase := Completed)
    case WriteFailed(_) => At(job, CountFailed)
    case _ => Rethrown(job, c)
  }

  /** Where it goes when the await throws: into the catch block, or out of it. */
  function NextThrown(job: Job, c: Config, reason: string): Job
    requires job.phase.Active?
  {
    match job.phase.pc
    case WriteFailed(_) => Rethrown(job, c)
    case PublishFailed => Rethrown(job, c)
    case PublishPending => Rethrown(job, c)
    case Swap(_) => Caught(job, c, reason).(abandoned := job.abandoned + 1)
    case _ => Caught(job, c, reason)
  }

  function AwaitStep(o: Order, c: Config, r: Reply): Order
    requires Enabled(o, Await(r))
  {
    var pc := o.job.value.phase.pc;
    var o' := if Applied(r) then Effect(c, o, pc) else o;
    if !r.Threw? then o'.(job := Some(Next(o, c, r)))
    else o'.(job := Some(NextThrown(o.job.value, c, r.reason)),
             lostConfirmed := o.lostConfirmed + (if r.applied && pc.WriteConfirmed? then 1 else 0),
             lostFailed := o.lostFailed + (if r.applied && pc.WriteFailed? then 1 else 0))
  }

  function OrderStep(o: Order, c: Config, e: Event): Order
    requires Enabled(o, e)
  {
    match e
    case Insert(r) =>
      o.(row := if Applied(r) then Some(NewRow()) else None,
         submission := if r.Threw? then Rejected else Enqueuing)
    case Enqueue(r) =>
      o.(job := if Applied(r) then Some(Job(Waiting, 0, 0, 0, {}, [])) else None,
         submission := if r.Threw? then Rejected else CountTotal)
    case Accept => o.(submission := Accepted)
    case Resume =>
      o.(job := Some(At(o.job.value, if o.job.value.phase.pc.CountCompleted? then PublishConfirmed else PublishFailed)))
    case Claim => o.(job := Some(At(o.job.value, PublishRouting)))
    case Await(r) => AwaitStep(o, c, r)
    case Promote => o.(job := Some(o.job.value.(phase := Waiting)))
    case Late(tx) => o.(job := Some(o.job.value.(late := o.job.value.late + [tx])))
  }
}

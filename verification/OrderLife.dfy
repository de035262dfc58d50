/** What each step of one order keeps, apart from the shape of its log: growth,
    the tallies behind the counters, finality and progress. */
module OrderLife {
  import opened Options
  import opened Orders
  import opened Pipeline
  import opened LogShape

  function Logs(o: Order): seq<LogEntry> { if o.row.Some? then o.row.value.logs else [] }

  /** How many times a status was published. */
  function Announced(published: seq<Status>, status: Status): nat
  {
    if published == [] then 0
    else Announced(published[..|published| - 1], status)
         + (if published[|published| - 1] == status then 1 else 0)
  }

  function One(b: bool): nat { if b then 1 else 0 }

  // ---- Logs and publications only grow ----

  /** A step adds at most one log entry and one publication, and takes nothing back. */
  lemma StepGrows(o: Order, c: Config, e: Event)
    requires Enabled(o, e)
    ensures var o' := OrderStep(o, c, e);
            && o'.request == o.request
            && (Logs(o') == Logs(o) || exists entry :: Logs(o') == Logs(o) + [entry])
            && (o'.published == o.published || exists status :: o'.published == o.published + [status])
            && (o.row.Some? ==> o'.row.Some?)
  {
    if e.Await? && Applied(e.reply) {
      AppliedGrows(c, o, o.job.value.phase.pc);
    } else if e.Insert? && Applied(e.reply) {
      assert Logs(OrderStep(o, c, e)) == Logs(o) + [StatusEntry(PENDING, None)];
    }
  }

  lemma AppliedGrows(c: Config, o: Order, pc: Pc)
    requires o.row.Some? && o.job.Some?
    ensures var o' := Effect(c, o, pc);
            && (Logs(o') == Logs(o) || exists entry :: Logs(o') == Logs(o) + [entry])
            && (o'.published == o.published || exists status :: o'.published == o.published + [status])
            && o'.row.Some?
  {
    var o' := Effect(c, o, pc);
    if Logs(o') != Logs(o) {
      assert Logs(o') == Logs(o) + [o'.row.value.logs[|o.row.value.logs|]];
    }
    if o'.published != o.published {
      assert o'.published == o.published + [o'.published[|o.published|]];
    }
  }

  // ---- Tallies ----

  function PcOf(o: Order): Option<Pc>
  {
    if o.job.Some? && o.job.value.phase.Active? then Some(o.job.value.phase.pc) else None
  }

  /** The terminal status an attempt has written and not yet announced. */
  function Unannounced(o: Order): Option<Status>
  {
    match PcOf(o)
    case Some(CountCompleted) => Some(CONFIRMED)
    case Some(PublishConfirmed) => Some(CONFIRMED)
    case Some(CountFailed) => Some(FAILED)
    case Some(PublishFailed) => Some(FAILED)
    case _ => None
  }

  /** The terminal status an attempt has written and not yet counted. */
  function Uncounted(o: Order): Option<Status>
  {
    match PcOf(o)
    case Some(CountCompleted) => Some(CONFIRMED)
    case Some(CountFailed) => Some(FAILED)
    case _ => None
  }

  predicate Terminal(status: Status) { status == CONFIRMED || status == FAILED }

  /** A terminal status is announced at most once for each time it was written, and
      only after: a publication still to come has its write behind it. */
  ghost predicate AnnouncedAfterWritten(o: Order, status: Status)
  {
    Announced(o.published, status) + One(Unannounced(o) == Some(status)) <= Count(Logs(o), status)
  }

  predicate AwaitsSwap(o: Order)
  {
    o.job.Some? && o.job.value.phase.Active?
    && (o.job.value.phase.pc.Swap? || o.job.value.phase.pc.WriteSubmitted?)
  }

  predicate BeforeSwap(pc: Pc)
  {
    pc.PublishRouting? || pc.WriteRouting? || pc.FetchQuotes? || pc.WriteQuotes? || pc.WriteBuilding?
  }

  /** Every SUBMITTED entry has its own swap, none of them abandoned, and an attempt
      starts at most one swap. */
  ghost predicate SwapsTally(o: Order)
  {
    && (o.job.None? ==> Count(Logs(o), SUBMITTED) == 0)
    && (o.job.Some? ==>
          var job := o.job.value;
          && Count(Logs(o), SUBMITTED) + job.abandoned + One(AwaitsSwap(o)) <= job.swaps
          && job.swaps <= job.attemptsMade
                          + One(job.phase.Completed? || (job.phase.Active? && !BeforeSwap(job.phase.pc))))
  }

  lemma EffectCounts(c: Config, o: Order, pc: Pc, stage: Status)
    requires o.row.Some? && o.job.Some?
    ensures Count(Logs(Effect(c, o, pc)), stage) == Count(Logs(o), stage) + One(Stage(pc) == Some(stage))
    ensures Announced(Effect(c, o, pc).published, stage)
         == Announced(o.published, stage) + One(Announcement(pc) == Some(stage))
  {
    var o' := Effect(c, o, pc);
    var logs, published := o.row.value.logs, o.published;
    if Stage(pc).Some? {
      var entry := o'.row.value.logs[|logs|];
      assert o'.row.value.logs == logs + [entry] && entry.stage == Stage(pc).value;
      CountAppend(logs, entry, stage);
    }
    if Announcement(pc).Some? {
      AnnouncedAppend(published, Announcement(pc).value, stage);
    }
  }

  lemma AnnouncedAppend(published: seq<Status>, last: Status, status: Status)
    ensures Announced(published + [last], status) == Announced(published, status) + One(last == status)
  {
    assert (published + [last])[..|published|] == published;
  }

  /** The stage a write appends, and the status a publication announces. */
  function Stage(pc: Pc): Option<Status>
  {
    match pc
    case WriteRouting => Some(ROUTING)
    case WriteQuotes(_, _) => Some(ROUTING)
    case WriteBuilding(_) => Some(BUILDING)
    case WriteSubmitted(_, _, _) => Some(SUBMITTED)
    case WriteConfirmed(_, _, _) => Some(CONFIRMED)
    case WriteFailed(_) => Some(FAILED)
    case _ => None
  }

  function Announcement(pc: Pc): Option<Status>
  {
    match pc
    case PublishRouting => Some(ROUTING)
    case PublishConfirmed => Some(CONFIRMED)
    case PublishFailed => Some(FAILED)
    case PublishPending => Some(PENDING)
    case _ => None
  }

  lemma AwaitCounts(o: Order, c: Config, r: Reply, stage: Status)
    requires Enabled(o, Await(r))
    ensures var o', pc := AwaitStep(o, c, r), o.job.value.phase.pc;
            && Count(Logs(o'), stage)
               == Count(Logs(o), stage) + One((r.Threw? ==> r.applied) && Stage(pc) == Some(stage))
            && Announced(o'.published, stage)
               == Announced(o.published, stage) + One((r.Threw? ==> r.applied) && Announcement(pc) == Some(stage))
  {
    EffectCounts(c, o, o.job.value.phase.pc, stage);
  }

  lemma NewCounts(stage: Status)
    ensures Count(NewRow().logs, stage) == One(stage == PENDING)
  {
    CountAppend([], StatusEntry(PENDING, None), stage);
    assert NewRow().logs == [] + [StatusEntry(PENDING, None)];
  }

  /** After an await, exactly a write that came back is still to be announced and counted. */
  lemma AwaitAhead(o: Order, c: Config, r: Reply, status: Status)
    requires Enabled(o, Await(r)) && Terminal(status)
    ensures var o', pc := AwaitStep(o, c, r), o.job.value.phase.pc;
            && (Unannounced(o') == Some(status) <==> r.Done? && Stage(pc) == Some(status))
            && (Uncounted(o') == Some(status) <==> r.Done? && Stage(pc) == Some(status))
            && (Unannounced(o) == Some(status) <==> Announcement(pc) == Some(status))
            && Uncounted(o) == None
            && Lost(o', status) == Lost(o, status) + One(r.Threw? && r.applied && Stage(pc) == Some(status))
  {
  }

  lemma StepKeepsAnnounced(o: Order, c: Config, e: Event, status: Status)
    requires Enabled(o, e) && Terminal(status) && AnnouncedAfterWritten(o, status)
    ensures AnnouncedAfterWritten(OrderStep(o, c, e), status)
  {
    if e.Await? {
      AwaitCounts(o, c, e.reply, status);
      AwaitAhead(o, c, e.reply, status);
    } else if e.Insert? {
      NewCounts(status);
    }
  }

  lemma AwaitSwaps(o: Order, c: Config, r: Reply)
    requires Enabled(o, Await(r))
    ensures var o', pc := AwaitStep(o, c, r), o.job.value.phase.pc;
            && o'.job.Some?
            && o'.job.value.swaps == o.job.value.swaps + One(pc.WriteBuilding? && r.Done?)
            && o'.job.value.abandoned == o.job.value.abandoned + One(pc.Swap? && r.Threw?)
            && o'.job.value.attemptsMade
               == o.job.value.attemptsMade + One(!o'.job.value.phase.Active? && !o'.job.value.phase.Completed?)
            && (AwaitsSwap(o') ==> (pc.WriteBuilding? || pc.Swap?) && !r.Threw?)
            && (!AwaitsSwap(o') ==> !pc.WriteBuilding? || r.Threw?)
            && (o'.job.value.phase.Active? && BeforeSwap(o'.job.value.phase.pc) ==>
                  BeforeSwap(pc) && !r.Threw? && !pc.WriteBuilding?)
  {
  }

  lemma StepKeepsSwaps(o: Order, c: Config, e: Event)
    requires Enabled(o, e) && SwapsTally(o)
    ensures SwapsTally(OrderStep(o, c, e))
  {
    if e.Await? {
      AwaitCounts(o, c, e.reply, SUBMITTED);
      AwaitSwaps(o, c, e.reply);
    } else if e.Insert? {
      NewCounts(SUBMITTED);
    }
  }

  /** The terminal writes whose effect stayed and whose reply was lost. */
  function Lost(o: Order, status: Status): nat
  {
    if status == CONFIRMED then o.lostConfirmed else o.lostFailed
  }

  /** What the order has contributed to the counter of a terminal status: its entries,
      less those whose reply was lost and the one whose increment is still to come. */
  function Credit(o: Order, status: Status): int
  {
    Count(Logs(o), status) - Lost(o, status) - One(Uncounted(o) == Some(status))
  }

  /** A credit changes exactly when its counter is incremented. */
  lemma StepCredits(o: Order, c: Config, e: Event, status: Status)
    requires Enabled(o, e) && Terminal(status)
    ensures Credit(OrderStep(o, c, e), status)
         == Credit(o, status) + One(e.Resume? && Uncounted(o) == Some(status))
  {
    if e.Await? {
      AwaitCounts(o, c, e.reply, status);
      AwaitAhead(o, c, e.reply, status);
    } else if e.Insert? {
      NewCounts(status);
    }
  }

  // ---- Finality ----

  /** No step of any kind changes the row any more. */
  ghost predicate Settled(o: Order)
  {
    && o.row.Some? && o.job.Some?
    && !o.submission.Inserting? && !o.submission.Enqueuing?
    && (o.job.value.phase.Completed? || o.job.value.phase.Exhausted? || Unannounced(o) == Some(FAILED))
  }

  /** The failure is announced by the last attempt. */
  lemma LastReport(o: Order, c: Config)
    requires OrderInv(o, c) && Unannounced(o) == Some(FAILED)
    ensures o.job.Some? && o.job.value.attemptsMade + 1 == c.maxRetries
  {
    var past, cur, tail :| Shape(o, c, past, cur, tail);
  }

  lemma SettledAwait(o: Order, c: Config, r: Reply)
    requires Enabled(o, Await(r)) && Settled(o) && o.job.value.attemptsMade + 1 == c.maxRetries
    ensures Settled(AwaitStep(o, c, r)) && AwaitStep(o, c, r).row == o.row
  {
  }

  lemma SettledStep(o: Order, c: Config, e: Event)
    requires Enabled(o, e) && Settled(o) && OrderInv(o, c)
    ensures Settled(OrderStep(o, c, e))
    ensures OrderStep(o, c, e).row == o.row
  {
    if e.Await? {
      LastReport(o, c);
      SettledAwait(o, c, e.reply);
    }
  }

  /** A FAILED row is settled. */
  lemma FailedIsSettled(o: Order, c: Config)
    requires OrderInv(o, c)
    requires o.row.Some? && o.row.value.status == FAILED
    ensures Settled(o)
  {
    var past, cur, tail :| Shape(o, c, past, cur, tail);
    NotFailedYet(c, o.request, o.row.value, past, cur, tail);
  }

  /** An attempt that has logged all of its block leaves the row CONFIRMED. */
  lemma FullBlockConfirms(c: Config, request: Request, row: Row, past: seq<Attempt>, cur: Attempt)
    requires RowIs(c, request, row, past, cur, []) && cur.n == 5
    ensures row.status == CONFIRMED
  {
    assert row.logs[|row.logs| - 1] == Block(cur)[4];
  }

  /** A completed job's row is CONFIRMED, and so is one about to announce it. */
  lemma CompletedIsConfirmed(o: Order, c: Config)
    requires OrderInv(o, c) && o.job.Some?
    requires o.job.value.phase.Completed? || o.job.value.phase == Active(PublishConfirmed)
    ensures o.row.Some? && o.row.value.status == CONFIRMED
  {
    var past, cur, tail :| Shape(o, c, past, cur, tail);
    FullBlockConfirms(c, o.request, o.row.value, past, cur);
  }

  function LastPublished(published: seq<Status>): Option<Status>
  {
    if published == [] then None else Some(published[|published| - 1])
  }

  /** A completed job has announced its confirmation last. */
  predicate Told(o: Order)
  {
    o.job.Some? && o.job.value.phase.Completed? ==> LastPublished(o.published) == Some(CONFIRMED)
  }

  lemma StepTells(o: Order, c: Config, e: Event)
    requires Enabled(o, e) && Told(o)
    ensures Told(OrderStep(o, c, e))
  {
    if e.Await? {
      AwaitMoves(o, c, e.reply);
    }
  }

  // ---- Progress ----

  /** Steps left in the attempt, the catch block included. */
  function Rank(pc: Pc): nat
  {
    match pc
    case PublishRouting => 13
    case WriteRouting => 12
    case FetchQuotes => 11
    case WriteQuotes(_, _) => 10
    case WriteBuilding(_) => 9
    case Swap(_) => 8
    case WriteSubmitted(_, _, _) => 7
    case WriteConfirmed(_, _, _) => 6
    case CountCompleted => 5
    case PublishConfirmed => 4
    case WriteFailed(_) => 3
    case CountFailed => 2
    case PublishFailed => 1
    case PublishPending => 1
  }

  /** Attempts left, then steps left in the attempt. */
  function Measure(o: Order, c: Config): int
  {
    if o.job.None? then 15 * c.maxRetries else JobMeasure(o.job.value, c)
  }

  function JobMeasure(job: Job, c: Config): int
  {
    var left := c.maxRetries - job.attemptsMade;
    match job.phase
    case Waiting => 15 * (left - 1) + 14
    case Active(pc) => 15 * (left - 1) + Rank(pc)
    case Delayed => 15 * left
    case Completed => 0
    case Exhausted => 0
  }

  predicate WorkerStep(e: Event) { e.Claim? || e.Await? || e.Resume? || e.Promote? }

  /** Every step a worker or the queue takes for a job lowers the measure; no other
      step raises it, and it never goes below zero. */
  lemma StepLowersMeasure(o: Order, c: Config, e: Event)
    requires c.maxRetries >= 1 && OrderInv(o, c) && Enabled(o, e)
    ensures 0 <= Measure(OrderStep(o, c, e), c)
    ensures Measure(OrderStep(o, c, e), c) + One(WorkerStep(e)) <= Measure(o, c)
  {
    JobBounds(o, c);
    BoundedStepLowers(o, c, e);
  }

  lemma BoundedStepLowers(o: Order, c: Config, e: Event)
    requires c.maxRetries >= 1 && Enabled(o, e)
    requires o.job.Some? ==> Bounded(o.job.value, c)
    ensures 0 <= Measure(OrderStep(o, c, e), c)
    ensures Measure(OrderStep(o, c, e), c) + One(WorkerStep(e)) <= Measure(o, c)
  {
    if e.Await? {
      AwaitLowers(o, c, e.reply);
    }
  }

  ghost predicate Bounded(job: Job, c: Config)
  {
    job.attemptsMade < c.maxRetries || job.phase.Exhausted?
  }

  lemma JobBounds(o: Order, c: Config)
    requires OrderInv(o, c)
    ensures o.job.Some? ==> Bounded(o.job.value, c)
  {
    if o.row.Some? {
      var past, cur, tail :| Shape(o, c, past, cur, tail);
    }
  }

  /** An await leads to a later step of the attempt, completes the job or ends the attempt. */
  lemma AwaitMoves(o: Order, c: Config, r: Reply)
    requires Enabled(o, Await(r))
    ensures AwaitStep(o, c, r).job.Some?
    ensures var job', job := AwaitStep(o, c, r).job.value, o.job.value;
            if job'.phase.Active? then
              job'.attemptsMade == job.attemptsMade && Rank(job'.phase.pc) < Rank(job.phase.pc)
            else job'.phase.Completed? || job' == Rethrown(job, c)
  {
  }

  lemma AwaitLowers(o: Order, c: Config, r: Reply)
    requires Enabled(o, Await(r)) && o.job.value.attemptsMade < c.maxRetries
    ensures 0 <= Measure(AwaitStep(o, c, r), c) < Measure(o, c)
  {
    AwaitMoves(o, c, r);
    JobLowers(o.job.value, AwaitStep(o, c, r).job.value, c);
  }

  lemma JobLowers(job: Job, job': Job, c: Config)
    requires job.phase.Active? && job.attemptsMade < c.maxRetries
    requires if job'.phase.Active? then
               job'.attemptsMade == job.attemptsMade && Rank(job'.phase.pc) < Rank(job.phase.pc)
             else job'.phase.Completed? || job' == Rethrown(job, c)
    ensures 0 <= JobMeasure(job', c) < JobMeasure(job, c)
  {
  }

  /** A job that is not over can always take a step. */
  lemma NeverStuck(o: Order, c: Config) returns (e: Event)
    requires OrderInv(o, c) && o.job.Some?
    requires !o.job.value.phase.Completed? && !o.job.value.phase.Exhausted?
    ensures WorkerStep(e) && Enabled(o, e)
  {
    match o.job.value.phase {
      case Waiting => e := Claim;
      case Delayed => e := Promote;
      case Active(pc) =>
        e := if pc.CountCompleted? || pc.CountFailed? then Resume else Await(Threw("", false));
    }
  }

  // ---- Abandoned swaps ----

  ghost predicate Waited(o: Order, tx: nat) { o.job.Some? && tx in o.job.value.hashes }

  /** Every hash in the row, in its log or about to be written belongs to a swap that an
      attempt waited for; no more abandoned swaps go through than were abandoned. */
  ghost predicate HashesWaited(o: Order)
  {
    && (forall entry :: entry in Logs(o) && entry.txHash.Some? ==> Waited(o, entry.txHash.value))
    && (o.row.Some? && o.row.value.txHash.Some? ==> Waited(o, o.row.value.txHash.value))
    && (match PcOf(o)
        case Some(WriteSubmitted(_, tx, _)) => Waited(o, tx)
        case Some(WriteConfirmed(_, tx, _)) => Waited(o, tx)
        case _ => true)
    && (o.job.Some? ==> |o.job.value.late| <= o.job.value.abandoned)
  }

  lemma HashesGrow(o: Order, c: Config, r: Reply)
    requires Enabled(o, Await(r))
    ensures AwaitStep(o, c, r).job.Some?
    ensures var job', job := AwaitStep(o, c, r).job.value, o.job.value;
            && job.hashes <= job'.hashes && job'.late == job.late && job'.abandoned >= job.abandoned
  {
  }

  lemma WrittenHashes(o: Order, c: Config, pc: Pc)
    requires o.row.Some? && o.job.Some? && HashesWaited(o) && PcOf(o) == Some(pc)
    ensures var o' := Effect(c, o, pc);
            && o'.row.Some?
            && (forall entry :: entry in o'.row.value.logs && entry.txHash.Some? ==> Waited(o, entry.txHash.value))
            && (o'.row.value.txHash.Some? ==> Waited(o, o'.row.value.txHash.value))
  {
  }

  lemma NextHashes(o: Order, c: Config, r: Reply)
    requires Enabled(o, Await(r)) && HashesWaited(o)
    ensures match PcOf(AwaitStep(o, c, r))
            case Some(WriteSubmitted(_, tx, _)) => Waited(AwaitStep(o, c, r), tx)
            case Some(WriteConfirmed(_, tx, _)) => Waited(AwaitStep(o, c, r), tx)
            case _ => true
  {
  }

  lemma StepKeepsHashes(o: Order, c: Config, e: Event)
    requires Enabled(o, e) && HashesWaited(o)
    ensures HashesWaited(OrderStep(o, c, e))
  {
    if e.Await? {
      HashesGrow(o, c, e.reply);
      WrittenHashes(o, c, o.job.value.phase.pc);
      NextHashes(o, c, e.reply);
    }
  }

  // ---- One outcome ----

  function Outcomes(o: Order): nat { Count(Logs(o), CONFIRMED) + Count(Logs(o), FAILED) }

  function Announcements(o: Order): nat { Announced(o.published, CONFIRMED) + Announced(o.published, FAILED) }

  predicate Over(o: Order)
  {
    o.job.Some? && (o.job.value.phase.Completed? || o.job.value.phase.Exhausted?)
  }

  /** A terminal write or publication that throws. */
  predicate TerminalThrow(o: Order, e: Event)
    requires Enabled(o, e)
  {
    e.Await? && e.reply.Threw?
    && var pc := o.job.value.phase.pc;
       pc.WriteConfirmed? || pc.WriteFailed? || pc.PublishConfirmed? || pc.PublishFailed?
  }

  /** Nothing terminal yet; or one outcome, still to be announced or announced with the job over. */
  ghost predicate OneOutcome(o: Order)
  {
    if Outcomes(o) == 0 then Announcements(o) == 0 && Unannounced(o).None?
    else
      && Outcomes(o) == 1
      && ((Unannounced(o).Some? && Announcements(o) == 0) || (Over(o) && Announcements(o) == 1))
  }

  lemma AwaitOutcomes(o: Order, c: Config, r: Reply)
    requires Enabled(o, Await(r))
    ensures var o', pc := AwaitStep(o, c, r), o.job.value.phase.pc;
            && Outcomes(o') == Outcomes(o) + One(Applied(r) && (pc.WriteConfirmed? || pc.WriteFailed?))
            && Announcements(o') == Announcements(o) + One(Applied(r) && (pc.PublishConfirmed? || pc.PublishFailed?))
  {
    AwaitCounts(o, c, r, CONFIRMED);
    AwaitCounts(o, c, r, FAILED);
  }

  lemma StepKeepsOutcome(o: Order, c: Config, e: Event)
    requires OrderInv(o, c) && Enabled(o, e) && OneOutcome(o) && !TerminalThrow(o, e)
    ensures OneOutcome(OrderStep(o, c, e))
  {
    ReportsLast(o, c);
    OutcomeStep(o, c, e);
  }

  lemma ReportsLast(o: Order, c: Config)
    requires OrderInv(o, c)
    ensures PcOf(o) == Some(PublishFailed) ==> o.job.value.attemptsMade + 1 == c.maxRetries
  {
    if PcOf(o) == Some(PublishFailed) { LastReport(o, c); }
  }

  lemma OutcomeStep(o: Order, c: Config, e: Event)
    requires Enabled(o, e) && OneOutcome(o) && !TerminalThrow(o, e)
    requires PcOf(o) == Some(PublishFailed) ==> o.job.value.attemptsMade + 1 == c.maxRetries
    ensures OneOutcome(OrderStep(o, c, e))
  {
    if e.Await? {
      AwaitOutcome(o, c, e.reply);
    } else if e.Insert? {
      InsertOutcome(o, c, e.reply);
    } else {
      QuietOutcome(o, c, e);
    }
  }

  lemma InsertOutcome(o: Order, c: Config, r: Reply)
    requires Enabled(o, Insert(r)) && OneOutcome(o)
    ensures OneOutcome(OrderStep(o, c, Insert(r)))
  {
    NewCounts(CONFIRMED);
    NewCounts(FAILED);
  }

  lemma QuietOutcome(o: Order, c: Config, e: Event)
    requires Enabled(o, e) && OneOutcome(o) && !e.Await? && !e.Insert?
    ensures OneOutcome(OrderStep(o, c, e))
  {
    OutcomeQuiet(o, c, e);
  }

  lemma AwaitOutcome(o: Order, c: Config, r: Reply)
    requires Enabled(o, Await(r)) && OneOutcome(o) && !TerminalThrow(o, Await(r))
    requires o.job.value.phase.pc.PublishFailed? ==> o.job.value.attemptsMade + 1 == c.maxRetries
    ensures OneOutcome(AwaitStep(o, c, r))
  {
    AwaitOutcomes(o, c, r);
    OutcomeAwait(o, c, r);
  }

  lemma OutcomeQuiet(o: Order, c: Config, e: Event)
    requires Enabled(o, e) && !e.Await? && !e.Insert?
    ensures var o' := OrderStep(o, c, e);
            && Logs(o') == Logs(o) && o'.published == o.published
            && (Unannounced(o).Some? <==> Unannounced(o').Some?)
            && (Over(o) ==> Over(o'))
  {
  }

  lemma OutcomeAwait(o: Order, c: Config, r: Reply)
    requires Enabled(o, Await(r)) && !TerminalThrow(o, Await(r))
    requires o.job.value.phase.pc.PublishFailed? ==> o.job.value.attemptsMade + 1 == c.maxRetries
    ensures var o', pc := AwaitStep(o, c, r), o.job.value.phase.pc;
            && (pc.WriteConfirmed? || pc.WriteFailed? ==> Unannounced(o').Some?)
            && (pc.PublishConfirmed? || pc.PublishFailed? ==> Over(o'))
            && (Unannounced(o).Some? <==> pc.PublishConfirmed? || pc.PublishFailed?)
            && (Unannounced(o').Some? ==> r.Done? && (pc.WriteConfirmed? || pc.WriteFailed?))
  {
  }

  /** An attempt that writes an outcome, or announces one, is at that outcome's place. */
  lemma OutcomePending(o: Order, c: Config, r: Reply)
    requires Enabled(o, Await(r)) && OneOutcome(o) && !TerminalThrow(o, Await(r))
    ensures var pc := o.job.value.phase.pc;
            && (pc.WriteConfirmed? || pc.WriteFailed? ==> Outcomes(o) == 0 && Announcements(o) == 0)
            && (pc.PublishConfirmed? || pc.PublishFailed? ==> Outcomes(o) == 1 && Announcements(o) == 0)
  {
    AwaitOutcomes(o, c, r);
  }

  /** A job that is over has left a terminal status in the row, the only terminal entry of
      its log, and announced that status last. */
  ghost predicate Finished(o: Order)
  {
    Over(o) ==>
      && o.row.Some? && Terminal(o.row.value.status) && Outcomes(o) == 1
      && LastPublished(o.published) == Some(o.row.value.status)
  }

  /** What the attempt is suspended in says about the row and the attempts left. */
  lemma SuspendedIn(o: Order, c: Config)
    requires OrderInv(o, c)
    ensures PcOf(o) == Some(PublishConfirmed) ==> o.row.Some? && o.row.value.status == CONFIRMED
    ensures PcOf(o) == Some(PublishFailed) ==> o.row.Some? && o.row.value.status == FAILED
    ensures PcOf(o) == Some(PublishPending) ==> o.job.value.attemptsMade + 1 < c.maxRetries
  {
    if PcOf(o).Some? {
      var past, cur, tail :| Shape(o, c, past, cur, tail);
      NotFailedYet(c, o.request, o.row.value, past, cur, tail);
      if PcOf(o).value.PublishConfirmed? { CompletedIsConfirmed(o, c); }
    }
  }

  lemma LastCounts(logs: seq<LogEntry>, stage: Status)
    requires logs != [] && logs[|logs| - 1].stage == stage
    ensures Count(logs, stage) > 0
  {
  }

  /** Between its write and its announcement the row has the status written. */
  lemma UnannouncedIs(o: Order, c: Config)
    requires OrderInv(o, c) && Unannounced(o).Some?
    ensures o.row.Some? && Terminal(o.row.value.status)
  {
    var past, cur, tail :| Shape(o, c, past, cur, tail);
    NotFailedYet(c, o.request, o.row.value, past, cur, tail);
    if tail == [] { FullBlockConfirms(c, o.request, o.row.value, past, cur); }
  }

  /** Undisturbed, an order has its outcome exactly when its row shows it. */
  lemma OutcomeShows(o: Order, c: Config)
    requires OrderInv(o, c) && OneOutcome(o) && Finished(o) && o.row.Some?
    ensures Outcomes(o) > 0 <==> Terminal(o.row.value.status)
  {
    var past, cur, tail :| Shape(o, c, past, cur, tail);
    LastCounts(o.row.value.logs, o.row.value.status);
    if Unannounced(o).Some? { UnannouncedIs(o, c); }
  }

  /** Undisturbed, an await ends a job for good only by announcing its outcome. */
  lemma LastAwait(o: Order, c: Config, r: Reply)
    requires Enabled(o, Await(r)) && !TerminalThrow(o, Await(r)) && Over(AwaitStep(o, c, r))
    requires PcOf(o) == Some(PublishPending) ==> o.job.value.attemptsMade + 1 < c.maxRetries
    ensures var o', pc := AwaitStep(o, c, r), o.job.value.phase.pc;
            && (pc.PublishConfirmed? || pc.PublishFailed?) && o'.row == o.row
            && o'.published == o.published + [if pc.PublishConfirmed? then CONFIRMED else FAILED]
  {
  }

  lemma AwaitFinishes(o: Order, c: Config, r: Reply)
    requires OrderInv(o, c) && Enabled(o, Await(r)) && OneOutcome(o) && !TerminalThrow(o, Await(r))
    ensures Finished(AwaitStep(o, c, r))
  {
    if Over(AwaitStep(o, c, r)) {
      SuspendedIn(o, c);
      LastAwait(o, c, r);
      OutcomeStays(o, c, r);
    }
  }

  lemma OutcomeStays(o: Order, c: Config, r: Reply)
    requires Enabled(o, Await(r)) && OneOutcome(o) && !TerminalThrow(o, Await(r))
    requires o.job.value.phase.pc.PublishConfirmed? || o.job.value.phase.pc.PublishFailed?
    ensures Outcomes(AwaitStep(o, c, r)) == 1
  {
    AwaitOutcomes(o, c, r);
    OutcomePending(o, c, r);
  }

  lemma StepFinishes(o: Order, c: Config, e: Event)
    requires OrderInv(o, c) && Enabled(o, e) && OneOutcome(o) && Finished(o) && !TerminalThrow(o, e)
    ensures Finished(OrderStep(o, c, e))
  {
    if e.Await? {
      AwaitFinishes(o, c, e.reply);
    } else if !e.Insert? {
      QuietFinishes(o, c, e);
    }
  }

  lemma QuietFinishes(o: Order, c: Config, e: Event)
    requires Enabled(o, e) && Finished(o) && !e.Await? && !e.Insert?
    ensures Finished(OrderStep(o, c, e))
  {
    OutcomeQuiet(o, c, e);
    assert OrderStep(o, c, e).row == o.row;
    assert Over(OrderStep(o, c, e)) ==> Over(o);
  }

  // ---- Rows that can still change ----

  predicate OrderRuns(o: Order, c: Config, es: seq<Event>)
    decreases |es|
  {
    es == [] || (Enabled(o, es[0]) && OrderRuns(OrderStep(o, c, es[0]), c, es[1..]))
  }

  function OrderAfter(o: Order, c: Config, es: seq<Event>): Order
    requires OrderRuns(o, c, es)
    decreases |es|
  {
    if es == [] then o else OrderAfter(OrderStep(o, c, es[0]), c, es[1..])
  }

  lemma OneMore(o: Order, c: Config, e: Event, es: seq<Event>)
    requires Enabled(o, e) && OrderRuns(OrderStep(o, c, e), c, es)
    ensures OrderRuns(o, c, [e] + es)
    ensures OrderAfter(o, c, [e] + es) == OrderAfter(OrderStep(o, c, e), c, es)
  {
    assert ([e] + es)[1..] == es;
  }

  /** A job that is not over and whose row has not failed can still change its row. */
  lemma {:induction false} CanStillChange(o: Order, c: Config) returns (es: seq<Event>)
    requires c.maxRetries >= 1 && OrderInv(o, c) && o.row.Some? && o.job.Some?
    requires !Over(o) && o.row.value.status != FAILED
    ensures OrderRuns(o, c, es) && OrderAfter(o, c, es).row != o.row
    decreases Measure(o, c)
  {
    var e := NextChange(o, c);
    var o' := OrderStep(o, c, e);
    StepKeepsShape(o, c, e);
    StepLowersMeasure(o, c, e);
    if o'.row != o.row {
      es := [];
    } else {
      es := CanStillChange(o', c);
    }
    OneMore(o, c, e, es);
    es := [e] + es;
  }

  /** A step towards the next write: every publication but a retry's throws. */
  lemma NextChange(o: Order, c: Config) returns (e: Event)
    requires c.maxRetries >= 1 && OrderInv(o, c) && o.row.Some? && o.job.Some?
    requires !Over(o) && o.row.value.status != FAILED
    ensures Enabled(o, e) && WorkerStep(e)
    ensures var o' := OrderStep(o, c, e);
            && o'.row.Some? && o'.job.Some? && (o'.row == o.row ==> !Over(o'))
  {
    var past, cur, tail :| Shape(o, c, past, cur, tail);
    NotFailedYet(c, o.request, o.row.value, past, cur, tail);
    match o.job.value.phase {
      case Waiting => e := Claim;
      case Delayed => e := Promote;
      case Active(pc) =>
        e := if pc.CountCompleted? then Resume
             else if Stage(pc).Some? || pc.PublishRouting? || pc.PublishPending? then Await(Done)
             else Await(Threw("", false));
        if Stage(pc).Some? { WritesChange(o, c, pc); }
    }
  }

  lemma WritesChange(o: Order, c: Config, pc: Pc)
    requires o.row.Some? && o.job.Some? && Stage(pc).Some?
    ensures Effect(c, o, pc).row.Some? && Effect(c, o, pc).row != o.row
  {
    assert |Effect(c, o, pc).row.value.logs| == |o.row.value.logs| + 1;
  }
}

/** What subscribers of an order's channel are sent, over whole runs. */
module Publications {
  import opened Options
  import opened Orders
  import opened Pipeline
  import opened LogShape
  import opened OrderLife
  import opened Engine

  /** What k attempts that were retried publish. */
  function Retried(k: nat): seq<Status>
  {
    if k == 0 then [] else Retried(k - 1) + [ROUTING, PENDING]
  }

  predicate Publishes(pc: Pc)
  {
    pc.PublishRouting? || pc.PublishConfirmed? || pc.PublishFailed? || pc.PublishPending?
  }

  /** A publication that throws. */
  predicate PublicationThrow(o: Order, e: Event)
    requires Enabled(o, e)
  {
    e.Await? && e.reply.Threw? && Publishes(o.job.value.phase.pc)
  }

  /** The failure was recorded, and the call that recorded it came back. */
  predicate FailureRecorded(o: Order) { o.row.Some? && o.row.value.status == FAILED && o.lostFailed == 0 }

  /** Everything published so far, when every publication has returned. */
  ghost predicate SaidSoFar(o: Order)
  {
    && (o.job.None? ==> o.published == [])
    && (o.job.Some? ==> o.published == Said(o, o.job.value))
    && (o.lostFailed > 0 ==> o.job.Some? && o.job.value.phase.Exhausted?)
    && (o.job.Some? && o.job.value.phase.Exhausted? ==> o.job.value.attemptsMade > 0)
  }

  function Said(o: Order, job: Job): seq<Status>
  {
    match job.phase
    case Waiting => Retried(job.attemptsMade)
    case Delayed => Retried(job.attemptsMade)
    case Active(pc) => if pc.PublishRouting? then Retried(job.attemptsMade) else Retried(job.attemptsMade) + [ROUTING]
    case Completed => Retried(job.attemptsMade) + [ROUTING, CONFIRMED]
    case Exhausted =>
      if job.attemptsMade == 0 then []
      else if FailureRecorded(o) then Retried(job.attemptsMade - 1) + [ROUTING, FAILED]
      else Retried(job.attemptsMade - 1) + [ROUTING]
  }

  /** What an attempt suspended in the catch block knows. */
  ghost predicate Reports(o: Order, c: Config)
  {
    && (PcOf(o) == Some(PublishPending) ==> o.job.value.attemptsMade + 1 < c.maxRetries)
    && (PcOf(o) == Some(PublishFailed) ==>
          o.job.value.attemptsMade + 1 == c.maxRetries && o.row.Some? && o.row.value.status == FAILED)
    && (PcOf(o).Some? && PcOf(o).value.WriteFailed? ==>
          o.job.value.attemptsMade + 1 == c.maxRetries && o.row.Some? && o.row.value.status != FAILED)
  }

  lemma ReportsIn(o: Order, c: Config)
    requires OrderInv(o, c)
    ensures Reports(o, c)
  {
    if PcOf(o).Some? {
      var past, cur, tail :| Shape(o, c, past, cur, tail);
      NotFailedYet(c, o.request, o.row.value, past, cur, tail);
    }
  }

  lemma Regroups(k: nat)
    ensures Retried(k) + [ROUTING] + [CONFIRMED] == Retried(k) + [ROUTING, CONFIRMED]
    ensures Retried(k) + [ROUTING] + [FAILED] == Retried(k) + [ROUTING, FAILED]
    ensures Retried(k) + [ROUTING] + [PENDING] == Retried(k + 1)
  {
  }

  lemma SaidReport(o: Order, c: Config, r: Reply)
    requires Enabled(o, Await(r)) && SaidSoFar(o) && Reports(o, c) && !PublicationThrow(o, Await(r))
    requires Reporting(o.job.value.phase.pc)
    ensures SaidSoFar(AwaitStep(o, c, r))
  {
    Regroups(o.job.value.attemptsMade);
    FailureJob(o, c, r);
  }

  lemma SaidInTry(o: Order, c: Config, r: Reply)
    requires Enabled(o, Await(r)) && SaidSoFar(o) && !PublicationThrow(o, Await(r))
    requires !Reporting(o.job.value.phase.pc)
    ensures SaidSoFar(AwaitStep(o, c, r))
  {
    Regroups(o.job.value.attemptsMade);
    TryGoesOn(o, c, r);
  }

  lemma TryGoesOn(o: Order, c: Config, r: Reply)
    requires Enabled(o, Await(r)) && !Reporting(o.job.value.phase.pc) && !PublicationThrow(o, Await(r))
    ensures var o', pc := AwaitStep(o, c, r), o.job.value.phase.pc;
            && o'.job.Some? && o'.job.value.attemptsMade == o.job.value.attemptsMade && o'.lostFailed == o.lostFailed
            && o'.job.value.phase
               == (if pc.PublishConfirmed? then Completed else o'.job.value.phase)
            && (!pc.PublishConfirmed? ==> o'.job.value.phase.Active? && !o'.job.value.phase.pc.PublishRouting?)
            && o'.published == (if pc.PublishRouting? then o.published + [ROUTING]
                                else if pc.PublishConfirmed? then o.published + [CONFIRMED] else o.published)
  {
  }

  lemma SaidStep(o: Order, c: Config, e: Event)
    requires OrderInv(o, c) && Enabled(o, e) && SaidSoFar(o) && !PublicationThrow(o, e)
    ensures SaidSoFar(OrderStep(o, c, e))
  {
    if e.Await? {
      ReportsIn(o, c);
      if Reporting(o.job.value.phase.pc) { SaidReport(o, c, e.reply); } else { SaidInTry(o, c, e.reply); }
    } else {
      SaidQuiet(o, c, e);
    }
  }

  lemma SaidQuiet(o: Order, c: Config, e: Event)
    requires Enabled(o, e) && SaidSoFar(o) && !e.Await?
    ensures SaidSoFar(OrderStep(o, c, e))
  {
    assert Retried(0) == [];
  }

  /** No publication throws along the run. */
  predicate AllReturn(s: State, c: Config, ms: seq<Move>)
    requires Runs(s, c, ms)
    decreases |ms|
  {
    ms == []
    || (!(ms[0].On? && PublicationThrow(s.orders[ms[0].id], ms[0].event)) && AllReturn(Step(s, c, ms[0]), c, ms[1..]))
  }

  lemma SaidMove(s: State, c: Config, m: Move)
    requires Inv(s, c) && CanMove(s, m) && !(m.On? && PublicationThrow(s.orders[m.id], m.event))
    requires forall i :: 0 <= i < |s.orders| ==> SaidSoFar(s.orders[i])
    ensures forall i :: 0 <= i < |Step(s, c, m).orders| ==> SaidSoFar(Step(s, c, m).orders[i])
  {
    if m.On? {
      assert OrderOk(s.orders[m.id], c);
      SaidStep(s.orders[m.id], c, m.event);
    }
  }

  lemma {:induction false} RunSays(s: State, c: Config, ms: seq<Move>)
    requires c.maxRetries >= 1 && Inv(s, c) && Runs(s, c, ms) && AllReturn(s, c, ms)
    requires forall i :: 0 <= i < |s.orders| ==> SaidSoFar(s.orders[i])
    ensures forall i :: 0 <= i < |After(s, c, ms).orders| ==> SaidSoFar(After(s, c, ms).orders[i])
    decreases |ms|
  {
    if ms != [] {
      SaidMove(s, c, ms[0]);
      InvStep(s, c, ms[0]);
      RunSays(Step(s, c, ms[0]), c, ms[1..]);
    }
  }

  /** In every run in which no publication throws, the channel of an order carries ROUTING and
      PENDING for each attempt that was retried, then ROUTING for the one under way, and when
      the job is over ROUTING and CONFIRMED, or ROUTING and, if the failure write came back,
      FAILED: nothing else and in no other order. */
  lemma PublicationLanguage(c: Config, ms: seq<Move>, id: nat)
    requires c.maxRetries >= 1 && Runs(Init(), c, ms) && AllReturn(Init(), c, ms)
    requires id < |After(Init(), c, ms).orders|
    ensures SaidSoFar(After(Init(), c, ms).orders[id])
  {
    RunSays(Init(), c, ms);
  }
}

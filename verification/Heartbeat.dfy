/** The heartbeat of one socket in milliseconds: pings at an interval, a timer armed for
    each, and a map entry for the timer a pong clears. */
module Heartbeat {
  import opened Options

  /** PING_INTERVAL and PONG_TIMEOUT. */
  datatype Timing = Timing(interval: nat, timeout: nat)

  /** `nextPing` is the interval, until it is cleared; `timers` are the armed pong timers
      with their deadlines and `mapped` the one the service remembers; `fired` is when
      the interval last fired, `outstanding` the pings still unanswered, oldest first, and
      `answered` the last ping to be answered. */
  datatype Beat = Beat(
    now: nat, nextPing: Option<nat>, timers: map<nat, nat>, mapped: Option<nat>,
    open: bool, terminated: bool, fired: nat, answered: nat, outstanding: seq<nat>)

  datatype Event =
    | Tick
    | Ping(timer: nat)
    | Pong
    | Timeout(timer: nat)
    | Shut
    | Close

  function Start(c: Timing, now: nat): Beat
  {
    Beat(now, Some(now + c.interval), map[], None, true, false, now, now, [])
  }

  /** Time passes only while nothing is due. */
  predicate CanStep(b: Beat, e: Event)
  {
    match e
    case Tick => (b.nextPing.Some? ==> b.nextPing.value > b.now) && forall t :: t in b.timers ==> b.timers[t] > b.now
    case Ping(t) => b.nextPing == Some(b.now) && t !in b.timers
    case Pong => b.nextPing.Some?
    case Timeout(t) => t in b.timers && b.timers[t] <= b.now
    case Shut => true
    case Close => b.nextPing.Some?
  }

  function Cleared(b: Beat): map<nat, nat>
  {
    if b.mapped.Some? then b.timers - {b.mapped.value} else b.timers
  }

  function Step(b: Beat, c: Timing, e: Event): Beat
    requires CanStep(b, e)
  {
    match e
    case Tick => b.(now := b.now + 1)
    case Ping(t) =>
      var b' := b.(nextPing := Some(b.now + c.interval), fired := b.now);
      if b.open then b'.(timers := b.timers[t := b.now + c.timeout], mapped := Some(t),
                         outstanding := b.outstanding + [b.now])
      else b'
    case Pong =>
      var b' := b.(timers := Cleared(b), mapped := None);
      if b.outstanding == [] then b'
      else b'.(answered := b.outstanding[0], outstanding := b.outstanding[1..])
    case Timeout(t) => b.(timers := b.timers - {t}, open := false, terminated := true)
    case Shut => b.(open := false)
    case Close => b.(nextPing := None, timers := Cleared(b), mapped := None, open := false, outstanding := [])
  }

  predicate Runs(b: Beat, c: Timing, es: seq<Event>)
    decreases |es|
  {
    es == [] || (CanStep(b, es[0]) && Runs(Step(b, c, es[0]), c, es[1..]))
  }

  function After(b: Beat, c: Timing, es: seq<Event>): Beat
    requires Runs(b, c, es)
    decreases |es|
  {
    if es == [] then b else After(Step(b, c, es[0]), c, es[1..])
  }

  lemma Then(b: Beat, c: Timing, e: Event, es: seq<Event>)
    requires CanStep(b, e) && Runs(Step(b, c, e), c, es)
    ensures Runs(b, c, [e] + es) && After(b, c, [e] + es) == After(Step(b, c, e), c, es)
  {
    assert ([e] + es)[1..] == es;
  }

  // ---- Timeouts shorter than the interval ----

  /** At most one timer is armed, it is the map's, and an open socket has left at most
      its last ping unanswered. */
  ghost predicate Inv(b: Beat, c: Timing)
  {
    && b.fired <= b.now
    && (b.nextPing.Some? ==> b.nextPing.value == b.fired + c.interval && b.now <= b.nextPing.value)
    && (b.nextPing.None? ==> b.timers == map[] && !b.open)
    && (forall t :: t in b.timers ==> b.mapped == Some(t) && b.timers[t] == b.fired + c.timeout && b.now <= b.timers[t])
    && (b.open ==> if b.timers == map[] then b.outstanding == [] && b.answered == b.fired
                   else b.outstanding == [b.fired] && b.fired == b.answered + c.interval)
  }

  lemma PongClears(b: Beat, c: Timing)
    requires Inv(b, c) && CanStep(b, Pong) && b.open
    ensures var b' := Step(b, c, Pong); b'.timers == map[] && b'.outstanding == [] && b'.answered == b'.fired
  {
    forall t | t in b.timers
      ensures t !in Cleared(b)
    {
    }
    assert Cleared(b) == map[];
  }

  lemma StepKeeps(b: Beat, c: Timing, e: Event)
    requires c.timeout < c.interval && Inv(b, c) && CanStep(b, e)
    ensures Inv(Step(b, c, e), c)
  {
    if e.Ping? {
      assert b.timers == map[] by {
        forall t
          ensures t !in b.timers
        {
        }
      }
      assert b.open ==> b.outstanding + [b.now] == [b.now];
    }
    if e.Pong? && b.open {
      PongClears(b, c);
      assert Inv(Step(b, c, e), c);
    }
  }

  lemma {:induction false} RunKeeps(b: Beat, c: Timing, es: seq<Event>)
    requires c.timeout < c.interval && Inv(b, c) && Runs(b, c, es)
    ensures Inv(After(b, c, es), c)
    decreases |es|
  {
    if es != [] {
      StepKeeps(b, c, es[0]);
      RunKeeps(Step(b, c, es[0]), c, es[1..]);
    }
  }

  /** What the map names: the armed timer, the one that went off last, or none. */
  ghost predicate MapIs(b: Beat)
  {
    && (b.open && b.mapped.Some? ==> b.mapped.value in b.timers)
    && (b.nextPing.None? ==> b.mapped.None?)
  }

  lemma {:induction false} RunKeepsMap(b: Beat, c: Timing, es: seq<Event>)
    requires Runs(b, c, es) && MapIs(b)
    ensures MapIs(After(b, c, es))
    decreases |es|
  {
    if es != [] {
      assert MapIs(Step(b, c, es[0]));
      RunKeepsMap(Step(b, c, es[0]), c, es[1..]);
    }
  }

  /** In every run the one timer that can be armed is the one the map remembers; while the
      socket is open the map remembers no other, and after its close none at all. */
  lemma ArmedIsMapped(c: Timing, start: nat, es: seq<Event>)
    requires c.timeout < c.interval && Runs(Start(c, start), c, es)
    ensures var b := After(Start(c, start), c, es);
            && (forall t :: t in b.timers ==> b.mapped == Some(t))
            && (b.open && b.mapped.Some? ==> b.mapped.value in b.timers)
            && (Close in es ==> b.mapped.None?)
  {
    RunKeeps(Start(c, start), c, es);
    RunKeepsMap(Start(c, start), c, es);
    IntervalIff(c, start, es);
  }

  lemma {:induction false} StaysClosed(b: Beat, c: Timing, es: seq<Event>)
    requires b.nextPing == None && b.timers == map[] && Runs(b, c, es)
    ensures After(b, c, es).nextPing == None && After(b, c, es).timers == map[]
    decreases |es|
  {
    if es != [] {
      StaysClosed(Step(b, c, es[0]), c, es[1..]);
    }
  }

  // ---- How many timers ----

  lemma {:induction false} Ticks(b: Beat, c: Timing, n: nat, rest: seq<Event>) returns (es: seq<Event>)
    requires b.nextPing.Some? && b.now + n <= b.nextPing.value
    requires forall t :: t in b.timers ==> b.now + n <= b.timers[t]
    requires Runs(b.(now := b.now + n), c, rest)
    ensures Runs(b, c, es) && After(b, c, es) == After(b.(now := b.now + n), c, rest)
    decreases n
  {
    if n == 0 {
      es := rest;
    } else {
      es := Ticks(b.(now := b.now + 1), c, n - 1, rest);
      Then(b, c, Tick, es);
      es := [Tick] + es;
    }
  }

  ghost predicate NeverTwoTimers(c: Timing)
  {
    forall start, es :: Runs(Start(c, start), c, es) ==> |After(Start(c, start), c, es).timers| <= 1
  }

  /** One ping and, still unanswered, the next. */
  function TwoPings(c: Timing): Beat
  {
    Beat(c.interval + c.interval, Some(c.interval + c.interval + c.interval),
         map[0 := c.interval + c.timeout, 1 := c.interval + c.interval + c.timeout], Some(1),
         true, false, c.interval + c.interval, 0, [c.interval, c.interval + c.interval])
  }

  lemma ToTwoPings(c: Timing, rest: seq<Event>) returns (es: seq<Event>)
    requires c.timeout >= c.interval && Runs(TwoPings(c), c, rest)
    ensures Runs(Start(c, 0), c, es) && After(Start(c, 0), c, es) == After(TwoPings(c), c, rest)
  {
    var b0 := Start(c, 0);
    var b1 := b0.(now := c.interval);
    var b2 := Step(b1, c, Ping(0));
    var b3 := b2.(now := c.interval + c.interval);
    assert Step(b3, c, Ping(1)) == TwoPings(c);
    Then(b3, c, Ping(1), rest);
    es := Ticks(b2, c, c.interval, [Ping(1)] + rest);
    Then(b1, c, Ping(0), es);
    es := Ticks(b0, c, c.interval, [Ping(0)] + es);
  }

  /** An unanswered ping, then the next: both timers are armed. */
  lemma TwoTimers(c: Timing) returns (es: seq<Event>)
    requires c.timeout >= c.interval
    ensures Runs(Start(c, 0), c, es) && After(Start(c, 0), c, es) == TwoPings(c)
    ensures |TwoPings(c).timers| == 2
  {
    es := ToTwoPings(c, []);
    assert TwoPings(c).timers.Keys == {0, 1};
  }

  lemma OneTimer(b: Beat, c: Timing)
    requires Inv(b, c)
    ensures |b.timers| <= 1
  {
    if t :| t in b.timers {
      assert b.timers.Keys == {t};
    }
  }

  /** In every run at most one pong timer is armed exactly when the timeout is shorter
      than the interval. */
  lemma OneTimerIff(c: Timing)
    ensures NeverTwoTimers(c) <==> c.timeout < c.interval
  {
    if c.timeout < c.interval {
      forall start, es | Runs(Start(c, start), c, es)
        ensures |After(Start(c, start), c, es).timers| <= 1
      {
        RunKeeps(Start(c, start), c, es);
        OneTimer(After(Start(c, start), c, es), c);
      }
    } else {
      var es := TwoTimers(c);
    }
  }

  /** After any close no timer is left, now or later. */
  ghost predicate CloseClearsAll(c: Timing)
  {
    forall start, es, fs :: Closes(c, start, es, fs)
      ==> AfterClose(c, start, es, fs).timers == map[] && AfterClose(c, start, es, fs).nextPing == None
  }

  /** A run up to a close and on from it. */
  ghost predicate Closes(c: Timing, start: nat, es: seq<Event>, fs: seq<Event>)
  {
    && Runs(Start(c, start), c, es)
    && CanStep(After(Start(c, start), c, es), Close)
    && Runs(Step(After(Start(c, start), c, es), c, Close), c, fs)
  }

  ghost function AfterClose(c: Timing, start: nat, es: seq<Event>, fs: seq<Event>): Beat
    requires Closes(c, start, es, fs)
  {
    After(Step(After(Start(c, start), c, es), c, Close), c, fs)
  }

  /** The close handler leaves no timer behind, in any run and any continuation, exactly
      when the timeout is shorter than the interval: otherwise a timer it has forgotten
      can be left. */
  lemma NoTimersAfterCloseIff(c: Timing)
    ensures CloseClearsAll(c) <==> c.timeout < c.interval
  {
    if c.timeout < c.interval {
      forall start, es, fs | Closes(c, start, es, fs)
        ensures AfterClose(c, start, es, fs).timers == map[] && AfterClose(c, start, es, fs).nextPing == None
      {
        RunKeeps(Start(c, start), c, es);
        var b := After(Start(c, start), c, es);
        StepKeeps(b, c, Close);
        StaysClosed(Step(b, c, Close), c, fs);
      }
    } else {
      var es := TwoTimers(c);
      var b := Step(After(Start(c, 0), c, es), c, Close);
      assert 0 in b.timers || 1 in b.timers;
      assert Closes(c, 0, es, []) && AfterClose(c, 0, es, []) == b;
    }
  }

  // ---- Sockets that answer ----

  /** Every ping still unanswered is younger than the timeout. */
  predicate Prompt(b: Beat, c: Timing)
  {
    forall p :: p in b.outstanding ==> b.now < p + c.timeout
  }

  /** The socket answers each ping in under the timeout, all along the run. */
  predicate PromptRun(b: Beat, c: Timing, es: seq<Event>)
    requires Runs(b, c, es)
    decreases |es|
  {
    Prompt(b, c) && (es == [] || PromptRun(Step(b, c, es[0]), c, es[1..]))
  }

  /** The armed timer is that of the one ping still unanswered. */
  ghost predicate Answering(b: Beat, c: Timing)
  {
    && (b.nextPing.Some? ==> b.nextPing.value == b.fired + c.interval)
    && (b.outstanding == [] ==> b.timers == map[])
    && (b.outstanding != [] ==> b.outstanding == [b.fired])
    && (forall t :: t in b.timers ==> b.mapped == Some(t) && b.timers[t] == b.fired + c.timeout)
    && !b.terminated
  }

  lemma AnsweringStep(b: Beat, c: Timing, e: Event)
    requires c.timeout <= c.interval && Answering(b, c) && Prompt(b, c) && CanStep(b, e)
    ensures Answering(Step(b, c, e), c)
  {
    assert b.outstanding != [] ==> b.fired in b.outstanding;
  }

  lemma {:induction false} AnsweringRun(b: Beat, c: Timing, es: seq<Event>)
    requires c.timeout <= c.interval && Answering(b, c) && Runs(b, c, es) && PromptRun(b, c, es)
    ensures Answering(After(b, c, es), c)
    decreases |es|
  {
    if es != [] {
      AnsweringStep(b, c, es[0]);
      AnsweringRun(Step(b, c, es[0]), c, es[1..]);
    }
  }

  ghost predicate PromptSurvives(c: Timing)
  {
    forall start, es :: Runs(Start(c, start), c, es) && PromptRun(Start(c, start), c, es)
      ==> !After(Start(c, start), c, es).terminated
  }

  /** A run of prompt answers from one state to another. */
  ghost predicate Leads(b: Beat, c: Timing, es: seq<Event>, end: Beat)
  {
    Runs(b, c, es) && PromptRun(b, c, es) && After(b, c, es) == end
  }

  lemma ThenLeads(b: Beat, c: Timing, e: Event, es: seq<Event>, end: Beat)
    requires CanStep(b, e) && Leads(Step(b, c, e), c, es, end) && Prompt(b, c)
    ensures Leads(b, c, [e] + es, end)
  {
    Then(b, c, e, es);
    assert ([e] + es)[1..] == es;
  }

  lemma {:induction false} LeadsThen(b: Beat, c: Timing, es: seq<Event>, mid: Beat, e: Event)
    requires Leads(b, c, es, mid) && CanStep(mid, e) && Prompt(Step(mid, c, e), c)
    ensures Leads(b, c, es + [e], Step(mid, c, e))
    decreases |es|
  {
    if es == [] {
      ThenLeads(b, c, e, [], Step(mid, c, e));
      assert es + [e] == [e] + [];
    } else {
      LeadsThen(Step(b, c, es[0]), c, es[1..], mid, e);
      ThenLeads(b, c, es[0], es[1..] + [e], Step(mid, c, e));
      assert es + [e] == [es[0]] + (es[1..] + [e]);
    }
  }

  lemma {:induction false} TicksLead(b: Beat, c: Timing, n: nat, rest: seq<Event>, end: Beat)
    returns (es: seq<Event>)
    requires b.nextPing.Some? && b.now + n <= b.nextPing.value
    requires forall t :: t in b.timers ==> b.now + n <= b.timers[t]
    requires forall p :: p in b.outstanding ==> b.now + n < p + c.timeout
    requires Leads(b.(now := b.now + n), c, rest, end)
    ensures Leads(b, c, es, end)
    decreases n
  {
    es := rest;
    if n > 0 {
      es := TicksLead(b.(now := b.now + 1), c, n - 1, rest, end);
      ThenLeads(b, c, Tick, es, end);
      es := [Tick] + es;
    }
  }

  /** A forgotten timer comes due on an open socket, however promptly every later ping is
      answered. */
  lemma {:induction false} ForgottenComesDue(b: Beat, c: Timing, deadline: nat) returns (es: seq<Event>, end: Beat)
    requires c.interval > 0 && b.open && b.nextPing.Some? && b.now <= b.nextPing.value && b.now <= deadline
    requires b.timers == map[0 := deadline] && b.mapped == None && b.outstanding == [] && c.timeout > 0
    requires b.answered <= b.now
    ensures Leads(b, c, es, end)
    ensures end.open && end.now == deadline && CanStep(end, Timeout(0)) && end.outstanding == []
    ensures b.answered <= end.answered
    decreases deadline - b.now, b.nextPing.value == b.now
  {
    if b.now == deadline {
      es, end := [], b;
    } else if b.nextPing.value == b.now {
      var b1 := Step(b, c, Ping(1));
      var b2 := Step(b1, c, Pong);
      assert b2.timers == map[0 := deadline];
      es, end := ForgottenComesDue(b2, c, deadline);
      ThenLeads(b1, c, Pong, es, end);
      es := [Pong] + es;
      ThenLeads(b, c, Ping(1), es, end);
      es := [Ping(1)] + es;
    } else {
      es, end := ForgottenComesDue(b.(now := b.now + 1), c, deadline);
      ThenLeads(b, c, Tick, es, end);
      es := [Tick] + es;
    }
  }

  /** Two pongs right after the second ping clear the second timer only. */
  function TwoAnswered(c: Timing): Beat
  {
    TwoPings(c).(timers := map[0 := c.interval + c.timeout], mapped := None,
                 answered := c.interval + c.interval, outstanding := [])
  }

  lemma Answered(c: Timing)
    ensures Step(Step(TwoPings(c), c, Pong), c, Pong) == TwoAnswered(c)
  {
    assert Step(TwoPings(c), c, Pong).timers == map[0 := c.interval + c.timeout];
  }

  lemma TwoPingsEnd(c: Timing) returns (es: seq<Event>, end: Beat)
    requires 0 < c.interval < c.timeout
    ensures Leads(TwoPings(c), c, es, end) && end.terminated
  {
    Answered(c);
    es, end := ForgottenComesDue(TwoAnswered(c), c, c.interval + c.timeout);
    LeadsThen(TwoAnswered(c), c, es, end, Timeout(0));
    es, end := es + [Timeout(0)], Step(end, c, Timeout(0));
    ThenLeads(Step(TwoPings(c), c, Pong), c, Pong, es, end);
    es := [Pong] + es;
    ThenLeads(TwoPings(c), c, Pong, es, end);
    es := [Pong] + es;
  }

  /** ... and the first goes off. */
  lemma PromptIsTerminated(c: Timing) returns (es: seq<Event>, end: Beat)
    requires 0 < c.interval < c.timeout
    ensures Leads(Start(c, 0), c, es, end) && end.terminated
  {
    es, end := TwoPingsEnd(c);
    var b0 := Start(c, 0);
    var b1 := b0.(now := c.interval);
    var b2 := Step(b1, c, Ping(0));
    var b3 := b2.(now := c.interval + c.interval);
    assert Step(b3, c, Ping(1)) == TwoPings(c);
    ThenLeads(b3, c, Ping(1), es, end);
    es := TicksLead(b2, c, c.interval, [Ping(1)] + es, end);
    ThenLeads(b1, c, Ping(0), es, end);
    es := TicksLead(b0, c, c.interval, [Ping(0)] + es, end);
  }

  /** A socket that answers every ping in under the timeout is never terminated, exactly
      when the timeout is no longer than the interval. */
  lemma PromptSurvivesIff(c: Timing)
    requires c.interval > 0
    ensures PromptSurvives(c) <==> c.timeout <= c.interval
  {
    if c.timeout <= c.interval {
      forall start, es | Runs(Start(c, start), c, es) && PromptRun(Start(c, start), c, es)
        ensures !After(Start(c, start), c, es).terminated
      {
        AnsweringRun(Start(c, start), c, es);
      }
    } else {
      var es, end := PromptIsTerminated(c);
    }
  }

  // ---- Sockets that do not answer ----

  /** The socket is not open later than interval + timeout after its last answered ping, and
      only then does the heartbeat terminate it. */
  ghost predicate OnTime(b: Beat, c: Timing)
  {
    && (b.open ==> b.now <= b.answered + c.interval + c.timeout)
    && (forall t :: b.open && CanStep(b, Timeout(t)) ==> b.now == b.answered + c.interval + c.timeout)
  }

  ghost predicate AlwaysOnTime(c: Timing)
  {
    forall start, es :: Runs(Start(c, start), c, es) ==> OnTime(After(Start(c, start), c, es), c)
  }

  /** The timer of a ping that has been answered is still armed when it comes due. */
  lemma TerminatedEarly(c: Timing) returns (es: seq<Event>)
    requires 0 < c.interval <= c.timeout
    ensures Runs(Start(c, 0), c, es) && !OnTime(After(Start(c, 0), c, es), c)
  {
    Answered(c);
    var end: Beat;
    es, end := ForgottenComesDue(TwoAnswered(c), c, c.interval + c.timeout);
    Then(Step(TwoPings(c), c, Pong), c, Pong, es);
    Then(TwoPings(c), c, Pong, [Pong] + es);
    es := ToTwoPings(c, [Pong] + ([Pong] + es));
    assert end.open && CanStep(end, Timeout(0)) && end.now != end.answered + c.interval + c.timeout;
  }

  /** In every run a socket that stops answering is terminated exactly interval + timeout
      after its last answered ping, exactly when the timeout is shorter than the interval. */
  lemma SilentIsTerminatedIff(c: Timing)
    requires c.interval > 0
    ensures AlwaysOnTime(c) <==> c.timeout < c.interval
  {
    if c.timeout < c.interval {
      forall start, es | Runs(Start(c, start), c, es)
        ensures OnTime(After(Start(c, start), c, es), c)
      {
        RunKeeps(Start(c, start), c, es);
      }
    } else {
      var es := TerminatedEarly(c);
    }
  }

  // ---- Sockets that are no longer open ----

  /** A socket that is not open is never pinged again: no timer is armed for it, and it does
      not open. */
  lemma {:induction false} NotPinged(b: Beat, c: Timing, es: seq<Event>)
    requires Runs(b, c, es) && !b.open
    ensures var b' := After(b, c, es);
            && !b'.open && |b'.outstanding| <= |b.outstanding|
            && forall t :: t in b'.timers ==> t in b.timers && b'.timers[t] == b.timers[t]
    decreases |es|
  {
    if es != [] {
      NotPinged(Step(b, c, es[0]), c, es[1..]);
    }
  }

  // ---- Sockets whose close nobody handles ----

  /** Without a close handler the ping interval goes on for ever: it has a next time, at most
      one interval away. */
  ghost predicate Pinging(b: Beat, c: Timing)
  {
    b.nextPing.Some? && b.nextPing.value == b.fired + c.interval && b.fired <= b.now <= b.nextPing.value
  }

  lemma {:induction false} PingsForEver(b: Beat, c: Timing, es: seq<Event>)
    requires Pinging(b, c) && Runs(b, c, es) && Close !in es
    ensures Pinging(After(b, c, es), c)
    decreases |es|
  {
    if es != [] {
      PingsForEver(Step(b, c, es[0]), c, es[1..]);
    }
  }

  /** Whatever else happens, a socket's interval is set exactly until its close is handled. */
  lemma IntervalIff(c: Timing, start: nat, es: seq<Event>)
    requires Runs(Start(c, start), c, es)
    ensures After(Start(c, start), c, es).nextPing.Some? <==> Close !in es
  {
    if Close !in es {
      PingsForEver(Start(c, start), c, es);
    } else {
      ClosedIsCleared(Start(c, start), c, es);
    }
  }

  lemma {:induction false} ClosedIsCleared(b: Beat, c: Timing, es: seq<Event>)
    requires Runs(b, c, es) && (Close in es || b.nextPing.None?)
    ensures After(b, c, es).nextPing.None?
    decreases |es|
  {
    if es != [] {
      assert Close in es ==> es[0] == Close || Close in es[1..];
      ClosedIsCleared(Step(b, c, es[0]), c, es[1..]);
    }
  }

  // ---- Reachable states ----

  ghost predicate Past(b: Beat, c: Timing, start: nat, es: seq<Event>)
  {
    Runs(Start(c, start), c, es) && After(Start(c, start), c, es) == b
  }

  ghost predicate Reachable(b: Beat, c: Timing)
  {
    exists start, es :: Past(b, c, start, es)
  }

  lemma StartReachable(c: Timing, start: nat)
    ensures Reachable(Start(c, start), c)
  {
    assert Past(Start(c, start), c, start, []);
  }

  lemma {:induction false} ThenStep(b: Beat, c: Timing, es: seq<Event>, e: Event)
    requires Runs(b, c, es) && CanStep(After(b, c, es), e)
    ensures Runs(b, c, es + [e]) && After(b, c, es + [e]) == Step(After(b, c, es), c, e)
    decreases |es|
  {
    if es == [] {
      Then(b, c, e, []);
      assert es + [e] == [e] + [];
    } else {
      ThenStep(Step(b, c, es[0]), c, es[1..], e);
      Then(b, c, es[0], es[1..] + [e]);
      assert es + [e] == [es[0]] + (es[1..] + [e]);
    }
  }

  lemma StepReachable(b: Beat, c: Timing, e: Event)
    requires Reachable(b, c) && CanStep(b, e)
    ensures Reachable(Step(b, c, e), c)
  {
    var start, es :| Past(b, c, start, es);
    ThenStep(Start(c, start), c, es, e);
    assert Past(Step(b, c, e), c, start, es + [e]);
  }
}

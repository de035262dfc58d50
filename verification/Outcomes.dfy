/** Terminal outcomes: which sockets learn how their order ended. */
module Outcomes {
  import opened WebSocket
  import Channels
  import Connections

  ghost predicate Pending(s: State, m: int) { s.heard <= m < |s.msgs| }

  /** Messages on their way: announced, not arrived, at most one an order, in the order
      of the commands between which they were published. */
  ghost predicate Messages(s: State)
  {
    && s.heard <= |s.msgs|
    && (forall m :: Pending(s, m) ==>
          && Is(s, s.msgs[m].channel, Announced) && s.msgs[m].channel !in s.passed
          && s.acked <= s.msgs[m].at <= s.applied)
    && (forall m, n :: Pending(s, m) && Pending(s, n) && m < n ==>
          s.msgs[m].channel != s.msgs[n].channel && s.msgs[m].at <= s.msgs[n].at)
  }

  ghost predicate Is(s: State, d: nat, p: Progress) { d in s.orders && s.orders[d] == p }

  ghost predicate OnItsWay(s: State, d: nat)
  {
    s.heard <= |s.msgs| && exists m :: Pending(s, m) && s.msgs[m].channel == d
  }

  /** An announced outcome has passed or is on its way. */
  ghost predicate Announcements(s: State)
  {
    && (forall d :: d in s.passed ==> Is(s, d, Announced))
    && (forall d :: Is(s, d, Announced) ==> d in s.passed || OnItsWay(s, d))
  }

  predicate SettingUp(p: Phase)
  {
    p.Checking? || p.Checked? || p.Rejected? || p.Incremented? || p.Armed? || p.Registered? || p.Fetched?
  }

  predicate TearingDown(p: Phase)
  {
    p.AwaitUnsub? || p.Decrementing? || p.Decremented? || p.Gone?
  }

  /** What an open socket has learned so far. */
  ghost predicate Told(x: Sock, passed: set<nat>)
  {
    && (SettingUp(x.phase) ==> !x.learned)
    && (x.phase.AwaitSub? && x.open ==> x.learned == x.saw)
    && (x.phase == Live ==>
          && (x.late ==> x.order in passed)
          && (x.open ==> (x.learned <==> x.saw || (x.order in passed && !x.late))))
  }

  ghost predicate Sockets(s: State)
  {
    forall i :: 0 <= i < |s.sockets| ==> Told(s.sockets[i], s.passed)
  }

  ghost predicate Inv(s: State)
  {
    Channels.Inv(s) && Messages(s) && Announcements(s) && Sockets(s)
  }

  // ---- Messages ----

  lemma MessagesStay(s: State, t: State)
    requires Messages(s) && Announcements(s)
    requires SameTraffic(s, t)
    ensures Messages(t) && Announcements(t)
  {
    forall d | Is(t, d, Announced)
      ensures d in t.passed || OnItsWay(t, d)
    {
      if d !in s.passed {
        var m :| Pending(s, m) && s.msgs[m].channel == d;
        assert Pending(t, m);
      }
    }
    forall m | Pending(t, m)
      ensures Pending(s, m)
    {
    }
  }

  /** No message is between the answer heard and the ones before it. */
  lemma AckPasses(s: State, m: int)
    requires Messages(s) && CanStep(s, Ack) && Pending(s, m)
    ensures s.msgs[m].at > s.acked
  {
    assert Pending(s, s.heard);
  }

  lemma AckMessages(s: State)
    requires Messages(s) && Announcements(s) && CanStep(s, Ack)
    ensures Messages(s.(acked := s.acked + 1)) && Announcements(s.(acked := s.acked + 1))
  {
    var t := s.(acked := s.acked + 1);
    forall m | Pending(t, m)
      ensures Pending(s, m) && s.msgs[m].at > s.acked
    {
      AckPasses(s, m);
    }
    forall d | OnItsWay(s, d)
      ensures OnItsWay(t, d)
    {
      var m :| Pending(s, m) && s.msgs[m].channel == d;
      assert Pending(t, m);
    }
  }

  lemma AnnounceMessages(s: State, d: nat)
    requires Channels.Tickets(s) && Messages(s) && Announcements(s) && CanStep(s, Announce(d))
    ensures Messages(Step(s, Announce(d))) && Announcements(Step(s, Announce(d)))
  {
    if Subscribed(s.cmds, s.applied, d) {
      SentMessages(s, d, AnnounceStep(s, d));
    } else {
      DroppedMessages(s, d, AnnounceStep(s, d));
    }
  }

  lemma SentMessages(s: State, d: nat, t: State)
    requires s.acked <= s.applied && Messages(s) && Announcements(s) && Is(s, d, Written)
    requires t == s.(orders := s.orders[d := Announced], msgs := s.msgs + [Msg(d, s.applied)])
    ensures Messages(t) && Announcements(t)
  {
    forall m | Pending(t, m) && m < |s.msgs|
      ensures Pending(s, m)
    {
    }
    forall c | Is(t, c, Announced)
      ensures c in t.passed || OnItsWay(t, c)
    {
      if c == d {
        assert Pending(t, |s.msgs|) && t.msgs[|s.msgs|].channel == d;
      } else if c !in s.passed {
        assert Is(s, c, Announced);
        var m :| Pending(s, m) && s.msgs[m].channel == c;
        assert Pending(t, m);
      }
    }
  }

  lemma DroppedMessages(s: State, d: nat, t: State)
    requires Messages(s) && Announcements(s) && Is(s, d, Written)
    requires t == s.(orders := s.orders[d := Announced], passed := s.passed + {d})
    ensures Messages(t) && Announcements(t)
  {
    forall m | Pending(t, m)
      ensures Pending(s, m) && s.msgs[m].channel != d
    {
    }
    forall c | Is(t, c, Announced)
      ensures c in t.passed || OnItsWay(t, c)
    {
      if c != d && c !in s.passed {
        assert Is(s, c, Announced);
        var m :| Pending(s, m) && s.msgs[m].channel == c;
        assert Pending(t, m);
      }
    }
  }

  lemma DeliverMessages(s: State)
    requires Messages(s) && Announcements(s) && CanStep(s, Deliver)
    ensures Messages(Step(s, Deliver)) && Announcements(Step(s, Deliver))
  {
    var t := DeliverStep(s);
    assert Pending(s, s.heard);
    forall m | Pending(t, m)
      ensures Pending(s, m) && s.msgs[m].channel != s.msgs[s.heard].channel
    {
    }
    forall d | Is(t, d, Announced)
      ensures d in t.passed || OnItsWay(t, d)
    {
      if d !in t.passed {
        var m :| Pending(s, m) && s.msgs[m].channel == d;
        assert Pending(t, m);
      }
    }
  }

  lemma StepMessages(s: State, e: Event)
    requires Channels.Tickets(s) && Messages(s) && Announcements(s) && CanStep(s, e)
    ensures Messages(Step(s, e)) && Announcements(Step(s, e))
  {
    if e.Ack? {
      AckMessages(s);
    } else if e.Announce? {
      AnnounceMessages(s, e.order);
    } else if e.Deliver? {
      DeliverMessages(s);
    } else {
      OthersLeaveMessages(s, e);
      MessagesStay(s, Step(s, e));
    }
  }

  ghost predicate SameTraffic(s: State, t: State)
  {
    && t.msgs == s.msgs && t.heard == s.heard && t.passed == s.passed && t.acked == s.acked && t.applied >= s.applied
    && forall d :: Is(t, d, Announced) <==> Is(s, d, Announced)
  }

  lemma OthersLeaveMessages(s: State, e: Event)
    requires CanStep(s, e) && !e.Ack? && !e.Announce? && !e.Deliver?
    ensures SameTraffic(s, Step(s, e))
  {
    if e.Close? {
      CloseTraffic(s, e.id);
    } else if e.Subscribe? || e.Resume? {
      SubscriptionTraffic(s, e);
    } else if e.CreateOrder? || e.WriteOutcome? {
      OrderTraffic(s, e);
    }
  }

  lemma CloseTraffic(s: State, i: nat)
    requires CanStep(s, Close(i))
    ensures SameTraffic(s, CloseStep(s, i))
  {
  }

  lemma SubscriptionTraffic(s: State, e: Event)
    requires CanStep(s, e) && (e.Subscribe? || e.Resume?)
    ensures SameTraffic(s, Step(s, e))
  {
  }

  lemma OrderTraffic(s: State, e: Event)
    requires CanStep(s, e) && (e.CreateOrder? || e.WriteOutcome?)
    ensures SameTraffic(s, Step(s, e))
  {
  }

  // ---- Sockets ----

  /** A live socket's channel is subscribed at Redis, so its message is not dropped. */
  lemma NotDropped(s: State, d: nat, i: nat)
    requires Channels.Inv(s) && CanStep(s, Announce(d))
    requires i < |s.sockets| && s.sockets[i].phase == Live && s.sockets[i].order == d
    ensures d in Step(s, Announce(d)).passed <==> d in s.passed
  {
    Channels.StaysSubscribed(s, i, s.applied);
  }

  /** An announcement changes nothing for a socket: dropped, none of its channel is live. */
  lemma AnnounceTold(s: State, d: nat, i: nat)
    requires Inv(s) && CanStep(s, Announce(d)) && i < |s.sockets|
    ensures Told(s.sockets[i], AnnounceStep(s, d).passed)
  {
    assert Told(s.sockets[i], s.passed);
    if s.sockets[i].phase == Live && s.sockets[i].order == d {
      NotDropped(s, d, i);
    }
  }

  lemma AnnounceSockets(s: State, d: nat)
    requires Inv(s) && CanStep(s, Announce(d))
    ensures Sockets(Step(s, Announce(d)))
  {
    var t := AnnounceStep(s, d);
    assert t.sockets == s.sockets;
    forall i | 0 <= i < |t.sockets|
      ensures Told(t.sockets[i], t.passed)
    {
      AnnounceTold(s, d, i);
    }
  }

  lemma DeliverSockets(s: State)
    requires Inv(s) && CanStep(s, Deliver)
    ensures Sockets(Step(s, Deliver))
  {
    var t, d := DeliverStep(s), s.msgs[s.heard].channel;
    assert Pending(s, s.heard);
    forall i | 0 <= i < |t.sockets|
      ensures Told(t.sockets[i], t.passed)
    {
      assert Told(s.sockets[i], s.passed);
      assert t.sockets[i] == Relayed(s.sockets[i], d);
    }
  }

  /** At most one socket changes, and it stays correctly told. */
  lemma OneSocket(s: State, t: State, i: nat)
    requires Sockets(s) && i < |s.sockets| == |t.sockets|
    requires t.sockets == s.sockets[i := t.sockets[i]] && t.passed == s.passed && Told(t.sockets[i], t.passed)
    ensures Sockets(t)
  {
  }

  /** What such a step does to its socket. */
  lemma SetUpSock(s: State, e: Event)
    requires CanStep(s, e) && SetUp(e)
    ensures Step(s, e).passed == s.passed && |Step(s, e).sockets| == |s.sockets|
    ensures var x, y := s.sockets[e.id], Step(s, e).sockets[e.id];
            && y.learned == x.learned && y.closed == x.closed && y.order == x.order && y.ip == x.ip
            && if e.Shut? then y == x.(open := false)
               else if e.Decrement? || e.Unregister? then TearingDown(x.phase) && TearingDown(y.phase)
               else SettingUp(x.phase) && SettingUp(y.phase)
  {
  }

  lemma SetUpTold(s: State, e: Event)
    requires CanStep(s, e) && SetUp(e) && Told(s.sockets[e.id], s.passed)
    ensures Step(s, e).passed == s.passed && e.id < |Step(s, e).sockets|
    ensures Told(Step(s, e).sockets[e.id], s.passed)
  {
    SetUpSock(s, e);
  }

  lemma BooksMove(s: State, e: Event)
    requires CanStep(s, e) && (e.Increment? || e.Register? || e.Decrement? || e.Unregister?)
    ensures var t := Step(s, e); |t.sockets| == |s.sockets| && t.sockets == s.sockets[e.id := t.sockets[e.id]]
  {
  }

  lemma SubscribeTold(s: State, i: nat)
    requires CanStep(s, Subscribe(i)) && Told(s.sockets[i], s.passed)
    ensures SubscribeStep(s, i).passed == s.passed && Told(SubscribeStep(s, i).sockets[i], s.passed)
  {
  }

  lemma CloseSock(s: State, i: nat)
    requires CanStep(s, Close(i))
    ensures CloseStep(s, i).passed == s.passed && i < |CloseStep(s, i).sockets|
    ensures var x, y := s.sockets[i], CloseStep(s, i).sockets[i];
            && !y.open && y.learned == x.learned && y.late == x.late && y.order == x.order
            && if x.phase == Live then TearingDown(y.phase) else y.phase == x.phase
  {
  }

  lemma CloseTold(s: State, i: nat)
    requires CanStep(s, Close(i)) && Told(s.sockets[i], s.passed)
    ensures CloseStep(s, i).passed == s.passed && i < |CloseStep(s, i).sockets|
    ensures Told(CloseStep(s, i).sockets[i], s.passed)
  {
    CloseSock(s, i);
  }

  lemma ResumeTold(s: State)
    requires Channels.Tickets(s) && CanStep(s, Resume) && Told(s.sockets[s.cmds[s.resumed].socket], s.passed)
    ensures var t, i := ResumeStep(s), s.cmds[s.resumed].socket;
            && |t.sockets| == |s.sockets| && t.sockets == s.sockets[i := t.sockets[i]]
            && t.passed == s.passed && Told(t.sockets[i], t.passed)
  {
    var i := Channels.Resuming(s);
  }

  lemma StepSockets(s: State, e: Event)
    requires Inv(s) && CanStep(s, e)
    ensures Sockets(Step(s, e))
  {
    if e.Announce? {
      AnnounceSockets(s, e.order);
    } else if e.Deliver? {
      DeliverSockets(s);
    } else if e.Resume? {
      ResumeTold(s);
      OneSocket(s, ResumeStep(s), s.cmds[s.resumed].socket);
    } else if Connections.Quiet(e) {
      Connections.QuietStays(s, e);
      if e.Close? {
        CloseTold(s, e.id);
      } else if e.Subscribe? {
        SubscribeTold(s, e.id);
      } else {
        SetUpTold(s, e);
      }
      OneSocket(s, Step(s, e), e.id);
    } else if e.Increment? || e.Register? || e.Decrement? || e.Unregister? {
      SetUpTold(s, e);
      BooksMove(s, e);
      OneSocket(s, Step(s, e), e.id);
    }
  }

  lemma StepKeeps(s: State, e: Event)
    requires Inv(s) && CanStep(s, e)
    ensures Inv(Step(s, e))
  {
    Channels.StepKeeps(s, e);
    StepMessages(s, e);
    StepSockets(s, e);
  }

  lemma {:induction false} RunKeeps(s: State, es: seq<Event>)
    requires Inv(s) && Runs(s, es)
    ensures Inv(After(s, es))
    decreases |es|
  {
    if es != [] {
      StepKeeps(s, es[0]);
      RunKeeps(Step(s, es[0]), es[1..]);
    }
  }

  lemma InitInv()
    ensures Inv(Init())
  {
  }

  // ---- Delivery ----

  /** Everything sent has been answered and has arrived. */
  predicate Drained(s: State)
  {
    s.resumed == |s.cmds| && s.heard == |s.msgs|
  }

  /** With everything arrived, an open socket whose set-up is complete has been told the
      announced outcome unless its backfill missed it and its handler came late. */
  lemma Delivered(s: State, i: nat)
    requires Inv(s) && Drained(s) && i < |s.sockets| && s.sockets[i].phase == Live && s.sockets[i].open
    requires Is(s, s.sockets[i].order, Announced)
    ensures s.sockets[i].learned <==> !(!s.sockets[i].saw && s.sockets[i].late)
  {
    assert Told(s.sockets[i], s.passed);
    forall m
      ensures !Pending(s, m)
    {
    }
  }

  /** While anything is under way the connection can take a step. */
  lemma Drains(s: State) returns (e: Event)
    requires Inv(s) && !Drained(s)
    ensures CanStep(s, e)
    ensures e == if s.resumed < s.acked then Resume
                 else if s.heard < |s.msgs| && s.msgs[s.heard].at == s.acked then Deliver
                 else if s.acked < s.applied then Ack
                 else Apply
  {
    if s.resumed < s.acked {
      assert Channels.WaitsFor(s, s.resumed);
      return Resume;
    }
    if s.heard < |s.msgs| {
      assert Pending(s, s.heard);
      if s.msgs[s.heard].at == s.acked { return Deliver; }
    }
    if s.acked < s.applied { return Ack; }
    return Apply;
  }

  /** A socket of order 0 in the phase, the message about to be, or already, dropped. */
  function Lonely(phase: Phase, late: bool, p: Progress, passed: bool): State
  {
    Init().(sockets := [Sock(0, 0, phase, true, false, false, late, false)],
            counters := map[Key(0, 0) := 1], expires := map[Key(0, 0) := COUNTER_TTL],
            connections := map[Key(0, 0) := {0}],
            orders := map[0 := p], passed := if passed then {0} else {})
  }

  lemma Then(s: State, e: Event, s': State, es: seq<Event>, t: State)
    requires CanStep(s, e) && Step(s, e) == s' && Runs(s', es) && After(s', es) == t
    ensures Runs(s, [e] + es) && After(s, [e] + es) == t
  {
    assert ([e] + es)[1..] == es;
  }

  function Unheard(): State
  {
    Lonely(Live, true, Announced, true)
      .(subscriptions := map[0 := 0], cmds := [Cmd(0, Sub, 0)], applied := 1, acked := 1, resumed := 1)
  }

  /** The order read, then the outcome written and its message dropped. */
  function Dropped(): State { Lonely(Fetched(true), false, Announced, true) }

  /** The subscribe is on its way. */
  function Asking(): State
  {
    Dropped().(sockets := [Sock(0, 0, AwaitSub(0), true, false, false, false, false)],
               subscriptions := map[0 := 0], cmds := [Cmd(0, Sub, 0)])
  }

  lemma AnsweredTooLate() returns (es: seq<Event>)
    ensures Runs(Asking(), es) && After(Asking(), es) == Unheard()
  {
    var t := Unheard();
    var s1 := Asking().(applied := 1);
    var s2 := s1.(acked := 1);
    assert Step(s2, Resume) == t;
    es := [];
    Then(s2, Resume, t, es, t); es := [Resume] + es;
    Then(s1, Ack, s2, es, t); es := [Ack] + es;
    Then(Asking(), Apply, s1, es, t); es := [Apply] + es;
  }

  lemma SubscribesTooLate() returns (es: seq<Event>)
    ensures Runs(Dropped(), es) && After(Dropped(), es) == Unheard()
  {
    es := AnsweredTooLate();
    assert Step(Dropped(), Subscribe(0)) == Asking();
    Then(Dropped(), Subscribe(0), Asking(), es, Unheard());
    es := [Subscribe(0)] + es;
  }

  /** A socket of order 0 that is counted and about to be registered. */
  function Entering(): State
  {
    Init().(sockets := [NewSock(0, 0).(phase := Armed)], counters := map[Key(0, 0) := 1],
            expires := map[Key(0, 0) := COUNTER_TTL], orders := map[0 := Running])
  }

  lemma MissesFromFetched() returns (es: seq<Event>)
    ensures var s := Lonely(Fetched(true), false, Running, false); Runs(s, es) && After(s, es) == Unheard()
  {
    var t, fetched := Unheard(), Lonely(Fetched(true), false, Running, false);
    var written := Lonely(Fetched(true), false, Written, false);
    assert Step(fetched, WriteOutcome(0)) == written;
    assert Step(written, Announce(0)) == Dropped();
    es := SubscribesTooLate();
    Then(written, Announce(0), Dropped(), es, t); es := [Announce(0)] + es;
    Then(fetched, WriteOutcome(0), written, es, t); es := [WriteOutcome(0)] + es;
  }

  lemma MissesFromEntering() returns (es: seq<Event>)
    ensures Runs(Entering(), es) && After(Entering(), es) == Unheard()
  {
    var t, registered := Unheard(), Lonely(Registered, false, Running, false);
    assert {} + {0} == {0};
    assert Step(Entering(), Register(0)) == registered;
    assert Step(registered, Fetch(0)) == Lonely(Fetched(true), false, Running, false);
    es := MissesFromFetched();
    Then(registered, Fetch(0), Lonely(Fetched(true), false, Running, false), es, t); es := [Fetch(0)] + es;
    Then(Entering(), Register(0), registered, es, t); es := [Register(0)] + es;
  }

  /** A socket of order 0 that has just connected. */
  function Arriving(): State
  {
    Init().(sockets := [NewSock(0, 0)], orders := map[0 := Running])
  }

  lemma EntersFromArriving(rest: seq<Event>) returns (es: seq<Event>)
    requires Runs(Entering(), rest)
    ensures Runs(Arriving(), es) && After(Arriving(), es) == After(Entering(), rest)
  {
    var t := After(Entering(), rest);
    var checked := Step(Arriving(), Check(0));
    var counted := Step(checked, Increment(0));
    assert Step(counted, Arm(0)) == Entering();
    Then(counted, Arm(0), Entering(), rest, t); es := [Arm(0)] + rest;
    Then(checked, Increment(0), counted, es, t); es := [Increment(0)] + es;
    Then(Arriving(), Check(0), checked, es, t); es := [Check(0)] + es;
  }

  /** Every run from that socket continues one from the start. */
  lemma EntersFromInit(rest: seq<Event>) returns (es: seq<Event>)
    requires Runs(Entering(), rest)
    ensures Runs(Init(), es) && After(Init(), es) == After(Entering(), rest)
  {
    es := EntersFromArriving(rest);
    var t := After(Arriving(), es);
    var created := Init().(orders := map[0 := Running]);
    assert Step(Init(), CreateOrder(0)) == created;
    assert Step(created, Connect(0, 0)) == Arriving();
    Then(created, Connect(0, 0), Arriving(), es, t); es := [Connect(0, 0)] + es;
    Then(Init(), CreateOrder(0), created, es, t); es := [CreateOrder(0)] + es;
  }

  /** The exception is real: an open, fully set-up socket of an announced order that
      never learns the outcome, in a run where nothing fails and nobody closes. */
  lemma OutcomeCanBeMissed() returns (es: seq<Event>)
    ensures Runs(Init(), es)
    ensures var s := After(Init(), es);
            && |s.sockets| == 1 && s.sockets[0].phase == Live && s.sockets[0].open
            && Is(s, s.sockets[0].order, Announced) && Drained(s) && !s.sockets[0].learned
  {
    es := MissesFromEntering();
    es := EntersFromInit(es);
  }
}

/** Closes: which of them the service hears, and what the others leave behind. */
module Leaks {
  import opened WebSocket
  import Channels
  import Connections
  import Outcomes

  /** Only the close handler starts a tear-down. */
  ghost predicate Closed(s: State)
  {
    forall i :: 0 <= i < |s.sockets| && Outcomes.TearingDown(s.sockets[i].phase) ==> s.sockets[i].closed
  }

  /** Nobody heard this socket's close. */
  predicate Missed(x: Sock) { x.closed && !Outcomes.TearingDown(x.phase) }

  /** What a step can do to a socket that is there before it. */
  ghost predicate Moves(x: Sock, y: Sock)
  {
    && KeyOf(y) == KeyOf(x)
    && (x.closed ==> y.closed)
    && (Outcomes.TearingDown(x.phase) ==> Outcomes.TearingDown(y.phase))
    && (Outcomes.TearingDown(y.phase) && !Outcomes.TearingDown(x.phase) ==> !x.closed && y.closed)
    && (x.phase == Rejected ==> y.phase == Rejected)
    && (x.phase == Live && x.closed ==> y.phase == Live)
  }

  lemma ClosedMoves(x: Sock, alone: bool, ticket: nat)
    requires !x.closed && (Outcomes.TearingDown(x.phase) ==> x.closed)
    ensures Moves(x, ClosedSock(x, alone, ticket))
  {
  }

  lemma ResumedMoves(s: State)
    requires Channels.Tickets(s) && CanStep(s, Resume)
    requires var x := s.sockets[s.cmds[s.resumed].socket]; Outcomes.TearingDown(x.phase) ==> x.closed
    ensures var x, cmd := s.sockets[s.cmds[s.resumed].socket], s.cmds[s.resumed];
            Moves(x, ResumedSock(x, cmd.kind, x.order in s.passed))
  {
    var i := Channels.Resuming(s);
  }

  lemma SetUpMoves(s: State, e: Event)
    requires CanStep(s, e) && SetUp(e)
    ensures Moves(s.sockets[e.id], NextSock(s, e))
  {
  }

  lemma SubscribeMoves(s: State, i: nat)
    requires CanStep(s, Subscribe(i))
    ensures Moves(s.sockets[i], SubscribeStep(s, i).sockets[i])
  {
  }

  lemma StepMoves(s: State, e: Event, i: nat)
    requires Channels.Tickets(s) && Closed(s) && CanStep(s, e) && i < |s.sockets|
    ensures i < |Step(s, e).sockets| && Moves(s.sockets[i], Step(s, e).sockets[i])
  {
    if e.Resume? {
      ResumedMoves(s);
    } else if e.Close? {
      ClosedMoves(s.sockets[e.id], Alone(s, s.sockets[e.id].order), |s.cmds|);
    } else if e.Subscribe? {
      SubscribeMoves(s, e.id);
    } else if SetUp(e) {
      SetUpMoves(s, e);
    } else if e.Deliver? {
      assert Step(s, e).sockets[i] == Relayed(s.sockets[i], s.msgs[s.heard].channel);
    } else {
      RestMoves(s, e, i);
    }
  }

  lemma RestMoves(s: State, e: Event, i: nat)
    requires CanStep(s, e) && i < |s.sockets|
    requires e.Connect? || e.Expire? || Connections.Elsewhere(e)
    ensures i < |Step(s, e).sockets| && Step(s, e).sockets[i] == s.sockets[i]
  {
    if !e.Connect? && !e.Expire? {
      Connections.ElsewhereStays(s, e);
    }
  }

  lemma StepClosed(s: State, e: Event)
    requires Channels.Tickets(s) && Closed(s) && CanStep(s, e)
    ensures Closed(Step(s, e))
  {
    forall i | 0 <= i < |Step(s, e).sockets| && Outcomes.TearingDown(Step(s, e).sockets[i].phase)
      ensures Step(s, e).sockets[i].closed
    {
      if i < |s.sockets| {
        StepMoves(s, e, i);
      } else {
        NewcomersChecking(s, e, i);
      }
    }
  }

  lemma NewcomersChecking(s: State, e: Event, i: nat)
    requires CanStep(s, e) && |s.sockets| <= i < |Step(s, e).sockets|
    ensures Step(s, e).sockets[i].phase == Checking
  {
    if Connections.Elsewhere(e) {
      Connections.ElsewhereStays(s, e);
    }
  }

  lemma MovesFurther(x: Sock, y: Sock, z: Sock)
    requires Moves(x, y) && Moves(y, z)
    requires Outcomes.TearingDown(x.phase) ==> x.closed
    ensures Moves(x, z)
  {
  }

  lemma {:induction false} RunMoves(s: State, es: seq<Event>, i: nat)
    requires Channels.Inv(s) && Closed(s) && Runs(s, es) && i < |s.sockets|
    ensures Channels.Inv(After(s, es)) && Closed(After(s, es))
    ensures i < |After(s, es).sockets| && Moves(s.sockets[i], After(s, es).sockets[i])
    decreases |es|
  {
    if es != [] {
      var t := Step(s, es[0]);
      StepMoves(s, es[0], i);
      StepClosed(s, es[0]);
      Channels.StepKeeps(s, es[0]);
      RunMoves(t, es[1..], i);
      MovesFurther(s.sockets[i], t.sockets[i], After(t, es[1..]).sockets[i]);
    }
  }

  lemma {:induction false} ClosedReached(s: State, es: seq<Event>)
    requires Channels.Inv(s) && Closed(s) && Runs(s, es)
    ensures Closed(After(s, es))
    decreases |es|
  {
    if es != [] {
      StepClosed(s, es[0]);
      Channels.StepKeeps(s, es[0]);
      ClosedReached(Step(s, es[0]), es[1..]);
    }
  }

  /** No step of the socket's own set-up or tear-down is left to take, and no command of
      its is on the way. */
  predicate Rests(s: State, i: nat)
  {
    && s.resumed == |s.cmds|
    && !CanStep(s, Check(i)) && !CanStep(s, Increment(i)) && !CanStep(s, Arm(i)) && !CanStep(s, Register(i))
    && !CanStep(s, Fetch(i)) && !CanStep(s, Subscribe(i)) && !CanStep(s, Decrement(i)) && !CanStep(s, Unregister(i))
  }

  lemma RestingPhases(s: State, i: nat)
    requires Channels.Inv(s) && i < |s.sockets| && Rests(s, i)
    ensures var p := s.sockets[i].phase; p == Rejected || p == Live || p == Gone
  {
    assert Channels.HasTicket(s, i);
  }

  /** The socket keeps its place: in the counted sockets, in its set and on its channel. */
  ghost predicate KeepsPlace(s: State, i: nat)
  {
    && i < |s.sockets|
    && i in Connections.Those(s.sockets, KeyOf(s.sockets[i]), Connections.Counted)
    && i in Connected(s, KeyOf(s.sockets[i]))
    && i in s.subscriptions
  }

  /** The socket has left all of them. */
  ghost predicate LeftPlace(s: State, i: nat)
  {
    && i < |s.sockets|
    && i !in Connections.Those(s.sockets, KeyOf(s.sockets[i]), Connections.Counted)
    && i !in Connected(s, KeyOf(s.sockets[i]))
    && i !in s.subscriptions
  }

  lemma PlaceByPhase(s: State, i: nat, debt: int)
    requires Channels.Inv(s) && i < |s.sockets|
    requires Connections.Sound(s, KeyOf(s.sockets[i]), debt)
    ensures s.sockets[i].phase == Live ==> KeepsPlace(s, i)
    ensures s.sockets[i].phase == Rejected || s.sockets[i].phase == Gone ==> LeftPlace(s, i)
  {
  }

  /** A close in any run and what it leaves once the socket is at rest: its place is kept
      if and only if the listener was not attached at the close and the limit check had
      not refused it, and left otherwise. */
  lemma CloseLeaksIff(es: seq<Event>, i: nat, fs: seq<Event>)
    requires Runs(Init(), es) && CanStep(After(Init(), es), Close(i))
    requires Runs(Step(After(Init(), es), Close(i)), fs)
    requires Rests(After(Step(After(Init(), es), Close(i)), fs), i)
    ensures var s := After(Init(), es);
            var t := After(Step(s, Close(i)), fs);
            && i < |t.sockets|
            && (KeepsPlace(t, i) <==> s.sockets[i].phase != Live && t.sockets[i].phase != Rejected)
            && (LeftPlace(t, i) <==> !KeepsPlace(t, i))
  {
    var s := After(Init(), es);
    var u := Step(s, Close(i));
    var t := After(u, fs);
    Channels.InvReached(es);
    ClosedReached(Init(), es);
    StepMoves(s, Close(i), i);
    StepClosed(s, Close(i));
    Channels.StepKeeps(s, Close(i));
    RunMoves(u, fs, i);
    RestingPhases(t, i);
    var k, d := KeyOf(s.sockets[i]), Connections.Debt(Init(), es, KeyOf(s.sockets[i]), 0);
    Connections.Reached(es, k);
    Connections.StepKeeps(s, Close(i), k, d);
    Connections.RunKeeps(u, fs, k, Connections.NextDebt(s, Close(i), k, d));
    PlaceByPhase(t, i, Connections.Debt(u, fs, k, Connections.NextDebt(s, Close(i), k, d)));
    ClosedPhases(s, i);
  }

  lemma ClosedPhases(s: State, i: nat)
    requires Closed(s) && CanStep(s, Close(i))
    ensures var y := CloseStep(s, i).sockets[i];
            if s.sockets[i].phase == Live then Outcomes.TearingDown(y.phase) else Missed(y)
  {
  }

  // ---- A run that leaks ----

  /** A closed socket of order 0, counted. */
  function Lost(phase: Phase): State
  {
    Outcomes.Entering().(sockets := [Sock(0, 0, phase, false, true, false, false, false)])
  }

  /** The same, in its set and with its subscribe issued. */
  function Asking(applied: nat, acked: nat): State
  {
    Lost(AwaitSub(0)).(connections := map[Key(0, 0) := {0}], subscriptions := map[0 := 0],
                       cmds := [Cmd(0, Sub, 0)], applied := applied, acked := acked)
  }

  function Leaked(): State
  {
    Asking(1, 1).(sockets := Lost(Live).sockets, resumed := 1)
  }

  lemma AnsweredLeaks()
    ensures CanStep(Asking(1, 1), Resume) && Step(Asking(1, 1), Resume) == Leaked()
  {
  }

  lemma AskingLeaks() returns (es: seq<Event>)
    ensures Runs(Asking(0, 0), es) && After(Asking(0, 0), es) == Leaked()
  {
    var t := Leaked();
    AnsweredLeaks();
    es := [];
    Outcomes.Then(Asking(1, 1), Resume, t, es, t); es := [Resume] + es;
    Outcomes.Then(Asking(1, 0), Ack, Asking(1, 1), es, t); es := [Ack] + es;
    Outcomes.Then(Asking(0, 0), Apply, Asking(1, 0), es, t); es := [Apply] + es;
  }

  lemma LostLeaks() returns (es: seq<Event>)
    ensures Runs(Lost(Armed), es) && After(Lost(Armed), es) == Leaked()
  {
    var t := Leaked();
    assert {} + {0} == {0};
    var registered := Lost(Registered).(connections := map[Key(0, 0) := {0}]);
    var fetched := Lost(Fetched(true)).(connections := map[Key(0, 0) := {0}]);
    assert Step(Lost(Armed), Register(0)) == registered;
    assert Step(registered, Fetch(0)) == fetched;
    assert Step(fetched, Subscribe(0)) == Asking(0, 0);
    es := AskingLeaks();
    Outcomes.Then(fetched, Subscribe(0), Asking(0, 0), es, t); es := [Subscribe(0)] + es;
    Outcomes.Then(registered, Fetch(0), fetched, es, t); es := [Fetch(0)] + es;
    Outcomes.Then(Lost(Armed), Register(0), registered, es, t); es := [Register(0)] + es;
  }

  lemma ClosesEntering()
    ensures CanStep(Outcomes.Entering(), Close(0)) && Step(Outcomes.Entering(), Close(0)) == Lost(Armed)
  {
  }

  lemma LeakedRests()
    ensures Rests(Leaked(), 0) && KeepsPlace(Leaked(), 0)
    ensures Leaked().sockets == [Sock(0, 0, Live, false, true, false, false, false)]
  {
  }

  /** A run from the start that closes a socket during its set-up and leaks it. */
  lemma LeakReached() returns (es: seq<Event>, fs: seq<Event>)
    ensures Runs(Init(), es) && CanStep(After(Init(), es), Close(0))
    ensures Runs(Step(After(Init(), es), Close(0)), fs)
    ensures var t := After(Step(After(Init(), es), Close(0)), fs);
            Rests(t, 0) && t.sockets == [Sock(0, 0, Live, false, true, false, false, false)] && KeepsPlace(t, 0)
  {
    es := Outcomes.EntersFromInit([]);
    ClosesEntering();
    fs := LostLeaks();
    LeakedRests();
  }

  /** A leaked socket stays in its set and on its channel in every run from there, and in
      the counter but for what the counter's expiry forgets; and no close of it is ever
      handled, which is what would clear its ping interval. */
  lemma LeakIsForGood(es: seq<Event>, i: nat, fs: seq<Event>)
    requires Runs(Init(), es) && Runs(After(Init(), es), fs)
    requires var s := After(Init(), es); i < |s.sockets| && s.sockets[i].closed && s.sockets[i].phase == Live
    ensures KeepsPlace(After(After(Init(), es), fs), i) && After(After(Init(), es), fs).sockets[i].phase == Live
    ensures var s := After(Init(), es);
            var k := KeyOf(s.sockets[i]);
            CounterOf(After(s, fs), k) >= 1 - Connections.Debt(s, fs, k, Connections.Debt(Init(), es, k, 0))
  {
    var s := After(Init(), es);
    var k := KeyOf(s.sockets[i]);
    Channels.InvReached(es);
    ClosedReached(Init(), es);
    Connections.Reached(es, k);
    LeakStays(s, i, fs, Connections.Debt(Init(), es, k, 0));
  }

  lemma LeakStays(s: State, i: nat, fs: seq<Event>, d: int)
    requires Channels.Inv(s) && Closed(s) && Runs(s, fs)
    requires i < |s.sockets| && s.sockets[i].closed && s.sockets[i].phase == Live
    requires Connections.Sound(s, KeyOf(s.sockets[i]), d)
    ensures KeepsPlace(After(s, fs), i) && After(s, fs).sockets[i].phase == Live
    ensures var k := KeyOf(s.sockets[i]); CounterOf(After(s, fs), k) >= 1 - Connections.Debt(s, fs, k, d)
  {
    var t, k := After(s, fs), KeyOf(s.sockets[i]);
    RunMoves(s, fs, i);
    Connections.RunKeeps(s, fs, k, d);
    PlaceByPhase(t, i, Connections.Debt(s, fs, k, d));
    OneCounted(t, i, k, Connections.Debt(s, fs, k, d));
  }

  lemma OneCounted(s: State, i: nat, k: Key, debt: int)
    requires Connections.CounterIs(s, k, debt) && i in Connections.Those(s.sockets, k, Connections.Counted)
    ensures CounterOf(s, k) >= 1 - debt
  {
    var counted := Connections.Those(s.sockets, k, Connections.Counted);
    assert counted == (counted - {i}) + {i};
  }
}

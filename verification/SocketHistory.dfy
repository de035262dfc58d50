/** What a socket's flags mean, read off the run: which order it was sent in the backfill,
    when its handler was attached, why it is no longer open, and so which sockets learn how
    their order ended. */
module SocketHistory {
  import opened WebSocket
  import Channels
  import Connections
  import Outcomes

  // ---- Beginnings of a run ----

  lemma {:induction false} RunLast(s: State, es: seq<Event>)
    requires Runs(s, es) && es != []
    ensures var n := |es| - 1;
            Runs(s, es[..n]) && CanStep(After(s, es[..n]), es[n]) && After(s, es) == Step(After(s, es[..n]), es[n])
    decreases |es|
  {
    var n := |es| - 1;
    if n > 0 {
      RunLast(Step(s, es[0]), es[1..]);
      assert es[1..][..n - 1] == es[..n][1..];
    }
  }

  lemma {:induction false} Beginning(es: seq<Event>, n: nat)
    requires Runs(Init(), es) && n <= |es|
    ensures Runs(Init(), es[..n])
    decreases |es|
  {
    if n < |es| {
      RunLast(Init(), es);
      Beginning(es[..|es| - 1], n);
      assert es[..|es| - 1][..n] == es[..n];
    } else {
      assert es[..n] == es;
    }
  }

  // ---- Orders and messages ----

  /** The orders are those created, and decided exactly after their outcome is written. */
  ghost predicate OrdersFrom(es: seq<Event>, s: State)
  {
    forall d :: (d in s.orders <==> CreateOrder(d) in es) && (Decided(s, d) <==> WriteOutcome(d) in es)
  }

  /** At position p the outcome of the order passes: Redis drops it, or it arrives. */
  ghost predicate Passes(es: seq<Event>, p: int, d: nat)
  {
    && 0 <= p < |es| && Runs(Init(), es[..p])
    && var s := After(Init(), es[..p]);
       || (es[p] == Announce(d) && s.applied <= |s.cmds| && !Subscribed(s.cmds, s.applied, d))
       || (es[p] == Deliver && s.heard < |s.msgs| && s.msgs[s.heard].channel == d)
  }

  ghost predicate PassedIn(es: seq<Event>, d: nat)
  {
    exists p :: Passes(es, p, d)
  }

  ghost predicate PassedFrom(es: seq<Event>, s: State)
  {
    forall d :: d in s.passed <==> PassedIn(es, d)
  }

  lemma PassesStays(es: seq<Event>, e: Event, p: int, d: nat)
    requires 0 <= p < |es|
    ensures Passes(es + [e], p, d) <==> Passes(es, p, d)
  {
    assert (es + [e])[..p] == es[..p];
  }

  lemma PassedGrows(es: seq<Event>, e: Event, d: nat)
    ensures PassedIn(es + [e], d) <==> PassedIn(es, d) || Passes(es + [e], |es|, d)
  {
    if PassedIn(es, d) {
      var p :| Passes(es, p, d);
      PassesStays(es, e, p, d);
    }
    if PassedIn(es + [e], d) {
      var p :| Passes(es + [e], p, d);
      if p < |es| { PassesStays(es, e, p, d); }
    }
  }

  lemma PassedStep(es: seq<Event>, s: State, e: Event)
    requires Runs(Init(), es) && After(Init(), es) == s && PassedFrom(es, s) && CanStep(s, e)
    ensures PassedFrom(es + [e], Step(s, e))
  {
    assert (es + [e])[..|es|] == es;
    forall d
      ensures d in Step(s, e).passed <==> PassedIn(es + [e], d)
    {
      PassedGrows(es, e, d);
      PassedNext(s, e, d);
    }
  }

  lemma PassedNext(s: State, e: Event, d: nat)
    requires CanStep(s, e)
    ensures d in Step(s, e).passed <==>
              || d in s.passed
              || (e == Announce(d) && !Subscribed(s.cmds, s.applied, d))
              || (e == Deliver && s.msgs[s.heard].channel == d)
  {
    if !e.Announce? && !e.Ack? && !e.Deliver? {
      Outcomes.OthersLeaveMessages(s, e);
    }
  }

  lemma OrdersStep(es: seq<Event>, s: State, e: Event)
    requires OrdersFrom(es, s) && CanStep(s, e)
    ensures OrdersFrom(es + [e], Step(s, e))
  {
    OrdersNext(s, e);
  }

  lemma OrdersNext(s: State, e: Event)
    requires CanStep(s, e)
    ensures forall d :: d in Step(s, e).orders <==> d in s.orders || e == CreateOrder(d)
    ensures forall d :: Decided(Step(s, e), d) <==> Decided(s, d) || e == WriteOutcome(d)
  {
    if !e.CreateOrder? && !e.WriteOutcome? && !e.Announce? {
      OrdersStay(s, e);
    }
  }

  lemma OrdersStay(s: State, e: Event)
    requires CanStep(s, e) && !e.CreateOrder? && !e.WriteOutcome? && !e.Announce?
    ensures Step(s, e).orders == s.orders
  {
  }

  // ---- One socket ----

  /** The order has not been read for the socket. */
  predicate Early(p: Phase)
  {
    p.Checking? || p.Checked? || p.Rejected? || p.Incremented? || p.Armed? || p.Registered?
  }

  /** The socket's handler has been attached. */
  predicate Attached(p: Phase) { p == Live || Outcomes.TearingDown(p) }

  /** The one read of the socket's order, for its backfill. */
  ghost predicate ReadsAt(es: seq<Event>, a: int, i: nat)
  {
    0 <= a < |es| && es[a] == Fetch(i) && Fetch(i) !in es[..a] && Fetch(i) !in es[a + 1..]
  }

  /** It saw the outcome exactly if that was written before, and the order if it existed. */
  ghost predicate ReadAs(es: seq<Event>, a: int, i: nat, x: Sock)
  {
    && ReadsAt(es, a, i)
    && (x.saw <==> WriteOutcome(x.order) in es[..a])
    && (x.phase.Fetched? ==> (x.phase.found <==> CreateOrder(x.order) in es[..a]))
  }

  ghost predicate ReadFrom(es: seq<Event>, i: nat, x: Sock)
  {
    && (Early(x.phase) ==> Fetch(i) !in es && !x.saw)
    && (!Early(x.phase) ==> exists a :: ReadAs(es, a, i, x))
    && (Subscribe(i) in es <==> !Early(x.phase) && !x.phase.Fetched?)
  }

  /** The order was read and did not exist. */
  ghost predicate ReadUnknown(es: seq<Event>, i: nat, d: nat)
  {
    exists a :: ReadsAt(es, a, i) && CreateOrder(d) !in es[..a]
  }

  /** Why a socket is not open: it closed, it was refused, or there is no such order. */
  ghost predicate OpenFrom(es: seq<Event>, i: nat, x: Sock)
  {
    && (x.closed <==> Close(i) in es)
    && (x.open <==>
          && Close(i) !in es && Shut(i) !in es && x.phase != Rejected
          && !(Subscribe(i) in es && ReadUnknown(es, i, x.order)))
  }

  /** At position b the caller of the socket's subscribe goes on: the handler is attached. */
  ghost predicate AttachesAt(es: seq<Event>, b: int, i: nat)
  {
    && 0 <= b < |es| && es[b] == Resume && Runs(Init(), es[..b])
    && var s := After(Init(), es[..b]);
       s.resumed < |s.cmds| && s.cmds[s.resumed].kind == Sub && s.cmds[s.resumed].socket == i
  }

  ghost predicate AttachedAs(es: seq<Event>, b: int, i: nat, x: Sock)
  {
    AttachesAt(es, b, i) && (x.late <==> PassedIn(es[..b], x.order))
  }

  ghost predicate AttachedFrom(es: seq<Event>, i: nat, x: Sock)
  {
    Attached(x.phase) ==> exists b :: AttachedAs(es, b, i, x)
  }

  ghost predicate From(es: seq<Event>, i: nat, x: Sock)
  {
    ReadFrom(es, i, x) && OpenFrom(es, i, x) && AttachedFrom(es, i, x)
  }

  // ---- A step that leaves the socket alone, or changes it ----

  lemma ReadsStays(es: seq<Event>, e: Event, a: int, i: nat)
    requires ReadsAt(es, a, i) && e != Fetch(i)
    ensures ReadsAt(es + [e], a, i) && (es + [e])[..a] == es[..a]
  {
    assert (es + [e])[..a] == es[..a] && (es + [e])[a + 1..] == es[a + 1..] + [e];
  }

  lemma ReadsBack(es: seq<Event>, e: Event, a: int, i: nat)
    requires ReadsAt(es + [e], a, i) && e != Fetch(i)
    ensures ReadsAt(es, a, i) && (es + [e])[..a] == es[..a]
  {
    assert (es + [e])[..a] == es[..a] && (es + [e])[a + 1..] == es[a + 1..] + [e];
  }

  lemma UnknownStays(es: seq<Event>, e: Event, i: nat, d: nat)
    requires e != Fetch(i)
    ensures ReadUnknown(es + [e], i, d) <==> ReadUnknown(es, i, d)
  {
    if ReadUnknown(es, i, d) {
      var a :| ReadsAt(es, a, i) && CreateOrder(d) !in es[..a];
      ReadsStays(es, e, a, i);
    }
    if ReadUnknown(es + [e], i, d) {
      var a :| ReadsAt(es + [e], a, i) && CreateOrder(d) !in (es + [e])[..a];
      ReadsBack(es, e, a, i);
    }
  }

  /** The read stays what it was while the order it found is remembered as found. */
  lemma ReadStays(es: seq<Event>, e: Event, i: nat, x: Sock, y: Sock)
    requires ReadFrom(es, i, x) && e != Fetch(i)
    requires y.order == x.order && y.saw == x.saw && Early(y.phase) == Early(x.phase)
    requires y.phase.Fetched? ==> y.phase == x.phase
    requires e == Subscribe(i) <==> x.phase.Fetched? && !y.phase.Fetched?
    ensures ReadFrom(es + [e], i, y)
  {
    if !Early(x.phase) {
      var a :| ReadAs(es, a, i, x);
      ReadsStays(es, e, a, i);
      assert ReadAs(es + [e], a, i, y);
    }
  }

  lemma AttachedStays(es: seq<Event>, e: Event, i: nat, x: Sock, y: Sock)
    requires AttachedFrom(es, i, x) && y.order == x.order && y.late == x.late
    requires Attached(y.phase) ==> Attached(x.phase)
    ensures AttachedFrom(es + [e], i, y)
  {
    if Attached(y.phase) {
      var b :| AttachedAs(es, b, i, x);
      assert (es + [e])[..b] == es[..b];
      assert AttachedAs(es + [e], b, i, y);
    }
  }

  /** A step that is not about the socket. */
  lemma UntouchedFrom(es: seq<Event>, e: Event, i: nat, x: Sock, y: Sock)
    requires From(es, i, x) && y.(learned := x.learned) == x
    requires e != Fetch(i) && e != Subscribe(i) && e != Close(i) && e != Shut(i)
    ensures From(es + [e], i, y)
  {
    ReadStays(es, e, i, x, y);
    AttachedStays(es, e, i, x, y);
    UnknownStays(es, e, i, x.order);
  }

  // ---- The socket's own steps ----

  lemma FetchFrom(es: seq<Event>, s: State, i: nat)
    requires CanStep(s, Fetch(i)) && From(es, i, s.sockets[i]) && OrdersFrom(es, s)
    ensures From(es + [Fetch(i)], i, NextSock(s, Fetch(i)))
  {
    var x, y, fs := s.sockets[i], NextSock(s, Fetch(i)), es + [Fetch(i)];
    assert fs[..|es|] == es && fs[|es| + 1..] == [];
    assert ReadAs(fs, |es|, i, y);
    AttachedStays(es, Fetch(i), i, x, y);
  }

  /** The set-up steps before the read, those of the tear-down, and a socket that goes away. */
  lemma OwnFrom(es: seq<Event>, s: State, e: Event)
    requires CanStep(s, e) && SetUp(e) && !e.Fetch? && From(es, e.id, s.sockets[e.id])
    ensures From(es + [e], e.id, NextSock(s, e))
  {
    var x, y := s.sockets[e.id], NextSock(s, e);
    ReadStays(es, e, e.id, x, y);
    AttachedStays(es, e, e.id, x, y);
    UnknownStays(es, e, e.id, x.order);
  }

  lemma SubscribeFrom(es: seq<Event>, s: State, i: nat)
    requires CanStep(s, Subscribe(i)) && From(es, i, s.sockets[i])
    ensures From(es + [Subscribe(i)], i, SubscribeStep(s, i).sockets[i])
  {
    var x, y := s.sockets[i], SubscribeStep(s, i).sockets[i];
    ReadStays(es, Subscribe(i), i, x, y);
    AttachedStays(es, Subscribe(i), i, x, y);
    UnknownStays(es, Subscribe(i), i, x.order);
    var a :| ReadAs(es, a, i, x);
    if ReadUnknown(es, i, x.order) {
      var a' :| ReadsAt(es, a', i) && CreateOrder(x.order) !in es[..a'];
      OneRead(es, a, a', i);
    }
  }

  lemma InBeginning(es: seq<Event>, a: int, b: int, e: Event)
    requires 0 <= a < b <= |es| && es[a] == e
    ensures e in es[..b]
  {
    assert es[..b][a] == e;
  }

  lemma InEnd(es: seq<Event>, a: int, b: int, e: Event)
    requires 0 <= a <= b < |es| && es[b] == e
    ensures e in es[a..]
  {
    assert es[a..][b - a] == e;
  }

  lemma OneRead(es: seq<Event>, a: int, a': int, i: nat)
    requires ReadsAt(es, a, i) && ReadsAt(es, a', i)
    ensures a == a'
  {
    if a < a' { InBeginning(es, a, a', Fetch(i)); }
    if a' < a { InBeginning(es, a', a, Fetch(i)); }
  }

  lemma CloseFrom(es: seq<Event>, s: State, i: nat)
    requires CanStep(s, Close(i)) && From(es, i, s.sockets[i])
    ensures From(es + [Close(i)], i, CloseStep(s, i).sockets[i])
  {
    var x, y := s.sockets[i], CloseStep(s, i).sockets[i];
    ReadStays(es, Close(i), i, x, y);
    AttachedStays(es, Close(i), i, x, y);
  }

  lemma ResumeFrom(es: seq<Event>, s: State, i: nat)
    requires Runs(Init(), es) && After(Init(), es) == s && Channels.Tickets(s) && PassedFrom(es, s)
    requires CanStep(s, Resume) && s.cmds[s.resumed].socket == i && From(es, i, s.sockets[i])
    ensures From(es + [Resume], i, ResumeStep(s).sockets[i])
  {
    var j := Channels.Resuming(s);
    var x, y, fs := s.sockets[i], ResumeStep(s).sockets[i], es + [Resume];
    ReadStays(es, Resume, i, x, y);
    UnknownStays(es, Resume, i, x.order);
    if s.cmds[s.resumed].kind == Sub {
      assert fs[..|es|] == es;
      assert AttachedAs(fs, |es|, i, y);
    } else {
      AttachedStays(es, Resume, i, x, y);
    }
  }

  // ---- Every run ----

  ghost predicate AllFrom(es: seq<Event>, s: State)
  {
    && OrdersFrom(es, s) && PassedFrom(es, s)
    && forall i :: 0 <= i < |s.sockets| ==> From(es, i, s.sockets[i])
  }

  /** No event so far is about a socket that has not connected. */
  ghost predicate Own(e: Event, i: nat) { e == Fetch(i) || e == Subscribe(i) || e == Close(i) || e == Shut(i) }

  ghost predicate NoneAhead(es: seq<Event>, s: State)
  {
    forall i: nat, e :: i >= |s.sockets| && Own(e, i) ==> e !in es
  }

  lemma SocketStep(es: seq<Event>, s: State, e: Event, i: nat)
    requires Runs(Init(), es) && After(Init(), es) == s && Outcomes.Inv(s) && AllFrom(es, s) && CanStep(s, e)
    requires i < |s.sockets|
    ensures i < |Step(s, e).sockets| && From(es + [e], i, Step(s, e).sockets[i])
  {
    if e.Resume? && s.cmds[s.resumed].socket == i {
      ResumeFrom(es, s, i);
    } else if (SetUp(e) || e.Subscribe? || e.Close?) && e.id == i {
      OwnStep(es, s, e);
    } else {
      OnlyTold(s, e, i);
      UntouchedFrom(es, e, i, s.sockets[i], Step(s, e).sockets[i]);
    }
  }

  /** What is not the socket's own can only tell it something. */
  lemma OnlyTold(s: State, e: Event, i: nat)
    requires CanStep(s, e) && i < |s.sockets| && !(e.Resume? && s.cmds[s.resumed].socket == i)
    requires !((SetUp(e) || e.Subscribe? || e.Close?) && e.id == i)
    ensures i < |Step(s, e).sockets| && Step(s, e).sockets[i].(learned := s.sockets[i].learned) == s.sockets[i]
  {
    if e.Deliver? {
      assert Step(s, e).sockets[i] == Relayed(s.sockets[i], s.msgs[s.heard].channel);
    } else if e.Resume? {
      assert ResumeStep(s).sockets[i] == s.sockets[i];
    } else {
      OthersLeave(s, e, i);
    }
  }

  lemma OwnStep(es: seq<Event>, s: State, e: Event)
    requires (SetUp(e) || e.Subscribe? || e.Close?) && CanStep(s, e)
    requires OrdersFrom(es, s) && From(es, e.id, s.sockets[e.id])
    ensures e.id < |Step(s, e).sockets| && From(es + [e], e.id, Step(s, e).sockets[e.id])
  {
    if e.Fetch? {
      FetchFrom(es, s, e.id);
    } else if e.Subscribe? {
      SubscribeFrom(es, s, e.id);
    } else if e.Close? {
      CloseFrom(es, s, e.id);
    } else {
      OwnFrom(es, s, e);
    }
  }

  lemma OthersLeave(s: State, e: Event, i: nat)
    requires CanStep(s, e) && i < |s.sockets| && !e.Resume? && !e.Deliver?
    requires !((SetUp(e) || e.Subscribe? || e.Close?) && e.id == i)
    ensures i < |Step(s, e).sockets| && Step(s, e).sockets[i] == s.sockets[i]
  {
    if SetUp(e) {
      assert Step(s, e).sockets == s.sockets[e.id := NextSock(s, e)];
    } else if Connections.Elsewhere(e) {
      Connections.ElsewhereStays(s, e);
    } else if e.Close? || e.Subscribe? {
      Connections.QuietStays(s, e);
    }
  }

  lemma ConnectFrom(es: seq<Event>, s: State, order: nat, ip: nat)
    requires NoneAhead(es, s)
    ensures From(es + [Connect(order, ip)], |s.sockets|, NewSock(order, ip))
  {
    var i := |s.sockets|;
    assert Own(Fetch(i), i) && Own(Subscribe(i), i) && Own(Close(i), i) && Own(Shut(i), i);
  }

  /** Only connecting makes a socket, and its own events come after. */
  lemma NoneAheadStep(es: seq<Event>, s: State, e: Event)
    requires NoneAhead(es, s) && CanStep(s, e)
    ensures |Step(s, e).sockets| == |s.sockets| + (if e.Connect? then 1 else 0)
    ensures NoneAhead(es + [e], Step(s, e))
  {
    if Connections.Elsewhere(e) {
      Connections.ElsewhereStays(s, e);
    }
  }

  lemma StepFrom(es: seq<Event>, s: State, e: Event)
    requires Runs(Init(), es) && After(Init(), es) == s && Outcomes.Inv(s)
    requires AllFrom(es, s) && NoneAhead(es, s) && CanStep(s, e)
    ensures AllFrom(es + [e], Step(s, e)) && NoneAhead(es + [e], Step(s, e))
  {
    OrdersStep(es, s, e);
    PassedStep(es, s, e);
    NoneAheadStep(es, s, e);
    SocketsStep(es, s, e);
  }

  lemma AnySocket(es: seq<Event>, s: State, e: Event, i: nat)
    requires Runs(Init(), es) && After(Init(), es) == s && Outcomes.Inv(s)
    requires AllFrom(es, s) && NoneAhead(es, s) && CanStep(s, e)
    requires i < |Step(s, e).sockets| == |s.sockets| + (if e.Connect? then 1 else 0)
    ensures From(es + [e], i, Step(s, e).sockets[i])
  {
    if i < |s.sockets| { SocketStep(es, s, e, i); } else { ConnectFrom(es, s, e.order, e.ip); }
  }

  lemma SocketsStep(es: seq<Event>, s: State, e: Event)
    requires Runs(Init(), es) && After(Init(), es) == s && Outcomes.Inv(s)
    requires AllFrom(es, s) && NoneAhead(es, s) && CanStep(s, e)
    requires |Step(s, e).sockets| == |s.sockets| + (if e.Connect? then 1 else 0)
    ensures forall i :: 0 <= i < |Step(s, e).sockets| ==> From(es + [e], i, Step(s, e).sockets[i])
  {
    forall i: nat | i < |Step(s, e).sockets|
      ensures From(es + [e], i, Step(s, e).sockets[i])
    {
      AnySocket(es, s, e, i);
    }
  }

  lemma {:induction false} RunFrom(es: seq<Event>)
    requires Runs(Init(), es)
    ensures Outcomes.Inv(After(Init(), es))
    ensures AllFrom(es, After(Init(), es)) && NoneAhead(es, After(Init(), es))
    decreases |es|
  {
    Outcomes.InitInv();
    Outcomes.RunKeeps(Init(), es);
    if es != [] {
      var n := |es| - 1;
      RunLast(Init(), es);
      RunFrom(es[..n]);
      StepFrom(es[..n], After(Init(), es[..n]), es[n]);
      assert es[..n] + [es[n]] == es;
    } else {
      NothingYet();
    }
  }

  lemma NothingYet()
    ensures AllFrom([], Init()) && NoneAhead([], Init())
  {
    forall d: nat
      ensures !PassedIn([], d)
    {
    }
  }

  // ---- The results ----

  /** In every run a socket is open exactly if it has neither closed nor gone away, was not
      refused, and was not told that there is no such order: a refused connection is closed,
      one for an unknown order is closed with its backfill, and no other is. */
  lemma OpenIff(es: seq<Event>, i: nat)
    requires Runs(Init(), es) && i < |After(Init(), es).sockets|
    ensures var x := After(Init(), es).sockets[i];
            && (x.open <==>
                  && Close(i) !in es && Shut(i) !in es && x.phase != Rejected
                  && !(Subscribe(i) in es && ReadUnknown(es, i, x.order)))
            && (x.closed <==> Close(i) in es)
  {
    RunFrom(es);
  }

  /** In every run, once the outcome is announced and everything has arrived, an open socket
      whose set-up is complete has been told it, except exactly when it read the order, at
      position a, before the outcome was written, and its handler was attached, at position
      b, after the message had arrived or been dropped. */
  lemma OutcomeDelivered(es: seq<Event>, i: nat) returns (a: nat, b: nat)
    requires Runs(Init(), es)
    requires var s := After(Init(), es);
             && i < |s.sockets| && s.sockets[i].phase == Live && s.sockets[i].open
             && Announce(s.sockets[i].order) in es && Outcomes.Drained(s)
    ensures ReadsAt(es, a, i) && AttachesAt(es, b, i)
    ensures var x := After(Init(), es).sockets[i];
            x.learned <==> WriteOutcome(x.order) in es[..a] || !PassedIn(es[..b], x.order)
  {
    AnnouncedFrom(es, After(Init(), es).sockets[i].order);
    a, b := OutcomeOfDrained(es, i);
  }

  lemma OutcomeOfDrained(es: seq<Event>, i: nat) returns (a: nat, b: nat)
    requires Runs(Init(), es)
    requires var s := After(Init(), es);
             && i < |s.sockets| && s.sockets[i].phase == Live && s.sockets[i].open
             && Outcomes.Is(s, s.sockets[i].order, Announced) && Outcomes.Drained(s)
    ensures ReadsAt(es, a, i) && AttachesAt(es, b, i)
    ensures var x := After(Init(), es).sockets[i];
            x.learned <==> WriteOutcome(x.order) in es[..a] || !PassedIn(es[..b], x.order)
  {
    RunFrom(es);
    var s := After(Init(), es);
    Outcomes.Delivered(s, i);
    assert From(es, i, s.sockets[i]);
    a, b := Positions(es, i, s.sockets[i]);
  }

  lemma Positions(es: seq<Event>, i: nat, x: Sock) returns (a: nat, b: nat)
    requires ReadFrom(es, i, x) && AttachedFrom(es, i, x) && x.phase == Live
    ensures ReadAs(es, a, i, x) && AttachedAs(es, b, i, x)
  {
    a :| ReadAs(es, a, i, x);
    b :| AttachedAs(es, b, i, x);
  }

  lemma {:induction false} AnnouncedFrom(es: seq<Event>, d: nat)
    requires Runs(Init(), es) && Announce(d) in es
    ensures Outcomes.Is(After(Init(), es), d, Announced)
    decreases |es|
  {
    var n := |es| - 1;
    RunLast(Init(), es);
    if es[n] != Announce(d) {
      assert es == es[..n] + [es[n]];
      AnnouncedFrom(es[..n], d);
      AnnouncedStays(After(Init(), es[..n]), es[n], d);
    }
  }

  lemma AnnouncedStays(s: State, e: Event, d: nat)
    requires CanStep(s, e) && Outcomes.Is(s, d, Announced)
    ensures Outcomes.Is(Step(s, e), d, Announced)
  {
    if !e.CreateOrder? && !e.WriteOutcome? && !e.Announce? {
      OrdersStay(s, e);
    }
  }

  lemma SawIt(es: seq<Event>, i: nat, fs: seq<Event>, x: Sock)
    requires ReadFrom(es + [Fetch(i)] + fs, i, x) && !Early(x.phase) && WriteOutcome(x.order) in es
    ensures x.saw
  {
    var run := es + [Fetch(i)] + fs;
    var a :| ReadAs(run, a, i, x);
    assert run[|es|] == Fetch(i);
    if |es| < a { InBeginning(run, |es|, a, Fetch(i)); }
    if a < |es| { InEnd(run, a + 1, |es|, Fetch(i)); }
    assert run[..a] == es;
  }

  /** A backfill read after the outcome was written tells it: whatever else happens, if the
      socket ends up set up and open it has learned the outcome. */
  lemma LateReaderLearns(es: seq<Event>, i: nat, fs: seq<Event>)
    requires Runs(Init(), es + [Fetch(i)] + fs)
    requires var s := After(Init(), es + [Fetch(i)] + fs);
             && i < |s.sockets| && s.sockets[i].phase == Live && s.sockets[i].open
             && WriteOutcome(s.sockets[i].order) in es
    ensures After(Init(), es + [Fetch(i)] + fs).sockets[i].learned
  {
    var run := es + [Fetch(i)] + fs;
    RunFrom(run);
    var s := After(Init(), run);
    assert From(run, i, s.sockets[i]) && Outcomes.Told(s.sockets[i], s.passed);
    SawIt(es, i, fs, s.sockets[i]);
  }

  /** A socket that is not open is sent nothing more. */
  lemma {:induction false} ClosedHearsNothing(s: State, es: seq<Event>, i: nat)
    requires Outcomes.Inv(s) && Runs(s, es) && i < |s.sockets| && !s.sockets[i].open && Attached(s.sockets[i].phase)
    ensures i < |After(s, es).sockets| && !After(s, es).sockets[i].open && Attached(After(s, es).sockets[i].phase)
    ensures After(s, es).sockets[i].learned == s.sockets[i].learned
    decreases |es|
  {
    if es != [] {
      Outcomes.StepKeeps(s, es[0]);
      ClosedStep(s, es[0], i);
      ClosedHearsNothing(Step(s, es[0]), es[1..], i);
    }
  }

  lemma ClosedStep(s: State, e: Event, i: nat)
    requires Outcomes.Inv(s) && CanStep(s, e) && i < |s.sockets| && !s.sockets[i].open && Attached(s.sockets[i].phase)
    ensures i < |Step(s, e).sockets| && !Step(s, e).sockets[i].open && Attached(Step(s, e).sockets[i].phase)
    ensures Step(s, e).sockets[i].learned == s.sockets[i].learned
  {
    if e.Resume? {
      var j := Channels.Resuming(s);
    } else if e.Deliver? {
      assert Step(s, e).sockets[i] == Relayed(s.sockets[i], s.msgs[s.heard].channel);
    } else if !((SetUp(e) || e.Subscribe? || e.Close?) && e.id == i) {
      OthersLeave(s, e, i);
    } else {
      ClosedOwn(s, e);
    }
  }

  lemma ClosedOwn(s: State, e: Event)
    requires CanStep(s, e) && (SetUp(e) || e.Subscribe? || e.Close?)
    requires !s.sockets[e.id].open && Attached(s.sockets[e.id].phase)
    ensures e.id < |Step(s, e).sockets| && !Step(s, e).sockets[e.id].open && Attached(Step(s, e).sockets[e.id].phase)
    ensures Step(s, e).sockets[e.id].learned == s.sockets[e.id].learned
  {
    if e.Close? {
      Outcomes.CloseSock(s, e.id);
    } else {
      assert SetUp(e) && Step(s, e).sockets == s.sockets[e.id := NextSock(s, e)];
    }
  }
}

/** The WebSocket service as an object: each method is the code between two awaits, and
    does to the maps exactly what the state machine's step says; a connection driven
    through its set-up and its tear-down, whatever else happens at every await, keeps the
    object reachable and ends as promised. */
module WebSocketService {
  import opened WebSocket
  import Channels
  import Connections
  import Leaks
  import Outcomes
  import SocketHistory

  // ---- Reachable states ----

  ghost predicate Reachable(s: State)
  {
    exists es :: Runs(Init(), es) && After(Init(), es) == s
  }

  lemma {:induction false} RunExtends(s: State, es: seq<Event>, e: Event)
    requires Runs(s, es) && CanStep(After(s, es), e)
    ensures Runs(s, es + [e]) && After(s, es + [e]) == Step(After(s, es), e)
    decreases |es|
  {
    if es == [] {
      assert es + [e] == [e] + [];
      Outcomes.Then(s, e, Step(s, e), [], Step(s, e));
    } else {
      var s' := Step(s, es[0]);
      RunExtends(s', es[1..], e);
      Outcomes.Then(s, es[0], s', es[1..] + [e], Step(After(s, es), e));
      assert es + [e] == [es[0]] + (es[1..] + [e]);
    }
  }

  lemma StepReachable(s: State, e: Event)
    requires Reachable(s) && CanStep(s, e)
    ensures Reachable(Step(s, e))
  {
    var es :| Runs(Init(), es) && After(Init(), es) == s;
    RunExtends(Init(), es, e);
  }

  lemma ReachableInv(s: State)
    requires Reachable(s)
    ensures Outcomes.Inv(s)
  {
    var es :| Runs(Init(), es) && After(Init(), es) == s;
    Outcomes.InitInv();
    Outcomes.RunKeeps(Init(), es);
  }

  lemma ReachableSound(s: State, k: Key) returns (debt: int)
    requires Reachable(s)
    ensures Connections.Sound(s, k, debt)
  {
    var es :| Runs(Init(), es) && After(Init(), es) == s;
    Connections.Reached(es, k);
    debt := Connections.Debt(Init(), es, k, 0);
  }

  /** What the connection has still to execute, answer, return and deliver. */
  function UnderWay(s: State): int
  {
    3 * |s.cmds| - s.applied - s.acked - s.resumed + |s.msgs| - s.heard
  }

  predicate Connecting(e: Event) { e.Apply? || e.Ack? || e.Resume? || e.Deliver? }

  /** The steps of this socket's own code, and its close. */
  predicate Own(e: Event, i: nat)
  {
    (SetUp(e) || e.Subscribe? || e.Close?) && e.id == i
  }

  /** Where a step of a socket's own code takes it. */
  predicate Taken(e: Event, p: Phase)
  {
    && (e.Increment? ==> p == Incremented) && (e.Arm? ==> p == Armed) && (e.Register? ==> p == Registered)
    && (e.Fetch? ==> p.Fetched?) && (e.Subscribe? ==> p.AwaitSub?)
    && (e.Decrement? ==> p == Decremented) && (e.Unregister? ==> p == Gone)
  }

  /** What everything else can do to a socket: return the command it waits for. */
  predicate Follows(x: Sock, y: Sock)
  {
    && KeyOf(y) == KeyOf(x) && y.closed == x.closed && y.open == x.open
    && (x.phase.AwaitSub? ==> y.phase == x.phase || y.phase == Live)
    && (x.phase.AwaitUnsub? ==> y.phase == x.phase || y.phase == Decrementing)
    && (!x.phase.AwaitSub? && !x.phase.AwaitUnsub? ==> y.phase == x.phase)
  }

  lemma OthersStay(s: State, e: Event, i: nat)
    requires CanStep(s, e) && !Own(e, i) && !e.Resume? && !e.Deliver? && i < |s.sockets|
    ensures i < |Step(s, e).sockets| && Step(s, e).sockets[i] == s.sockets[i]
  {
    if SetUp(e) {
      assert Step(s, e).sockets == s.sockets[e.id := NextSock(s, e)];
    } else if Connections.Elsewhere(e) {
      Connections.ElsewhereStays(s, e);
    } else if e.Close? || e.Subscribe? {
      Connections.QuietStays(s, e);
    }
  }

  lemma OthersStep(s: State, e: Event, i: nat)
    requires Outcomes.Inv(s) && CanStep(s, e) && !Own(e, i) && i < |s.sockets|
    ensures i < |Step(s, e).sockets| && Follows(s.sockets[i], Step(s, e).sockets[i])
  {
    if e.Resume? {
      var j := Channels.Resuming(s);
    } else if e.Deliver? {
      assert Step(s, e).sockets[i] == Relayed(s.sockets[i], s.msgs[s.heard].channel);
    } else {
      OthersStay(s, e, i);
    }
  }

  /** Orders are not forgotten. */
  predicate KnowsOrders(s: State, t: State) { forall d :: d in s.orders ==> d in t.orders }

  lemma OrdersStay(s: State, e: Event)
    requires CanStep(s, e)
    ensures KnowsOrders(s, Step(s, e))
  {
    SocketHistory.OrdersNext(s, e);
  }

  /** A step of the connection is progress. */
  lemma ConnectionStep(s: State, e: Event)
    requires Outcomes.Inv(s) && CanStep(s, e) && Connecting(e)
    ensures 0 <= UnderWay(Step(s, e)) == UnderWay(s) - 1
  {
    Channels.StepKeeps(s, e);
  }

  lemma ProgressKeeps(s: State, e: Event, i: nat)
    requires Reachable(s) && Outcomes.Inv(s) && CanStep(s, e) && Connecting(e) && i < |s.sockets|
    ensures Reachable(Step(s, e)) && Outcomes.Inv(Step(s, e))
    ensures 0 <= UnderWay(Step(s, e)) == UnderWay(s) - 1
    ensures i < |Step(s, e).sockets| && Follows(s.sockets[i], Step(s, e).sockets[i])
  {
    ConnectionStep(s, e);
    OthersStep(s, e, i);
    StepReachable(s, e);
    Outcomes.StepKeeps(s, e);
  }

  lemma WaitingIsUnderWay(s: State, i: nat)
    requires Channels.Inv(s) && i < |s.sockets|
    requires s.sockets[i].phase.AwaitSub? || s.sockets[i].phase.AwaitUnsub?
    ensures !Outcomes.Drained(s)
  {
    assert Channels.HasTicket(s, i);
  }

  /** What a live socket of a reachable state can count on. */
  lemma LiveIsServed(s: State, i: nat)
    requires Reachable(s) && i < |s.sockets| && s.sockets[i].phase == Live
    ensures Leaks.KeepsPlace(s, i)
    ensures s.applied <= |s.cmds| && Subscribed(s.cmds, s.applied, s.sockets[i].order)
  {
    ReachableInv(s);
    var debt := ReachableSound(s, KeyOf(s.sockets[i]));
    Leaks.PlaceByPhase(s, i, debt);
    Channels.StaysSubscribed(s, i, s.applied);
  }

  lemma GoneIsForgotten(s: State, i: nat)
    requires Reachable(s) && i < |s.sockets| && s.sockets[i].phase == Gone
    ensures Leaks.LeftPlace(s, i)
  {
    ReachableInv(s);
    var debt := ReachableSound(s, KeyOf(s.sockets[i]));
    Leaks.PlaceByPhase(s, i, debt);
  }

  class WebSocketService {
    var sockets: seq<Sock>
    var connections: map<Key, set<nat>>
    var subscriptions: map<nat, nat>

    /** The Redis counters and their expiries, the commands issued on the subscriber connection, and the
        rest of the world the service looks at. */
    var counters: map<Key, int>
    var expires: map<Key, nat>
    var cmds: seq<Cmd>
    var world: State

    /** What happens, await after await, while a connection driven below waits. */
    var agenda: seq<seq<Event>>

    function View(): State
      reads this
    {
      world.(sockets := sockets, connections := connections, subscriptions := subscriptions,
             counters := counters, expires := expires, cmds := cmds)
    }

    constructor (agenda: seq<seq<Event>>)
      ensures View() == Init() && this.agenda == agenda
    {
      this.agenda := agenda;
      sockets, connections, subscriptions := [], map[], map[];
      counters, expires, cmds, world := map[], map[], [], Init();
    }

    method HandleConnection(order: nat, ip: nat) returns (i: nat)
      modifies this
      ensures agenda == old(agenda) && View() == Step(old(View()), Connect(order, ip))
      ensures i == |old(sockets)| && sockets[i].phase == Checking
    {
      i := |sockets|;
      sockets := sockets + [NewSock(order, ip)];
    }

    method CheckConnectionLimit(i: nat) returns (allowed: bool)
      requires CanStep(View(), Check(i))
      modifies this
      ensures agenda == old(agenda) && View() == Step(old(View()), Check(i))
      ensures var key := KeyOf(old(sockets)[i]); allowed <==> (key !in old(counters) || old(counters)[key] < 3)
      ensures allowed ==> sockets == old(sockets)[i := old(sockets)[i].(phase := Checked)]
      ensures !allowed ==> sockets == old(sockets)[i := old(sockets)[i].(phase := Rejected, open := false)]
    {
      var key := KeyOf(sockets[i]);
      allowed := key !in counters || counters[key] < MAX_CONNECTIONS_PER_ORDER_IP;
      if allowed {
        sockets := sockets[i := sockets[i].(phase := Checked)];
      } else {
        sockets := sockets[i := sockets[i].(phase := Rejected, open := false)];
      }
    }

    method IncrementCounter(i: nat)
      requires CanStep(View(), Increment(i))
      modifies this
      ensures agenda == old(agenda) && View() == Step(old(View()), Increment(i))
    {
      var key := KeyOf(sockets[i]);
      var count := if key in counters then counters[key] else 0;
      counters := counters[key := count + 1];
      sockets := sockets[i := sockets[i].(phase := Incremented)];
    }

    /** Redis ignores an expiry for a key that is gone. */
    method ExpireCounter(i: nat)
      requires CanStep(View(), Arm(i))
      modifies this
      ensures agenda == old(agenda) && View() == Step(old(View()), Arm(i))
      ensures var key := KeyOf(old(sockets)[i]);
              expires == if key in counters then old(expires)[key := world.now + 3600] else old(expires)
    {
      var key := KeyOf(sockets[i]);
      if key in counters {
        expires := expires[key := world.now + COUNTER_TTL];
      }
      sockets := sockets[i := sockets[i].(phase := Armed)];
    }

    method RegisterConnection(i: nat)
      requires CanStep(View(), Register(i))
      modifies this
      ensures agenda == old(agenda) && View() == Step(old(View()), Register(i))
    {
      var key := KeyOf(sockets[i]);
      if key !in connections {
        connections := connections[key := {}];
      }
      connections := connections[key := connections[key] + {i}];
      sockets := sockets[i := sockets[i].(phase := Registered)];
    }

    method FetchOrder(i: nat)
      requires CanStep(View(), Fetch(i))
      modifies this
      ensures agenda == old(agenda) && View() == Step(old(View()), Fetch(i))
      ensures sockets[i].phase == Fetched(old(sockets)[i].order in world.orders)
      ensures var d := old(sockets)[i].order; sockets[i].saw <==> d in world.orders && world.orders[d] != Running
    {
      var order := sockets[i].order;
      var found := order in world.orders;
      sockets := sockets[i := sockets[i].(phase := Fetched(found), saw := found && world.orders[order] != Running)];
    }

    method UnregisterConnection(i: nat)
      requires CanStep(View(), Unregister(i))
      modifies this
      ensures agenda == old(agenda) && View() == Step(old(View()), Unregister(i))
    {
      var key := KeyOf(sockets[i]);
      if key in connections {
        connections := connections[key := connections[key] - {i}];
        if connections[key] == {} {
          connections := connections - {key};
        }
      }
      sockets := sockets[i := sockets[i].(phase := Gone)];
    }

    method DecrementCounter(i: nat)
      requires CanStep(View(), Decrement(i))
      modifies this
      ensures agenda == old(agenda) && View() == Step(old(View()), Decrement(i))
    {
      var key := KeyOf(sockets[i]);
      var count := if key in counters then counters[key] else 0;
      counters := counters[key := count - 1];
      sockets := sockets[i := sockets[i].(phase := Decremented)];
    }

    /** Sends the backfill while the socket is open, maps the socket to its channel and
        issues the subscribe. */
    method SubscribeToUpdates(i: nat)
      requires CanStep(View(), Subscribe(i))
      modifies this
      ensures agenda == old(agenda) && View() == Step(old(View()), Subscribe(i))
      ensures subscriptions == old(subscriptions)[i := old(sockets)[i].order]
      ensures cmds == old(cmds) + [Cmd(old(sockets)[i].order, Sub, i)] && sockets[i].phase == AwaitSub(|old(cmds)|)
      ensures sockets[i].open <==> old(sockets)[i].open && old(sockets)[i].phase.found
      ensures sockets[i].learned <==> sockets[i].open && sockets[i].saw
    {
      var x := sockets[i];
      if !x.phase.found {
        x := x.(open := false);
      }
      x := x.(learned := x.open && x.saw);
      subscriptions := subscriptions[i := x.order];
      sockets := sockets[i := x.(phase := AwaitSub(|cmds|))];
      cmds := cmds + [Cmd(x.order, Sub, i)];
    }

    /** The caller of the command answered next goes on. */
    method OnAnswered()
      requires CanStep(View(), Resume)
      modifies this
      ensures agenda == old(agenda) && View() == Step(old(View()), Resume)
    {
      var cmd := cmds[world.resumed];
      var i := cmd.socket;
      if cmd.kind == Sub {
        sockets := sockets[i := sockets[i].(phase := Live, late := sockets[i].order in world.passed)];
      } else {
        subscriptions := subscriptions - {i};
        sockets := sockets[i := sockets[i].(phase := Decrementing)];
      }
      world := world.(resumed := world.resumed + 1);
    }

    /** The close event, up to the first await of the handler if there is one. */
    method HandleClose(i: nat)
      requires CanStep(View(), Close(i))
      modifies this
      ensures agenda == old(agenda) && View() == Step(old(View()), Close(i))
      ensures !sockets[i].open && sockets[i].closed
      ensures var live, d := old(sockets)[i].phase == Live, old(sockets)[i].order;
              var others := |MappedTo(old(subscriptions), d)| > 1;
              && cmds == (if live && !others then old(cmds) + [Cmd(d, Unsub, i)] else old(cmds))
              && subscriptions == (if live && others then old(subscriptions) - {i} else old(subscriptions))
    {
      sockets := sockets[i := sockets[i].(open := false, closed := true)];
      if sockets[i].phase == Live {
        var channel := sockets[i].order;
        if |MappedTo(subscriptions, channel)| <= 1 {
          sockets := sockets[i := sockets[i].(phase := AwaitUnsub(|cmds|))];
          cmds := cmds + [Cmd(channel, Unsub, i)];
        } else {
          subscriptions := subscriptions - {i};
          sockets := sockets[i := sockets[i].(phase := Decrementing)];
        }
      }
    }

    /** A message arrives: every attached handler is called in turn. */
    method OnMessage()
      requires CanStep(View(), Deliver)
      modifies this
      ensures agenda == old(agenda) && View() == Step(old(View()), Deliver)
      ensures |sockets| == |old(sockets)|
      ensures forall j :: 0 <= j < |sockets| ==>
                var x, d := old(sockets)[j], old(world).msgs[old(world).heard].channel;
                sockets[j] == x.(learned := x.learned || (x.order == d && x.phase == Live && x.open))
    {
      var channel := world.msgs[world.heard].channel;
      var n := 0;
      while n < |sockets|
        invariant n <= |sockets| == |old(sockets)|
        invariant forall i :: 0 <= i < n ==> sockets[i] == Relayed(old(sockets)[i], channel)
        invariant forall i :: n <= i < |sockets| ==> sockets[i] == old(sockets)[i]
        invariant connections == old(connections) && subscriptions == old(subscriptions)
        invariant counters == old(counters) && expires == old(expires) && cmds == old(cmds)
        invariant world == old(world) && agenda == old(agenda)
      {
        if sockets[n].phase == Live && sockets[n].order == channel && sockets[n].open {
          sockets := sockets[n := sockets[n].(learned := true)];
        }
        n := n + 1;
      }
      world := world.(heard := world.heard + 1, passed := world.passed + {channel});
      assert sockets == DeliverStep(old(View())).sockets;
    }

    // ---- Everything that can happen ----

    method PerformSetUp(e: Event)
      requires CanStep(View(), e) && SetUp(e)
      modifies this
      ensures agenda == old(agenda) && View() == Step(old(View()), e)
    {
      if e.Check? {
        var _ := CheckConnectionLimit(e.id);
      } else if e.Increment? {
        IncrementCounter(e.id);
      } else if e.Arm? {
        ExpireCounter(e.id);
      } else if e.Register? {
        RegisterConnection(e.id);
      } else if e.Fetch? {
        FetchOrder(e.id);
      } else if e.Shut? {
        sockets := sockets[e.id := sockets[e.id].(open := false)];
      } else if e.Decrement? {
        DecrementCounter(e.id);
      } else {
        UnregisterConnection(e.id);
      }
    }

    /** Redis, the database and the clock, on their own. */
    method PerformElsewhere(e: Event)
      requires CanStep(View(), e) && (Connections.Elsewhere(e) || e.Expire?)
      modifies this
      ensures agenda == old(agenda) && View() == Step(old(View()), e)
    {
      if e.Apply? {
        world := world.(applied := world.applied + 1);
      } else if e.Ack? {
        world := world.(acked := world.acked + 1);
      } else if e.CreateOrder? {
        world := world.(orders := world.orders[e.order := Running]);
      } else if e.WriteOutcome? {
        world := world.(orders := world.orders[e.order := Written]);
      } else if e.Tick? {
        world := world.(now := world.now + 1);
      } else if e.Expire? {
        counters, expires := counters - {e.key}, expires - {e.key};
      } else {
        world := world.(orders := world.orders[e.order := Announced]);
        if Subscribed(cmds, world.applied, e.order) {
          world := world.(msgs := world.msgs + [Msg(e.order, world.applied)]);
        } else {
          world := world.(passed := world.passed + {e.order});
        }
      }
    }

    method Perform(e: Event)
      requires CanStep(View(), e)
      modifies this
      ensures agenda == old(agenda) && View() == Step(old(View()), e)
    {
      if SetUp(e) {
        PerformSetUp(e);
      } else if e.Connect? {
        var _ := HandleConnection(e.order, e.ip);
      } else if e.Subscribe? {
        SubscribeToUpdates(e.id);
      } else if e.Resume? {
        OnAnswered();
      } else if e.Close? {
        HandleClose(e.id);
      } else if e.Deliver? {
        OnMessage();
      } else {
        PerformElsewhere(e);
      }
    }

    /** An await of socket i: everything on the agenda for it happens that can, but for the
        socket's own steps. */
    method Yield(i: nat)
      requires Reachable(View()) && i < |sockets|
      modifies this
      ensures Reachable(View()) && i < |sockets| && Follows(old(sockets)[i], sockets[i])
      ensures KnowsOrders(old(world), world)
      ensures if old(agenda) == [] then agenda == [] && View() == old(View()) else agenda == old(agenda)[1..]
    {
      if agenda == [] { return; }
      var batch := agenda[0];
      agenda := agenda[1..];
      ReachableInv(View());
      for n := 0 to |batch|
        invariant Reachable(View()) && Outcomes.Inv(View()) && agenda == old(agenda)[1..]
        invariant i < |sockets| && Follows(old(sockets)[i], sockets[i]) && KnowsOrders(old(world), world)
      {
        if !Own(batch[n], i) && CanStep(View(), batch[n]) {
          ghost var s := View();
          OthersStep(s, batch[n], i);
          OrdersStay(s, batch[n]);
          StepReachable(s, batch[n]);
          Outcomes.StepKeeps(s, batch[n]);
          Perform(batch[n]);
        }
      }
    }

    // ---- A connection, from its set-up to its tear-down ----

    /** The subscriber connection does the next thing it has to do. */
    method Progress() returns (ghost e: Event)
      requires Outcomes.Inv(View()) && !Outcomes.Drained(View())
      modifies this
      ensures Connecting(e) && CanStep(old(View()), e) && View() == Step(old(View()), e) && agenda == old(agenda)
    {
      e := Outcomes.Drains(View());
      if world.resumed < world.acked {
        OnAnswered();
      } else if world.heard < |world.msgs| && world.msgs[world.heard].at == world.acked {
        OnMessage();
      } else if world.acked < world.applied {
        PerformElsewhere(Ack);
      } else {
        PerformElsewhere(Apply);
      }
    }

    /** The connection goes on until the socket's command has been returned, with whatever is
        on the agenda in between. */
    method AwaitReply(i: nat)
      requires Reachable(View()) && i < |sockets|
      modifies this
      ensures Reachable(View()) && i < |sockets| && Follows(old(sockets)[i], sockets[i])
      ensures !sockets[i].phase.AwaitSub? && !sockets[i].phase.AwaitUnsub?
    {
      ReachableInv(View());
      while sockets[i].phase.AwaitSub? || sockets[i].phase.AwaitUnsub?
        invariant Reachable(View()) && Outcomes.Inv(View())
        invariant i < |sockets| && Follows(old(sockets)[i], sockets[i])
        decreases |agenda|, UnderWay(View())
      {
        Yield(i);
        ReachableInv(View());
        if sockets[i].phase.AwaitSub? || sockets[i].phase.AwaitUnsub? {
          OneMore(i);
        }
      }
    }

    /** One step of the connection that a waiting socket needs. */
    method OneMore(i: nat)
      requires Reachable(View()) && Outcomes.Inv(View()) && i < |sockets|
      requires sockets[i].phase.AwaitSub? || sockets[i].phase.AwaitUnsub?
      modifies this
      ensures Reachable(View()) && Outcomes.Inv(View()) && i < |sockets| && Follows(old(sockets)[i], sockets[i])
      ensures agenda == old(agenda) && 0 <= UnderWay(View()) < UnderWay(old(View()))
    {
      ghost var s := View();
      WaitingIsUnderWay(s, i);
      ghost var e := Progress();
      ProgressKeeps(s, e, i);
    }

    /** A connection opened on any reachable state of the service, with anything happening at
        its awaits but its own close: refused exactly when the counter is at the limit in the
        state `at` in which it is read, and otherwise served from then on. */
    method Open(order: nat, ip: nat) returns (i: nat, allowed: bool, ghost at: State)
      requires Reachable(View())
      modifies this
      ensures Reachable(View()) && i == |old(sockets)| < |sockets| && KeyOf(sockets[i]) == Key(order, ip)
      ensures Reachable(at) && (old(agenda) == [] ==> at == Step(old(View()), Connect(order, ip)))
      ensures allowed <==> CounterOf(at, Key(order, ip)) < MAX_CONNECTIONS_PER_ORDER_IP
      ensures if allowed then sockets[i].phase == Live else sockets[i].phase == Rejected && !sockets[i].open
      ensures allowed && order in old(world).orders ==> sockets[i].open
      ensures allowed ==> Leaks.KeepsPlace(View(), i)
      ensures allowed ==> world.applied <= |cmds| && Subscribed(cmds, world.applied, order)
    {
      i, allowed, at := Enter(order, ip);
      if !allowed { return; }
      Admit(i);
      Attach(i);
      AwaitReply(i);
      LiveIsServed(View(), i);
    }

    /** A new socket and its limit check. */
    method Enter(order: nat, ip: nat) returns (i: nat, allowed: bool, ghost at: State)
      requires Reachable(View())
      modifies this
      ensures Reachable(View()) && i == |old(sockets)| < |sockets| && KeyOf(sockets[i]) == Key(order, ip)
      ensures Reachable(at) && (old(agenda) == [] ==> at == Step(old(View()), Connect(order, ip)))
      ensures allowed <==> CounterOf(at, Key(order, ip)) < MAX_CONNECTIONS_PER_ORDER_IP
      ensures if allowed then sockets[i].phase == Checked else sockets[i].phase == Rejected
      ensures sockets[i].open == allowed
      ensures KnowsOrders(old(world), world)
    {
      StepReachable(View(), Connect(order, ip));
      i := HandleConnection(order, ip);
      Yield(i);
      at := View();
      StepReachable(View(), Check(i));
      allowed := CheckConnectionLimit(i);
    }

    /** An await of socket i and then its own next step. */
    method Await(e: Event, i: nat)
      requires Reachable(View()) && i < |sockets| && CanStep(View(), e) && Own(e, i)
      requires !e.Check? && !e.Shut? && !e.Close?
      modifies this
      ensures Reachable(View()) && i < |sockets| && Taken(e, sockets[i].phase)
      ensures KeyOf(sockets[i]) == KeyOf(old(sockets)[i]) && KnowsOrders(old(world), world)
      ensures if e.Subscribe? then sockets[i].open == (old(sockets)[i].open && old(sockets)[i].phase.found)
              else sockets[i].open == old(sockets)[i].open
      ensures e.Fetch? && old(sockets)[i].order in old(world).orders ==> sockets[i].phase == Fetched(true)
    {
      Yield(i);
      StepReachable(View(), e);
      Perform(e);
    }

    /** Counts the socket and adds it to its set. */
    method Admit(i: nat)
      requires Reachable(View()) && i < |sockets| && sockets[i].phase == Checked
      modifies this
      ensures Reachable(View()) && i < |sockets| && sockets[i].phase == Registered
      ensures KeyOf(sockets[i]) == KeyOf(old(sockets)[i]) && sockets[i].open == old(sockets)[i].open
      ensures KnowsOrders(old(world), world)
    {
      Await(Increment(i), i);
      Await(Arm(i), i);
      Await(Register(i), i);
    }

    /** Reads the order, sends the backfill and asks for the channel. */
    method Attach(i: nat)
      requires Reachable(View()) && i < |sockets| && sockets[i].phase == Registered
      modifies this
      ensures Reachable(View()) && i < |sockets| && sockets[i].phase.AwaitSub?
      ensures KeyOf(sockets[i]) == KeyOf(old(sockets)[i])
      ensures old(sockets)[i].open && old(sockets)[i].order in old(world).orders ==> sockets[i].open
    {
      Await(Fetch(i), i);
      Await(Subscribe(i), i);
    }

    /** The close of a live socket, taken to its end with anything happening at its awaits: it
        leaves its set and its channel. */
    method TearDown(i: nat)
      requires Reachable(View()) && i < |sockets| && sockets[i].phase == Live && !sockets[i].closed
      modifies this
      ensures Reachable(View()) && i < |sockets| && sockets[i].phase == Gone
      ensures Leaks.LeftPlace(View(), i)
    {
      StepReachable(View(), Close(i));
      HandleClose(i);
      AwaitReply(i);
      Discharge(i);
      GoneIsForgotten(View(), i);
    }

    /** Takes the socket out of the counter and out of its set. */
    method Discharge(i: nat)
      requires Reachable(View()) && i < |sockets| && sockets[i].phase == Decrementing
      modifies this
      ensures Reachable(View()) && i < |sockets| && sockets[i].phase == Gone
    {
      Await(Decrement(i), i);
      Await(Unregister(i), i);
    }
  }
}

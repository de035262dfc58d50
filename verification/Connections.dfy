/** Connection accounting: what the Redis counter of an order and client counts, and how
    far overlapping set-ups can push it past the limit. */
module Connections {
  import opened WebSocket
  import opened Products
  import Channels

  /** Between the increment and the decrement a socket is in the counter; between the
      addition and the removal it is in its set. */
  predicate Counted(p: Phase)
  {
    p.Incremented? || p.Armed? || p.Registered? || p.Fetched? || p.AwaitSub? || p.Live? || p.AwaitUnsub?
    || p.Decrementing?
  }

  predicate Listed(p: Phase)
  {
    p.Registered? || p.Fetched? || p.AwaitSub? || p.Live? || p.AwaitUnsub? || p.Decrementing? || p.Decremented?
  }

  predicate JustIncremented(p: Phase) { p.Incremented? || p.Armed? }
  predicate JustDecremented(p: Phase) { p.Decremented? }
  predicate JustChecked(p: Phase) { p.Checked? }

  /** The sockets of an order and client that are in a phase of the kind. */
  function Those(ss: seq<Sock>, k: Key, kind: Phase -> bool): set<nat>
  {
    set i: nat | i < |ss| && KeyOf(ss[i]) == k && kind(ss[i].phase)
  }

  lemma ThoseAppend(ss: seq<Sock>, x: Sock, k: Key, kind: Phase -> bool)
    requires !kind(x.phase)
    ensures Those(ss + [x], k, kind) == Those(ss, k, kind)
  {
  }

  lemma ThoseUpdate(ss: seq<Sock>, i: nat, x: Sock, k: Key, kind: Phase -> bool)
    requires i < |ss| && KeyOf(x) == KeyOf(ss[i])
    ensures Those(ss[i := x], k, kind)
         == if KeyOf(x) == k && kind(x.phase) then Those(ss, k, kind) + {i} else Those(ss, k, kind) - {i}
  {
  }

  lemma ThoseSame(ss: seq<Sock>, ss': seq<Sock>, k: Key, kind: Phase -> bool)
    requires |ss| == |ss'| && forall i :: 0 <= i < |ss| ==> KeyOf(ss'[i]) == KeyOf(ss[i]) && ss'[i].phase == ss[i].phase
    ensures Those(ss', k, kind) == Those(ss, k, kind)
  {
  }

  /** A socket's phase changes: the size of a kind moves with it. */
  lemma Recount(ss: seq<Sock>, i: nat, x: Sock, k: Key, kind: Phase -> bool)
    requires i < |ss| && KeyOf(x) == KeyOf(ss[i])
    ensures |Those(ss[i := x], k, kind)|
         == |Those(ss, k, kind)|
            + (if KeyOf(x) == k && kind(x.phase) then 1 else 0)
            - (if KeyOf(x) == k && kind(ss[i].phase) then 1 else 0)
  {
    ThoseUpdate(ss, i, x, k, kind);
  }

  /** The counter counts the counted sockets, but for the debt: those it forgot when its
      key last expired. */
  ghost predicate CounterIs(s: State, k: Key, debt: int)
  {
    CounterOf(s, k) + debt == |Those(s.sockets, k, Counted)|
  }

  ghost predicate ListIs(s: State, k: Key)
  {
    Connected(s, k) == Those(s.sockets, k, Listed) && (k in s.connections ==> s.connections[k] != {})
  }

  lemma ThoseStay(ss: seq<Sock>, i: nat, x: Sock, k: Key, kind: Phase -> bool)
    requires i < |ss| && KeyOf(x) == KeyOf(ss[i]) && kind(x.phase) == kind(ss[i].phase)
    ensures Those(ss[i := x], k, kind) == Those(ss, k, kind)
  {
  }

  ghost predicate Sound(s: State, k: Key, debt: int) { CounterIs(s, k, debt) && ListIs(s, k) }

  /** Only sockets, counters and sets matter here. */
  lemma SameBooks(s: State, t: State, k: Key, debt: int)
    requires Sound(s, k, debt) && t.sockets == s.sockets && t.counters == s.counters && t.connections == s.connections
    ensures Sound(t, k, debt)
  {
  }

  lemma IncrementKeeps(s: State, i: nat, k: Key, debt: int)
    requires Sound(s, k, debt) && CanStep(s, Increment(i))
    ensures Sound(Step(s, Increment(i)), k, debt)
  {
    var x := s.sockets[i].(phase := Incremented);
    Recount(s.sockets, i, x, k, Counted);
    ThoseStay(s.sockets, i, x, k, Listed);
  }

  lemma DecrementKeeps(s: State, i: nat, k: Key, debt: int)
    requires Sound(s, k, debt) && CanStep(s, Decrement(i))
    ensures Sound(Step(s, Decrement(i)), k, debt)
  {
    var x := s.sockets[i].(phase := Decremented);
    Recount(s.sockets, i, x, k, Counted);
    ThoseStay(s.sockets, i, x, k, Listed);
  }

  lemma RegisterKeeps(s: State, i: nat, k: Key, debt: int)
    requires Sound(s, k, debt) && CanStep(s, Register(i))
    ensures Sound(Step(s, Register(i)), k, debt)
  {
    var x := s.sockets[i].(phase := Registered);
    ThoseStay(s.sockets, i, x, k, Counted);
    ThoseUpdate(s.sockets, i, x, k, Listed);
    if k != KeyOf(x) {
      assert i !in Those(s.sockets, k, Listed);
    }
  }

  lemma RemovedIs(connections: map<Key, set<nat>>, k: Key, i: nat, key: Key)
    requires key in connections ==> connections[key] != {}
    ensures var r := Removed(connections, k, i);
            && (key in r ==> r[key] != {})
            && (if key in r then r[key] else {})
               == (if key in connections then connections[key] else {}) - (if key == k then {i} else {})
  {
  }

  lemma ThoseLeave(ss: seq<Sock>, i: nat, x: Sock, k: Key, kind: Phase -> bool)
    requires i < |ss| && KeyOf(x) == KeyOf(ss[i]) && !kind(x.phase)
    ensures Those(ss[i := x], k, kind) == Those(ss, k, kind) - (if k == KeyOf(x) then {i} else {})
  {
    ThoseUpdate(ss, i, x, k, kind);
  }

  lemma UnregisterLists(s: State, i: nat, k: Key)
    requires ListIs(s, k) && CanStep(s, Unregister(i))
    ensures ListIs(Step(s, Unregister(i)), k)
  {
    var x := s.sockets[i].(phase := Gone);
    RemovedIs(s.connections, KeyOf(x), i, k);
    ThoseLeave(s.sockets, i, x, k, Listed);
  }

  lemma UnregisterKeeps(s: State, i: nat, k: Key, debt: int)
    requires Sound(s, k, debt) && CanStep(s, Unregister(i))
    ensures Sound(Step(s, Unregister(i)), k, debt)
  {
    UnregisterLists(s, i, k);
    ThoseStay(s.sockets, i, s.sockets[i].(phase := Gone), k, Counted);
  }

  lemma DeliverKeeps(s: State, k: Key, debt: int)
    requires Sound(s, k, debt) && CanStep(s, Deliver)
    ensures Sound(Step(s, Deliver), k, debt)
  {
    ThoseSame(s.sockets, DeliverStep(s).sockets, k, Counted);
    ThoseSame(s.sockets, DeliverStep(s).sockets, k, Listed);
  }

  lemma ConnectKeeps(s: State, order: nat, ip: nat, k: Key, debt: int)
    requires Sound(s, k, debt)
    ensures Sound(Step(s, Connect(order, ip)), k, debt)
  {
    ThoseAppend(s.sockets, NewSock(order, ip), k, Counted);
    ThoseAppend(s.sockets, NewSock(order, ip), k, Listed);
  }

  /** Only socket i changes, and only to a phase of the same kind. */
  ghost predicate OneStays(s: State, t: State, i: nat)
  {
    && i < |s.sockets| == |t.sockets| && t.sockets == s.sockets[i := t.sockets[i]]
    && KeyOf(t.sockets[i]) == KeyOf(s.sockets[i])
    && t.counters == s.counters && t.connections == s.connections
    && Counted(t.sockets[i].phase) == Counted(s.sockets[i].phase)
    && Listed(t.sockets[i].phase) == Listed(s.sockets[i].phase)
  }

  lemma OneStaysKeeps(s: State, t: State, i: nat, k: Key, debt: int)
    requires Sound(s, k, debt) && OneStays(s, t, i)
    ensures Sound(t, k, debt)
  {
    ThoseStay(s.sockets, i, t.sockets[i], k, Counted);
    ThoseStay(s.sockets, i, t.sockets[i], k, Listed);
  }

  predicate Quiet(e: Event) { e.Check? || e.Arm? || e.Fetch? || e.Subscribe? || e.Shut? || e.Close? }

  /** The steps of a socket that neither counter nor set notices. */
  lemma QuietStays(s: State, e: Event)
    requires CanStep(s, e) && Quiet(e)
    ensures OneStays(s, Step(s, e), e.id)
    ensures !e.Check? ==> JustChecked(Step(s, e).sockets[e.id].phase) == JustChecked(s.sockets[e.id].phase)
  {
    if e.Close? {
      CloseStays(s, e.id);
    } else if e.Subscribe? {
      SubscribeStays(s, e.id);
    }
  }

  lemma CloseStays(s: State, i: nat)
    requires CanStep(s, Close(i))
    ensures OneStays(s, CloseStep(s, i), i)
    ensures JustChecked(CloseStep(s, i).sockets[i].phase) == JustChecked(s.sockets[i].phase)
  {
  }

  lemma SubscribeStays(s: State, i: nat)
    requires CanStep(s, Subscribe(i))
    ensures OneStays(s, SubscribeStep(s, i), i)
    ensures !JustChecked(SubscribeStep(s, i).sockets[i].phase)
  {
  }

  /** The caller that resumes next is one that waits. */
  ghost predicate Awaited(s: State)
  {
    s.resumed < |s.cmds| && s.cmds[s.resumed].socket < |s.sockets|
    && (s.sockets[s.cmds[s.resumed].socket].phase.AwaitSub? || s.sockets[s.cmds[s.resumed].socket].phase.AwaitUnsub?)
  }

  lemma ResumeStays(s: State)
    requires CanStep(s, Resume) && Awaited(s)
    ensures OneStays(s, ResumeStep(s), s.cmds[s.resumed].socket)
    ensures !JustChecked(ResumeStep(s).sockets[s.cmds[s.resumed].socket].phase)
  {
  }

  predicate Elsewhere(e: Event)
  {
    e.Apply? || e.Ack? || e.CreateOrder? || e.WriteOutcome? || e.Announce? || e.Tick?
  }

  /** The steps of no socket. */
  lemma ElsewhereStays(s: State, e: Event)
    requires CanStep(s, e) && Elsewhere(e)
    ensures Step(s, e).sockets == s.sockets && Step(s, e).counters == s.counters
    ensures Step(s, e).connections == s.connections
  {
  }

  /** What the counter has forgotten after a step. */
  function NextDebt(s: State, e: Event, k: Key, debt: int): int
  {
    if e == Expire(k) then |Those(s.sockets, k, Counted)| else debt
  }

  lemma ExpireKeeps(s: State, key: Key, k: Key, debt: int)
    requires Sound(s, k, debt) && CanStep(s, Expire(key))
    ensures Sound(Step(s, Expire(key)), k, NextDebt(s, Expire(key), k, debt))
  {
  }

  lemma StepKeeps(s: State, e: Event, k: Key, debt: int)
    requires Sound(s, k, debt) && Channels.Tickets(s) && CanStep(s, e)
    ensures Sound(Step(s, e), k, NextDebt(s, e, k, debt))
  {
    if e.Expire? {
      ExpireKeeps(s, e.key, k, debt);
    } else if e.Connect? {
      ConnectKeeps(s, e.order, e.ip, k, debt);
    } else if e.Increment? {
      IncrementKeeps(s, e.id, k, debt);
    } else if e.Decrement? {
      DecrementKeeps(s, e.id, k, debt);
    } else if e.Register? {
      RegisterKeeps(s, e.id, k, debt);
    } else if e.Unregister? {
      UnregisterKeeps(s, e.id, k, debt);
    } else if e.Deliver? {
      DeliverKeeps(s, k, debt);
    } else if e.Resume? {
      assert Channels.WaitsFor(s, s.resumed);
      ResumeStays(s);
      OneStaysKeeps(s, ResumeStep(s), s.cmds[s.resumed].socket, k, debt);
    } else if Quiet(e) {
      QuietStays(s, e);
      OneStaysKeeps(s, Step(s, e), e.id, k, debt);
    } else {
      ElsewhereStays(s, e);
      SameBooks(s, Step(s, e), k, debt);
    }
  }

  /** The sockets the counter has forgotten by the end of a run: those counted when its key
      last expired, or the ones forgotten before if it did not. */
  function Debt(s: State, es: seq<Event>, k: Key, debt: int): int
    requires Runs(s, es)
    decreases |es|
  {
    if es == [] then debt else Debt(Step(s, es[0]), es[1..], k, NextDebt(s, es[0], k, debt))
  }

  lemma {:induction false} RunKeeps(s: State, es: seq<Event>, k: Key, debt: int)
    requires Sound(s, k, debt) && Channels.Inv(s) && Runs(s, es)
    ensures Sound(After(s, es), k, Debt(s, es, k, debt))
    decreases |es|
  {
    if es != [] {
      StepKeeps(s, es[0], k, debt);
      Channels.StepKeeps(s, es[0]);
      RunKeeps(Step(s, es[0]), es[1..], k, NextDebt(s, es[0], k, debt));
    }
  }

  lemma {:induction false} NoExpiryNoDebt(s: State, es: seq<Event>, k: Key, debt: int)
    requires Runs(s, es) && Expire(k) !in es
    ensures Debt(s, es, k, debt) == debt
    decreases |es|
  {
    if es != [] {
      NoExpiryNoDebt(Step(s, es[0]), es[1..], k, debt);
    }
  }

  lemma Reached(es: seq<Event>, k: Key)
    requires Runs(Init(), es)
    ensures Sound(After(Init(), es), k, Debt(Init(), es, k, 0))
  {
    assert Those([], k, Counted) == {} && Those([], k, Listed) == {};
    RunKeeps(Init(), es, k, 0);
  }

  /** The size of the socket set, plus the sockets between increment and addition, minus
      those between decrement and removal. */
  function Accounted(s: State, k: Key): int
  {
    |Connected(s, k)| + |Those(s.sockets, k, JustIncremented)| - |Those(s.sockets, k, JustDecremented)|
  }

  /** In every reachable state the set holds exactly the listed sockets and no empty set is
      stored; and the counter is what the sets and the sockets in between account for, if
      and only if no socket was counted when its key last expired, so always when it never
      did. Otherwise it is short by those sockets. */
  lemma CounterAccounts(es: seq<Event>, k: Key)
    requires Runs(Init(), es)
    ensures var s, debt := After(Init(), es), Debt(Init(), es, k, 0);
            && Connected(s, k) == Those(s.sockets, k, Listed)
            && (k in s.connections ==> s.connections[k] != {})
            && CounterOf(s, k) == Accounted(s, k) - debt
            && (CounterOf(s, k) == Accounted(s, k) <==> debt == 0)
            && (Expire(k) !in es ==> debt == 0)
  {
    Reached(es, k);
    CountedAccounted(After(Init(), es), k);
    if Expire(k) !in es {
      NoExpiryNoDebt(Init(), es, k, 0);
    }
  }

  lemma CountedAccounted(s: State, k: Key)
    requires ListIs(s, k)
    ensures |Those(s.sockets, k, Counted)| == Accounted(s, k)
  {
    var ss := s.sockets;
    TwoWays(ss, k);
    assert |Those(ss, k, Counted) + Those(ss, k, JustDecremented)|
        == |Those(ss, k, Listed) + Those(ss, k, JustIncremented)|;
  }

  /** Counted or just decremented is the same as listed or just incremented. */
  lemma TwoWays(ss: seq<Sock>, k: Key)
    ensures Those(ss, k, Counted) + Those(ss, k, JustDecremented)
         == Those(ss, k, Listed) + Those(ss, k, JustIncremented)
    ensures Those(ss, k, Counted) !! Those(ss, k, JustDecremented)
    ensures Those(ss, k, Listed) !! Those(ss, k, JustIncremented)
  {
  }

  // ---- The limit ----

  /** At most n set-ups are ever between the limit check and the increment. */
  ghost predicate Overlaps(s: State, es: seq<Event>, k: Key, n: nat)
    requires Runs(s, es)
    decreases |es|
  {
    |Those(s.sockets, k, JustChecked)| <= n && (es == [] || Overlaps(Step(s, es[0]), es[1..], k, n))
  }

  ghost predicate Within(s: State, k: Key, n: nat)
  {
    CounterOf(s, k) + |Those(s.sockets, k, JustChecked)| <= MAX_CONNECTIONS_PER_ORDER_IP - 1 + n
  }

  /** The phase of one socket before and after a step, for the sets' sizes. */
  lemma CheckedMoves(s: State, e: Event, k: Key)
    requires CanStep(s, e) && (e.Check? || e.Increment? || e.Decrement?)
    ensures |Those(Step(s, e).sockets, k, JustChecked)|
         == |Those(s.sockets, k, JustChecked)|
            + (if KeyOf(s.sockets[e.id]) == k && e.Check? && CounterOf(s, k) < MAX_CONNECTIONS_PER_ORDER_IP
               then 1 else 0)
            - (if KeyOf(s.sockets[e.id]) == k && e.Increment? then 1 else 0)
  {
    Recount(s.sockets, e.id, Step(s, e).sockets[e.id], k, JustChecked);
  }

  lemma CheckedStay(s: State, e: Event, k: Key)
    requires CanStep(s, e) && (e.Resume? ==> Awaited(s)) && !e.Check? && !e.Increment? && !e.Expire?
    ensures Those(Step(s, e).sockets, k, JustChecked) == Those(s.sockets, k, JustChecked)
  {
    if e.Connect? {
      ThoseAppend(s.sockets, NewSock(e.order, e.ip), k, JustChecked);
    } else if e.Deliver? {
      ThoseSame(s.sockets, DeliverStep(s).sockets, k, JustChecked);
    } else if e.Resume? {
      var i := s.cmds[s.resumed].socket;
      ResumeStays(s);
      ThoseStay(s.sockets, i, ResumeStep(s).sockets[i], k, JustChecked);
    } else if e.Register? || e.Decrement? || e.Unregister? {
      ThoseStay(s.sockets, e.id, Step(s, e).sockets[e.id], k, JustChecked);
    } else if Quiet(e) {
      QuietStays(s, e);
      ThoseStay(s.sockets, e.id, Step(s, e).sockets[e.id], k, JustChecked);
    } else {
      ElsewhereStays(s, e);
    }
  }

  /** Away from check and increment the counter never rises. */
  lemma CounterFalls(s: State, e: Event, k: Key)
    requires CanStep(s, e) && (e.Resume? ==> Awaited(s)) && !e.Check? && !e.Increment? && !e.Expire?
    ensures CounterOf(Step(s, e), k) <= CounterOf(s, k)
  {
    if Quiet(e) {
      QuietStays(s, e);
    } else if e.Resume? {
      ResumeStays(s);
    } else if Elsewhere(e) {
      ElsewhereStays(s, e);
    }
  }

  lemma CheckWithin(s: State, e: Event, k: Key, n: nat)
    requires CanStep(s, e) && (e.Check? || e.Increment?) && Within(s, k, n)
    requires |Those(Step(s, e).sockets, k, JustChecked)| <= n
    ensures Within(Step(s, e), k, n)
  {
    CheckedMoves(s, e, k);
  }

  lemma StepWithin(s: State, e: Event, k: Key, n: nat)
    requires Channels.Tickets(s) && CanStep(s, e) && Within(s, k, n)
    requires |Those(Step(s, e).sockets, k, JustChecked)| <= n
    ensures Within(Step(s, e), k, n)
  {
    if e.Check? || e.Increment? {
      CheckWithin(s, e, k, n);
    } else if e.Expire? {
      assert Step(s, e).sockets == s.sockets;
    } else {
      if e.Resume? { assert Channels.WaitsFor(s, s.resumed); }
      CheckedStay(s, e, k);
      CounterFalls(s, e, k);
    }
  }

  /** The counter never exceeds m in the run. */
  ghost predicate Bounded(s: State, es: seq<Event>, k: Key, m: nat)
    requires Runs(s, es)
    decreases |es|
  {
    CounterOf(s, k) <= m && (es == [] || Bounded(Step(s, es[0]), es[1..], k, m))
  }

  lemma {:induction false} RunBounded(s: State, es: seq<Event>, k: Key, n: nat)
    requires Channels.Inv(s) && Runs(s, es) && Overlaps(s, es, k, n) && Within(s, k, n)
    ensures Bounded(s, es, k, 2 + n)
    decreases |es|
  {
    if es != [] {
      var t := Step(s, es[0]);
      assert Overlaps(t, es[1..], k, n);
      StepWithin(s, es[0], k, n);
      Channels.StepKeeps(s, es[0]);
      RunBounded(t, es[1..], k, n);
    }
  }

  lemma {:induction false} BoundedAtEnd(s: State, es: seq<Event>, k: Key, m: nat)
    requires Runs(s, es) && Bounded(s, es, k, m)
    ensures CounterOf(After(s, es), k) <= m
    decreases |es|
  {
    if es != [] {
      BoundedAtEnd(Step(s, es[0]), es[1..], k, m);
    }
  }

  /** How often the counter's key expires in a run. */
  function Expiries(es: seq<Event>, k: Key): nat
  {
    if es == [] then 0 else (if es[0] == Expire(k) then 1 else 0) + Expiries(es[1..], k)
  }

  /** The sockets the counter does not know of. */
  function Forgotten(s: State, k: Key): int
  {
    |Those(s.sockets, k, Counted)| - CounterOf(s, k)
  }

  ghost predicate Booked(s: State, k: Key) { Channels.Inv(s) && ListIs(s, k) }

  /** What the counter stood at when its key expired, over all expiries of a run. */
  function Loss(s: State, es: seq<Event>, k: Key): int
    requires Runs(s, es)
    decreases |es|
  {
    if es == [] then 0
    else (if es[0] == Expire(k) then CounterOf(s, k) else 0) + Loss(Step(s, es[0]), es[1..], k)
  }

  /** An expiry adds to them what the counter held, and nothing else does. */
  lemma StepForgets(s: State, e: Event, k: Key)
    requires Booked(s, k) && CanStep(s, e)
    ensures Booked(Step(s, e), k)
    ensures Forgotten(Step(s, e), k) == Forgotten(s, k) + if e == Expire(k) then CounterOf(s, k) else 0
  {
    StepKeeps(s, e, k, Forgotten(s, k));
    Channels.StepKeeps(s, e);
  }

  lemma {:induction false} RunForgets(s: State, es: seq<Event>, k: Key)
    requires Booked(s, k) && Runs(s, es)
    ensures Forgotten(After(s, es), k) == Forgotten(s, k) + Loss(s, es, k)
    decreases |es|
  {
    if es != [] {
      StepForgets(s, es[0], k);
      RunForgets(Step(s, es[0]), es[1..], k);
    }
  }

  lemma {:induction false} LossAtMost(s: State, es: seq<Event>, k: Key, m: nat)
    requires Runs(s, es) && Bounded(s, es, k, m)
    ensures Loss(s, es, k) <= Mul(Expiries(es, k), m)
    decreases |es|
  {
    if es == [] {
      assert Mul(0, m) == 0;
    } else {
      LossAtMost(Step(s, es[0]), es[1..], k, m);
      MulAdd(1, Expiries(es[1..], k), m);
      assert Mul(1, m) == m;
    }
  }

  /** With at most n overlapping set-ups the counter never exceeds 2 + n, the advertised
      limit of 3 when set-ups do not overlap; and no more sockets than that are counted at
      once, plus those the counter forgot when its key expired: at most 2 + n an expiry. */
  lemma LimitHolds(es: seq<Event>, k: Key, n: nat)
    requires Runs(Init(), es) && Overlaps(Init(), es, k, n)
    ensures CounterOf(After(Init(), es), k) <= 2 + n
    ensures |Those(After(Init(), es).sockets, k, Counted)| <= 2 + n + Debt(Init(), es, k, 0)
    ensures |Those(After(Init(), es).sockets, k, Counted)| <= Mul(1 + Expiries(es, k), 2 + n)
  {
    var m := 2 + n;
    assert Those([], k, JustChecked) == {} && Those([], k, Counted) == {} && Those([], k, Listed) == {};
    assert Mul(1, m) == m;
    RunBounded(Init(), es, k, n);
    BoundedAtEnd(Init(), es, k, m);
    Reached(es, k);
    RunForgets(Init(), es, k);
    LossAtMost(Init(), es, k, m);
    MulAdd(1, Expiries(es, k), m);
  }
}

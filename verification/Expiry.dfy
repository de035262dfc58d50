/** Runs that reach the bounds on a client's sockets: the limit, what overlapping set-ups
    add to it, and what each expiry of the counter lifts it by. */
module Expiry {
  import opened WebSocket
  import opened Products
  import Connections

  /** The order and client all of this is about. */
  const HERE: Key := Key(0, 0)

  function Joining(n: nat, x: Sock): seq<Sock>
  {
    if n == 0 then [] else Joining(n - 1, x) + [x]
  }

  function Asks(n: nat): seq<Cmd>
  {
    if n == 0 then [] else Asks(n - 1) + [Cmd(0, Sub, n - 1)]
  }

  function Firsts(n: nat): set<nat>
  {
    if n == 0 then {} else Firsts(n - 1) + {n - 1}
  }

  function Mapped(n: nat): map<nat, nat>
  {
    if n == 0 then map[] else Mapped(n - 1)[n - 1 := 0]
  }

  function Served(): Sock { NewSock(0, 0).(phase := Live) }

  function Waiting(): Sock { NewSock(0, 0).(phase := Checked) }

  /** At second t: f + m sockets live and open, of which the counter has forgotten f and
      knows m; and c more between check and increment. */
  function Crowd(f: nat, m: nat, c: nat, t: nat): State
  {
    Init().(sockets := Joining(f + m, Served()) + Joining(c, Waiting()),
            connections := if f + m == 0 then map[] else map[HERE := Firsts(f + m)],
            subscriptions := Mapped(f + m),
            counters := if m == 0 then map[] else map[HERE := m],
            expires := if m == 0 then map[] else map[HERE := t + COUNTER_TTL],
            now := t,
            cmds := Asks(f + m), applied := f + m, acked := f + m, resumed := f + m,
            orders := map[0 := Running])
  }

  lemma {:induction false} JoiningIs(n: nat, x: Sock)
    ensures |Joining(n, x)| == n
    ensures forall i :: 0 <= i < n ==> Joining(n, x)[i] == x
  {
    if n > 0 {
      JoiningIs(n - 1, x);
    }
  }

  lemma {:induction false} AsksAre(n: nat)
    ensures |Asks(n)| == n
  {
    if n > 0 {
      AsksAre(n - 1);
    }
  }

  lemma OneMoreWaits(ss: seq<Sock>)
    ensures |Connections.Those(ss + [Waiting()], HERE, Connections.JustChecked)|
         == |Connections.Those(ss, HERE, Connections.JustChecked)| + 1
    ensures Connections.Those(ss + [Waiting()], HERE, Connections.Counted)
         == Connections.Those(ss, HERE, Connections.Counted)
  {
    assert Connections.Those(ss + [Waiting()], HERE, Connections.JustChecked)
        == Connections.Those(ss, HERE, Connections.JustChecked) + {|ss|};
    Connections.ThoseAppend(ss, Waiting(), HERE, Connections.Counted);
  }

  lemma {:induction false} FirstsAre(n: nat)
    ensures |Firsts(n)| == n && forall i :: i in Firsts(n) <==> 0 <= i < n
  {
    if n > 0 {
      FirstsAre(n - 1);
    }
  }

  lemma ServedCounts(a: nat)
    ensures |Connections.Those(Joining(a, Served()), HERE, Connections.JustChecked)| == 0
    ensures |Connections.Those(Joining(a, Served()), HERE, Connections.Counted)| == a
  {
    JoiningIs(a, Served());
    FirstsAre(a);
    assert Connections.Those(Joining(a, Served()), HERE, Connections.JustChecked) == {};
    assert Connections.Those(Joining(a, Served()), HERE, Connections.Counted) == Firsts(a);
  }

  lemma {:induction false} GroupCounts(a: nat, c: nat)
    ensures var ss := Joining(a, Served()) + Joining(c, Waiting());
            && |Connections.Those(ss, HERE, Connections.JustChecked)| == c
            && |Connections.Those(ss, HERE, Connections.Counted)| == a
    decreases c
  {
    var ss := Joining(a, Served()) + Joining(c, Waiting());
    if c == 0 {
      ServedCounts(a);
      assert ss == Joining(a, Served());
    } else {
      GroupCounts(a, c - 1);
      var ss' := Joining(a, Served()) + Joining(c - 1, Waiting());
      assert ss == ss' + [Waiting()];
      OneMoreWaits(ss');
    }
  }

  /** How many sockets of the crowd are between check and increment, or counted. */
  lemma CrowdCounts(f: nat, m: nat, c: nat, t: nat)
    ensures |Connections.Those(Crowd(f, m, c, t).sockets, HERE, Connections.JustChecked)| == c
    ensures |Connections.Those(Crowd(f, m, c, t).sockets, HERE, Connections.Counted)| == f + m
  {
    GroupCounts(f + m, c);
  }

  // ---- Runs with few overlaps ----

  /** The run leads from one state to the other with at most n overlapping set-ups and h
      expiries. */
  ghost predicate Leads(s: State, es: seq<Event>, t: State, n: nat, h: nat)
  {
    Runs(s, es) && After(s, es) == t && Connections.Overlaps(s, es, HERE, n) && Connections.Expiries(es, HERE) == h
  }

  ghost predicate Few(s: State, n: nat)
  {
    |Connections.Those(s.sockets, HERE, Connections.JustChecked)| <= n
  }

  lemma Prepend(s: State, e: Event, s': State, es: seq<Event>, t: State, n: nat, h: nat)
    requires CanStep(s, e) && Step(s, e) == s' && Leads(s', es, t, n, h) && Few(s, n)
    ensures Leads(s, [e] + es, t, n, h + if e == Expire(HERE) then 1 else 0)
  {
    assert ([e] + es)[1..] == es;
  }

  // ---- How long a counter lasts ----

  lemma ExpiresNext(s: State, e: Event, k: Key)
    requires CanStep(s, e) && k in s.expires && e != Expire(k)
    ensures var t := Step(s, e);
            && s.now <= t.now && k in t.expires
            && (t.expires[k] == s.expires[k] || (e.Arm? && t.expires[k] == s.now + 3600))
  {
    if Connections.Elsewhere(e) {
      Connections.ElsewhereStays(s, e);
    }
  }

  lemma {:induction false} ClockRises(s: State, es: seq<Event>)
    requires Runs(s, es)
    ensures s.now <= After(s, es).now
    decreases |es|
  {
    if es != [] {
      assert s.now <= Step(s, es[0]).now;
      ClockRises(Step(s, es[0]), es[1..]);
    }
  }

  lemma {:induction false} LastsUntil(s: State, es: seq<Event>, k: Key, t: nat)
    requires Runs(s, es) && k in s.expires && t <= s.expires[k] && t <= s.now + 3600 && After(s, es).now <= t
    ensures Expire(k) !in es
    decreases |es|
  {
    if es != [] {
      ClockRises(s, es);
      ExpiresNext(s, es[0], k);
      LastsUntil(Step(s, es[0]), es[1..], k, t);
    }
  }

  lemma {:induction false} GoneAfter(s: State, es: seq<Event>, k: Key)
    requires Runs(s, es) && k in s.expires && s.now <= s.expires[k] + 1 && Expire(k) !in es
    requires forall e :: e in es ==> !e.Arm?
    ensures After(s, es).now <= s.expires[k] + 1
    decreases |es|
  {
    if es != [] {
      ExpiresNext(s, es[0], k);
      GoneAfter(Step(s, es[0]), es[1..], k);
    }
  }

  /** A counter lasts for 3600 seconds after a set-up gave it its expiry, whatever happens,
      and if no other set-up does so again it is gone two seconds later. */
  lemma CounterLasts(s: State, i: nat, es: seq<Event>)
    requires CanStep(s, Arm(i)) && KeyOf(s.sockets[i]) in s.counters && Runs(Step(s, Arm(i)), es)
    ensures var k, t := KeyOf(s.sockets[i]), After(Step(s, Arm(i)), es);
            && (t.now <= s.now + 3600 ==> Expire(k) !in es)
            && (t.now >= s.now + 3602 && (forall e :: e in es ==> !e.Arm?) ==> Expire(k) in es)
  {
    var k, s', t := KeyOf(s.sockets[i]), Step(s, Arm(i)), After(Step(s, Arm(i)), es);
    if t.now <= s.now + 3600 {
      LastsUntil(s', es, k, s.now + 3600);
    } else if (forall e :: e in es ==> !e.Arm?) && Expire(k) !in es {
      GoneAfter(s', es, k);
    }
  }

  // ---- One set-up, from the increment on ----

  /** The first of the waiting sockets on its way. */
  function Stage(f: nat, m: nat, c: nat, t: nat, phase: Phase): State
    requires c > 0
  {
    JoiningIs(f + m, Served());
    JoiningIs(c, Waiting());
    var s := Crowd(f, m, c, t);
    s.(sockets := s.sockets[f + m := NewSock(0, 0).(phase := phase)],
       counters := map[HERE := m + 1],
       expires := if phase.Incremented? then s.expires else map[HERE := t + COUNTER_TTL],
       connections := if phase.Incremented? || phase.Armed? then s.connections else map[HERE := Firsts(f + m + 1)],
       subscriptions := if phase.AwaitSub? then Mapped(f + m + 1) else s.subscriptions,
       cmds := if phase.AwaitSub? then Asks(f + m + 1) else s.cmds)
  }

  lemma StageFew(f: nat, m: nat, c: nat, t: nat, phase: Phase, n: nat)
    requires 0 < c <= n && !phase.Checked?
    ensures Few(Stage(f, m, c, t, phase), n)
  {
    CrowdCounts(f, m, c, t);
    JoiningIs(f + m, Served());
    JoiningIs(c, Waiting());
    var x := NewSock(0, 0).(phase := phase);
    Connections.Recount(Crowd(f, m, c, t).sockets, f + m, x, HERE, Connections.JustChecked);
  }

  /** One phase overwrites another. */
  lemma StageSteps(f: nat, m: nat, c: nat, t: nat, p: Phase, q: Phase)
    requires c > 0
    ensures f + m < |Stage(f, m, c, t, p).sockets|
    ensures Stage(f, m, c, t, p).sockets[f + m] == NewSock(0, 0).(phase := p)
    ensures Stage(f, m, c, t, p).sockets[f + m := NewSock(0, 0).(phase := q)] == Stage(f, m, c, t, q).sockets
  {
    JoiningIs(f + m, Served());
    JoiningIs(c, Waiting());
  }

  lemma Counts(f: nat, m: nat, c: nat, t: nat)
    requires c > 0
    ensures CanStep(Crowd(f, m, c, t), Increment(f + m))
    ensures Step(Crowd(f, m, c, t), Increment(f + m)) == Stage(f, m, c, t, Incremented)
    ensures CanStep(Stage(f, m, c, t, Incremented), Arm(f + m))
    ensures Step(Stage(f, m, c, t, Incremented), Arm(f + m)) == Stage(f, m, c, t, Armed)
  {
    JoiningIs(f + m, Served());
    JoiningIs(c, Waiting());
    StageSteps(f, m, c, t, Incremented, Armed);
  }

  lemma Lists(f: nat, m: nat, c: nat, t: nat)
    requires c > 0
    ensures CanStep(Stage(f, m, c, t, Armed), Register(f + m))
    ensures Step(Stage(f, m, c, t, Armed), Register(f + m)) == Stage(f, m, c, t, Registered)
  {
    StageSteps(f, m, c, t, Armed, Registered);
    var s := Stage(f, m, c, t, Armed);
    assert Firsts(f + m + 1) == (if HERE in s.connections then s.connections[HERE] else {}) + {f + m};
    assert Added(s.connections, HERE, f + m) == map[HERE := Firsts(f + m + 1)];
  }

  lemma Fetches(f: nat, m: nat, c: nat, t: nat)
    requires c > 0
    ensures CanStep(Stage(f, m, c, t, Registered), Fetch(f + m))
    ensures Step(Stage(f, m, c, t, Registered), Fetch(f + m)) == Stage(f, m, c, t, Fetched(true))
  {
    StageSteps(f, m, c, t, Registered, Fetched(true));
  }

  lemma Subscribes(f: nat, m: nat, c: nat, t: nat)
    requires c > 0
    ensures CanStep(Stage(f, m, c, t, Fetched(true)), Subscribe(f + m))
    ensures Step(Stage(f, m, c, t, Fetched(true)), Subscribe(f + m)) == Stage(f, m, c, t, AwaitSub(f + m))
  {
    var s, s' := Stage(f, m, c, t, Fetched(true)), Stage(f, m, c, t, AwaitSub(f + m));
    StageSteps(f, m, c, t, Fetched(true), AwaitSub(f + m));
    AsksAre(f + m);
    assert s.sockets[f + m].open && !s.sockets[f + m].learned && !s.sockets[f + m].saw;
    assert s'.cmds == s.cmds + [Cmd(0, Sub, f + m)];
    assert s'.subscriptions == s.subscriptions[f + m := 0];
    assert s'.sockets == s.sockets[f + m := NewSock(0, 0).(phase := AwaitSub(f + m))];
  }

  lemma OneMoreServed(f: nat, m: nat, c: nat, t: nat)
    requires c > 0
    ensures Stage(f, m, c, t, Live).sockets == Crowd(f, m + 1, c - 1, t).sockets
  {
    JoiningIs(f + m, Served());
    JoiningIs(c, Waiting());
    JoiningIs(f + m + 1, Served());
    JoiningIs(c - 1, Waiting());
  }

  lemma GoesLive(f: nat, m: nat, c: nat, t: nat)
    requires c > 0
    ensures var s := Stage(f, m, c, t, AwaitSub(f + m)).(applied := f + m + 1, acked := f + m + 1);
            CanStep(s, Resume) && Step(s, Resume) == Crowd(f, m + 1, c - 1, t)
  {
    var s := Stage(f, m, c, t, AwaitSub(f + m)).(applied := f + m + 1, acked := f + m + 1);
    StageSteps(f, m, c, t, AwaitSub(f + m), Live);
    AsksAre(f + m);
    assert s.cmds[f + m] == Cmd(0, Sub, f + m);
    OneMoreServed(f, m, c, t);
    assert Step(s, Resume).sockets == Crowd(f, m + 1, c - 1, t).sockets;
  }

  lemma AnsweredGoesLive(f: nat, m: nat, c: nat, t: nat, rest: seq<Event>, end: State, n: nat, h: nat)
    returns (es: seq<Event>)
    requires 0 < c <= n && Leads(Crowd(f, m + 1, c - 1, t), rest, end, n, h)
    ensures Leads(Stage(f, m, c, t, AwaitSub(f + m)), es, end, n, h)
  {
    var s := Stage(f, m, c, t, AwaitSub(f + m));
    StageFew(f, m, c, t, AwaitSub(f + m), n);
    AsksAre(f + m);
    GoesLive(f, m, c, t);
    var s1 := s.(applied := f + m + 1);
    var s2 := s.(applied := f + m + 1, acked := f + m + 1);
    Prepend(s2, Resume, Crowd(f, m + 1, c - 1, t), rest, end, n, h);
    es := [Resume] + rest;
    Prepend(s1, Ack, s2, es, end, n, h);
    es := [Ack] + es;
    Prepend(s, Apply, s1, es, end, n, h);
    es := [Apply] + es;
  }

  lemma AskingGoesLive(f: nat, m: nat, c: nat, t: nat, rest: seq<Event>, end: State, n: nat, h: nat)
    returns (es: seq<Event>)
    requires 0 < c <= n && Leads(Crowd(f, m + 1, c - 1, t), rest, end, n, h)
    ensures Leads(Stage(f, m, c, t, Fetched(true)), es, end, n, h)
  {
    var s := Stage(f, m, c, t, AwaitSub(f + m));
    es := AnsweredGoesLive(f, m, c, t, rest, end, n, h);
    StageFew(f, m, c, t, Fetched(true), n);
    Subscribes(f, m, c, t);
    Prepend(Stage(f, m, c, t, Fetched(true)), Subscribe(f + m), s, es, end, n, h);
    es := [Subscribe(f + m)] + es;
  }

  /** A set-up that has passed the check goes live before anything else happens. */
  lemma OneGoesLive(f: nat, m: nat, c: nat, t: nat, rest: seq<Event>, end: State, n: nat, h: nat)
    returns (es: seq<Event>)
    requires 0 < c <= n && Leads(Crowd(f, m + 1, c - 1, t), rest, end, n, h)
    ensures Leads(Crowd(f, m, c, t), es, end, n, h)
  {
    es := AskingGoesLive(f, m, c, t, rest, end, n, h);
    CrowdCounts(f, m, c, t);
    Counts(f, m, c, t);
    Lists(f, m, c, t);
    Fetches(f, m, c, t);
    StageFew(f, m, c, t, Registered, n);
    Prepend(Stage(f, m, c, t, Registered), Fetch(f + m), Stage(f, m, c, t, Fetched(true)), es, end, n, h);
    es := [Fetch(f + m)] + es;
    StageFew(f, m, c, t, Armed, n);
    Prepend(Stage(f, m, c, t, Armed), Register(f + m), Stage(f, m, c, t, Registered), es, end, n, h);
    es := [Register(f + m)] + es;
    StageFew(f, m, c, t, Incremented, n);
    Prepend(Stage(f, m, c, t, Incremented), Arm(f + m), Stage(f, m, c, t, Armed), es, end, n, h);
    es := [Arm(f + m)] + es;
    Prepend(Crowd(f, m, c, t), Increment(f + m), Stage(f, m, c, t, Incremented), es, end, n, h);
    es := [Increment(f + m)] + es;
  }

  // ---- Overlapping set-ups ----

  /** The crowd and one more, about to be checked. */
  function Joined(f: nat, m: nat, c: nat, t: nat): State
  {
    Crowd(f, m, c, t).(sockets := Crowd(f, m, c, t).sockets + [NewSock(0, 0)])
  }

  lemma JoinedFew(f: nat, m: nat, c: nat, t: nat)
    ensures Few(Joined(f, m, c, t), c)
  {
    CrowdCounts(f, m, c, t);
    Connections.ThoseAppend(Crowd(f, m, c, t).sockets, NewSock(0, 0), HERE, Connections.JustChecked);
  }

  lemma CheckCrowd(f: nat, m: nat, c: nat, t: nat)
    requires m <= 2
    ensures Step(Crowd(f, m, c, t), Connect(0, 0)) == Joined(f, m, c, t)
    ensures CanStep(Joined(f, m, c, t), Check(f + m + c))
    ensures Step(Joined(f, m, c, t), Check(f + m + c)) == Crowd(f, m, c + 1, t)
  {
    JoiningIs(f + m, Served());
    JoiningIs(c, Waiting());
    assert Joined(f, m, c, t).sockets[f + m + c := Waiting()] == Crowd(f, m, c + 1, t).sockets;
  }

  /** All the waiting set-ups go live, and the run goes on. */
  lemma {:induction false} AllGoLive(f: nat, m: nat, c: nat, t: nat, all: nat, rest: seq<Event>, end: State,
                                     n: nat, h: nat)
    returns (es: seq<Event>)
    requires c <= n && all == m + c && Leads(Crowd(f, all, 0, t), rest, end, n, h)
    ensures Leads(Crowd(f, m, c, t), es, end, n, h)
    decreases c
  {
    if c == 0 {
      es := rest;
    } else {
      es := AllGoLive(f, m + 1, c - 1, t, all, rest, end, n, h);
      es := OneGoesLive(f, m, c, t, es, end, n, h);
    }
  }

  lemma OneChecks(f: nat, m: nat, c: nat, t: nat, rest: seq<Event>, end: State, n: nat, h: nat)
    returns (es: seq<Event>)
    requires m <= 2 && c <= n && Leads(Crowd(f, m, c + 1, t), rest, end, n, h)
    ensures Leads(Crowd(f, m, c, t), es, end, n, h)
  {
    CheckCrowd(f, m, c, t);
    JoinedFew(f, m, c, t);
    CrowdCounts(f, m, c, t);
    var s := Joined(f, m, c, t);
    Prepend(s, Check(f + m + c), Crowd(f, m, c + 1, t), rest, end, n, h);
    es := [Check(f + m + c)] + rest;
    Prepend(Crowd(f, m, c, t), Connect(0, 0), s, es, end, n, h);
    es := [Connect(0, 0)] + es;
  }

  /** Set-ups check the limit, up to `all` sockets in the counter, before the first of them
      increments. */
  lemma {:induction false} AllCheckFirst(f: nat, m: nat, c: nat, t: nat, all: nat, rest: seq<Event>, end: State,
                                         n: nat, h: nat)
    returns (es: seq<Event>)
    requires m <= 2 && m + c <= all <= m + n && Leads(Crowd(f, all, 0, t), rest, end, n, h)
    ensures Leads(Crowd(f, m, c, t), es, end, n, h)
    decreases all - c
  {
    if m + c == all {
      es := AllGoLive(f, m, c, t, all, rest, end, n, h);
    } else {
      es := AllCheckFirst(f, m, c + 1, t, all, rest, end, n, h);
      es := OneChecks(f, m, c, t, es, end, n, h);
    }
  }

  lemma FirstTwo(f: nat, t: nat, rest: seq<Event>, end: State, n: nat, h: nat) returns (es: seq<Event>)
    requires n >= 1 && Leads(Crowd(f, 2, 0, t), rest, end, n, h)
    ensures Leads(Crowd(f, 0, 0, t), es, end, n, h)
  {
    es := AllCheckFirst(f, 1, 0, t, 2, rest, end, n, h);
    es := AllCheckFirst(f, 0, 0, t, 1, es, end, n, h);
  }

  /** Two sockets one after the other, then n that overlap. */
  lemma Fill(f: nat, t: nat, rest: seq<Event>, end: State, n: nat, h: nat) returns (es: seq<Event>)
    requires n >= 1 && Leads(Crowd(f, 2 + n, 0, t), rest, end, n, h)
    ensures Leads(Crowd(f, 0, 0, t), es, end, n, h)
  {
    es := AllCheckFirst(f, 2, 0, t, 2 + n, rest, end, n, h);
    es := FirstTwo(f, t, es, end, n, h);
  }

  // ---- An hour passes ----

  ghost predicate InTime(s: State, ticks: nat)
  {
    forall k :: k in s.expires ==> s.expires[k] + 1 >= s.now + ticks
  }

  lemma OneTick(s: State, ticks: nat, rest: seq<Event>, end: State, n: nat, h: nat)
    requires ticks > 0 && Few(s, n) && InTime(s, ticks) && Leads(s.(now := s.now + 1), rest, end, n, h)
    ensures Leads(s, [Tick] + rest, end, n, h)
  {
    Prepend(s, Tick, s.(now := s.now + 1), rest, end, n, h);
  }

  lemma {:induction false} Ticks(s: State, ticks: nat, rest: seq<Event>, end: State, n: nat, h: nat)
    returns (es: seq<Event>)
    requires Few(s, n) && InTime(s, ticks)
    requires Leads(s.(now := s.now + ticks), rest, end, n, h)
    ensures Leads(s, es, end, n, h)
    decreases ticks
  {
    if ticks == 0 {
      assert s.(now := s.now + ticks) == s;
      es := rest;
    } else {
      var s' := s.(now := s.now + 1);
      assert s'.(now := s'.now + (ticks - 1)) == s.(now := s.now + ticks);
      assert Few(s', n) && InTime(s', ticks - 1);
      es := Ticks(s', ticks - 1, rest, end, n, h);
      OneTick(s, ticks, es, end, n, h);
      es := [Tick] + es;
    }
  }

  lemma Forgets(f: nat, m: nat, t: nat, now: nat, rest: seq<Event>, end: State, n: nat, h: nat)
    requires m > 0 && now > t + COUNTER_TTL && Leads(Crowd(f + m, 0, 0, now), rest, end, n, h)
    ensures Leads(Crowd(f, m, 0, t).(now := now), [Expire(HERE)] + rest, end, n, h + 1)
  {
    var late := Crowd(f, m, 0, t).(now := now);
    CrowdCounts(f, m, 0, t);
    assert late.counters - {HERE} == map[] && late.expires - {HERE} == map[];
    Prepend(late, Expire(HERE), Crowd(f + m, 0, 0, now), rest, end, n, h);
  }

  /** The counter's time passes and it forgets its sockets, all of which stay. */
  lemma HourPasses(f: nat, m: nat, t: nat, rest: seq<Event>, end: State, n: nat, h: nat) returns (es: seq<Event>)
    requires m > 0 && Leads(Crowd(f + m, 0, 0, t + COUNTER_TTL + 1), rest, end, n, h)
    ensures Leads(Crowd(f, m, 0, t), es, end, n, h + 1)
  {
    Forgets(f, m, t, t + COUNTER_TTL + 1, rest, end, n, h);
    CrowdCounts(f, m, 0, t);
    assert Crowd(f, m, 0, t).expires == map[HERE := t + COUNTER_TTL];
    es := Ticks(Crowd(f, m, 0, t), COUNTER_TTL + 1, [Expire(HERE)] + rest, end, n, h + 1);
  }

  lemma LastRound(f: nat, t: nat, n: nat) returns (es: seq<Event>)
    requires n >= 1
    ensures Leads(Crowd(f, 0, 0, t), es, Crowd(f, 2 + n, 0, t), n, 0)
  {
    CrowdCounts(f, 2 + n, 0, t);
    es := Fill(f, t, [], Crowd(f, 2 + n, 0, t), n, 0);
  }

  lemma OneRound(f: nat, t: nat, rest: seq<Event>, end: State, n: nat, h: nat) returns (es: seq<Event>)
    requires n >= 1 && Leads(Crowd(f + 2 + n, 0, 0, t + COUNTER_TTL + 1), rest, end, n, h)
    ensures Leads(Crowd(f, 0, 0, t), es, end, n, h + 1)
  {
    es := HourPasses(f, 2 + n, t, rest, end, n, h);
    es := Fill(f, t, es, end, n, h + 1);
  }

  /** Hour after hour the client fills up the limit again. */
  lemma {:induction false} Rounds(f: nat, t: nat, n: nat, h: nat, all: nat) returns (es: seq<Event>, end: nat)
    requires n >= 1 && all == f + Mul(h, 2 + n)
    ensures Leads(Crowd(f, 0, 0, t), es, Crowd(all, 2 + n, 0, end), n, h)
    decreases h
  {
    if h == 0 {
      assert Mul(0, 2 + n) == 0;
      es := LastRound(f, t, n);
      end := t;
    } else {
      MulAdd(1, h - 1, 2 + n);
      assert Mul(1, 2 + n) == 2 + n;
      es, end := Rounds(f + 2 + n, t + COUNTER_TTL + 1, n, h - 1, all);
      es := OneRound(f, t, es, Crowd(all, 2 + n, 0, end), n, h - 1);
    }
  }

  lemma StartsEmpty(es: seq<Event>, end: State, n: nat, h: nat)
    requires Leads(Crowd(0, 0, 0, 0), es, end, n, h)
    ensures Leads(Init(), [CreateOrder(0)] + es, end, n, h)
  {
    assert Connections.Those([], HERE, Connections.JustChecked) == {};
    assert Step(Init(), CreateOrder(0)) == Crowd(0, 0, 0, 0);
    Prepend(Init(), CreateOrder(0), Crowd(0, 0, 0, 0), es, end, n, h);
  }

  /** The counter stands at m, and `all` sockets of the client are counted, every one of them
      live and open. */
  ghost predicate Full(s: State, m: nat, all: int)
  {
    && CounterOf(s, HERE) == m && |Connections.Those(s.sockets, HERE, Connections.Counted)| == all
    && forall x :: x in s.sockets ==> KeyOf(x) == HERE && x.phase == Live && x.open
  }

  lemma CrowdIsFull(f: nat, m: nat, t: nat)
    requires m > 0
    ensures Full(Crowd(f, m, 0, t), m, f + m)
  {
    CrowdCounts(f, m, 0, t);
    JoiningIs(f + m, Served());
  }

  lemma HoursPass(n: nat, h: nat) returns (es: seq<Event>, end: State)
    requires n >= 1
    ensures Leads(Crowd(0, 0, 0, 0), es, end, n, h) && Full(end, 2 + n, Mul(1 + h, 2 + n))
  {
    assert 0 <= Mul(h, 2 + n);
    var t: nat;
    es, t := Rounds(0, 0, n, h, Mul(h, 2 + n));
    end := Crowd(Mul(h, 2 + n), 2 + n, 0, t);
    CrowdIsFull(Mul(h, 2 + n), 2 + n, t);
    MulAdd(1, h, 2 + n);
    assert Mul(1, 2 + n) == 2 + n;
  }

  /** For every n >= 1 and h the bounds of LimitHolds are reached by a run of n overlapping
      set-ups and h expiries: the counter stands at 2 + n, and 2 + n sockets for each expiry
      and the time since are counted, live and open. Without overlaps that is the limit of 3
      in the first hour, and three more with every hour after. */
  lemma LimitReached(n: nat, h: nat) returns (es: seq<Event>)
    requires n >= 1
    ensures Runs(Init(), es) && Connections.Overlaps(Init(), es, HERE, n) && Connections.Expiries(es, HERE) == h
    ensures Full(After(Init(), es), 2 + n, Mul(1 + h, 2 + n))
  {
    var end: State;
    es, end := HoursPass(n, h);
    StartsEmpty(es, end, n, h);
    es := [CreateOrder(0)] + es;
  }

  /** An hour after its only increment the counter is gone while its socket is live, with no
      close and no overlap: it is short by one. */
  lemma ExpiryForgets() returns (es: seq<Event>)
    ensures Runs(Init(), es) && Connections.Overlaps(Init(), es, HERE, 1)
    ensures var s := After(Init(), es);
            && |s.sockets| == 1 && s.sockets[0].phase == Live && s.sockets[0].open
            && CounterOf(s, HERE) == 0 && CounterOf(s, HERE) != Connections.Accounted(s, HERE)
  {
    var last := Crowd(1, 0, 0, COUNTER_TTL + 1);
    CrowdCounts(1, 0, 0, COUNTER_TTL + 1);
    es := HourPasses(0, 1, 0, [], last, 1, 0);
    es := AllCheckFirst(0, 0, 0, 0, 1, es, last, 1, 1);
    StartsEmpty(es, last, 1, 1);
    es := [CreateOrder(0)] + es;
    Connections.Reached(es, HERE);
    Connections.CountedAccounted(last, HERE);
  }
}

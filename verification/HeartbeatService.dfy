/** The heartbeat part of the WebSocket service as an object: its two maps and the
    runtime's timers, shared by all sockets. Each method moves its own socket as the
    single-socket machine does and leaves every other socket alone, so that every socket
    of the service is at all times in a state that machine reaches. */
module HeartbeatService {
  import opened Options
  import opened Heartbeat

  /** A socket as the runtime has it: the armed timers that would terminate it, with
      their deadlines, its readyState, and what its pings and pongs have been. */
  datatype Peer = Peer(
    armed: map<nat, nat>, open: bool, terminated: bool, fired: nat, answered: nat, outstanding: seq<nat>)

  function Lookup<V>(m: map<nat, V>, k: nat): Option<V>
  {
    if k in m then Some(m[k]) else None
  }

  ghost predicate AllReachable(beats: map<nat, Beat>, c: Timing)
  {
    forall i :: i in beats ==> Reachable(beats[i], c)
  }

  /** What the runtime delivers to the service. */
  datatype Signal =
    | Clock
    | Connect(i: nat)
    | Due(i: nat)
    | PongFrom(i: nat)
    | Expired(i: nat, timer: nat)
    | Ended(i: nat)
    | Closed(i: nat)

  /** The event a signal is for its own socket; a due interval arms the timer. */
  function EventOf(e: Signal, timer: nat): Event
  {
    match e
    case Clock => Tick
    case Connect(_) => Tick
    case Due(_) => Ping(timer)
    case PongFrom(_) => Pong
    case Expired(_, t) => Timeout(t)
    case Ended(_) => Shut
    case Closed(_) => Close
  }

  /** A millisecond is for every socket, a new socket for none of the others. */
  predicate Concerns(e: Signal, j: nat) { e.Clock? || (!e.Connect? && e.i == j) }

  /** What a signal does to socket j. */
  predicate Answers(b: Beat, b': Beat, c: Timing, e: Signal, timer: nat, j: nat)
  {
    if Concerns(e, j) then CanStep(b, EventOf(e, timer)) && b' == Step(b, c, EventOf(e, timer)) else b' == b
  }

  lemma AnswersReachable(b: Beat, b': Beat, c: Timing, e: Signal, timer: nat, j: nat)
    requires Reachable(b, c) && Answers(b, b', c, e, timer, j)
    ensures Reachable(b', c)
  {
    if Concerns(e, j) { StepReachable(b, c, EventOf(e, timer)); }
  }

  /** Such a step of all sockets keeps every history a run. */
  lemma AnswersTraced(beats: map<nat, Beat>, after: map<nat, Beat>, c: Timing, e: Signal, timer: nat, now: nat)
    requires AllReachable(beats, c)
    requires after.Keys == beats.Keys + if e.Connect? then {e.i} else {}
    requires forall j :: j in beats ==> Answers(beats[j], after[j], c, e, timer, j)
    requires e.Connect? ==> e.i !in beats && after[e.i] == Start(c, now)
    ensures AllReachable(after, c)
  {
    forall j | j in after
      ensures Reachable(after[j], c)
    {
      if j in beats {
        AnswersReachable(beats[j], after[j], c, e, timer, j);
      } else {
        StartReachable(c, now);
      }
    }
  }

  class HeartbeatService {
    const c: Timing
    var heartbeatIntervals: map<nat, nat>
    var pongTimeouts: map<nat, nat>
    var peers: map<nat, Peer>

    /** The runtime: the clock, and the next timer's identity. */
    var now: nat
    var nextTimer: nat

    /** Map entries belong to known sockets; timer identities are not used twice. */
    ghost predicate Valid()
      reads this
    {
      && (forall i, t :: i in peers && t in peers[i].armed ==> t < nextTimer)
      && (forall i :: i in pongTimeouts ==> i in peers)
    }

    /** One socket, as the single-socket machine sees it. */
    ghost function View(i: nat): Beat
      requires i in peers
      reads this
    {
      var p := peers[i];
      Beat(now, Lookup(heartbeatIntervals, i), p.armed, Lookup(pongTimeouts, i),
           p.open, p.terminated, p.fired, p.answered, p.outstanding)
    }

    /** Every socket, as the single-socket machine sees it. */
    ghost function Beats(): map<nat, Beat>
      reads this
    {
      map i | i in peers :: View(i)
    }

    /** Each socket's history is a run of the single-socket machine. */
    ghost predicate Traced()
      reads this
    {
      AllReachable(Beats(), c)
    }

    constructor (timing: Timing)
      ensures Valid() && Traced() && c == timing && peers == map[]
    {
      c := timing;
      heartbeatIntervals, pongTimeouts, peers := map[], map[], map[];
      now, nextTimer := 0, 0;
    }

    /** A millisecond passes; nothing is due. */
    method AdvanceClock()
      requires Valid() && forall i :: i in peers ==> CanStep(View(i), Tick)
      modifies this`now
      ensures Valid() && now == old(now) + 1 && forall i :: i in peers ==> View(i) == Step(old(View(i)), c, Tick)
    {
      now := now + 1;
    }

    method StartHeartbeat(i: nat)
      requires Valid() && i !in peers
      modifies this
      ensures Valid() && now == old(now) && peers.Keys == old(peers).Keys + {i}
      ensures View(i) == Start(c, now)
      ensures forall j :: j in old(peers) ==> View(j) == old(View(j))
    {
      heartbeatIntervals := heartbeatIntervals[i := now + c.interval];
      peers := peers[i := Peer(map[], true, false, now, now, [])];
    }

    /** Pings the socket and arms a timer for it; the map's entry, if there is one, is
        overwritten and its timer not cleared. */
    method SendPing(i: nat) returns (timer: nat)
      requires Valid() && i in peers
      modifies this`peers, this`pongTimeouts, this`nextTimer
      ensures Valid() && peers.Keys == old(peers).Keys && timer !in old(View(i)).timers
      ensures View(i) == old(View(i)).(timers := old(View(i)).timers[timer := now + c.timeout], mapped := Some(timer),
                                       outstanding := old(View(i)).outstanding + [now])
      ensures forall j :: j in peers && j != i ==> View(j) == old(View(j))
    {
      timer := nextTimer;
      nextTimer := nextTimer + 1;
      pongTimeouts := pongTimeouts[i := timer];
      var p := peers[i];
      peers := peers[i := p.(outstanding := p.outstanding + [now], armed := p.armed[timer := now + c.timeout])];
    }

    /** The interval fires: an open socket is pinged. */
    method OnInterval(i: nat) returns (timer: nat)
      requires Valid() && i in peers && i in heartbeatIntervals && heartbeatIntervals[i] == now
      modifies this
      ensures Valid() && now == old(now) && peers.Keys == old(peers).Keys
      ensures CanStep(old(View(i)), Ping(timer)) && View(i) == Step(old(View(i)), c, Ping(timer))
      ensures forall j :: j in peers && j != i ==> View(j) == old(View(j))
    {
      timer := nextTimer;
      heartbeatIntervals := heartbeatIntervals[i := now + c.interval];
      peers := peers[i := peers[i].(fired := now)];
      assert View(i) == old(View(i)).(nextPing := Some(now + c.interval), fired := now);
      if peers[i].open {
        timer := SendPing(i);
      }
    }

    /** Clears the timer the service remembers for the socket, and forgets it. */
    method ClearPongTimeout(i: nat)
      requires Valid() && i in peers
      modifies this`peers, this`pongTimeouts
      ensures Valid() && peers.Keys == old(peers).Keys
      ensures View(i) == old(View(i)).(timers := Cleared(old(View(i))), mapped := None)
      ensures forall j :: j in peers && j != i ==> View(j) == old(View(j))
    {
      if i in pongTimeouts {
        var p := peers[i];
        peers := peers[i := p.(armed := p.armed - {pongTimeouts[i]})];
        pongTimeouts := pongTimeouts - {i};
      }
    }

    method HandlePong(i: nat)
      requires Valid() && i in peers && i in heartbeatIntervals
      modifies this
      ensures Valid() && now == old(now) && peers.Keys == old(peers).Keys
      ensures View(i) == Step(old(View(i)), c, Pong)
      ensures forall j :: j in peers && j != i ==> View(j) == old(View(j))
    {
      ClearPongTimeout(i);
      var p := peers[i];
      if p.outstanding != [] {
        peers := peers[i := p.(answered := p.outstanding[0], outstanding := p.outstanding[1..])];
      }
    }

    /** A pong timer goes off: its socket is terminated. The map's entry stays. */
    method OnPongTimeout(i: nat, timer: nat)
      requires Valid() && i in peers && timer in peers[i].armed && peers[i].armed[timer] <= now
      modifies this
      ensures Valid() && now == old(now) && peers.Keys == old(peers).Keys
      ensures View(i) == Step(old(View(i)), c, Timeout(timer))
      ensures forall j :: j in peers && j != i ==> View(j) == old(View(j))
    {
      var p := peers[i];
      peers := peers[i := p.(armed := p.armed - {timer}, open := false, terminated := true)];
    }

    /** The socket leaves its OPEN state, its close event still to come. */
    method EndPeer(i: nat)
      requires Valid() && i in peers
      modifies this
      ensures Valid() && now == old(now) && peers.Keys == old(peers).Keys
      ensures View(i) == Step(old(View(i)), c, Shut)
      ensures forall j :: j in peers && j != i ==> View(j) == old(View(j))
    {
      peers := peers[i := peers[i].(open := false)];
    }

    /** The heartbeat's part of the close handler. */
    method HandleClose(i: nat)
      requires Valid() && i in peers && i in heartbeatIntervals
      modifies this
      ensures Valid() && now == old(now) && peers.Keys == old(peers).Keys
      ensures View(i) == Step(old(View(i)), c, Close)
      ensures forall j :: j in peers && j != i ==> View(j) == old(View(j))
    {
      heartbeatIntervals := heartbeatIntervals - {i};
      ClearPongTimeout(i);
      peers := peers[i := peers[i].(open := false, outstanding := [])];
    }

    /** Whether the runtime can deliver the signal. */
    ghost predicate CanDeliver(e: Signal)
      reads this
    {
      match e
      case Clock => forall i :: i in peers ==> CanStep(View(i), Tick)
      case Connect(i) => i !in peers
      case Due(i) => i in peers && i in heartbeatIntervals && heartbeatIntervals[i] == now
      case PongFrom(i) => i in peers && i in heartbeatIntervals
      case Expired(i, timer) => i in peers && timer in peers[i].armed && peers[i].armed[timer] <= now
      case Ended(i) => i in peers
      case Closed(i) => i in peers && i in heartbeatIntervals
    }

    /** Any signal to any socket: it does to that socket what the single-socket machine does,
        and to the others nothing. */
    method Dispatch(e: Signal) returns (timer: nat)
      requires Valid() && CanDeliver(e)
      modifies this
      ensures Valid() && now == old(now) + if e.Clock? then 1 else 0
      ensures peers.Keys == old(peers).Keys + if e.Connect? then {e.i} else {}
      ensures forall j :: j in old(peers) ==> Answers(old(View(j)), View(j), c, e, timer, j)
      ensures e.Connect? ==> View(e.i) == Start(c, now)
    {
      timer := 0;
      match e
      case Clock => AdvanceClock();
      case Connect(i) => StartHeartbeat(i);
      case Due(i) => timer := OnInterval(i);
      case PongFrom(i) => HandlePong(i);
      case Expired(i, t) => OnPongTimeout(i, t);
      case Ended(i) => EndPeer(i);
      case Closed(i) => HandleClose(i);
    }

    /** The same, with the histories: they stay runs of that machine. */
    method Deliver(e: Signal) returns (timer: nat)
      requires Valid() && Traced() && CanDeliver(e)
      modifies this
      ensures Valid() && Traced() && now == old(now) + if e.Clock? then 1 else 0
      ensures peers.Keys == old(peers).Keys + if e.Connect? then {e.i} else {}
      ensures forall j :: j in old(peers) ==> Answers(old(View(j)), View(j), c, e, timer, j)
      ensures e.Connect? ==> View(e.i) == Start(c, now)
    {
      ghost var before := Beats();
      timer := Dispatch(e);
      AnswersTraced(before, Beats(), c, e, timer, now);
    }
  }

  /** With a timeout shorter than the interval every socket of the service, whatever the
      others do, has at most one timer armed, the one the map names, and is terminated on
      time. */
  lemma EachOnTime(s: HeartbeatService, i: nat)
    requires s.Traced() && i in s.peers && s.c.timeout < s.c.interval
    ensures |s.peers[i].armed| <= 1 && OnTime(s.View(i), s.c)
    ensures forall t :: t in s.peers[i].armed ==> i in s.pongTimeouts && s.pongTimeouts[i] == t
  {
    assert s.View(i) == s.Beats()[i];
    var start, es :| Past(s.View(i), s.c, start, es);
    RunKeeps(Start(s.c, start), s.c, es);
    assert OnTime(s.View(i), s.c);
    OneTimer(s.View(i), s.c);
    ArmedIsMapped(s.c, start, es);
  }
}
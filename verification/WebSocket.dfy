/** The WebSocket service's connection lifecycle as a state machine: the steps are the
    stretches of code between awaits, the commands Redis executes, and the events of
    sockets; any number of sockets, orders and clients interleave. */
module WebSocket {
  datatype Phase =
    | Checking
    | Checked
    | Rejected
    | Incremented
    | Armed
    | Registered
    | Fetched(found: bool)
    | AwaitSub(ticket: nat)
    | Live
    | AwaitUnsub(ticket: nat)
    | Decrementing
    | Decremented
    | Gone

  /** One socket: what it connected for, how far its set-up or tear-down is, whether its
      readyState is OPEN, whether its close event has fired, whether its order was read
      after the terminal write, whether the terminal message had passed when its handler
      was attached, and whether it was sent the terminal status. */
  datatype Sock = Sock(
    order: nat, ip: nat, phase: Phase, open: bool, closed: bool,
    saw: bool, late: bool, learned: bool)

  datatype Key = Key(order: nat, ip: nat)

  datatype Kind = Sub | Unsub

  datatype Cmd = Cmd(channel: nat, kind: Kind, socket: nat)

  /** A terminal message, and how many commands Redis had executed when it was published. */
  datatype Msg = Msg(channel: nat, at: nat)

  datatype Progress = Running | Written | Announced

  /** The service's maps; the Redis counters, and when those with an expiry expire, in
      seconds; the subscriber connection's commands, of
      which `applied` have been executed, `acked` answered to the client and `resumed`
      returned to their callers; the messages sent on it, of which `heard` have arrived;
      the orders, and those whose terminal message has come and gone. */
  datatype State = State(
    sockets: seq<Sock>,
    connections: map<Key, set<nat>>,
    subscriptions: map<nat, nat>,
    counters: map<Key, int>, expires: map<Key, nat>, now: nat,
    cmds: seq<Cmd>, applied: nat, acked: nat, resumed: nat,
    msgs: seq<Msg>, heard: nat,
    orders: map<nat, Progress>,
    passed: set<nat>)

  datatype Event =
    | Connect(order: nat, ip: nat)
    | Check(id: nat)
    | Increment(id: nat)
    | Arm(id: nat)
    | Register(id: nat)
    | Fetch(id: nat)
    | Subscribe(id: nat)
    | Apply
    | Ack
    | Resume
    | Shut(id: nat)
    | Close(id: nat)
    | Decrement(id: nat)
    | Unregister(id: nat)
    | CreateOrder(order: nat)
    | WriteOutcome(order: nat)
    | Announce(order: nat)
    | Deliver
    | Tick
    | Expire(key: Key)

  const MAX_CONNECTIONS_PER_ORDER_IP := 3
  const COUNTER_TTL: nat := 3600

  function Init(): State
  {
    State([], map[], map[], map[], map[], 0, [], 0, 0, 0, [], 0, map[], {})
  }

  function KeyOf(x: Sock): Key { Key(x.order, x.ip) }

  function NewSock(order: nat, ip: nat): Sock
  {
    Sock(order, ip, Checking, true, false, false, false, false)
  }

  function CounterOf(s: State, k: Key): int
  {
    if k in s.counters then s.counters[k] else 0
  }

  function Connected(s: State, k: Key): set<nat>
  {
    if k in s.connections then s.connections[k] else {}
  }

  /** Whether the channel's last command among the first n subscribes to it. */
  predicate Subscribed(cmds: seq<Cmd>, n: nat, channel: nat)
    requires n <= |cmds|
  {
    n > 0 && if cmds[n - 1].channel == channel then cmds[n - 1].kind == Sub else Subscribed(cmds, n - 1, channel)
  }

  /** The sockets mapped to a channel. */
  function MappedTo(subscriptions: map<nat, nat>, channel: nat): set<nat>
  {
    set i | i in subscriptions && subscriptions[i] == channel
  }

  /** A counter expires when its time is past; time passes only while none's is. */
  predicate CanStep(s: State, e: Event)
  {
    match e
    case Connect(_, _) => true
    case Check(i) => i < |s.sockets| && s.sockets[i].phase == Checking
    case Increment(i) => i < |s.sockets| && s.sockets[i].phase == Checked
    case Arm(i) => i < |s.sockets| && s.sockets[i].phase == Incremented
    case Register(i) => i < |s.sockets| && s.sockets[i].phase == Armed
    case Fetch(i) => i < |s.sockets| && s.sockets[i].phase == Registered
    case Subscribe(i) => i < |s.sockets| && s.sockets[i].phase.Fetched?
    case Apply => s.applied < |s.cmds|
    case Ack => s.acked < s.applied && (s.heard < |s.msgs| ==> s.msgs[s.heard].at > s.acked)
    case Resume => s.resumed < s.acked && s.resumed < |s.cmds| && s.cmds[s.resumed].socket < |s.sockets|
    case Shut(i) => i < |s.sockets|
    case Close(i) => i < |s.sockets| && !s.sockets[i].closed
    case Decrement(i) => i < |s.sockets| && s.sockets[i].phase == Decrementing
    case Unregister(i) => i < |s.sockets| && s.sockets[i].phase == Decremented
    case CreateOrder(d) => d !in s.orders
    case WriteOutcome(d) => d in s.orders && s.orders[d] == Running
    case Announce(d) => d in s.orders && s.orders[d] == Written && s.applied <= |s.cmds|
    case Deliver => s.heard < |s.msgs| && s.msgs[s.heard].at == s.acked
    case Tick => forall k :: k in s.expires ==> s.expires[k] >= s.now
    case Expire(k) => k in s.expires && s.expires[k] < s.now
  }

  function Put(s: State, i: nat, x: Sock): State
    requires i < |s.sockets|
  {
    s.(sockets := s.sockets[i := x])
  }

  function Bump(counters: map<Key, int>, k: Key, delta: int): map<Key, int>
  {
    counters[k := (if k in counters then counters[k] else 0) + delta]
  }

  function Added(connections: map<Key, set<nat>>, k: Key, i: nat): map<Key, set<nat>>
  {
    connections[k := (if k in connections then connections[k] else {}) + {i}]
  }

  /** Takes the socket out of its set, and an emptied set out of the map. */
  function Removed(connections: map<Key, set<nat>>, k: Key, i: nat): map<Key, set<nat>>
  {
    if k !in connections then connections
    else if connections[k] - {i} == {} then connections - {k}
    else connections[k := connections[k] - {i}]
  }

  function Found(s: State, x: Sock): bool { x.order in s.orders }

  function Decided(s: State, order: nat): bool { order in s.orders && s.orders[order] != Running }

  function SubscribeStep(s: State, i: nat): State
    requires i < |s.sockets| && s.sockets[i].phase.Fetched?
  {
    var x := s.sockets[i];
    var open := x.open && x.phase.found;
    Put(s, i, x.(phase := AwaitSub(|s.cmds|), open := open, learned := open && x.saw))
      .(subscriptions := s.subscriptions[i := x.order], cmds := s.cmds + [Cmd(x.order, Sub, i)])
  }

  /** Set-up attaches the handler and goes live; tear-down goes on to the counter. */
  function ResumedSock(x: Sock, kind: Kind, passed: bool): Sock
  {
    if kind == Sub then x.(phase := Live, late := passed) else x.(phase := Decrementing)
  }

  /** A caller resumes; after an unsubscribe it forgets the subscription. */
  function ResumeStep(s: State): State
    requires CanStep(s, Resume)
  {
    var cmd := s.cmds[s.resumed];
    var x := s.sockets[cmd.socket];
    Put(s, cmd.socket, ResumedSock(x, cmd.kind, x.order in s.passed)).(
      subscriptions := if cmd.kind == Sub then s.subscriptions else s.subscriptions - {cmd.socket},
      resumed := s.resumed + 1)
  }

  /** No other socket is mapped to the channel. */
  predicate Alone(s: State, channel: nat)
  {
    |MappedTo(s.subscriptions, channel)| <= 1
  }

  function ClosedSock(x: Sock, alone: bool, ticket: nat): Sock
  {
    x.(open := false, closed := true,
       phase := if x.phase != Live then x.phase else if alone then AwaitUnsub(ticket) else Decrementing)
  }

  /** The close event: before the listener is attached nobody hears it; after, the
      service unsubscribes if no other socket is mapped to the channel. */
  function CloseStep(s: State, i: nat): State
    requires CanStep(s, Close(i))
  {
    var x := s.sockets[i];
    var alone := Alone(s, x.order);
    Put(s, i, ClosedSock(x, alone, |s.cmds|)).(
      cmds := if x.phase == Live && alone then s.cmds + [Cmd(x.order, Unsub, i)] else s.cmds,
      subscriptions := if x.phase == Live && !alone then s.subscriptions - {i} else s.subscriptions)
  }

  /** Redis drops a message on a channel it has no subscription for. */
  function AnnounceStep(s: State, d: nat): State
    requires CanStep(s, Announce(d))
  {
    var t := s.(orders := s.orders[d := Announced]);
    if Subscribed(s.cmds, s.applied, d) then t.(msgs := s.msgs + [Msg(d, s.applied)])
    else t.(passed := s.passed + {d})
  }

  /** What a message does to a socket: the handler relays it while the socket is open. */
  function Relayed(x: Sock, channel: nat): Sock
  {
    if x.order == channel && x.phase == Live && x.open then x.(learned := true) else x
  }

  function DeliverStep(s: State): State
    requires CanStep(s, Deliver)
  {
    var d := s.msgs[s.heard].channel;
    s.(sockets := seq(|s.sockets|, i requires 0 <= i < |s.sockets| => Relayed(s.sockets[i], d)),
       heard := s.heard + 1,
       passed := s.passed + {d})
  }

  /** The steps of one socket up to its subscription and after its close. */
  predicate SetUp(e: Event)
  {
    e.Check? || e.Increment? || e.Arm? || e.Register? || e.Fetch? || e.Shut? || e.Decrement? || e.Unregister?
  }

  function NextSock(s: State, e: Event): Sock
    requires CanStep(s, e) && SetUp(e)
  {
    var x := s.sockets[e.id];
    match e
    case Check(_) =>
      if CounterOf(s, KeyOf(x)) < MAX_CONNECTIONS_PER_ORDER_IP then x.(phase := Checked)
      else x.(phase := Rejected, open := false)
    case Increment(_) => x.(phase := Incremented)
    case Arm(_) => x.(phase := Armed)
    case Register(_) => x.(phase := Registered)
    case Fetch(_) => x.(phase := Fetched(Found(s, x)), saw := Decided(s, x.order))
    case Shut(_) => x.(open := false)
    case Decrement(_) => x.(phase := Decremented)
    case Unregister(_) => x.(phase := Gone)
  }

  function SetUpStep(s: State, e: Event): State
    requires CanStep(s, e) && SetUp(e)
  {
    var k := KeyOf(s.sockets[e.id]);
    Put(s, e.id, NextSock(s, e)).(
      counters := if e.Increment? then Bump(s.counters, k, 1)
                  else if e.Decrement? then Bump(s.counters, k, -1) else s.counters,
      expires := if e.Arm? && k in s.counters then s.expires[k := s.now + COUNTER_TTL] else s.expires,
      connections := if e.Register? then Added(s.connections, k, e.id)
                     else if e.Unregister? then Removed(s.connections, k, e.id) else s.connections)
  }

  function Step(s: State, e: Event): State
    requires CanStep(s, e)
  {
    if SetUp(e) then SetUpStep(s, e)
    else
      match e
      case Connect(order, ip) => s.(sockets := s.sockets + [NewSock(order, ip)])
      case Subscribe(i) => SubscribeStep(s, i)
      case Apply => s.(applied := s.applied + 1)
      case Ack => s.(acked := s.acked + 1)
      case Resume => ResumeStep(s)
      case Close(i) => CloseStep(s, i)
      case CreateOrder(d) => s.(orders := s.orders[d := Running])
      case WriteOutcome(d) => s.(orders := s.orders[d := Written])
      case Announce(d) => AnnounceStep(s, d)
      case Deliver => DeliverStep(s)
      case Tick => s.(now := s.now + 1)
      case Expire(k) => s.(counters := s.counters - {k}, expires := s.expires - {k})
  }

  predicate Runs(s: State, es: seq<Event>)
    decreases |es|
  {
    es == [] || (CanStep(s, es[0]) && Runs(Step(s, es[0]), es[1..]))
  }

  function After(s: State, es: seq<Event>): State
    requires Runs(s, es)
    decreases |es|
  {
    if es == [] then s else After(Step(s, es[0]), es[1..])
  }
}

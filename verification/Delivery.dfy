/** Orders and sockets together: what a worker's statements and publications mean for the
    sockets that watch the orders. */
module Delivery {
  import opened Options
  import opened Orders
  import Pipeline
  import OrderLife
  import Engine
  import WebSocket
  import Channels
  import Outcomes
  import SocketHistory

  /** The pipeline, and the WebSocket service with the database and Redis as it sees them:
      order `id` of the one is order `id` of the other. */
  datatype World = World(pipeline: Engine.State, hub: WebSocket.State)

  datatype Act = Pipe(move: Engine.Move) | Hub(event: WebSocket.Event)

  function Init(): World { World(Engine.Init(), WebSocket.Init()) }

  /** What a step of an order is for the sockets: its row appears, its outcome is written, or
      its outcome is announced. */
  function Echo(id: nat, o: Pipeline.Order, e: Pipeline.Event): Option<WebSocket.Event>
    requires Pipeline.Enabled(o, e)
  {
    if e.Insert? && Pipeline.Applied(e.reply) then Some(WebSocket.CreateOrder(id))
    else if e.Await? && Pipeline.Applied(e.reply) then
      var pc := o.job.value.phase.pc;
      if pc.WriteConfirmed? || pc.WriteFailed? then Some(WebSocket.WriteOutcome(id))
      else if pc.PublishConfirmed? || pc.PublishFailed? then Some(WebSocket.Announce(id))
      else None
    else None
  }

  /** The events the pipeline causes; all others are the hub's own. */
  predicate FromPipeline(e: WebSocket.Event) { e.CreateOrder? || e.WriteOutcome? || e.Announce? }

  /** How far such an event says the order is. */
  function Reports(e: WebSocket.Event): WebSocket.Progress
    requires FromPipeline(e)
  {
    if e.CreateOrder? then WebSocket.Running else if e.WriteOutcome? then WebSocket.Written else WebSocket.Announced
  }

  predicate CanAct(w: World, a: Act)
  {
    match a
    case Pipe(m) => Engine.CanMove(w.pipeline, m)
    case Hub(e) => !FromPipeline(e) && WebSocket.CanStep(w.hub, e)
  }

  function Heard(hub: WebSocket.State, echo: Option<WebSocket.Event>): WebSocket.State
  {
    if echo.Some? && WebSocket.CanStep(hub, echo.value) then WebSocket.Step(hub, echo.value) else hub
  }

  function Step(w: World, c: Config, a: Act): World
    requires CanAct(w, a)
  {
    match a
    case Pipe(m) =>
      World(Engine.Step(w.pipeline, c, m),
            if m.On? then Heard(w.hub, Echo(m.id, w.pipeline.orders[m.id], m.event)) else w.hub)
    case Hub(e) => w.(hub := WebSocket.Step(w.hub, e))
  }

  /** A run in which no terminal write or publication throws. */
  predicate Runs(w: World, c: Config, acts: seq<Act>)
    decreases |acts|
  {
    acts == []
    || (CanAct(w, acts[0]) && !Disturbs(w, acts[0]) && Runs(Step(w, c, acts[0]), c, acts[1..]))
  }

  predicate Disturbs(w: World, a: Act)
    requires CanAct(w, a)
  {
    a.Pipe? && a.move.On? && OrderLife.TerminalThrow(w.pipeline.orders[a.move.id], a.move.event)
  }

  function After(w: World, c: Config, acts: seq<Act>): World
    requires Runs(w, c, acts)
    decreases |acts|
  {
    if acts == [] then w else After(Step(w, c, acts[0]), c, acts[1..])
  }

  // ---- How far the sockets' world is with an order ----

  ghost function ProgressOf(o: Pipeline.Order): WebSocket.Progress
  {
    if OrderLife.Outcomes(o) == 0 then WebSocket.Running
    else if OrderLife.Announcements(o) == 0 then WebSocket.Written
    else WebSocket.Announced
  }

  /** The hub has exactly the orders that have a row, each as far as its log and its
      publications are. */
  ghost predicate Linked(orders: seq<Pipeline.Order>, progress: map<nat, WebSocket.Progress>)
  {
    && (forall id :: id in progress ==> id < |orders| && orders[id].row.Some? && progress[id] == ProgressOf(orders[id]))
    && (forall id :: 0 <= id < |orders| && orders[id].row.Some? ==> id in progress)
  }

  ghost predicate OrderOk(o: Pipeline.Order)
  {
    OrderLife.OneOutcome(o) && OrderLife.Finished(o)
  }

  ghost predicate Inv(w: World, c: Config)
  {
    && Engine.Inv(w.pipeline, c) && Outcomes.Inv(w.hub)
    && (forall id :: 0 <= id < |w.pipeline.orders| ==> OrderOk(w.pipeline.orders[id]))
    && Linked(w.pipeline.orders, w.hub.orders)
  }

  lemma OrderOkStep(o: Pipeline.Order, c: Config, e: Pipeline.Event)
    requires Engine.OrderOk(o, c) && OrderOk(o) && Pipeline.Enabled(o, e) && !OrderLife.TerminalThrow(o, e)
    ensures OrderOk(Pipeline.OrderStep(o, c, e))
  {
    OrderLife.StepKeepsOutcome(o, c, e);
    OrderLife.StepFinishes(o, c, e);
  }

  /** What a step does to an order's progress, and that its echo is always heard. */
  lemma EchoIs(hub: WebSocket.State, id: nat, o: Pipeline.Order, c: Config, e: Pipeline.Event)
    requires Pipeline.Enabled(o, e) && OrderOk(o) && OrderOk(Pipeline.OrderStep(o, c, e))
    requires !OrderLife.TerminalThrow(o, e) && Channels.Tickets(hub)
    requires id in hub.orders <==> o.row.Some?
    requires id in hub.orders ==> hub.orders[id] == ProgressOf(o)
    ensures var echo, o' := Echo(id, o, e), Pipeline.OrderStep(o, c, e);
            && (echo.Some? ==> FromPipeline(echo.value) && echo.value.order == id && WebSocket.CanStep(hub, echo.value))
            && (o'.row.Some? <==> o.row.Some? || echo == Some(WebSocket.CreateOrder(id)))
            && ProgressOf(o') == if echo.Some? then Reports(echo.value) else ProgressOf(o)
  {
    if e.Await? {
      OrderLife.AwaitOutcomes(o, c, e.reply);
      OrderLife.OutcomePending(o, c, e.reply);
    } else if e.Insert? {
      OrderLife.NewCounts(CONFIRMED);
      OrderLife.NewCounts(FAILED);
    } else {
      OrderLife.OutcomeQuiet(o, c, e);
    }
  }

  lemma HeardIs(hub: WebSocket.State, e: WebSocket.Event)
    requires FromPipeline(e) && WebSocket.CanStep(hub, e)
    ensures WebSocket.Step(hub, e).orders == hub.orders[e.order := Reports(e)]
  {
  }

  lemma LinkedStep(orders: seq<Pipeline.Order>, progress: map<nat, WebSocket.Progress>, id: nat,
                   o: Pipeline.Order, progress': map<nat, WebSocket.Progress>)
    requires Linked(orders, progress) && id < |orders|
    requires (o.row.Some? && progress' == progress[id := ProgressOf(o)])
          || ((o.row.Some? <==> orders[id].row.Some?) && ProgressOf(o) == ProgressOf(orders[id])
              && progress' == progress)
    ensures Linked(orders[id := o], progress')
  {
  }

  lemma HubHears(hub: WebSocket.State, echo: Option<WebSocket.Event>)
    requires Outcomes.Inv(hub)
    requires echo.Some? ==> FromPipeline(echo.value) && WebSocket.CanStep(hub, echo.value)
    ensures Outcomes.Inv(Heard(hub, echo))
    ensures Heard(hub, echo).orders
         == if echo.Some? then hub.orders[echo.value.order := Reports(echo.value)] else hub.orders
  {
    if echo.Some? {
      Outcomes.StepKeeps(hub, echo.value);
      HeardIs(hub, echo.value);
    }
  }

  lemma OrderActs(w: World, c: Config, id: nat, e: Pipeline.Event)
    requires Inv(w, c) && CanAct(w, Pipe(Engine.On(id, e))) && !Disturbs(w, Pipe(Engine.On(id, e)))
    ensures var w' := Step(w, c, Pipe(Engine.On(id, e)));
            && Outcomes.Inv(w'.hub) && OrderOk(w'.pipeline.orders[id]) && Linked(w'.pipeline.orders, w'.hub.orders)
  {
    var o := w.pipeline.orders[id];
    assert Engine.OrderOk(o, c) && OrderOk(o);
    OrderOkStep(o, c, e);
    EchoIs(w.hub, id, o, c, e);
    HubHears(w.hub, Echo(id, o, e));
    LinkedStep(w.pipeline.orders, w.hub.orders, id, Pipeline.OrderStep(o, c, e), Heard(w.hub, Echo(id, o, e)).orders);
  }

  lemma HubActs(w: World, e: WebSocket.Event)
    requires Outcomes.Inv(w.hub) && !FromPipeline(e) && WebSocket.CanStep(w.hub, e)
    ensures Outcomes.Inv(WebSocket.Step(w.hub, e)) && WebSocket.Step(w.hub, e).orders == w.hub.orders
  {
    Outcomes.StepKeeps(w.hub, e);
  }

  lemma NewOrderIs(request: Request)
    ensures OrderOk(Engine.NewOrder(request)) && Engine.NewOrder(request).row.None?
  {
  }

  lemma SubmitKeeps(w: World, c: Config, request: Request)
    requires c.maxRetries >= 1 && Inv(w, c)
    ensures Inv(Step(w, c, Pipe(Engine.Submit(request))), c)
  {
    Engine.InvStep(w.pipeline, c, Engine.Submit(request));
    NewOrderIs(request);
  }

  lemma OrderKeeps(w: World, c: Config, id: nat, e: Pipeline.Event)
    requires c.maxRetries >= 1 && Inv(w, c)
    requires CanAct(w, Pipe(Engine.On(id, e))) && !Disturbs(w, Pipe(Engine.On(id, e)))
    ensures Inv(Step(w, c, Pipe(Engine.On(id, e))), c)
  {
    Engine.InvStep(w.pipeline, c, Engine.On(id, e));
    OrderActs(w, c, id, e);
    OthersStay(w.pipeline, c, id, e);
  }

  lemma OthersStay(s: Engine.State, c: Config, id: nat, e: Pipeline.Event)
    requires Engine.CanMove(s, Engine.On(id, e))
    ensures var orders := Engine.Step(s, c, Engine.On(id, e)).orders;
            |orders| == |s.orders| && forall j :: 0 <= j < |orders| && j != id ==> orders[j] == s.orders[j]
  {
  }

  lemma StepKeeps(w: World, c: Config, a: Act)
    requires c.maxRetries >= 1 && Inv(w, c) && CanAct(w, a) && !Disturbs(w, a)
    ensures Inv(Step(w, c, a), c)
  {
    match a
    case Hub(e) => HubActs(w, e);
    case Pipe(m) =>
      match m
      case Submit(request) => SubmitKeeps(w, c, request);
      case On(id, e) => OrderKeeps(w, c, id, e);
  }

  lemma {:induction false} RunKeeps(w: World, c: Config, acts: seq<Act>)
    requires c.maxRetries >= 1 && Inv(w, c) && Runs(w, c, acts)
    ensures Inv(After(w, c, acts), c)
    decreases |acts|
  {
    if acts != [] {
      StepKeeps(w, c, acts[0]);
      RunKeeps(Step(w, c, acts[0]), c, acts[1..]);
    }
  }

  // ---- What the sockets see of a run ----

  /** What a step is for the hub. */
  function Taken(w: World, a: Act): seq<WebSocket.Event>
    requires CanAct(w, a)
  {
    match a
    case Hub(e) => [e]
    case Pipe(m) =>
      if m.On? then
        var echo := Echo(m.id, w.pipeline.orders[m.id], m.event);
        if echo.Some? && WebSocket.CanStep(w.hub, echo.value) then [echo.value] else []
      else []
  }

  function HubEvents(w: World, c: Config, acts: seq<Act>): seq<WebSocket.Event>
    requires Runs(w, c, acts)
    decreases |acts|
  {
    if acts == [] then [] else Taken(w, acts[0]) + HubEvents(Step(w, c, acts[0]), c, acts[1..])
  }

  lemma TakenIs(w: World, c: Config, a: Act)
    requires CanAct(w, a)
    ensures WebSocket.Runs(w.hub, Taken(w, a)) && WebSocket.After(w.hub, Taken(w, a)) == Step(w, c, a).hub
    ensures |Taken(w, a)| <= 1 && (a.Pipe? ==> forall e :: e in Taken(w, a) ==> FromPipeline(e))
  {
  }

  lemma TakenThen(s: WebSocket.State, es: seq<WebSocket.Event>, fs: seq<WebSocket.Event>)
    requires |es| <= 1 && WebSocket.Runs(s, es) && WebSocket.Runs(WebSocket.After(s, es), fs)
    ensures WebSocket.Runs(s, es + fs) && WebSocket.After(s, es + fs) == WebSocket.After(WebSocket.After(s, es), fs)
  {
    if es == [] {
      assert es + fs == fs;
    } else {
      assert es == [es[0]] && (es + fs)[1..] == fs;
      assert WebSocket.After(s, es) == WebSocket.Step(s, es[0]);
    }
  }

  /** The hub's part of a run is a run of the hub. */
  lemma {:induction false} HubRuns(w: World, c: Config, acts: seq<Act>)
    requires Runs(w, c, acts)
    ensures WebSocket.Runs(w.hub, HubEvents(w, c, acts))
    ensures WebSocket.After(w.hub, HubEvents(w, c, acts)) == After(w, c, acts).hub
    decreases |acts|
  {
    if acts != [] {
      var w' := Step(w, c, acts[0]);
      TakenIs(w, c, acts[0]);
      HubRuns(w', c, acts[1..]);
      TakenThen(w.hub, Taken(w, acts[0]), HubEvents(w', c, acts[1..]));
    }
  }

  lemma OneLater(w: World, c: Config, acts: seq<Act>, n: nat)
    requires acts != [] && n < |acts| && CanAct(w, acts[0]) && !Disturbs(w, acts[0])
    requires Runs(Step(w, c, acts[0]), c, acts[1..][..n])
    ensures Runs(w, c, acts[..n + 1])
    ensures After(w, c, acts[..n + 1]) == After(Step(w, c, acts[0]), c, acts[1..][..n])
    ensures HubEvents(w, c, acts[..n + 1])
         == Taken(w, acts[0]) + HubEvents(Step(w, c, acts[0]), c, acts[1..][..n])
  {
    assert acts[..n + 1][1..] == acts[1..][..n] && acts[..n + 1][0] == acts[0];
  }

  /** Event a of the hub happens at step m of the run. */
  ghost predicate IsPlace(w: World, c: Config, acts: seq<Act>, a: nat, m: nat)
    requires Runs(w, c, acts)
  {
    && a < |HubEvents(w, c, acts)| && m < |acts|
    && Runs(w, c, acts[..m]) && CanAct(After(w, c, acts[..m]), acts[m])
    && HubEvents(w, c, acts[..m]) == HubEvents(w, c, acts)[..a]
    && Taken(After(w, c, acts[..m]), acts[m]) == [HubEvents(w, c, acts)[a]]
  }

  lemma PlaceFirst(w: World, c: Config, acts: seq<Act>)
    requires Runs(w, c, acts) && acts != [] && |Taken(w, acts[0])| == 1
    ensures IsPlace(w, c, acts, 0, 0)
  {
    assert acts[..0] == [];
  }

  lemma Spliced<T>(first: seq<T>, rest: seq<T>, a: nat)
    requires |first| <= a < |first| + |rest|
    ensures (first + rest)[..a] == first + rest[..a - |first|] && (first + rest)[a] == rest[a - |first|]
  {
  }

  /** A place in the rest of the run is one in the run. */
  lemma PlaceLater(w: World, c: Config, acts: seq<Act>, a: nat, n: nat)
    requires Runs(w, c, acts) && acts != [] && |Taken(w, acts[0])| <= a
    requires IsPlace(Step(w, c, acts[0]), c, acts[1..], a - |Taken(w, acts[0])|, n)
    ensures IsPlace(w, c, acts, a, n + 1)
  {
    var w', rest, first := Step(w, c, acts[0]), acts[1..], Taken(w, acts[0]);
    OneLater(w, c, acts, n);
    Spliced(first, HubEvents(w', c, rest), a);
    SamePlace(w, c, acts, w', rest, a, n, first);
  }

  lemma SamePlace(w: World, c: Config, acts: seq<Act>, w': World, rest: seq<Act>, a: nat, n: nat,
                  first: seq<WebSocket.Event>)
    requires Runs(w, c, acts) && Runs(w', c, rest) && n + 1 < |acts| && |first| <= a
    requires IsPlace(w', c, rest, a - |first|, n) && acts[n + 1] == rest[n]
    requires Runs(w, c, acts[..n + 1]) && After(w, c, acts[..n + 1]) == After(w', c, rest[..n])
    requires HubEvents(w, c, acts[..n + 1]) == first + HubEvents(w', c, rest[..n])
    requires a < |HubEvents(w, c, acts)|
    requires HubEvents(w, c, acts)[..a] == first + HubEvents(w', c, rest)[..a - |first|]
    requires HubEvents(w, c, acts)[a] == HubEvents(w', c, rest)[a - |first|]
    ensures IsPlace(w, c, acts, a, n + 1)
  {
  }

  /** Every event of the hub has its place in the run. */
  lemma {:induction false} PlaceOf(w: World, c: Config, acts: seq<Act>, a: nat) returns (m: nat)
    requires Runs(w, c, acts) && a < |HubEvents(w, c, acts)|
    ensures IsPlace(w, c, acts, a, m)
    decreases |acts|
  {
    var first := |Taken(w, acts[0])|;
    TakenIs(w, c, acts[0]);
    if a < first {
      PlaceFirst(w, c, acts);
      m := 0;
    } else {
      var n := PlaceOf(Step(w, c, acts[0]), c, acts[1..], a - first);
      PlaceLater(w, c, acts, a, n);
      m := n + 1;
    }
  }

  /** The row of the order is there and has its final status. */
  predicate Shows(orders: seq<Pipeline.Order>, id: nat)
  {
    id < |orders| && orders[id].row.Some? && OrderLife.Terminal(orders[id].row.value.status)
  }

  lemma DecidedShows(w: World, c: Config, id: nat)
    requires Inv(w, c)
    ensures WebSocket.Decided(w.hub, id) <==> Shows(w.pipeline.orders, id)
  {
    if id < |w.pipeline.orders| && w.pipeline.orders[id].row.Some? {
      assert Engine.OrderOk(w.pipeline.orders[id], c) && OrderOk(w.pipeline.orders[id]);
      OrderLife.OutcomeShows(w.pipeline.orders[id], c);
    }
  }

  /** What the order looked like where its socket read it. */
  lemma ReadInRun(c: Config, acts: seq<Act>, id: nat, i: nat, a: nat) returns (m: nat)
    requires c.maxRetries >= 1 && Runs(Init(), c, acts)
    requires a < |HubEvents(Init(), c, acts)| && HubEvents(Init(), c, acts)[a] == WebSocket.Fetch(i)
    ensures m < |acts| && acts[m] == Hub(WebSocket.Fetch(i)) && Runs(Init(), c, acts[..m])
    ensures WebSocket.WriteOutcome(id) in HubEvents(Init(), c, acts)[..a]
       <==> Shows(After(Init(), c, acts[..m]).pipeline.orders, id)
  {
    m := PlaceOf(Init(), c, acts, a);
    FetchIsHubs(After(Init(), c, acts[..m]), c, acts[m], i);
    WrittenShows(c, acts[..m], id);
  }

  lemma FetchIsHubs(w: World, c: Config, a: Act, i: nat)
    requires CanAct(w, a) && Taken(w, a) == [WebSocket.Fetch(i)]
    ensures a == Hub(WebSocket.Fetch(i))
  {
    TakenIs(w, c, a);
    assert WebSocket.Fetch(i) in Taken(w, a);
  }

  /** The outcome has been written, as the hub sees it, exactly when the row shows it. */
  lemma WrittenShows(c: Config, acts: seq<Act>, id: nat)
    requires c.maxRetries >= 1 && Runs(Init(), c, acts)
    ensures WebSocket.WriteOutcome(id) in HubEvents(Init(), c, acts)
       <==> Shows(After(Init(), c, acts).pipeline.orders, id)
  {
    Outcomes.InitInv();
    RunKeeps(Init(), c, acts);
    HubRuns(Init(), c, acts);
    SocketHistory.RunFrom(HubEvents(Init(), c, acts));
    DecidedShows(After(Init(), c, acts), c, id);
  }

  /** Orders and sockets of every interleaving in which no terminal write or publication
      throws: once an order's job is over its row has a terminal status, announced last and
      as the only outcome ever. And once everything sent has arrived, a socket of the order
      that is set up and open has been told it, except exactly if the row did not show it yet
      where the socket read the order, at step m, and the handler was attached, at event b of
      the hub, after the message had arrived or been dropped. */
  lemma FinalStatusDelivered(c: Config, acts: seq<Act>, id: nat, i: nat) returns (m: nat, b: nat)
    requires c.maxRetries >= 1 && Runs(Init(), c, acts)
    requires var w := After(Init(), c, acts);
             && id < |w.pipeline.orders| && OrderLife.Over(w.pipeline.orders[id])
             && i < |w.hub.sockets| && w.hub.sockets[i].order == id
             && w.hub.sockets[i].phase == WebSocket.Live && w.hub.sockets[i].open
             && Outcomes.Drained(w.hub)
    ensures var o := After(Init(), c, acts).pipeline.orders[id];
            && o.row.Some? && (o.row.value.status == CONFIRMED || o.row.value.status == FAILED)
            && OrderLife.LastPublished(o.published) == Some(o.row.value.status)
            && OrderLife.Outcomes(o) == 1 && OrderLife.Announcements(o) == 1
    ensures m < |acts| && acts[m] == Hub(WebSocket.Fetch(i)) && Runs(Init(), c, acts[..m])
    ensures var es := HubEvents(Init(), c, acts);
            && SocketHistory.AttachesAt(es, b, i)
            && (After(Init(), c, acts).hub.sockets[i].learned
                <==> || Shows(After(Init(), c, acts[..m]).pipeline.orders, id)
                     || !SocketHistory.PassedIn(es[..b], id))
  {
    Outcomes.InitInv();
    RunKeeps(Init(), c, acts);
    var w := After(Init(), c, acts);
    assert OrderOk(w.pipeline.orders[id]);
    OverIsAnnounced(w.pipeline.orders[id]);
    HubRuns(Init(), c, acts);
    var a;
    a, b := SocketHistory.OutcomeOfDrained(HubEvents(Init(), c, acts), i);
    m := ReadInRun(c, acts, id, i, a);
  }

  lemma OverIsAnnounced(o: Pipeline.Order)
    requires OrderOk(o) && OrderLife.Over(o)
    ensures ProgressOf(o) == WebSocket.Announced && OrderLife.Announcements(o) == 1
  {
  }
}

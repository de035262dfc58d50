# Order engine: a verified model

The program is an order engine. An HTTP API stores an order and queues a job for it; a
worker quotes two venues, picks one, swaps, records each step in the order's row and
publishes the outcome, retrying failed attempts; a WebSocket service streams the outcome to
clients. Almost everything is short asynchronous code over shared state, so what is proved
here is about interleavings and whole runs. `dafny verify dfyconfig.toml` verifies the whole
project.

## What is modelled

**The order pipeline** (`Orders`, `Pipeline`, `LogShape`, `OrderLife`, `Engine`,
`Provenance`, `Publications`, `Worker`, `Execution`). Every `await` of a submission or an attempt is a step that may return, throw
without effect, or throw after taking effect. Any number of orders and workers interleave.
`Engine` proves what every reachable state and every run satisfies: the language of an
order's log, the coherence of a CONFIRMED row, which rows are final, termination, and
conservation of orders and counters; `Provenance` that what a row holds is what the run's
replies brought; `Publications` what a channel carries. `Worker` writes the consumer and the service out
statement by statement, with their try and catch, over a table, a publication trace and
counters, and proves that an attempt does exactly what the step machine does under the same
replies. `Execution` puts the mock router under the pipeline.

**WebSocket bookkeeping** (`WebSocket`, `Channels`, `Connections`, `Expiry`, `Outcomes`,
`SocketHistory`, `Leaks`, `WebSocketService`, `Delivery`). A step is the code between two awaits, a command
Redis executes, or an event of a socket. The subscriber connection is a log of commands with three positions:
executed, answered, and returned to their callers; messages arrive in between, in order.
`Channels` proves the invariant that makes `handleClose` correct; `Connections` what the
Redis counter counts, what its hourly expiry makes it forget, and how far overlapping
set-ups and expiries can push it, and `Expiry` that they do; `Outcomes` and `SocketHistory`,
by positions in the run, exactly which sockets are open and which of them learn how their
order ended; `Leaks` exactly which closes leave their socket behind.
`WebSocketService` is the object itself, one method per stretch of code, each equal to its
step; a connection opened or torn down through it, with anything else happening at each of
its awaits, keeps the object in a reachable state and ends as promised. `Delivery` runs the
pipeline and the sockets together.

**Heartbeat** (`Heartbeat`, `HeartbeatService`): one socket's interval, pong timers and map
entry in milliseconds, and the service's two maps over many sockets, each of which the
service keeps in a state the single-socket machine reaches.

**Rate limiter and idempotency cache** (`RateLimit`, `Idempotency`): what each store finds,
after every run, as a function of the history of requests and stores alone.

**Routing and slippage arithmetic** (`Decimals`, `DexRouter`, `WorstSwap`, `ShortDraws`):
rounding to 20 significant digits, half-up, and to 9 decimals, on exact rationals, along the
whole chain from quotes to the slippage check.

**The seeded generator** (`StringHash`, `SeededRandom`): the wrapping hash loop and the full
period of the generator it seeds.

## What is assumed

- The queue runs one attempt of a job at a time, counts failed attempts, and allows
  `MAX_RETRIES >= 1` of them. One statement on one row is atomic.
- The subscriber connection is first in, first out, and callers resume in the order of
  their commands. Redis calls of the WebSocket service succeed. Nothing else is assumed of
  sockets: they may stop being open, or close, at any moment.
- Pong and ping timers fire when they are due.
- From one limiter transaction to the next neither the program's clock, which stamps the
  request, nor Redis's, which expires the key, runs backwards; the two are otherwise
  independent. Sorted-set members are distinct. SHA-256 is collision-free.
- In the WebSocket machine on its own an order's outcome is written before it is announced,
  and both once. `Delivery` takes the outcomes from the pipeline instead, in runs in which no
  terminal write or publication throws.
- A key of Redis is gone once its time is past: a command at the very deadline still finds it.

## What turned out not to hold

- A swap can fail its own slippage check: `SimulatedSwapCanFail` at a simulated price of
  100.000000002 and 30%, `SwapCanFail` at 3 units of 10^-9. `AlwaysPassesIff` and
  `NeverFailsOnSlippageIff` give the exact condition for all draws in [0, 1) at every price and
  tolerance, one check of one computed price; `AlwaysPassesInTerms` turns it into a condition
  on a remainder when the operands are short. `AlwaysPassesShortIff` and
  `NeverFailsOnShortDrawsIff` do the same for draws of at most fifteen decimals.
- A CONFIRMED row is not always final: `RowIsFinalIff` says exactly which rows are, and
  `ConfirmedIsFinalIffAnnounced` what that means for the publication after the write.
- The limiter's key can expire while its members still count, when a later request takes
  longer to reach Redis than an earlier one: `PrunedIsRecentIff` says exactly when,
  `AtMostLimit` that nothing else breaks the limit, and `ExpiryDoublesLimit` has two requests admitted in one half-open minute under a limit of
  one.
- Two overlapping set-ups exceed the limit of three connections, and so does waiting for an
  hour, since a counter that expires forgets the sockets it counted: `LimitHolds` bounds the
  open sockets by overlaps and expiries, and `LimitReached` reaches that bound for every number
  of both. `CounterAccounts` says exactly by how much the counter is short.
- A socket can finish its set-up, stay open and never learn the outcome:
  `OutcomeCanBeMissed`. `OutcomeDelivered` says exactly which ones, by when they read the
  order and when their handler was attached.
- A close before the listener is attached is heard by nobody, and the socket keeps its place
  in its set and on its channel for good, in the counter until the key expires, and pinged for
  ever: `CloseLeaksIff` says exactly which closes leak, `LeakReached` has a run that does,
  `LeakIsForGood` and `IntervalIff` say what stays.
- Overlapping requests, or a failed enqueue that is retried, put two orders under one
  idempotency key: `OverlapDuplicates`, `RetryDuplicates`. Among requests that do not overlap,
  the next one within five minutes leads to another order exactly when the store of the newest
  one did not take effect: `AnotherOrderIff`.
- With a pong timeout longer than the ping interval, a socket that answers every ping in
  time is terminated all the same: `PromptSurvivesIff`. With one no shorter, a timer can
  outlive the close, and a socket can be terminated before its time: `NoTimersAfterCloseIff`,
  `SilentIsTerminatedIff`.

Where the repository's documents and its code differ, the model follows the code. The
worker publishes ROUTING, CONFIRMED, FAILED and PENDING only, not every state change
(`README.md:242`, `docs/architecture_diagram.md:91`). One missed pong terminates a socket,
not two (`docs/architecture_diagram.md:147`). The limiter is a sliding window in which
refused requests count, not a token bucket (`docs/architecture_diagram.md:128`). The
idempotency cache is written after the order exists, so it does not prevent duplicates from
overlapping requests (`README.md:213`).

## Model

| member | source | states |
|---|---|---|
| `LogShape.StepKeepsShape` | src/services/orderService.ts:73-152 | one step of one order, whatever its reply, keeps the invariant: log in blocks, columns of the current attempt, status equal to the last entry, at most `MAX_RETRIES` attempts |
| `LogShape.WriteKeepsRow` | src/models/order.ts:89-194 | a write of the attempt extends the current block by exactly its next entry and leaves the row coherent, also after earlier failed attempts |
| `LogShape.FailureStep` | src/lib/queue/consumer.ts:52-75 | the failure record, its announcement and the retry announcement keep the shape, and FAILED is only ever written on the last attempt |
| `LogShape.NotFailedYet` | src/models/order.ts:199-231 | the status is FAILED exactly when the log ends in a FAILED entry |
| `Engine.LogLanguage` | src/services/orderService.ts:73-152 | in every reachable state of every interleaving: PENDING, at most `MAX_RETRIES` blocks, each a prefix of one attempt's five entries, then at most one FAILED, only after the last; the status is the last entry's stage |
| `Engine.ConfirmedRow` | src/services/orderService.ts:83-136 | a CONFIRMED row's quotes, venue, hash and amount and its SUBMITTED and CONFIRMED entries all come from one attempt, each entry given in full, the venue is the router's choice for those quotes, the price passed the check, no failure reason is set |
| `Provenance.QuotesWereFetched` | src/services/orderService.ts:82-95 | in every reachable state the two quotes of a row, each in its column, are those of one reply to the order's fetch, and the venue is the router's choice for them |
| `Provenance.ConfirmedFromReplies` | src/services/orderService.ts:82-136 | a CONFIRMED row is what the order's last quotes and its last swap make of it: both quotes, the venue, that swap's hash, and the price its draw gives the chosen venue's quote, which passed |
| `Provenance.FailedFromReplies` | src/lib/queue/consumer.ts:52-63 | a FAILED row's reason is what the last attempt's last call threw, or "Slippage exceeded" if that was a swap whose price does not pass; its last entry, given in full, has the reason, the attempt and the maximum |
| `Provenance.SubmissionIs` | src/services/orderService.ts:17-35 | an order has a row exactly if its insert took effect, a job exactly if its enqueue did, replies lost or not, and its client was answered 503 exactly if one of them threw |
| `Publications.PublicationLanguage` | src/lib/queue/consumer.ts:38-75 | where no publication throws, a channel carries ROUTING and PENDING for each retried attempt, then ROUTING and CONFIRMED, or ROUTING and FAILED if the failure write came back, and nothing else |
| `Engine.RunGrows` | src/models/order.ts:89-231 | along every run logs and publications only grow, and a settled row never changes |
| `Engine.FailedIsFinal` | src/lib/queue/consumer.ts:55-63 | in any continuation of any run nothing is ever written after FAILED |
| `Engine.CompletedIsFinal` | src/lib/queue/consumer.ts:45-48 | once the job completes, the row is CONFIRMED and stays as it is, and the last thing published is CONFIRMED |
| `Engine.RowIsFinalIff` | src/lib/queue/consumer.ts:38-75 | in every reachable state a row never changes again if and only if it is FAILED, its job is over, or its submission ended without a job, because the enqueue failed or the insert took effect and lost its reply; a CONFIRMED row exactly if its job is completed or exhausted |
| `Engine.ConfirmedIsFinalIffAnnounced` | src/lib/queue/consumer.ts:45-75 | for an attempt about to announce its confirmation the row is final if and only if the publication returns |
| `Engine.AnnouncementsFollowWrites` | src/lib/queue/consumer.ts:42-61 | in every reachable state terminal announcements are at most as many as terminal entries: none precedes its write |
| `Engine.OutcomeAnnouncedOnce` | src/lib/queue/consumer.ts:45-61 | in a run where no terminal write or publication throws, an order gets at most one terminal entry and at most one terminal announcement, of the status written |
| `Engine.JobsTerminate` | src/lib/queue/producer.ts:26-31 | however steps interleave and fail, a job takes at most 15 steps per allowed attempt |
| `Engine.AttemptsBounded` | src/lib/queue/consumer.ts:55-73 | at most `MAX_RETRIES` attempts and swaps; SUBMITTED entries and abandoned swaps together are at most the swaps started; a finished job is completed with its row CONFIRMED, or out of attempts, FAILED exactly if a failure write took effect |
| `Engine.AbandonedLeavesNoTrace` | src/services/orderService.ts:55-68 | the hash of a swap abandoned by its timeout, whenever the swap goes through, is in no log entry and not in the row |
| `Engine.Conservation` | src/controllers/orderController.ts:54-55 | created orders are those mid-submission, queued, and orphaned by a failed enqueue; the three counters equal the queued orders and the CONFIRMED and FAILED entries over all orders, up to increments in flight and lost replies, re-runs included |
| `OrderLife.StepLowersMeasure` | src/lib/queue/consumer.ts:29-76 | every worker or queue step lowers (attempts left, steps left); no other step raises it |
| `OrderLife.NeverStuck` | src/lib/queue/consumer.ts:29-76 | a job that is not over always has a step to take |
| `OrderLife.StepCredits` | src/services/orderService.ts:136-161 | an order's share of a counter changes exactly when that counter is incremented |
| `OrderLife.StepKeepsSwaps` | src/services/orderService.ts:55-117 | each step keeps: SUBMITTED entries plus abandoned swaps are at most the swaps started, at most one an attempt |
| `Orders.AmountNear` | src/services/orderService.ts:134-136 | the amount out is amount times price up to half a unit of 10^-9 |
| `Worker.OrderTable.CreateOrder` | src/models/order.ts:42-70 | inserts a PENDING row unless the id is taken |
| `Worker.OrderTable.UpdateOrderStatus` | src/models/order.ts:89-116 | status and one log entry together; an unknown id changes nothing and gives no row |
| `Worker.OrderTable.UpdateOrderRouting` | src/models/order.ts:121-156 | ROUTING, both quotes, the venue and the log entry together; an unknown id changes nothing |
| `Worker.OrderTable.UpdateOrderConfirmed` | src/models/order.ts:161-194 | CONFIRMED, hash, amount and the log entry together; an unknown id changes nothing |
| `Worker.OrderTable.UpdateOrderFailed` | src/models/order.ts:199-231 | FAILED, the reason and the log entry with attempt and maximum together; an unknown id changes nothing |
| `Worker.MetricsService.Increment` | src/services/metricsService.ts:39-41 | one counter goes up by one and the others stay |
| `Worker.Worker.PublishStatus` | src/lib/queue/consumer.ts:13-24 | the status is appended to this order's channel and no other, if the call takes effect |
| `Worker.Worker.GetQuotes` | src/services/orderService.ts:82-88 | both quotes, or a throw that the catch block will handle |
| `Worker.Worker.ChooseVenue` | src/services/orderService.ts:82-95 | the router's choice for the fetched quotes is recorded, or the reason reaches the catch block |
| `Worker.Worker.SwapWithinSlippage` | src/services/orderService.ts:102-129 | the swap is held to the chosen venue's own quote, and goes on only if its price passes the check |
| `Worker.Worker.RouteOrder` | src/services/orderService.ts:79-100 | from ROUTING to BUILDING: ends at the swap for the chosen venue, or in the catch block with the reason |
| `Worker.Worker.SwapOrder` | src/services/orderService.ts:99-138 | swap, slippage check, SUBMITTED, CONFIRMED, counter: ends about to announce, or in the catch block |
| `Worker.Worker.FailOrder` | src/services/orderService.ts:157-161 | the failure write and its counter; if the write throws the attempt is over |
| `Worker.Worker.TryOrder` | src/lib/queue/consumer.ts:38-49 | the try block completes the job, or ends in the catch block with the reason of whatever threw |
| `Worker.Worker.HandleFailure` | src/lib/queue/consumer.ts:51-75 | the catch block hands the job back to the queue, having touched no other order |
| `Worker.Worker.ProcessOrder` | src/lib/queue/consumer.ts:29-76 | for every script of replies, the code does to row, channel and job exactly what the step machine does, returns normally exactly when the job completes, then with the table row and channel of `CompletedAttempt`, and moves each counter by the order's own entries |
| `Worker.CompletedAttempt` | src/services/orderService.ts:79-138 | for every script of replies, an attempt that completes leaves the row with the fetched quotes in their columns, the venue, hash, price and amount, five log entries given in full, and has published ROUTING and CONFIRMED |
| `Worker.DriveIsRun` | src/lib/queue/consumer.ts:29-76 | an attempt so driven is a run of the step machine, made of worker steps, and leaves the job completed, delayed or out of attempts |
| `Execution.ConfirmedWithinTolerance` | src/services/orderService.ts:92-123 | with the mock router, every reachable CONFIRMED row names the venue picked for its stored quotes, at a price within the order's tolerance of that venue's own quote |
| `Execution.ConfirmedAtDrawnPrice` | src/services/orderService.ts:82-136 | with the mock router, every reachable CONFIRMED row's price is the fetched quote of the chosen venue less draw times tolerance, up to an explicit rounding error either way |
| `Execution.SwapGoesOnOutsideBand` | src/services/orderService.ts:102-127 | outside the rounding band next to the tolerance a swap is submitted, at no more than the quote |
| `Execution.NeverFailsOnSlippageIff` | src/services/orderService.ts:102-129 | an attempt cannot fail on slippage for any draw in [0, 1) if and only if the lowest price a swap can execute at is within tolerance of the quote, for every quote below 10^11 and every tolerance |
| `Execution.NeverFailsOnSlippageInTerms` | src/services/orderService.ts:102-129 | with few digits, that is if and only if the fraction of tolerance times quote, in units of 10^-9, is at most one half |
| `Execution.NeverFailsOnShortDrawsIff` | src/services/orderService.ts:102-129 | for the draws of at most fifteen decimals, if and only if the largest of them does not fail |
| `Execution.NeverFailsOnShortDrawsInTerms` | src/services/orderService.ts:102-129 | for ordinary quotes and tolerances the condition for these draws is the one for all draws |
| `Channels.StepKeeps` | src/services/webSocketService.ts:141-244 | every step of every socket, of Redis and of the outside world keeps the channel invariant |
| `Channels.OthersBehindUnsubscribe` | src/services/webSocketService.ts:224-241 | while one socket awaits its unsubscribe, every other socket of the channel awaits a subscribe queued behind it |
| `Channels.LiveIsSubscribed` | src/services/webSocketService.ts:141-169 | in every reachable state a fully set-up socket's channel is subscribed, now and after each pending command, and no unsubscribe of it is pending |
| `Channels.DrainedAgreement` | src/services/webSocketService.ts:206-244 | once all commands have drained, a channel is subscribed if and only if some socket that is not closing is mapped to it |
| `Connections.CounterAccounts` | src/services/webSocketService.ts:79-103 | the counter is the size of the socket set, plus sockets between increment and addition, minus sockets between decrement and removal, if and only if no socket was counted when its key last expired, and short by exactly those otherwise; the set holds exactly the listed sockets; no empty set is stored |
| `Connections.LimitHolds` | src/services/webSocketService.ts:70-88 | with at most n overlapping set-ups the counter never exceeds 2 + n; nor do the sockets counted, beyond those the expiry forgot, nor 2 + n for each expiry and the time since |
| `Expiry.LimitReached` | src/services/webSocketService.ts:70-88 | for every n >= 1 and every h a run with n overlaps and h expiries reaches that: (1 + h)(2 + n) sockets live and open; three without overlaps in the first hour and three more every hour |
| `Expiry.CounterLasts` | src/services/webSocketService.ts:82-82 | a counter lasts for 3600 seconds after it was given its expiry, whatever happens, and is gone two seconds later unless that was renewed |
| `Expiry.ExpiryForgets` | src/services/webSocketService.ts:81-82 | an hour after a lone increment its counter is gone while the socket is live and open |
| `SocketHistory.OutcomeDelivered` | src/services/webSocketService.ts:108-169 | in every run, once everything sent has arrived, an open, fully set-up socket of an announced order has learned the outcome, unless exactly: its one read of the order came before the write, and its handler was attached after the message had arrived or been dropped |
| `SocketHistory.LateReaderLearns` | src/services/webSocketService.ts:108-134 | a socket that reads its order after the outcome was written and ends up set up and open has learned it, whatever else happens |
| `SocketHistory.OpenIff` | src/services/webSocketService.ts:34-42 | in every run a socket is open exactly if it did not close or go away, was not refused, and its order existed when its backfill was read |
| `SocketHistory.ClosedHearsNothing` | src/services/webSocketService.ts:151-163 | a socket that is not open is sent nothing more |
| `Outcomes.NotDropped` | src/services/webSocketService.ts:144-165 | Redis never drops an outcome for which a socket is fully set up |
| `Outcomes.OutcomeCanBeMissed` | src/services/webSocketService.ts:44-53 | the exception occurs, with no failure and no close |
| `Outcomes.Drains` | src/services/webSocketService.ts:141-165 | while a command or message is under way the connection can take a step |
| `Leaks.CloseLeaksIff` | src/services/webSocketService.ts:44-57 | once a closed socket is at rest it is still counted, in its set and on its channel if and only if the listener was not attached at the close and the limit check had not refused it; otherwise it has left all three |
| `Leaks.LeakReached` | src/services/webSocketService.ts:44-57 | a run from the start that leaks |
| `Leaks.LeakIsForGood` | src/services/webSocketService.ts:206-244 | a leaked socket stays in its set and on its channel in every continuation, its close never handled, and in the counter but for what its expiry forgets |
| `Delivery.FinalStatusDelivered` | src/lib/queue/consumer.ts:42-61 | in every interleaving of workers and sockets in which no terminal write or publication throws: an order whose job is over has a CONFIRMED or FAILED row, the only outcome it ever had, announced once and last; and once everything sent has arrived its set-up, open sockets have been told it, except exactly those that read the row before it showed the outcome and attached after the message had gone by |
| `WebSocketService.WebSocketService.CheckConnectionLimit` | src/services/webSocketService.ts:70-74 | allowed exactly when the counter is absent or below three; a refused socket is closed |
| `WebSocketService.WebSocketService.IncrementCounter` | src/services/webSocketService.ts:80-81 | the counter goes up by one, from zero if absent, and keeps the expiry it had |
| `WebSocketService.WebSocketService.ExpireCounter` | src/services/webSocketService.ts:82-82 | the counter, if it is still there, will expire in an hour |
| `WebSocketService.WebSocketService.DecrementCounter` | src/services/webSocketService.ts:95-96 | the counter goes down by one |
| `WebSocketService.WebSocketService.FetchOrder` | src/services/webSocketService.ts:108-115 | whether the order exists and whether it is decided, as the database has it at that moment |
| `WebSocketService.WebSocketService.RegisterConnection` | src/services/webSocketService.ts:84-88 | adds the socket to its set, creating the set if needed |
| `WebSocketService.WebSocketService.UnregisterConnection` | src/services/webSocketService.ts:98-102 | removes the socket, and the set with its last member |
| `WebSocketService.WebSocketService.SubscribeToUpdates` | src/services/webSocketService.ts:108-148 | sends the backfill while open, maps the socket to its channel, queues the subscribe |
| `WebSocketService.WebSocketService.OnAnswered` | src/services/webSocketService.ts:148-168 | the caller of the next answered command attaches its handler or forgets its subscription |
| `WebSocketService.WebSocketService.HandleClose` | src/services/webSocketService.ts:206-244 | queues an unsubscribe exactly when no other socket is mapped to the channel |
| `WebSocketService.WebSocketService.OnMessage` | src/services/webSocketService.ts:151-163 | every open socket of the channel whose handler is attached gets the message, and no other |
| `WebSocketService.WebSocketService.Perform` | src/services/webSocketService.ts:24-244 | every event that can happen does to the object exactly what the machine's step does |
| `WebSocketService.WebSocketService.Yield` | src/services/webSocketService.ts:24-57 | at an await anything can happen to the service but the waiting socket's own steps, and its set-up goes on where it was |
| `WebSocketService.WebSocketService.Open` | src/services/webSocketService.ts:24-57 | a connection opened in any reachable state, with other sockets' code, messages, Redis and time going on at each await, is refused and closed exactly if the counter is at the limit when it is read, and otherwise ends live, open if its order existed, counted, in its set and with its channel subscribed, in a reachable state |
| `WebSocketService.WebSocketService.AwaitReply` | src/services/webSocketService.ts:148-148 | the subscriber connection returns every command it was given, after finitely many steps, whatever else goes on |
| `WebSocketService.WebSocketService.TearDown` | src/services/webSocketService.ts:206-244 | the close of a live socket, with anything going on at its awaits, takes it out of counter, set and channel, and ends in a reachable state |
| `WebSocketService.LiveIsServed` | src/services/webSocketService.ts:141-169 | in every reachable state a live socket is counted, listed, mapped and subscribed |
| `Heartbeat.OneTimerIff` | src/services/webSocketService.ts:174-190 | in every run at most one pong timer is armed, if and only if the timeout is shorter than the interval |
| `Heartbeat.ArmedIsMapped` | src/services/webSocketService.ts:174-221 | with such timings an armed timer is, in every reachable state, the map's, the map names no other while the socket is open, and none after its close |
| `Heartbeat.PromptSurvivesIff` | src/services/webSocketService.ts:174-201 | a socket answering each ping in under the timeout is never terminated, if and only if the timeout is at most the interval |
| `Heartbeat.SilentIsTerminatedIff` | src/services/webSocketService.ts:174-190 | in every run a socket is terminated exactly interval + timeout after its last answered ping and not open later, if and only if the timeout is shorter than the interval |
| `Heartbeat.NotPinged` | src/services/webSocketService.ts:175-186 | a socket that is no longer open is never pinged again and no timer is armed for it |
| `Heartbeat.IntervalIff` | src/services/webSocketService.ts:174-214 | in every run the ping interval is set exactly until a close is handled: a socket whose close nobody heard is pinged for ever |
| `Heartbeat.NoTimersAfterCloseIff` | src/services/webSocketService.ts:206-221 | after the close is handled no timer is left, in any run and any continuation, if and only if the timeout is shorter than the interval |
| `HeartbeatService.HeartbeatService.Deliver` | src/services/webSocketService.ts:174-221 | whatever the runtime delivers to a socket does to it what the single-socket machine does and to the others nothing, so that every socket's history is a run of that machine |
| `HeartbeatService.EachOnTime` | src/services/webSocketService.ts:174-221 | so with a timeout shorter than the interval every socket of the service has at most one timer, the map's, and is terminated on time |
| `HeartbeatService.HeartbeatService.SendPing` | src/services/webSocketService.ts:177-186 | pings and arms a timer for this socket, overwriting the map's entry |
| `HeartbeatService.HeartbeatService.StartHeartbeat` | src/services/webSocketService.ts:174-190 | a new socket starts as the single-socket machine does |
| `HeartbeatService.HeartbeatService.OnInterval` | src/services/webSocketService.ts:175-190 | does to this socket what the single-socket machine's ping does, and nothing to the others |
| `HeartbeatService.HeartbeatService.OnPongTimeout` | src/services/webSocketService.ts:180-183 | terminates the socket the timer belongs to and no other; the map keeps its entry |
| `HeartbeatService.HeartbeatService.HandlePong` | src/services/webSocketService.ts:195-201 | clears the remembered timer only |
| `HeartbeatService.HeartbeatService.HandleClose` | src/services/webSocketService.ts:209-221 | clears interval and remembered timer of this socket only |
| `RateLimit.Limiter.Handle` | src/middleware/rateLimit.ts:23-54 | prune, count, add, expire, and the answer from the count in between |
| `RateLimit.FindsRemembered` | src/middleware/rateLimit.ts:28-43 | for every history, what a transaction finds after pruning is the members of the last 60 seconds from which on no two executions were more than a window apart |
| `RateLimit.PrunedIsRecentIff` | src/middleware/rateLimit.ts:28-43 | after pruning the set holds exactly the attempts of the last 60 seconds, and key expiry is unobservable, if and only if the client's executions since the first of them were never more than a window apart |
| `RateLimit.SteadyIsRemembered` | src/middleware/rateLimit.ts:24-43 | so always when no request takes longer to reach Redis than those before it |
| `RateLimit.AnswersFromHistory` | src/middleware/rateLimit.ts:46-54 | every answer of every history is the one the remembered attempts give |
| `RateLimit.AtMostLimit` | src/middleware/rateLimit.ts:23-54 | at most `RATE_LIMIT` requests of a client are admitted in any half-open 60 seconds, unless between two of those its executions were more than a window apart |
| `RateLimit.ExpiryDoublesLimit` | src/middleware/rateLimit.ts:24-41 | without that, a limit of one admits two within one half-open minute |
| `RateLimit.RemainingIsGuaranteed` | src/middleware/rateLimit.ts:49-54 | an admitted answer reporting r remaining admits the client's next r requests, whenever they come |
| `RateLimit.RefusalsCount` | src/middleware/rateLimit.ts:32-54 | a request with `RATE_LIMIT` attempts in its window is refused if none of them is forgotten, even if they all were refused; with exactly that many, only then |
| `RateLimit.SilenceRestores` | src/middleware/rateLimit.ts:32-54 | 60 seconds of silence restore admission in full |
| `Idempotency.InvStep` | src/middleware/idempotency.ts:47-116 | every cached id belongs to an order created under the same key and body hash, whatever interleaves |
| `Idempotency.StoredResultAnswers` | src/middleware/idempotency.ts:50-85 | a request whose lookup comes within 300 seconds of a store has no order in any continuation: it gets the stored id for an equal body and a conflict for a different one |
| `Idempotency.LookupGoesByHistory` | src/middleware/idempotency.ts:47-116 | after every run a lookup is answered from the last store of its key that took effect if that is at most 300 seconds old, by its body hash, and is not answered otherwise |
| `Idempotency.OneOrderPerKey` | src/controllers/orderController.ts:54-60 | when same-key requests do not overlap, orders of one key are more than 300 seconds apart, unless the first one's store did not take effect, and then its request was answered 503 |
| `Idempotency.AnotherOrderIff` | src/controllers/orderController.ts:54-60 | when they do not overlap, a well-formed lookup within 300 seconds of a key's newest order leads to another one if and only if that order's store did not take effect, which is when the cache does not hold it |
| `Idempotency.AnswerIs` | src/controllers/orderController.ts:44-75 | in every run a request is answered 503 exactly if one of its calls threw, with its order exactly if all of them returned, and has an order exactly if its insert took effect |
| `Idempotency.OverlapDuplicates` | src/middleware/idempotency.ts:50-90 | overlapping requests create two orders under one key |
| `Idempotency.RetryDuplicates` | src/services/orderService.ts:17-35 | so does a failed enqueue that the client retries |
| `Idempotency.OrderApi.CheckIdempotency` | src/middleware/idempotency.ts:40-90 | lookup, then validation, as one step of the machine |
| `Idempotency.OrderApi.CreateOrder` | src/services/orderService.ts:17-23 | the insert, and what a throw does to the answer |
| `Idempotency.OrderApi.EnqueueOrder` | src/lib/queue/producer.ts:44-56 | the enqueue and what a throw does to the answer |
| `Idempotency.OrderApi.ExecuteOrder` | src/controllers/orderController.ts:16-75 | a whole submission in any reachable state: its answer and what it leaves in orders and cache |
| `Idempotency.OrderApi.SubmitTwice` | src/middleware/idempotency.ts:47-116 | two submissions under one key create one order up to 300000 ms apart, the second getting its id or, for another body, a conflict; and two orders later than that |
| `Idempotency.OrderApi.StoreResult` | src/middleware/idempotency.ts:102-116 | the store with its five minutes, and the answer |
| `DexRouter.ChosenNearlyBest` | src/lib/dex/mockDexRouter.ts:68-82 | for all positive prices and fees in [0, 1) the chosen net price is at least the other's, up to the explicit roundings of both |
| `DexRouter.ChosenBestToOneUnit` | src/lib/dex/mockDexRouter.ts:68-82 | with fees of ordinary length the roundings add up to one unit in the twentieth digit |
| `DexRouter.ChosenBest` | src/lib/dex/mockDexRouter.ts:68-82 | the exact argmax when price and fee digits fit in 20, ties to Raydium |
| `DexRouter.NineDecimalChoice` | src/lib/dex/simulators.ts:66-81 | between any two prices of nine decimals up to 200 the simulated fees make the choice exact, 997 m against 998 n units, however the prices were rounded |
| `DexRouter.SimulatedChoice` | src/lib/dex/simulators.ts:66-81 | simulated quotes stay in their bands and are always chosen between exactly |
| `DexRouter.EffectiveError` | src/lib/dex/mockDexRouter.ts:73-77 | for all positive prices and fees in [0, 1) the effective price is the net price up to three explicit errors either way |
| `DexRouter.EffectiveRoundsTwice` | src/lib/dex/mockDexRouter.ts:73-77 | both its operations round: a price and fee for which that shows |
| `DexRouter.SimulatedQuotes` | src/lib/dex/simulators.ts:66-81 | simulated prices are linear in their draws from 97.5 to 102.5 and from 97 to 103, up to half a unit of 10^-9, with fees 0.3% and 0.2% |
| `DexRouter.ExecutedNear` | src/lib/dex/mockDexRouter.ts:124-129 | for every price, tolerance and draw the executed price is expected * (1 - draw * tolerance), up to half a unit of 10^-9 and 1.2 relative errors either way |
| `DexRouter.ExecutedRoundsTwice` | src/lib/dex/mockDexRouter.ts:124-129 | the product is rounded to 20 digits before toFixed(9) rounds it again: a swap for which that shows |
| `DexRouter.VarianceRoundsTwice` | src/lib/dex/mockDexRouter.ts:124-126 | draw times tolerance is rounded before it is taken from one: a draw for which that shows |
| `DexRouter.SlippageNear` | src/lib/dex/mockDexRouter.ts:158-160 | for all prices in units of 10^-9 the slippage computed is their relative distance up to one relative error |
| `DexRouter.ExecutedAtMostExpected` | src/lib/dex/mockDexRouter.ts:124-129 | through both roundings the executed price never exceeds the expected one and never rises with the draw |
| `DexRouter.SwapPassesOutsideBand` | src/lib/dex/mockDexRouter.ts:154-160 | the check passes at zero tolerance, and whenever the tolerance left by the draw is worth half of 10^-9 plus 1.3 relative errors of 20 digits |
| `DexRouter.CheckDecidesExactly` | src/lib/dex/mockDexRouter.ts:149-160 | for prices and tolerances of few digits the rounded division decides exactly as rationals do |
| `DexRouter.SwapCanFail` | src/lib/dex/mockDexRouter.ts:124-160 | a concrete valid swap that fails its own check |
| `WorstSwap.AlwaysPassesIff` | src/lib/dex/mockDexRouter.ts:124-160 | for every price that fits 20 digits and every tolerance below one: no draw in [0, 1) makes a swap fail its own check if and only if the one lowest executed price passes it |
| `WorstSwap.FactorReached` | src/lib/dex/mockDexRouter.ts:124-127 | some draw reaches the factor of that lowest price, at every tolerance, though no draw reaches the tolerance |
| `WorstSwap.LargestDrawDecides` | src/lib/dex/mockDexRouter.ts:124-160 | among draws up to a largest one, such as the largest double below one, the largest decides for all |
| `WorstSwap.AlwaysPassesInTerms` | src/lib/dex/mockDexRouter.ts:124-160 | with few digits the condition is that the fraction of k * n / t is at most one half |
| `ShortDraws.AlwaysPassesShortIff` | src/lib/dex/mockDexRouter.ts:124-160 | for the draws of at most fifteen decimals the condition is that the largest of them passes, at every price and tolerance |
| `ShortDraws.AlwaysPassesShortInTerms` | src/lib/dex/mockDexRouter.ts:124-160 | for ordinary prices and tolerances that is the condition for all draws |
| `ShortDraws.SimulatedSwapCanFail` | src/lib/dex/mockDexRouter.ts:124-160 | a swap at a simulated price that fails its own check with such a draw |
| `Decimals.RoundNearest` | src/lib/dex/mockDexRouter.ts:73-77 | a rounded value is at least as near as any other value of at most that many digits, and greater than any as near: halves go up |
| `Decimals.UnitsNearest` | src/lib/dex/mockDexRouter.ts:129-129 | toFixed(9) is the nearest unit of 10^-9, halves away from zero |
| `Decimals.TwoThirds` | src/lib/dex/mockDexRouter.ts:73-77 | the precision is twenty digits: 2/3 rounds to 0.66666666666666666667 |
| `Decimals.RoundBelowReached` | src/lib/dex/mockDexRouter.ts:73-77 | the numbers just below x are rounded to x rounded halves downwards, across decades too |
| `Decimals.RoundMonotone` | src/lib/dex/mockDexRouter.ts:73-77 | rounding to significant digits keeps order, also across decades |
| `StringHash.HashString` | src/lib/dex/simulators.ts:30-38 | the loop computes the absolute value of the signed 32-bit residue of the base-31 polynomial, between 0 and 2^31 |
| `StringHash.HashCollision` | src/lib/dex/simulators.ts:30-38 | two strings hash alike if and only if their polynomials agree modulo 2^32 up to sign |
| `StringHash.MarketHash` | src/lib/dex/simulators.ts:30-38 | a string whose polynomial wraps past 2^31 |
| `SeededRandom.MarketDraw` | src/lib/dex/simulators.ts:40-43 | the first state from that seed |
| `SeededRandom.Generator.constructor` | src/lib/dex/simulators.ts:26-28 | a non-empty seed string gives the seed its hash |
| `SeededRandom.Generator.Next` | src/lib/dex/simulators.ts:40-43 | the seed advances in place, the product stays below 2^53, the draw is in [0, 1) |
| `SeededRandom.ClosedForm` | src/lib/dex/simulators.ts:40-43 | the n-th state is the reduced closed form in the seed, a power and a geometric sum |
| `SeededRandom.GeoPowers` | src/lib/dex/simulators.ts:40-43 | the powers of 2 and of 3 dividing the geometric sum are those dividing its length |
| `SeededRandom.FullPeriod` | src/lib/dex/simulators.ts:40-43 | from any seed, after the first draw, two states coincide if and only if 233280 divides the number of draws between them |
| `SeededRandom.MeetsEveryState` | src/lib/dex/simulators.ts:40-43 | 233280 consecutive draws meet every state exactly once |

## Left out

- Worker crashes and stalled-job redelivery: the queue library's behaviour is not part of this model.
- Back-off delays, the queue's rate and concurrency limits: they only restrict the interleavings covered.
- Log timestamps and the payload of publications; the text of the slippage error.
- `amountOut` as a double: it is exact decimal arithmetic rounded to 9 decimals here.
- What PostgreSQL's column types round or reject, and a row vanishing between two statements of an attempt.
- Failures of Redis in the limiter and in the idempotency lookup, which let the request through.
- Failures of Redis in the WebSocket service (the catch around the set-up) and non-terminal messages.
- Heartbeat timers that fire late; pings and pongs reordered by the network.
- The limiter's Retry-After and Reset headers and the choice of the client's address.
- `SeededRandom.Generator.constructor`: an absent or empty seed, which the program replaces by a random double, and with it the unseeded generator, whose state is no integer.
- `DexRouter.SimulatedChoice`: the bands are those of exact arithmetic; the program computes the prices in doubles before it rounds them to nine decimals.
- `WorstSwap.AlwaysPassesInTerms`: the closed form is for price units times 10^decimals of at most 10^19; beyond, `WorstSwap.AlwaysPassesIff` names the one price to check.
- `ShortDraws.AlwaysPassesShortInTerms`: likewise for tolerances of at most five decimals, with `ShortDraws.AlwaysPassesShortIff` for all others.
- `Execution.NeverFailsOnSlippageInTerms`: the same bounds as `WorstSwap.AlwaysPassesInTerms`.
- `Execution.NeverFailsOnShortDrawsInTerms`: the same bounds as `ShortDraws.AlwaysPassesShortInTerms`.
- `DexRouter.CheckDecidesExactly`: for longer operands only the bounds of `DexRouter.SwapPassesOutsideBand` are stated.
- Contents of transaction hashes, UUIDs and SHA-256 digests: fresh identifiers and an injective function.
- Backpressure, health checks, order listing, row-to-object mapping, start-up and shutdown, logging: plain reads, writes and configuration, with no state of their own.

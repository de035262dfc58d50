/** Order rows and the five statements that write them. */
module Orders {
  import opened Decimals
  import opened DexRouter
  import opened Options

  datatype Status = PENDING | ROUTING | BUILDING | SUBMITTED | CONFIRMED | FAILED

  /** Both venues' prices, in units of 10^-9, and the router's choice. */
  datatype Routing = Routing(raydium: int, meteora: int, selected: Dex)

  /** One entry of a row's log; the fields are those the writers fill in. */
  datatype LogEntry = LogEntry(
    stage: Status,
    routing: Option<Routing>,
    txHash: Option<nat>,
    executedPrice: Option<int>,
    reason: Option<string>,
    attempt: Option<nat>,
    maxAttempts: Option<nat>)

  datatype Row = Row(
    status: Status,
    raydiumQuote: Option<int>,
    meteoraQuote: Option<int>,
    dexUsed: Option<Dex>,
    txHash: Option<nat>,
    amountOut: Option<int>,
    failureReason: Option<string>,
    logs: seq<LogEntry>)

  datatype Request = Request(amount: real, slippage: real)

  function StatusEntry(status: Status, txHash: Option<nat>): LogEntry
  {
    LogEntry(status, None, txHash, None, None, None, None)
  }

  function RoutingEntry(routing: Routing): LogEntry
  {
    LogEntry(ROUTING, Some(routing), None, None, None, None, None)
  }

  function ConfirmedEntry(txHash: nat, price: int): LogEntry
  {
    LogEntry(CONFIRMED, None, Some(txHash), Some(price), None, None, None)
  }

  function FailedEntry(reason: string, attempt: nat, maxAttempts: nat): LogEntry
  {
    LogEntry(FAILED, None, None, None, Some(reason), Some(attempt), Some(maxAttempts))
  }

  function NewRow(): Row
  {
    Row(PENDING, None, None, None, None, None, None, [StatusEntry(PENDING, None)])
  }

  function WithStatus(row: Row, status: Status, txHash: Option<nat>): Row
  {
    row.(status := status, logs := row.logs + [StatusEntry(status, txHash)])
  }

  function WithRouting(row: Row, routing: Routing): Row
  {
    row.(status := ROUTING,
         raydiumQuote := Some(routing.raydium),
         meteoraQuote := Some(routing.meteora),
         dexUsed := Some(routing.selected),
         logs := row.logs + [RoutingEntry(routing)])
  }

  function WithConfirmed(row: Row, txHash: nat, price: int, amountOut: int): Row
  {
    row.(status := CONFIRMED,
         txHash := Some(txHash),
         amountOut := Some(amountOut),
         logs := row.logs + [ConfirmedEntry(txHash, price)])
  }

  function WithFailed(row: Row, reason: string, attempt: nat, maxAttempts: nat): Row
  {
    row.(status := FAILED,
         failureReason := Some(reason),
         logs := row.logs + [FailedEntry(reason, attempt, maxAttempts)])
  }

  /** How many log entries have the stage. */
  function Count(logs: seq<LogEntry>, stage: Status): nat
  {
    if logs == [] then 0
    else Count(logs[..|logs| - 1], stage) + (if logs[|logs| - 1].stage == stage then 1 else 0)
  }

  lemma CountAppend(logs: seq<LogEntry>, entry: LogEntry, stage: Status)
    ensures Count(logs + [entry], stage) == Count(logs, stage) + (if entry.stage == stage then 1 else 0)
  {
    assert (logs + [entry])[..|logs|] == logs;
  }

  /** The dexRouter singleton the service calls, on prices in units of 10^-9: the
      venue it picks, the price a swap executes at for a draw, and the slippage check. */
  datatype Router = Router(
    choose: (int, int) -> Dex,
    execute: (int, real, real) -> int,
    passes: (int, int, real) -> bool)

  /** MAX_RETRIES and the router. */
  datatype Config = Config(maxRetries: nat, router: Router)

  function Choose(c: Config, raydium: int, meteora: int): Routing
  {
    Routing(raydium, meteora, c.router.choose(raydium, meteora))
  }

  /** The price the swap is held to: the chosen venue's own quote. */
  function ExpectedPrice(routing: Routing): int
  {
    if routing.selected == Raydium then routing.raydium else routing.meteora
  }

  function AmountOut(request: Request, price: int): int
  {
    Units9(Times(request.amount, Fixed9(price)))
  }

  /** The amount out is amount times price, up to half a unit of 10^-9. */
  lemma AmountNear(request: Request, price: int)
    ensures AbsDiff(Fixed9(AmountOut(request, price)), Times(request.amount, Fixed9(price))) <= 0.0000000005
  {
    UnitsNearest(Times(request.amount, Fixed9(price)));
  }

  /** The executed price of a swap on the chosen venue passed the slippage check. */
  predicate SwapPassed(c: Config, request: Request, routing: Routing, price: int)
  {
    c.router.passes(ExpectedPrice(routing), price, request.slippage)
  }

  /** The mock router over the simulated venues' fees. */
  function MockRouter(): Router
  {
    Router(
      (raydium, meteora) => SelectBestDex(Quote(Fixed9(raydium), 0.003), Quote(Fixed9(meteora), 0.002)),
      (expected, slippage, draw) => ExecutedUnits(Fixed9(expected), slippage, draw),
      (expected, executed, slippage) =>
        expected > 0 && PassesSlippage(Fixed9(expected), Fixed9(executed), slippage))
  }
}

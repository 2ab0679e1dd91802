/** Contracts shared by risk, the paper ledger and the account machine. Amounts are unit counts. */
module Domain {
  import opened Outcomes

  /** Opaque identifiers and labels: the engine only compares them. */
  type Id = int

  const USD: Id := 0

  type Digest = int

  datatype InstrumentId = InstrumentId(base: Id, quote: Id, venue: Id, spot: bool)

  datatype Mode = Research | Backtest | Paper | Live

  datatype Side = Buy | Sell

  datatype OrderType = MarketOrder | LimitOrder

  datatype TimeInForce = Gtc | Ioc | Fok | Day

  datatype Position = Position(
    instrument: InstrumentId,
    quantity: int,
    averageEntry: Option<int>,
    mark: Option<int>,
    realized: int,
    unrealized: int,
    openedAt: Option<int>,
    network: Option<Id>)

  datatype Portfolio = Portfolio(
    workspace: Id,
    mode: Mode,
    asOf: int,
    baseCurrency: Id,
    cash: int,
    reservedCash: int,
    positions: seq<Position>,
    realizedToday: int,
    unrealized: int,
    equity: int,
    grossExposure: int,
    netExposure: int,
    peakEquity: int,
    openOrders: nat,
    isReconciled: bool,
    reconciledAt: Option<int>)

  // ---- Orders and fills ---------------------------------------------------------------

  datatype Status =
    | PendingSubmit | Submitted | Accepted | PartiallyFilled
    | Filled | Cancelled | Rejected | Expired | Unknown

  predicate IsOpen(status: Status) {
    status.PendingSubmit? || status.Submitted? || status.Accepted? || status.PartiallyFilled?
  }

  datatype Remark =
    | CancelledByCoordinator | BelowSimulatorMinimum | ApprovalExpired
    | RiskRecheckRejected | MarketUnhealthy | IocRemainderCancelled

  /** Derived from workspace, account and intent, as the hash-based identifier is. */
  datatype ClientOrderId = ClientOrderId(workspace: Id, account: Id, intent: Id)

  /** Derived from the order, the book it crossed and the level. */
  datatype FillId = FillId(order: ClientOrderId, book: Book, level: nat)

  datatype Fill = Fill(
    id: FillId,
    side: Side,
    quantity: int,
    price: int,
    fee: int,
    venueTime: int,
    recordedAt: int,
    sequence: nat)

  datatype Order = Order(
    clientOrderId: ClientOrderId,
    intent: Id,
    workspace: Id,
    instrument: InstrumentId,
    mode: Mode,
    side: Side,
    status: Status,
    requested: int,
    filled: int,
    averagePrice: Option<int>,
    feesPaid: int,
    fills: seq<Fill>,
    submittedAt: int,
    updatedAt: int,
    remark: Option<Remark>,
    reconciledAt: int)

  // ---- Risk records and permits -------------------------------------------------------

  datatype Execution = Execution(
    feeBps: int,
    slippageBps: int,
    notionalIncrement: int,
    maxMarketAgeMs: int,
    maxApprovalAgeMs: int)

  /** The ranges the execution policy contract enforces. */
  predicate ExecutionOk(e: Execution) {
    && 0 <= e.feeBps <= 10_000_000_000_000_000
    && 0 <= e.slippageBps <= 10_000_000_000_000_000
    && e.notionalIncrement > 0
    && e.maxApprovalAgeMs >= 1
  }

  datatype Approval = Approval(
    intent: Id,
    evaluation: EvaluationId,
    workspace: Id,
    instrument: InstrumentId,
    mode: Mode,
    side: Side,
    orderType: OrderType,
    notional: int,
    currency: Id,
    limitPrice: Option<int>,
    timeInForce: TimeInForce,
    clientOrderId: ClientOrderId,
    fencingToken: int,
    approvedAt: int,
    expiresAt: int)

  datatype EvaluationId = EvaluationId(intent: Id, at: int)

  datatype Verdict = Approved | ApprovedResized | RejectedByRisk

  datatype Evaluation = Evaluation(
    id: EvaluationId,
    intent: Id,
    decision: Id,
    workspace: Id,
    at: int,
    verdict: Verdict,
    reasons: seq<Reason>,
    binding: Option<Scope>,
    requested: int,
    approved: int)

  datatype Record = Record(
    evaluation: Evaluation,
    account: Id,
    requestHash: Digest,
    portfolioHash: Digest,
    expiresAt: int,
    maxQuantity: int,
    quantityAsset: Id,
    maxCashDebit: int,
    debitCurrency: Id)

  datatype Permit = Permit(
    account: Id,
    approval: Approval,
    record: Record,
    execution: Execution)

  datatype Scope = GlobalScope | WorkspaceScope | PortfolioScope | NetworkScope | AgentScope | AssetScope | OrderScope

  datatype Reason =
    | WasApproved | WasResized | ContextMismatch | IntentExpired | UnsupportedOrderType
    | ModeNotPermitted | UnsupportedSymbol | AgentNotApproved | KillSwitchActive
    | UnknownAccountState | LeaseExpired | ContextRefused | PolicyContextRefused
    | SpreadTooWide | InsufficientLiquidity | EdgeTooSmall | DailyLossReached | DrawdownReached
    | InsufficientCash | MaxPosition | MaxOrder | MaxGross | NetworkConcentration
    | MaxOpenPositions | BelowMinimum | UnsupportedPrecision

  // ---- Books --------------------------------------------------------------------------

  datatype Level = Level(price: int, quantity: int)

  datatype Book = Book(
    instrument: InstrumentId,
    sequence: nat,
    eventTime: int,
    receivedAt: int,
    bids: seq<Level>,
    asks: seq<Level>,
    resync: bool)

  /** What the book contract validates at construction. */
  predicate BookOk(b: Book) {
    && b.sequence >= 1
    && b.eventTime <= b.receivedAt
    && 0 < |b.bids| && 0 < |b.asks|
    && (forall i :: 0 <= i < |b.bids| ==> b.bids[i].price > 0 && b.bids[i].quantity > 0)
    && (forall i :: 0 <= i < |b.asks| ==> b.asks[i].price > 0 && b.asks[i].quantity > 0)
    && (forall i, j :: 0 <= i < j < |b.bids| ==> b.bids[i].price > b.bids[j].price)
    && (forall i, j :: 0 <= i < j < |b.asks| ==> b.asks[i].price < b.asks[j].price)
    && b.bids[0].price < b.asks[0].price
  }

  // ---- Time ---------------------------------------------------------------------------

  const MICROS_PER_DAY: int := 86_400_000_000

  /** Elapsed milliseconds between microsecond stamps, rounded up. */
  function AgeMs(now: int, earlier: int): int {
    -((earlier - now) / 1000)
  }

  /** The UTC date of a microsecond stamp. */
  function Date(at: int): int {
    at / MICROS_PER_DAY
  }
}

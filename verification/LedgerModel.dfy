/** The paper ledger as a function of its state: submission, matching, settlement and snapshots. */
module LedgerModel {
  import opened Outcomes
  import opened Sums
  import opened Domain
  import opened Fixed
  import RiskAccount

  datatype PaperInstrument = PaperInstrument(lot: int, tick: int, minimumNotional: int, network: Id)

  /** `keys` lists the configured instruments in the order of their names. */
  datatype Config = Config(
    account: Id,
    latencyMs: nat,
    maxMarketAgeMs: nat,
    keys: seq<InstrumentId>,
    instruments: map<InstrumentId, PaperInstrument>)

  predicate InstrumentOk(i: PaperInstrument) {
    i.lot > 0 && i.tick > 0 && i.minimumNotional > 0 && Product(i.lot, i.tick).Some?
  }

  ghost predicate ConfigOk(c: Config) {
    && (forall i, j :: 0 <= i < j < |c.keys| ==> c.keys[i] != c.keys[j])
    && (forall k :: k in c.keys <==> k in c.instruments)
    && (forall k :: k in c.instruments ==> k.quote == USD && k.spot && InstrumentOk(c.instruments[k]))
  }

  datatype Holding = Holding(quantity: int, basis: int, mark: int, realized: int, openedAt: Option<int>)

  datatype WorkingOrder = WorkingOrder(permit: Permit, order: Order, target: int, gross: int, debit: int)

  datatype Ledger = Ledger(
    config: Config,
    initial: Portfolio,
    cash: int,
    peak: int,
    realized: map<int, int>,
    fees: int,
    holdings: map<InstrumentId, Holding>,
    markTimes: map<InstrumentId, int>,
    orders: seq<WorkingOrder>,
    books: map<InstrumentId, Book>,
    healthy: map<InstrumentId, bool>,
    asOf: int,
    isSealed: bool)

  datatype LedgerError =
    | InvalidInitialAccount | InvalidInitialState | InvalidInitialReconciliation | UnknownCostBasis
    | InconsistentPosition | InconsistentPnl
    | OutOfOrderCommand | UnknownOrder | BatchSealed | InvalidIssuance | CashUnavailable | QuantityUnavailable
    | InvalidMarketScope | OutOfOrderMarket | InvalidIncrement
    | CashInvariant | PositionInvariant
    | NotRepresentable | InvalidAveragePrice | InvalidPortfolio | PeakOutOfRange
    | UnsettledOrders | NeedsReconciliation

  datatype Command =
    | SubmitPermit(at: int, permit: Permit)
    | ObserveBook(at: int, book: Book, blocked: seq<Id>)
    | CancelOrder(at: int, clientOrderId: ClientOrderId)

  // ---- Reservations of open orders --------------------------------------------------------------

  function CashHold(w: WorkingOrder): int {
    if IsOpen(w.order.status) then w.permit.record.maxCashDebit - w.debit else 0
  }

  function CashHolds(orders: seq<WorkingOrder>): seq<int> {
    seq(|orders|, i requires 0 <= i < |orders| => CashHold(orders[i]))
  }

  function ReservedCash(s: Ledger): int {
    Sum(CashHolds(s.orders))
  }

  function SellTarget(w: WorkingOrder, key: InstrumentId): int {
    if IsOpen(w.order.status) && w.order.side.Sell? && w.order.instrument == key then w.target else 0
  }

  function SellTargets(orders: seq<WorkingOrder>, key: InstrumentId): seq<int> {
    seq(|orders|, i requires 0 <= i < |orders| => SellTarget(orders[i], key))
  }

  // ---- Snapshots -----------------------------------------------------------------------------------

  datatype AccountState = AccountState(
    account: Id,
    portfolio: Portfolio,
    orders: seq<Order>,
    costBasis: map<InstrumentId, int>,
    markTimes: map<InstrumentId, int>,
    feesPaid: int,
    batchSealed: bool)

  datatype Valuation = Valuation(exposure: int, unrealized: int, positions: seq<Position>)

  function PositionOf(s: Ledger, key: InstrumentId, value: int): Position
    requires key in s.holdings && s.holdings[key].quantity > 0
  {
    var h := s.holdings[key];
    Position(
      key, h.quantity, Some(Average(h.basis, h.quantity)), Some(h.mark), h.realized, value - h.basis, h.openedAt,
      if key in s.config.instruments then Some(s.config.instruments[key].network) else None)
  }

  /** Values the held instruments among `keys`, in order. */
  function Value(s: Ledger, keys: seq<InstrumentId>): Result<Valuation, LedgerError> {
    if keys == [] then Ok(Valuation(0, 0, []))
    else
      var key := keys[|keys| - 1];
      match Value(s, keys[..|keys| - 1])
      case Err(e) => Err(e)
      case Ok(v) =>
        if key !in s.holdings || s.holdings[key].quantity == 0 then Ok(v)
        else
          var h := s.holdings[key];
          match Product(h.quantity, h.mark)
          case None => Err(NotRepresentable)
          case Some(value) =>
            if h.quantity < 0 || Average(h.basis, h.quantity) <= 0 then Err(InvalidAveragePrice)
            else Ok(Valuation(v.exposure + value, v.unrealized + value - h.basis, v.positions + [PositionOf(s, key, value)]))
  }

  predicate AllHealthy(s: Ledger) {
    forall k :: k in s.healthy ==> s.healthy[k]
  }

  predicate MarksFresh(s: Ledger) {
    forall k :: k in s.holdings && s.holdings[k].quantity != 0 ==>
      k in s.markTimes && AgeMs(s.asOf, s.markTimes[k]) <= s.config.maxMarketAgeMs
  }

  function OpenCount(orders: seq<WorkingOrder>): nat {
    if orders == [] then 0
    else OpenCount(orders[..|orders| - 1]) + if IsOpen(orders[|orders| - 1].order.status) then 1 else 0
  }

  function Orders(s: Ledger): seq<Order> {
    seq(|s.orders|, i requires 0 <= i < |s.orders| => s.orders[i].order)
  }

  function PortfolioOf(s: Ledger, v: Valuation): Portfolio {
    var equity := s.cash + v.exposure;
    Portfolio(
      s.initial.workspace, s.initial.mode, s.asOf, USD, s.cash, ReservedCash(s), v.positions,
      Get(s.realized, Date(s.asOf)), v.unrealized, equity, v.exposure, v.exposure, Max(equity, s.peak),
      OpenCount(s.orders), AllHealthy(s) && MarksFresh(s), Some(s.asOf))
  }

  /** The checks the portfolio contract makes of a snapshot. */
  predicate PortfolioValid(p: Portfolio) {
    0 <= p.reservedCash <= p.cash && p.grossExposure >= 0 && p.equity <= p.peakEquity
  }

  function Snapshot(s: Ledger): Result<AccountState, LedgerError> {
    match Value(s, s.config.keys)
    case Err(e) => Err(e)
    case Ok(v) =>
      var p := PortfolioOf(s, v);
      if !PortfolioValid(p) then Err(InvalidPortfolio)
      else
        Ok(AccountState(
          s.config.account, p, Orders(s), map k | k in s.holdings :: s.holdings[k].basis, s.markTimes, s.fees, s.isSealed))
  }

  // ---- Construction ------------------------------------------------------------------------------------

  function Networks(c: Config): map<InstrumentId, Id> {
    map k | k in c.instruments :: c.instruments[k].network
  }

  datatype Opening = Opening(holdings: map<InstrumentId, Holding>, markTimes: map<InstrumentId, int>, unrealized: int)

  function OpenPosition(o: Opening, p: Position, c: Config, asOf: int): Result<Opening, LedgerError> {
    if p.averageEntry.None? || p.mark.None? then Err(UnknownCostBasis)
    else
      match (Product(p.quantity, p.averageEntry.value), Product(p.quantity, p.mark.value))
      case (Some(basis), Some(value)) =>
        if p.unrealized != value - basis || p.instrument !in c.instruments
           || (p.network.Some? && p.network.value != c.instruments[p.instrument].network)
        then Err(InconsistentPosition)
        else
          Ok(Opening(
            o.holdings[p.instrument := Holding(p.quantity, basis, p.mark.value, p.realized, p.openedAt)],
            o.markTimes[p.instrument := asOf], o.unrealized + value - basis))
      case _ => Err(NotRepresentable)
  }

  function OpenPositions(ps: seq<Position>, c: Config, asOf: int): Result<Opening, LedgerError> {
    if ps == [] then Ok(Opening(map[], map[], 0))
    else
      match OpenPositions(ps[..|ps| - 1], c, asOf)
      case Err(e) => Err(e)
      case Ok(o) => OpenPosition(o, ps[|ps| - 1], c, asOf)
  }

  function Create(initial: Portfolio, c: Config): Result<Ledger, LedgerError> {
    if !(initial.mode.Paper? || initial.mode.Backtest?) || !initial.isReconciled then Err(InvalidInitialAccount)
    else if RiskAccount.Base(initial, Networks(c)).None? then Err(InvalidInitialState)
    else if initial.reconciledAt.None? || initial.reconciledAt.value > initial.asOf then Err(InvalidInitialReconciliation)
    else
      match OpenPositions(initial.positions, c, initial.asOf)
      case Err(e) => Err(e)
      case Ok(o) =>
        if initial.unrealized != o.unrealized then Err(InconsistentPnl)
        else
          Ok(Ledger(
            c, initial, initial.cash, initial.peakEquity, map[Date(initial.asOf) := initial.realizedToday], 0,
            o.holdings, o.markTimes, [], map[], map[], initial.asOf, false))
  }

  // ---- Submission ----------------------------------------------------------------------------------------

  /** Everything the ledger checks of a permit before looking at money. */
  predicate IssuanceOk(s: Ledger, portfolioHash: Portfolio -> Digest, p: Permit, at: int) {
    var a, r := p.approval, p.record;
    && a.instrument in s.config.instruments
    && p.account == s.config.account
    && r.account == s.config.account
    && a.workspace == s.initial.workspace
    && a.mode == s.initial.mode
    && r.portfolioHash == portfolioHash(s.initial)
    && r.evaluation.workspace == s.initial.workspace
    && r.evaluation.intent == a.intent
    && r.evaluation.id == a.evaluation
    && (r.evaluation.verdict.Approved? || r.evaluation.verdict.ApprovedResized?)
    && r.evaluation.approved == a.notional
    && a.approvedAt <= at
    && at < Min(a.expiresAt, r.expiresAt)
    && a.orderType.MarketOrder?
    && a.timeInForce.Ioc?
    && a.limitPrice.None?
    && r.quantityAsset == a.instrument.base
    && r.debitCurrency == USD
    && a.currency == USD
    && (forall w :: w in s.orders ==> w.order.clientOrderId != a.clientOrderId && w.order.intent != a.intent)
  }

  function LotTarget(quantity: int, lot: int): int
    requires lot > 0
  {
    quantity / lot * lot
  }

  function NewOrder(p: Permit, at: int): Order {
    var a := p.approval;
    Order(
      a.clientOrderId, a.intent, a.workspace, a.instrument, a.mode, a.side, Submitted, a.notional, 0, None, 0, [],
      at, at, None, at)
  }

  function WithStatus(o: Order, status: Status, at: int, remark: Option<Remark>): Order {
    o.(status := status, updatedAt := at, remark := remark, reconciledAt := at)
  }

  function SubmitOrder(s: Ledger, portfolioHash: Portfolio -> Digest, p: Permit, at: int): Result<Ledger, LedgerError>
    requires ConfigOk(s.config)
  {
    var a, key, debit := p.approval, p.approval.instrument, p.record.maxCashDebit;
    if s.isSealed then Err(BatchSealed)
    else if !IssuanceOk(s, portfolioHash, p, at) then Err(InvalidIssuance)
    else
      var settings := s.config.instruments[key];
      var target := LotTarget(p.record.maxQuantity, settings.lot);
      if debit < 0 || debit > s.cash - ReservedCash(s) then Err(CashUnavailable)
      else if a.side.Sell? &&
              (key !in s.holdings || target > s.holdings[key].quantity - Sum(SellTargets(s.orders, key)))
      then Err(QuantityUnavailable)
      else
        var order := NewOrder(p, at);
        var placed :=
          if target <= 0 || a.notional < settings.minimumNotional
          then WithStatus(order, Rejected, at, Some(BelowSimulatorMinimum)) else order;
        Ok(s.(orders := s.orders + [WorkingOrder(p, placed, target, 0, 0)]))
  }

  function FindOrder(orders: seq<WorkingOrder>, id: ClientOrderId): Option<nat> {
    if orders == [] then None
    else if orders[0].order.clientOrderId == id then Some(0)
    else
      match FindOrder(orders[1..], id)
      case None => None
      case Some(i) => Some(i + 1)
  }

  lemma {:induction false} FindOrderIs(orders: seq<WorkingOrder>, id: ClientOrderId)
    ensures FindOrder(orders, id).Some? ==>
              FindOrder(orders, id).value < |orders| && orders[FindOrder(orders, id).value].order.clientOrderId == id
    ensures FindOrder(orders, id).None? ==> forall w :: w in orders ==> w.order.clientOrderId != id
  {
    if orders != [] {
      FindOrderIs(orders[1..], id);
    }
  }

  function SetStatus(s: Ledger, i: nat, status: Status, at: int, remark: Option<Remark>): Ledger
    requires i < |s.orders|
  {
    s.(orders := s.orders[i := s.orders[i].(order := WithStatus(s.orders[i].order, status, at, remark))])
  }

  function Cancel(s: Ledger, id: ClientOrderId, at: int): Result<Ledger, LedgerError> {
    FindOrderIs(s.orders, id);
    match FindOrder(s.orders, id)
    case None => Err(UnknownOrder)
    case Some(i) =>
      if IsOpen(s.orders[i].order.status) then Ok(SetStatus(s, i, Cancelled, at, Some(CancelledByCoordinator))) else Ok(s)
  }

  // ---- Filling one level -------------------------------------------------------------------------------------

  /** What bounds the fill of one order at one level. */
  datatype Terms = Terms(lot: int, price: int, feeBps: int, buying: bool, budget: int, cashLimit: int)

  function FillFee(t: Terms, gross: int): int {
    CeilDiv(gross * t.feeBps, BPS_DENOMINATOR)
  }

  function FillDebit(t: Terms, gross: int): int {
    (if t.buying then gross else 0) + FillFee(t, gross)
  }

  /** Whether a number of lots is affordable, or nothing when its value is not representable. */
  function Allowed(t: Terms, lots: int): Option<bool> {
    match Product(lots * t.lot, t.price)
    case None => None
    case Some(gross) => Some(gross <= t.budget && FillDebit(t, gross) <= t.cashLimit)
  }

  /** The ledger's binary search; a value it cannot represent aborts the command. */
  function SearchLots(t: Terms, low: nat, high: nat): Result<nat, LedgerError>
    requires low <= high
    decreases high - low
  {
    if low == high then Ok(low)
    else
      var middle := (low + high + 1) / 2;
      match Allowed(t, middle)
      case None => Err(NotRepresentable)
      case Some(fits) => if fits then SearchLots(t, middle, high) else SearchLots(t, low, middle - 1)
  }

  /** The observed price after adverse slippage, rounded outward to the tick. */
  function ExecutionPrice(buying: bool, raw: int, slippageBps: int, tick: int): int
    requires tick > 0
  {
    (if buying then CeilDiv(raw * (BPS_DENOMINATOR + slippageBps), BPS_DENOMINATOR * tick)
     else raw * (BPS_DENOMINATOR - slippageBps) / (BPS_DENOMINATOR * tick)) * tick
  }

  function TermsOf(w: WorkingOrder, settings: PaperInstrument, raw: int): Terms
    requires settings.tick > 0
  {
    var buying := w.order.side.Buy?;
    Terms(
      settings.lot, ExecutionPrice(buying, raw, w.permit.execution.slippageBps, settings.tick), w.permit.execution.feeBps,
      buying, w.permit.approval.notional - w.gross, w.permit.record.maxCashDebit - w.debit)
  }

  /** The quantity one order takes from one level. */
  function LevelQuantity(w: WorkingOrder, settings: PaperInstrument, raw: int, available: int): Result<int, LedgerError>
    requires InstrumentOk(settings)
  {
    var t := TermsOf(w, settings, raw);
    var maximum := Min(w.target - w.order.filled, available) / settings.lot;
    if t.price <= 0 || maximum <= 0 then Ok(0)
    else
      match SearchLots(t, 0, maximum)
      case Err(e) => Err(e)
      case Ok(lots) => Ok(lots * settings.lot)
  }

  function HoldingOr(s: Ledger, book: Book, at: int): Holding
    requires |book.bids| > 0
  {
    if book.instrument in s.holdings then s.holdings[book.instrument]
    else Holding(0, 0, book.bids[0].price, 0, Some(at))
  }

  function FilledOrder(w: WorkingOrder, book: Book, level: nat, quantity: int, price: int, gross: int, fee: int, debit: int, at: int): WorkingOrder {
    var o := w.order;
    var fill := Fill(FillId(o.clientOrderId, book, level), o.side, quantity, price, fee, book.eventTime, at, book.sequence);
    w.(gross := w.gross + gross, debit := w.debit + debit,
       order := o.(fills := o.fills + [fill], filled := o.filled + quantity, feesPaid := o.feesPaid + fee,
                   averagePrice := if o.filled + quantity > 0 then Some(Average(w.gross + gross, o.filled + quantity)) else None,
                   status := PartiallyFilled, updatedAt := at))
  }

  /** The money side of a fill, with its two "cannot happen" refusals. */
  function Settle(s: Ledger, book: Book, buying: bool, quantity: int, gross: int, fee: int, at: int): Result<Ledger, LedgerError>
    requires |book.bids| > 0 && quantity > 0
  {
    var key, h := book.instrument, HoldingOr(s, book, at);
    var debit := (if buying then gross else 0) + fee;
    if buying then
      if s.cash < debit then Err(CashInvariant)
      else
        Ok(s.(cash := s.cash - debit,
              holdings := s.holdings[key := h.(quantity := h.quantity + quantity, basis := h.basis + gross,
                                               realized := h.realized - fee)],
              markTimes := s.markTimes[key := book.eventTime],
              realized := Bump(s.realized, Date(at), -fee),
              fees := s.fees + fee))
    else if h.quantity < quantity || s.cash < fee then Err(PositionInvariant)
    else
      var basis := h.basis * quantity / h.quantity;
      Ok(s.(cash := s.cash + gross - fee,
            holdings := s.holdings[key := h.(quantity := h.quantity - quantity, basis := h.basis - basis,
                                             realized := h.realized + gross - basis - fee)],
            markTimes := s.markTimes[key := book.eventTime],
            realized := Bump(s.realized, Date(at), gross - basis - fee),
            fees := s.fees + fee))
  }

  /** One order against one level: the new ledger and the quantity taken. */
  function FillLevel(s: Ledger, i: nat, book: Book, level: nat, raw: int, available: int, at: int): Result<(Ledger, int), LedgerError>
    requires i < |s.orders| && ConfigOk(s.config) && book.instrument in s.config.instruments && |book.bids| > 0
  {
    var w, settings := s.orders[i], s.config.instruments[book.instrument];
    var t := TermsOf(w, settings, raw);
    match LevelQuantity(w, settings, raw, available)
    case Err(e) => Err(e)
    case Ok(quantity) =>
      if quantity <= 0 then Ok((s, 0))
      else
        match Product(quantity, t.price)
        case None => Err(NotRepresentable)
        case Some(gross) =>
          var fee := FillFee(t, gross);
          match Settle(s, book, t.buying, quantity, gross, fee, at)
          case Err(e) => Err(e)
          case Ok(settled) =>
            Ok((settled.(orders := s.orders[i := FilledOrder(w, book, level, quantity, t.price, gross, fee, FillDebit(t, gross), at)]),
                quantity))
  }

  // ---- Matching ------------------------------------------------------------------------------------------------

  function LevelsFor(book: Book, side: Side): seq<Level> {
    if side.Buy? then book.asks else book.bids
  }

  /** Walks the levels from `j` until the order is filled. `depth` is what each level still offers. */
  function FillLevels(s: Ledger, i: nat, book: Book, j: nat, depth: seq<int>, at: int): Result<(Ledger, seq<int>), LedgerError>
    requires i < |s.orders| && ConfigOk(s.config) && book.instrument in s.config.instruments && |book.bids| > 0
    requires j <= |LevelsFor(book, s.orders[i].order.side)| == |depth|
    decreases |depth| - j
  {
    var levels := LevelsFor(book, s.orders[i].order.side);
    if j == |levels| then Ok((s, depth))
    else
      match FillLevel(s, i, book, j, levels[j].price, depth[j], at)
      case Err(e) => Err(e)
      case Ok((t, taken)) =>
        var left := depth[j := depth[j] - taken];
        if t.orders[i].order.filled == t.orders[i].target then Ok((t, left)) else FillLevels(t, i, book, j + 1, left, at)
  }

  datatype Matching = Matching(ledger: Ledger, asks: seq<int>, bids: seq<int>)

  ghost predicate MatchingOk(m: Matching, book: Book) {
    && ConfigOk(m.ledger.config) && book.instrument in m.ledger.config.instruments && |book.bids| > 0
    && |m.asks| == |book.asks| && |m.bids| == |book.bids|
  }

  predicate Ready(o: Order, book: Book, latencyMs: int) {
    book.eventTime >= o.submittedAt + latencyMs * 1000 && book.receivedAt >= o.submittedAt + latencyMs * 1000
  }

  /** An accepted order takes what it can and then reaches a terminal status. */
  function Execute(m: Matching, i: nat, book: Book, at: int): (r: Result<Matching, LedgerError>)
    requires MatchingOk(m, book) && i < |m.ledger.orders|
    ensures r.Ok? ==> MatchingOk(r.value, book) && |r.value.ledger.orders| == |m.ledger.orders|
  {
    var s := SetStatus(m.ledger, i, Accepted, at, None);
    var buying := s.orders[i].order.side.Buy?;
    match FillLevels(s, i, book, 0, if buying then m.asks else m.bids, at)
    case Err(e) => Err(e)
    case Ok((t, depth)) =>
      FillLevelsShape(s, i, book, 0, if buying then m.asks else m.bids, at);
      var done :=
        if t.orders[i].order.filled == t.orders[i].target then SetStatus(t, i, Filled, at, None)
        else SetStatus(t, i, Cancelled, at, Some(IocRemainderCancelled));
      Ok(if buying then Matching(done, depth, m.bids) else Matching(done, m.asks, depth))
  }

  /** What a pass does to order `i`. */
  function MatchOrder(m: Matching, i: nat, book: Book, at: int, blocked: seq<Id>, isHealthy: bool): (r: Result<Matching, LedgerError>)
    requires MatchingOk(m, book) && i < |m.ledger.orders|
    ensures r.Ok? ==> MatchingOk(r.value, book) && |r.value.ledger.orders| == |m.ledger.orders|
  {
    var s, w := m.ledger, m.ledger.orders[i];
    if !IsOpen(w.order.status) || w.order.instrument != book.instrument then Ok(m)
    else if at >= w.permit.approval.expiresAt then Ok(m.(ledger := SetStatus(s, i, Expired, at, Some(ApprovalExpired))))
    else if !Ready(w.order, book, s.config.latencyMs) then Ok(m)
    else
      var sealing := s.(isSealed := true);
      if w.permit.approval.intent in blocked then
        Ok(m.(ledger := SetStatus(sealing, i, Cancelled, at, Some(RiskRecheckRejected))))
      else if !isHealthy || AgeMs(at, book.eventTime) > w.permit.execution.maxMarketAgeMs then
        Ok(m.(ledger := SetStatus(sealing, i, Cancelled, at, Some(MarketUnhealthy))))
      else Execute(m.(ledger := sealing), i, book, at)
  }

  function MatchFrom(m: Matching, i: nat, book: Book, at: int, blocked: seq<Id>, isHealthy: bool)
    : (r: Result<Matching, LedgerError>)
    requires MatchingOk(m, book) && i <= |m.ledger.orders|
    ensures r.Ok? ==> MatchingOk(r.value, book) && |r.value.ledger.orders| == |m.ledger.orders|
    decreases |m.ledger.orders| - i
  {
    if i == |m.ledger.orders| then Ok(m)
    else
      match MatchOrder(m, i, book, at, blocked, isHealthy)
      case Err(e) => Err(e)
      case Ok(next) => MatchFrom(next, i + 1, book, at, blocked, isHealthy)
  }

  lemma FillLevelShape(s: Ledger, i: nat, book: Book, level: nat, raw: int, available: int, at: int)
    requires i < |s.orders| && ConfigOk(s.config) && book.instrument in s.config.instruments && |book.bids| > 0
    ensures var r := FillLevel(s, i, book, level, raw, available, at);
            r.Ok? ==>
              && |r.value.0.orders| == |s.orders| && r.value.0.config == s.config
              && r.value.0.orders[i].order.side == s.orders[i].order.side
  {
    hide LevelQuantity, TermsOf;
  }

  lemma {:induction false} FillLevelsShape(s: Ledger, i: nat, book: Book, j: nat, depth: seq<int>, at: int)
    requires i < |s.orders| && ConfigOk(s.config) && book.instrument in s.config.instruments && |book.bids| > 0
    requires j <= |LevelsFor(book, s.orders[i].order.side)| == |depth|
    ensures var r := FillLevels(s, i, book, j, depth, at);
            r.Ok? ==>
              && |r.value.0.orders| == |s.orders| && r.value.0.config == s.config && |r.value.1| == |depth|
              && r.value.0.orders[i].order.side == s.orders[i].order.side
    decreases |depth| - j
  {
    hide FillLevel;
    var levels := LevelsFor(book, s.orders[i].order.side);
    if j < |levels| {
      FillLevelShape(s, i, book, j, levels[j].price, depth[j], at);
      var first := FillLevel(s, i, book, j, levels[j].price, depth[j], at);
      if first.Ok? && first.value.0.orders[i].order.filled != first.value.0.orders[i].target {
        FillLevelsShape(first.value.0, i, book, j + 1, depth[j := depth[j] - first.value.1], at);
      }
    }
  }

  // ---- Market observations and commands ------------------------------------------------------------------------

  predicate InOrder(previous: Book, book: Book) {
    book.sequence > previous.sequence && book.receivedAt >= previous.receivedAt && book.eventTime >= previous.eventTime
  }

  predicate Aligned(levels: seq<Level>, settings: PaperInstrument)
    requires settings.lot > 0 && settings.tick > 0
  {
    forall i :: 0 <= i < |levels| ==> levels[i].price % settings.tick == 0 && levels[i].quantity % settings.lot == 0
  }

  predicate BookHealthy(s: Ledger, book: Book, at: int) {
    var key := book.instrument;
    var expected := if key in s.books then s.books[key].sequence + 1 else 1;
    && (book.resync || (book.sequence == expected && (key !in s.healthy || s.healthy[key])))
    && AgeMs(at, book.eventTime) <= s.config.maxMarketAgeMs
    && AgeMs(at, book.receivedAt) <= s.config.maxMarketAgeMs
  }

  function Quantities(levels: seq<Level>): seq<int> {
    seq(|levels|, i requires 0 <= i < |levels| => levels[i].quantity)
  }

  /** The book and its mark are recorded before any order is matched. */
  function RecordBook(s: Ledger, book: Book, isHealthy: bool): Ledger
    requires |book.bids| > 0
  {
    var key := book.instrument;
    var t := s.(books := s.books[key := book], healthy := s.healthy[key := isHealthy]);
    if isHealthy && key in s.holdings then
      t.(holdings := s.holdings[key := s.holdings[key].(mark := book.bids[0].price)],
         markTimes := s.markTimes[key := book.eventTime])
    else t
  }

  function Observe(s: Ledger, book: Book, at: int, blocked: seq<Id>): Result<Ledger, LedgerError>
    requires ConfigOk(s.config) && BookOk(book)
  {
    var key := book.instrument;
    if key !in s.config.instruments || book.receivedAt > at then Err(InvalidMarketScope)
    else if key in s.books && !InOrder(s.books[key], book) then Err(OutOfOrderMarket)
    else if !Aligned(book.bids, s.config.instruments[key]) || !Aligned(book.asks, s.config.instruments[key]) then
      Err(InvalidIncrement)
    else
      var isHealthy := BookHealthy(s, book, at);
      var m := Matching(RecordBook(s, book, isHealthy), Quantities(book.asks), Quantities(book.bids));
      match MatchFrom(m, 0, book, at, blocked, isHealthy)
      case Err(e) => Err(e)
      case Ok(done) => Ok(done.ledger)
  }

  predicate MarketOk(c: Command) {
    c.ObserveBook? ==> BookOk(c.book)
  }

  /** What the contracts of a command's parts validate. */
  ghost predicate CommandOk(c: Command) {
    && (c.SubmitPermit? ==> ExecutionOk(c.permit.execution) && c.permit.approval.notional > 0)
    && MarketOk(c)
  }

  function Perform(s: Ledger, portfolioHash: Portfolio -> Digest, c: Command): Result<Ledger, LedgerError>
    requires ConfigOk(s.config) && MarketOk(c)
  {
    match c
    case SubmitPermit(at, permit) => SubmitOrder(s, portfolioHash, permit, at)
    case ObserveBook(at, book, blocked) => Observe(s, book, at, blocked)
    case CancelOrder(at, id) => Cancel(s, id, at)
  }

  /** Stamps the new state and raises the peak, refusing a state that cannot be shown. */
  function Finish(s: Ledger, at: int): Result<Ledger, LedgerError> {
    var t := s.(asOf := at);
    match Snapshot(t)
    case Err(e) => Err(e)
    case Ok(state) =>
      if Abs(state.portfolio.peakEquity) > MAX_UNITS then Err(PeakOutOfRange)
      else Ok(t.(peak := state.portfolio.peakEquity))
  }

  /** One command on a copy: the next ledger, or the error that leaves the old one in place. */
  function Apply(s: Ledger, portfolioHash: Portfolio -> Digest, c: Command): Result<Ledger, LedgerError>
    requires ConfigOk(s.config) && MarketOk(c)
  {
    if c.at < s.asOf then Err(OutOfOrderCommand)
    else
      match Perform(s, portfolioHash, c)
      case Err(e) => Err(e)
      case Ok(next) => Finish(next, c.at)
  }

  function BeginGeneration(s: Ledger, at: int): Result<Ledger, LedgerError> {
    if at < s.asOf || OpenCount(s.orders) > 0 then Err(UnsettledOrders)
    else
      var t := s.(asOf := at);
      match Snapshot(t)
      case Err(e) => Err(e)
      case Ok(state) =>
        if !state.portfolio.isReconciled then Err(NeedsReconciliation)
        else Ok(t.(initial := state.portfolio, orders := [], isSealed := false))
  }

  /** The open orders a book is about, with the token each was issued under. */
  function Exposed(orders: seq<WorkingOrder>, key: InstrumentId): seq<(Id, int)> {
    if orders == [] then []
    else
      var n := |orders| - 1;
      Exposed(orders[..n], key) +
      if IsOpen(orders[n].order.status) && orders[n].order.instrument == key
      then [(orders[n].order.intent, orders[n].permit.approval.fencingToken)] else []
  }

  lemma ApplyScope(s: Ledger, portfolioHash: Portfolio -> Digest, c: Command)
    requires ConfigOk(s.config) && MarketOk(c)
    ensures Apply(s, portfolioHash, c).Ok? ==> ConfigOk(Apply(s, portfolioHash, c).value.config)
  {
    hide Snapshot, MatchFrom, IssuanceOk, InstrumentOk, BookHealthy, Aligned, FindOrder, ReservedCash, LotTarget, Sum;
  }

  lemma GenerationScope(s: Ledger, at: int)
    requires ConfigOk(s.config)
    ensures BeginGeneration(s, at).Ok? ==> ConfigOk(BeginGeneration(s, at).value.config)
  {
    hide Snapshot, OpenCount;
  }
}

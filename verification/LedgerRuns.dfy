/** Every command and every generation change keeps the ledger's invariant, over any run. */
module LedgerRuns {
  import opened Outcomes
  import opened Sums
  import opened Domain
  import opened Fixed
  import opened LedgerModel
  import opened LedgerFills
  import opened LedgerSafety
  import opened LedgerConservation
  import opened LedgerPass
  import opened LedgerMatching

  // ---- The invariant between commands ------------------------------------------------------------

  /** A book the ledger has not processed yet. */
  predicate Unseen(s: Ledger, b: Book) {
    b.instrument !in s.books || b.sequence > s.books[b.instrument].sequence
  }

  /** No level of any book has filled more than it displayed, and unseen books have filled nothing. */
  ghost predicate DepthInv(s: Ledger) {
    && (forall b, side, l: nat :: Unseen(s, b) ==> Taken(s, b, side, l) == 0)
    && (forall b, side, l: nat :: BookOk(b) && l < |LevelsFor(b, side)| ==>
          Taken(s, b, side, l) <= LevelsFor(b, side)[l].quantity)
  }

  ghost predicate LedgerInv(s: Ledger) {
    && MidInv(s) && AllResting(s.orders) && DepthInv(s)
    && Snapshot(s).Ok? && Snapshot(s).value.portfolio.equity <= s.peak
  }

  // ---- Snapshots ------------------------------------------------------------------------------------

  lemma {:induction false} ValueFrame(s: Ledger, t: Ledger, keys: seq<InstrumentId>)
    requires t.holdings == s.holdings && t.config == s.config
    ensures Value(t, keys) == Value(s, keys)
  {
    hide Average;
    if keys != [] {
      ValueFrame(s, t, keys[..|keys| - 1]);
    }
  }

  function BasesOf(s: Ledger, keys: seq<InstrumentId>): seq<int> {
    seq(|keys|, i requires 0 <= i < |keys| => BasisOf(s, keys[i]))
  }

  /** A valuation fails only for size, is never negative, and differs from cost by the unrealized P&L. */
  lemma {:induction false} ValueIs(s: Ledger, keys: seq<InstrumentId>)
    requires HoldingsOk(s)
    ensures match Value(s, keys)
            case Err(e) => e == NotRepresentable
            case Ok(v) => v.exposure >= 0 && v.exposure == Sum(BasesOf(s, keys)) + v.unrealized
  {
    hide Average;
    if keys != [] {
      var n := |keys| - 1;
      var key := keys[n];
      ValueIs(s, keys[..n]);
      assert BasesOf(s, keys) == BasesOf(s, keys[..n]) + [BasisOf(s, key)];
      SumAppend(BasesOf(s, keys[..n]), BasisOf(s, key));
      if key in s.holdings && s.holdings[key].quantity > 0 {
        var h := s.holdings[key];
        AverageIsPositive(h.basis, h.quantity);
        if Product(h.quantity, h.mark).Some? {
          ExactValue(h.quantity, h.mark);
        }
      }
    }
  }

  /** A snapshot fails only when some amount is too large to show. */
  lemma SnapshotIs(s: Ledger)
    requires MidInv(s)
    ensures match Snapshot(s)
            case Err(e) => e == NotRepresentable
            case Ok(state) =>
              && Value(s, s.config.keys).Ok? && state.portfolio == PortfolioOf(s, Value(s, s.config.keys).value)
              && state.portfolio.equity == s.cash + Sum(Bases(s)) + state.portfolio.unrealized
              && state.portfolio.equity <= state.portfolio.peakEquity && state.portfolio.peakEquity >= s.peak
              && state.portfolio.equity >= s.cash
  {
    hide Sum, Value, ReservedCash;
    ValueIs(s, s.config.keys);
    assert BasesOf(s, s.config.keys) == Bases(s);
  }

  /** Equity is worth plus every realized P&L plus the unrealized P&L shown. */
  lemma EquityIs(s: Ledger)
    requires MidInv(s) && Snapshot(s).Ok?
    ensures Snapshot(s).value.portfolio.equity == Worth(s) + SumMap(s.realized) + Snapshot(s).value.portfolio.unrealized
  {
    hide Snapshot, Bases, MidInv;
    SnapshotIs(s);
  }

  lemma MidFrame(s: Ledger, t: Ledger)
    requires MidInv(s) && t.config == s.config && t.orders == s.orders && t.cash == s.cash && t.holdings == s.holdings
    requires t.markTimes == s.markTimes && t.realized == s.realized && t.fees == s.fees
    ensures MidInv(t) && Conserves(s, t)
  {
    hide OrdersOk, HoldingOk, ConfigOk;
    assert forall k :: Held(t, k) == Held(s, k);
    SameBases(s, t);
  }

  lemma DepthFrame(s: Ledger, t: Ledger)
    requires DepthInv(s) && t.orders == s.orders && t.books == s.books
    ensures DepthInv(t)
  {
    hide LevelTaken, Sum, BookOk;
    assert forall b, side, l: nat :: Taken(t, b, side, l) == Taken(s, b, side, l);
    assert forall b :: Unseen(t, b) == Unseen(s, b);
  }

  /** Stamping a state either shows it or fails for size alone. */
  lemma FinishKeeps(s: Ledger, at: int)
    requires MidInv(s) && AllResting(s.orders) && DepthInv(s)
    ensures match Finish(s, at)
            case Err(e) => e == NotRepresentable || e == PeakOutOfRange
            case Ok(t) => LedgerInv(t) && t == s.(asOf := at, peak := t.peak) && t.peak >= s.peak && Conserves(s, t)
  {
    hide MidInv, DepthInv, AllResting, Conserves, Value, ReservedCash;
    var u := s.(asOf := at);
    MidFrame(s, u);
    SnapshotIs(u);
    if Finish(s, at).Ok? {
      var t := Finish(s, at).value;
      MidFrame(s, t);
      MidFrame(u, t);
      DepthFrame(s, t);
      ShownAgain(u, t);
    }
  }

  /** Raising the stored peak to the one shown changes nothing that is shown. */
  lemma ShownAgain(u: Ledger, t: Ledger)
    requires Snapshot(u).Ok? && t == u.(peak := Snapshot(u).value.portfolio.peakEquity)
    ensures Snapshot(t).Ok? && Snapshot(t).value == Snapshot(u).value
  {
    hide Value;
    ValueFrame(u, t, u.config.keys);
    assert ReservedCash(t) == ReservedCash(u);
    assert Orders(t) == Orders(u);
  }

  // ---- Commands ---------------------------------------------------------------------------------------

  /** How a ledger moves within a generation: orders are only added, until the batch is sealed. */
  ghost predicate Evolves(s: Ledger, t: Ledger) {
    && t.config == s.config && t.initial == s.initial && t.peak >= s.peak
    && |s.orders| <= |t.orders|
    && (forall i :: 0 <= i < |s.orders| ==> Grows(s.orders[i], t.orders[i]))
    && (s.isSealed ==> t.isSealed && |t.orders| == |s.orders|)
  }

  ghost predicate Commanded(s: Ledger, t: Ledger) {
    MidInv(t) && AllResting(t.orders) && DepthInv(t) && Conserves(s, t) && Evolves(s, t) && t.asOf == s.asOf
  }

  lemma RestingSells(orders: seq<WorkingOrder>, key: InstrumentId)
    requires AllResting(orders)
    ensures SellTargets(orders, key) == SellsLeft(orders, key)
  {
  }

  lemma AppendedTotals(orders: seq<WorkingOrder>, w: WorkingOrder, key: InstrumentId)
    ensures Sum(CashHolds(orders + [w])) == Sum(CashHolds(orders)) + CashHold(w)
    ensures Sum(SellsLeft(orders + [w], key)) == Sum(SellsLeft(orders, key)) + SellLeft(w, key)
    ensures Sum(OrderFees(orders + [w])) == Sum(OrderFees(orders)) + w.order.feesPaid
  {
    hide Sum, CashHold, SellLeft;
    SumAppend(CashHolds(orders), CashHold(w));
    assert CashHolds(orders + [w]) == CashHolds(orders) + [CashHold(w)];
    SumAppend(SellsLeft(orders, key), SellLeft(w, key));
    assert SellsLeft(orders + [w], key) == SellsLeft(orders, key) + [SellLeft(w, key)];
    SumAppend(OrderFees(orders), w.order.feesPaid);
    assert OrderFees(orders + [w]) == OrderFees(orders) + [w.order.feesPaid];
  }

  lemma AppendedTaken(s: Ledger, t: Ledger, w: WorkingOrder, b: Book, side: Side, l: nat)
    requires t.orders == s.orders + [w] && w.order.fills == []
    ensures Taken(t, b, side, l) == Taken(s, b, side, l)
  {
    hide Sum;
    assert OrderTaken(w, b, side, l) == 0 by {
      SumZero(TakenBy(w.order.fills, b, l));
    }
    SumAppend(LevelTaken(s.orders, b, side, l), 0);
    assert LevelTaken(t.orders, b, side, l) == LevelTaken(s.orders, b, side, l) + [0];
  }

  /** A new order starts within its permit. */
  lemma NewOrderOk(c: Config, w: WorkingOrder)
    requires w.permit.approval.instrument in c.instruments && InstrumentOk(c.instruments[w.permit.approval.instrument])
    requires ExecutionOk(w.permit.execution) && w.permit.approval.notional > 0 && w.permit.record.maxCashDebit >= 0
    requires exists at :: w.order == NewOrder(w.permit, at) ||
                          (w.order == WithStatus(NewOrder(w.permit, at), Rejected, at, Some(BelowSimulatorMinimum)))
    requires w.target == LotTarget(w.permit.record.maxQuantity, c.instruments[w.permit.approval.instrument].lot)
    requires w.gross == 0 && w.debit == 0 && (IsOpen(w.order.status) ==> w.target > 0)
    ensures OrderOk(c, w) && Resting(w) && w.order.fills == [] && w.order.feesPaid == 0
  {
    var lot := c.instruments[w.permit.approval.instrument].lot;
    LotsFit(w.permit.record.maxQuantity, lot, w.permit.record.maxQuantity / lot);
  }

  /** The order a submission adds. */
  ghost predicate Submission(s: Ledger, portfolioHash: Portfolio -> Digest, p: Permit, at: int, w: WorkingOrder)
    requires ConfigOk(s.config)
  {
    var key := p.approval.instrument;
    && IssuanceOk(s, portfolioHash, p, at)
    && w.permit == p && w.gross == 0 && w.debit == 0
    && 0 <= p.record.maxCashDebit <= s.cash - ReservedCash(s)
    && w.target == LotTarget(p.record.maxQuantity, s.config.instruments[key].lot)
    && (p.approval.side.Sell? ==> key in s.holdings && w.target <= s.holdings[key].quantity - Sum(SellTargets(s.orders, key)))
    && w.order == (if w.target <= 0 || p.approval.notional < s.config.instruments[key].minimumNotional
                   then WithStatus(NewOrder(p, at), Rejected, at, Some(BelowSimulatorMinimum)) else NewOrder(p, at))
  }

  lemma SubmitShape(s: Ledger, portfolioHash: Portfolio -> Digest, p: Permit, at: int) returns (w: WorkingOrder)
    requires ConfigOk(s.config)
    ensures var r := SubmitOrder(s, portfolioHash, p, at);
            match r
            case Err(e) => e in {BatchSealed, InvalidIssuance, CashUnavailable, QuantityUnavailable}
            case Ok(t) => !s.isSealed && Submission(s, portfolioHash, p, at, w) && t == s.(orders := s.orders + [w])
  {
    hide IssuanceOk, LotTarget, ReservedCash, SellTargets, Sum;
    var r := SubmitOrder(s, portfolioHash, p, at);
    if r.Ok? {
      w := r.value.orders[|s.orders|];
    } else {
      w :| true;
    }
  }

  lemma SubmitKeeps(s: Ledger, portfolioHash: Portfolio -> Digest, p: Permit, at: int)
    requires LedgerInv(s) && CommandOk(SubmitPermit(at, p))
    ensures match SubmitOrder(s, portfolioHash, p, at)
            case Err(e) => e in {BatchSealed, InvalidIssuance, CashUnavailable, QuantityUnavailable}
            case Ok(t) => Commanded(s, t)
  {
    hide Sum, Totalled, HoldingOk, Taken, LotTarget, CashHolds, SellsLeft, SellTargets, Snapshot, BookOk, SumMap, OrderFees;
    var w := SubmitShape(s, portfolioHash, p, at);
    var r := SubmitOrder(s, portfolioHash, p, at);
    if r.Ok? {
      SubmittedKeeps(s, r.value, portfolioHash, p, at, w);
    }
  }

  lemma SubmittedKeeps(s: Ledger, t: Ledger, portfolioHash: Portfolio -> Digest, p: Permit, at: int, w: WorkingOrder)
    requires LedgerInv(s) && CommandOk(SubmitPermit(at, p)) && !s.isSealed
    requires Submission(s, portfolioHash, p, at, w) && t == s.(orders := s.orders + [w])
    ensures Commanded(s, t)
  {
    hide Sum, Totalled, HoldingOk, Taken, LotTarget, CashHolds, SellsLeft, SellTargets, Snapshot, BookOk, SumMap,
         OrderFees, BasisOf, OrderOk, InstrumentOk, Unseen, FlowsKept;
    NewOrderOk(s.config, w);
    HoldingsCarry(s, t);
    SameBases(s, t);
    AppendedFlows(s, t, w);
    OrdersAppend(s, portfolioHash, p, at, w);
    NewHold(w);
    forall k
      ensures Sum(SellsLeft(t.orders, k)) <= Held(t, k)
    {
      AppendedTotals(s.orders, w, k);
      RestingSells(s.orders, k);
    }
    AppendedTotals(s.orders, w, w.order.instrument);
    forall b, side, l: nat
      ensures Taken(t, b, side, l) == Taken(s, b, side, l)
    {
      AppendedTaken(s, t, w, b, side, l);
    }
    SubmittedEvolves(s, t, w);
    DepthCarry(s, t);
  }

  lemma DepthCarry(s: Ledger, t: Ledger)
    requires DepthInv(s) && t.books == s.books
    requires forall b, side, l: nat :: Taken(t, b, side, l) == Taken(s, b, side, l)
    ensures DepthInv(t)
  {
    hide Taken, BookOk;
    assert forall b :: Unseen(t, b) == Unseen(s, b);
  }

  lemma NewHold(w: WorkingOrder)
    requires Resting(w) && w.gross == 0 && w.debit == 0 && w.permit.record.maxCashDebit >= 0
    ensures 0 <= CashHold(w) <= w.permit.record.maxCashDebit
    ensures forall k :: SellLeft(w, k) == if IsOpen(w.order.status) && w.order.side.Sell? && w.order.instrument == k then w.target else 0
  {
  }

  lemma OrdersAppend(s: Ledger, portfolioHash: Portfolio -> Digest, p: Permit, at: int, w: WorkingOrder)
    requires ConfigOk(s.config) && OrdersOk(s.config, s.orders) && Submission(s, portfolioHash, p, at, w)
    requires OrderOk(s.config, w)
    ensures OrdersOk(s.config, s.orders + [w])
  {
    hide OrderOk, ReservedCash, SellTargets, LotTarget, Sum;
  }

  lemma SubmittedEvolves(s: Ledger, t: Ledger, w: WorkingOrder)
    requires !s.isSealed && t == s.(orders := s.orders + [w])
    ensures Evolves(s, t)
  {
    forall i | 0 <= i < |s.orders|
      ensures Grows(s.orders[i], t.orders[i])
    {
    }
  }

  lemma CancelKeeps(s: Ledger, id: ClientOrderId, at: int)
    requires LedgerInv(s)
    ensures match Cancel(s, id, at)
            case Err(e) => e == UnknownOrder
            case Ok(t) => Commanded(s, t)
  {
    hide MidInv, Conserves, Grows, OrderTaken, Taken, Snapshot, WithStatus, FindOrder;
    FindOrderIs(s.orders, id);
    var found := FindOrder(s.orders, id);
    if found.Some? {
      var i := found.value;
      if IsOpen(s.orders[i].order.status) {
        CloseTouches(s, i, Cancelled, at, Some(CancelledByCoordinator));
        TouchedCommands(s, SetStatus(s, i, Cancelled, at, Some(CancelledByCoordinator)), i);
      } else {
        StillCommanded(s);
      }
    }
  }

  lemma StillCommanded(s: Ledger)
    requires LedgerInv(s)
    ensures Commanded(s, s)
  {
    hide MidInv, DepthInv, Worth, FeesBefore, CashBefore, StockBefore, Snapshot;
    forall i | 0 <= i < |s.orders|
      ensures Grows(s.orders[i], s.orders[i])
    {
    }
  }

  lemma TouchedCommands(s: Ledger, t: Ledger, i: nat)
    requires LedgerInv(s) && i < |s.orders| && Touched(s, t, i) && t == s.(orders := t.orders)
    requires forall b, d, l: nat :: OrderTaken(t.orders[i], b, d, l) == OrderTaken(s.orders[i], b, d, l)
    ensures Commanded(s, t)
  {
    hide MidInv, Conserves, Grows, OrderTaken, Taken, Snapshot;
    TouchedMatches(s, t, i);
    forall b, side, l: nat
      ensures Taken(t, b, side, l) == Taken(s, b, side, l)
    {
      TakenAfter(s, t, i, b, side, l);
    }
    DepthCarry(s, t);
  }

  lemma RecordKeeps(s: Ledger, book: Book, isHealthy: bool)
    requires MidInv(s) && BookOk(book)
    ensures var t := RecordBook(s, book, isHealthy);
            && MidInv(t) && Conserves(s, t) && t.orders == s.orders && t.config == s.config && t.initial == s.initial
            && t.peak == s.peak && t.asOf == s.asOf && t.isSealed == s.isSealed
            && t.books == s.books[book.instrument := book]
            && t.healthy == s.healthy[book.instrument := isHealthy]
  {
    hide Sum, SumMap, ConfigOk, OrdersOk, CashHolds, SellsLeft;
    var t := RecordBook(s, book, isHealthy);
    assert forall k :: Held(t, k) == Held(s, k);
    SameBases(s, t);
  }

  lemma ObservedDepth(s: Ledger, m: Matching, t: Ledger, n: Matching, book: Book)
    requires DepthInv(s) && m.ledger.orders == s.orders && BookOk(book)
    requires m.asks == Quantities(book.asks) && m.bids == Quantities(book.bids)
    requires book.instrument in s.books ==> InOrder(s.books[book.instrument], book)
    requires PassStep(m, n, book) && n.ledger == t && t.books == s.books[book.instrument := book]
    ensures DepthInv(t)
  {
    hide LevelTaken, Sum, Matched;
    assert Unseen(s, book);
    forall b, side, l: nat
      ensures Unseen(t, b) ==> Taken(t, b, side, l) == 0
      ensures BookOk(b) && l < |LevelsFor(b, side)| ==> Taken(t, b, side, l) <= LevelsFor(b, side)[l].quantity
    {
      assert Taken(m.ledger, b, side, l) == Taken(s, b, side, l);
      SideDepth(m, n, book, side);
      if b != book {
        assert Unseen(t, b) ==> Unseen(s, b);
      }
    }
  }

  lemma SideDepth(m: Matching, n: Matching, book: Book, side: Side)
    requires PassStep(m, n, book)
    requires m.asks == Quantities(book.asks) && m.bids == Quantities(book.bids) && BookOk(book)
    ensures forall l: nat :: l < |LevelsFor(book, side)| ==>
              Taken(n.ledger, book, side, l) <= LevelsFor(book, side)[l].quantity + Taken(m.ledger, book, side, l)
    ensures forall other, l: nat :: other != book ==> Taken(n.ledger, other, side, l) == Taken(m.ledger, other, side, l)
  {
    hide Taken, Matched;
  }

  lemma ObserveKeeps(s: Ledger, book: Book, at: int, blocked: seq<Id>)
    requires LedgerInv(s) && BookOk(book)
    ensures ConfigOk(s.config)
    ensures match Observe(s, book, at, blocked)
            case Err(e) => e in {InvalidMarketScope, OutOfOrderMarket, InvalidIncrement, NotRepresentable}
            case Ok(t) => Commanded(s, t) && t.books == s.books[book.instrument := book]
  {
    hide MidInv, Conserves, Grows, DepthInv, Snapshot, MatchFrom, BookHealthy, RecordBook, Aligned, AllResting, PassStep;
    MidConfig(s);
    var r := Observe(s, book, at, blocked);
    if r.Ok? {
      var isHealthy := BookHealthy(s, book, at);
      var m := Matching(RecordBook(s, book, isHealthy), Quantities(book.asks), Quantities(book.bids));
      RecordKeeps(s, book, isHealthy);
      PassKeeps(m, 0, book, at, blocked, isHealthy);
      ObservedKeeps(s, m, MatchFrom(m, 0, book, at, blocked, isHealthy).value, book);
    } else if book.instrument in s.config.instruments && !r.error.InvalidMarketScope? && !r.error.OutOfOrderMarket? && !r.error.InvalidIncrement? {
      var isHealthy := BookHealthy(s, book, at);
      var m := Matching(RecordBook(s, book, isHealthy), Quantities(book.asks), Quantities(book.bids));
      RecordKeeps(s, book, isHealthy);
      PassKeeps(m, 0, book, at, blocked, isHealthy);
    }
  }

  lemma ObservedKeeps(s: Ledger, m: Matching, n: Matching, book: Book)
    requires LedgerInv(s) && BookOk(book)
    requires m.asks == Quantities(book.asks) && m.bids == Quantities(book.bids)
    requires Conserves(s, m.ledger) && m.ledger.orders == s.orders && m.ledger.config == s.config
    requires m.ledger.initial == s.initial && m.ledger.peak == s.peak && m.ledger.asOf == s.asOf
    requires m.ledger.isSealed == s.isSealed && m.ledger.books == s.books[book.instrument := book]
    requires book.instrument in s.books ==> InOrder(s.books[book.instrument], book)
    requires PassStep(m, n, book)
    ensures Commanded(s, n.ledger) && n.ledger.books == s.books[book.instrument := book]
  {
    hide MidInv, Grows, DepthInv, Snapshot, Worth, FeesBefore, CashBefore, StockBefore, DepthKept, InOrder;
    ObservedDepth(s, m, n.ledger, n, book);
  }

  // ---- Runs ---------------------------------------------------------------------------------------------

  /** The refusals a command can meet in a reachable ledger; the "cannot happen" ones are not among them. */
  predicate Refusal(e: LedgerError) {
    e in {OutOfOrderCommand, UnknownOrder, BatchSealed, InvalidIssuance, CashUnavailable, QuantityUnavailable,
          InvalidMarketScope, OutOfOrderMarket, InvalidIncrement, NotRepresentable, PeakOutOfRange}
  }

  /**
   * A command keeps the invariant, conserves worth, counts exactly the fees of its fills and only lets
   * orders evolve; what it refuses is never an impossible state.
   */
  lemma ApplyKeeps(s: Ledger, portfolioHash: Portfolio -> Digest, c: Command)
    requires LedgerInv(s) && CommandOk(c)
    ensures ConfigOk(s.config)
    ensures match Apply(s, portfolioHash, c)
            case Err(e) => Refusal(e)
            case Ok(t) => LedgerInv(t) && Conserves(s, t) && Evolves(s, t) && s.asOf <= t.asOf == c.at
  {
    hide MidInv, Conserves, Grows, DepthInv, Snapshot, SubmitOrder, Observe, Cancel, Finish, AllResting;
    MidConfig(s);
    match c {
      case SubmitPermit(at, permit) => SubmitKeeps(s, portfolioHash, permit, at);
      case ObserveBook(at, book, blocked) => ObserveKeeps(s, book, at, blocked);
      case CancelOrder(at, id) => CancelKeeps(s, id, at);
    }
    var r := Perform(s, portfolioHash, c);
    if r.Ok? {
      FinishKeeps(r.value, c.at);
      if Finish(r.value, c.at).Ok? {
        ConservesTransitive(s, r.value, Finish(r.value, c.at).value);
      }
    }
  }

  lemma {:induction false} NothingOpen(orders: seq<WorkingOrder>)
    ensures OpenCount(orders) >= 0
    ensures OpenCount(orders) == 0 <==> forall w :: w in orders ==> !IsOpen(w.order.status)
  {
    if orders != [] {
      var n := |orders| - 1;
      NothingOpen(orders[..n]);
      assert orders == orders[..n] + [orders[n]];
    }
  }

  /**
   * A new generation starts only when nothing is open and the account is reconciled; it carries the
   * exact accounting forward, and the portfolio it starts from is the one it shows.
   */
  lemma GenerationKeeps(s: Ledger, at: int)
    requires LedgerInv(s)
    ensures match BeginGeneration(s, at)
            case Err(e) => e in {UnsettledOrders, NotRepresentable, NeedsReconciliation}
            case Ok(t) =>
              && LedgerInv(t) && Worth(t) == Worth(s) && t.fees == s.fees && t.realized == s.realized
              && (forall w :: w in s.orders ==> !IsOpen(w.order.status))
              && t.orders == [] && !t.isSealed && t.asOf == at >= s.asOf
              && t.initial == Snapshot(t).value.portfolio && t.initial.isReconciled
              && t.initial.workspace == s.initial.workspace && t.initial.mode == s.initial.mode
              && t == s.(asOf := at, initial := t.initial, orders := [], isSealed := false)
  {
    hide MidInv, DepthInv, AllResting, Conserves, Value, ReservedCash, SellsLeft;
    NothingOpen(s.orders);
    var u := s.(asOf := at);
    MidFrame(s, u);
    SnapshotIs(s);
    SnapshotIs(u);
    ValueFrame(s, u, s.config.keys);
    var r := BeginGeneration(s, at);
    if r.Ok? {
      NewGenerationInv(u, r.value);
    }
  }

  lemma EmptyReserved(s: Ledger)
    requires forall w :: w in s.orders ==> !IsOpen(w.order.status)
    ensures ReservedCash(s) == 0 && forall k :: Sum(SellsLeft(s.orders, k)) == 0
  {
    SumZero(CashHolds(s.orders));
    forall k
      ensures Sum(SellsLeft(s.orders, k)) == 0
    {
      SumZero(SellsLeft(s.orders, k));
    }
  }

  lemma NoOrdersInv(s: Ledger, t: Ledger)
    requires MidInv(s) && t == s.(initial := t.initial, orders := [], isSealed := false)
    ensures MidInv(t) && AllResting(t.orders) && DepthInv(t) && Worth(t) == Worth(s)
  {
    hide HoldingOk, ConfigOk, SellsLeft, CashHolds;
    SameBases(s, t);
    EmptyReserved(t);
    HoldingsCarry(s.(initial := t.initial, isSealed := false), t);
    assert forall k :: k in s.holdings ==> HoldingOk(s.holdings[k]) && s.holdings[k].quantity >= 0 by {
      HeldNonNegative(s);
    }
    forall b, side, l: nat
      ensures Taken(t, b, side, l) == 0
    {
      SumZero(LevelTaken(t.orders, b, side, l));
    }
  }

  lemma HeldNonNegative(s: Ledger)
    requires HoldingsOk(s)
    ensures forall k :: k in s.holdings ==> HoldingOk(s.holdings[k]) && s.holdings[k].quantity >= 0
  {
  }

  lemma NewGenerationInv(u: Ledger, t: Ledger)
    requires MidInv(u) && Snapshot(u).Ok? && (forall w :: w in u.orders ==> !IsOpen(w.order.status))
    requires Snapshot(u).value.portfolio.equity <= u.peak
    requires t == u.(initial := Snapshot(u).value.portfolio, orders := [], isSealed := false)
    ensures LedgerInv(t) && Worth(t) == Worth(u) && Snapshot(t).value.portfolio == t.initial
  {
    hide MidInv, DepthInv, Conserves, Value, SellsLeft, Sum;
    NoOrdersInv(u, t);
    ValueFrame(u, t, u.config.keys);
    EmptyReserved(u);
    EmptyReserved(t);
    NothingOpen(u.orders);
  }
}

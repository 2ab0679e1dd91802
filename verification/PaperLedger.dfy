/** The ledger as an object: balances and orders updated in place on a copy, depth in arrays. */
module PaperLedger {
  import opened Outcomes
  import opened Sums
  import opened Domain
  import opened Fixed
  import LM = LedgerModel
  import LF = LedgerFills
  import RiskAccount

  /** The ledger after a fill: the moved holding with its realized gain, and what was paid and charged. */
  function Paid(s: LM.Ledger, book: Book, moved: LM.Holding, paid: int, gain: int, fee: int, at: int): LM.Ledger {
    s.(cash := s.cash - paid,
       holdings := s.holdings[book.instrument := moved.(realized := moved.realized + gain)],
       markTimes := s.markTimes[book.instrument := book.eventTime],
       realized := Bump(s.realized, Date(at), gain),
       fees := s.fees + fee)
  }

  /** A bought fill moves cash into the holding and realizes its fee. */
  lemma BuySettles(s: LM.Ledger, book: Book, quantity: int, gross: int, fee: int, at: int)
    requires |book.bids| > 0 && quantity > 0
    ensures var h := LM.HoldingOr(s, book, at);
            LM.Settle(s, book, true, quantity, gross, fee, at) ==
            if s.cash < gross + fee then Err(LM.CashInvariant)
            else Ok(Paid(s, book, h.(quantity := h.quantity + quantity, basis := h.basis + gross), gross + fee, -fee, fee, at))
  {
    hide Bump, Date, LM.HoldingOr;
  }

  /** A sold fill releases its part of the basis and realizes the difference. */
  lemma SaleSettles(s: LM.Ledger, book: Book, quantity: int, gross: int, fee: int, at: int)
    requires |book.bids| > 0 && quantity > 0
    ensures var h := LM.HoldingOr(s, book, at);
            LM.Settle(s, book, false, quantity, gross, fee, at) ==
            if h.quantity < quantity || s.cash < fee then Err(LM.PositionInvariant)
            else
              var basis := h.basis * quantity / h.quantity;
              Ok(Paid(s, book, h.(quantity := h.quantity - quantity, basis := h.basis - basis), fee - gross, gross - basis - fee, fee, at))
  {
    hide Bump, Date, LM.HoldingOr;
  }

  class Ledger {
    const config: LM.Config
    var initial: Portfolio
    var cash: int
    var peak: int
    var realized: map<int, int>
    var fees: int
    var holdings: map<InstrumentId, LM.Holding>
    var markTimes: map<InstrumentId, int>
    var orders: seq<LM.WorkingOrder>
    var books: map<InstrumentId, Book>
    var healthy: map<InstrumentId, bool>
    var asOf: int
    var isSealed: bool

    /** The value the specification speaks about. */
    function State(): LM.Ledger
      reads this
    {
      LM.Ledger(config, initial, cash, peak, realized, fees, holdings, markTimes, orders, books, healthy, asOf, isSealed)
    }

    constructor (s: LM.Ledger)
      ensures State() == s
    {
      config, initial, cash, peak := s.config, s.initial, s.cash, s.peak;
      realized, fees, holdings, markTimes := s.realized, s.fees, s.holdings, s.markTimes;
      orders, books, healthy, asOf, isSealed := s.orders, s.books, s.healthy, s.asOf, s.isSealed;
    }

    /** Validates a starting portfolio position by position. */
    static method Open(initial: Portfolio, c: LM.Config) returns (r: Result<Ledger, LM.LedgerError>)
      ensures match LM.Create(initial, c)
              case Err(e) => r == Err(e)
              case Ok(s) => r.Ok? && fresh(r.value) && r.value.State() == s
    {
      if !(initial.mode.Paper? || initial.mode.Backtest?) || !initial.isReconciled {
        return Err(LM.InvalidInitialAccount);
      }
      var account := RiskAccount.ComputeAccountState(initial, LM.Networks(c), []);
      if account.None? {
        return Err(LM.InvalidInitialState);
      }
      if initial.reconciledAt.None? || initial.reconciledAt.value > initial.asOf {
        return Err(LM.InvalidInitialReconciliation);
      }
      var opening := LM.Opening(map[], map[], 0);
      var ps := initial.positions;
      for i := 0 to |ps|
        invariant LM.OpenPositions(ps[..i], c, initial.asOf) == Ok(opening)
      {
        assert ps[..i + 1][..i] == ps[..i];
        var next := LM.OpenPosition(opening, ps[i], c, initial.asOf);
        if next.Err? {
          OpeningFails(ps, i + 1, c, initial.asOf);
          return Err(next.error);
        }
        opening := next.value;
      }
      assert ps[..|ps|] == ps;
      if initial.unrealized != opening.unrealized {
        return Err(LM.InconsistentPnl);
      }
      var ledger := new Ledger(LM.Ledger(
        c, initial, initial.cash, initial.peakEquity, map[Date(initial.asOf) := initial.realizedToday], 0,
        opening.holdings, opening.markTimes, [], map[], map[], initial.asOf, false));
      r := Ok(ledger);
    }

    method Clone() returns (copy: Ledger)
      ensures fresh(copy) && copy.State() == State()
    {
      copy := new Ledger(State());
    }

    method ReservedCash() returns (total: int)
      ensures total == LM.ReservedCash(State())
    {
      total := 0;
      for i := 0 to |orders|
        invariant total == Sum(LM.CashHolds(orders)[..i])
      {
        assert LM.CashHolds(orders)[..i + 1] == LM.CashHolds(orders)[..i] + [LM.CashHold(orders[i])];
        SumAppend(LM.CashHolds(orders)[..i], LM.CashHold(orders[i]));
        if IsOpen(orders[i].order.status) {
          total := total + (orders[i].permit.record.maxCashDebit - orders[i].debit);
        }
      }
      assert LM.CashHolds(orders)[..|orders|] == LM.CashHolds(orders);
    }

    /** The quantity open sells of an instrument already claim. */
    method ReservedQuantity(key: InstrumentId) returns (total: int)
      ensures total == Sum(LM.SellTargets(State().orders, key))
    {
      total := 0;
      for i := 0 to |orders|
        invariant total == Sum(LM.SellTargets(orders, key)[..i])
      {
        assert LM.SellTargets(orders, key)[..i + 1] == LM.SellTargets(orders, key)[..i] + [LM.SellTarget(orders[i], key)];
        SumAppend(LM.SellTargets(orders, key)[..i], LM.SellTarget(orders[i], key));
        if IsOpen(orders[i].order.status) && orders[i].order.side.Sell? && orders[i].order.instrument == key {
          total := total + orders[i].target;
        }
      }
      assert LM.SellTargets(orders, key)[..|orders|] == LM.SellTargets(orders, key);
    }

    /** The open orders a book is about, with the token each was issued under. */
    method Exposed(key: InstrumentId) returns (commands: seq<(Id, int)>)
      ensures commands == LM.Exposed(State().orders, key)
    {
      commands := [];
      for i := 0 to |orders|
        invariant commands == LM.Exposed(orders[..i], key)
      {
        assert orders[..i + 1][..i] == orders[..i];
        if IsOpen(orders[i].order.status) && orders[i].order.instrument == key {
          commands := commands + [(orders[i].order.intent, orders[i].permit.approval.fencingToken)];
        }
      }
      assert orders[..|orders|] == orders;
    }

    /** Values the holdings in instrument order. */
    method Valuation() returns (r: Result<LM.Valuation, LM.LedgerError>)
      ensures r == LM.Value(State(), config.keys)
    {
      hide Average, Product;
      var keys := config.keys;
      var exposure, unrealized, positions := 0, 0, [];
      for i := 0 to |keys|
        invariant LM.Value(State(), keys[..i]) == Ok(LM.Valuation(exposure, unrealized, positions))
      {
        assert keys[..i + 1][..i] == keys[..i];
        var key := keys[i];
        if key in holdings && holdings[key].quantity != 0 {
          var h := holdings[key];
          var value := Product(h.quantity, h.mark);
          if value.None? {
            ValueFails(State(), keys, i + 1);
            return Err(LM.NotRepresentable);
          }
          if h.quantity < 0 || Average(h.basis, h.quantity) <= 0 {
            ValueFails(State(), keys, i + 1);
            return Err(LM.InvalidAveragePrice);
          }
          exposure := exposure + value.value;
          unrealized := unrealized + value.value - h.basis;
          positions := positions + [LM.PositionOf(State(), key, value.value)];
        }
      }
      assert keys[..|keys|] == keys;
      r := Ok(LM.Valuation(exposure, unrealized, positions));
    }

    method Snapshot() returns (r: Result<LM.AccountState, LM.LedgerError>)
      ensures r == LM.Snapshot(State())
    {
      hide LM.Value, LM.ReservedCash;
      var valued := Valuation();
      if valued.Err? {
        return Err(valued.error);
      }
      var p := LM.PortfolioOf(State(), valued.value);
      if !LM.PortfolioValid(p) {
        return Err(LM.InvalidPortfolio);
      }
      r := Ok(LM.AccountState(
        config.account, p, LM.Orders(State()), map k | k in holdings :: holdings[k].basis, markTimes, fees, isSealed));
    }

    method SetStatus(i: nat, status: Status, at: int, remark: Option<Remark>)
      requires i < |orders|
      modifies this`orders
      ensures State() == old(LM.SetStatus(State(), i, status, at, remark))
    {
      orders := orders[i := orders[i].(order := LM.WithStatus(orders[i].order, status, at, remark))];
    }

    method Submit(portfolioHash: Portfolio -> Digest, permit: Permit, at: int) returns (r: Result<(), LM.LedgerError>)
      requires LM.ConfigOk(config)
      modifies this
      ensures match old(LM.SubmitOrder(State(), portfolioHash, permit, at))
              case Err(e) => r == Err(e) && State() == old(State())
              case Ok(s) => r == Ok(()) && State() == s
    {
      hide LM.IssuanceOk, LM.ReservedCash, LM.SellTargets, Sum, LM.LotTarget, LM.NewOrder;
      var approval, record := permit.approval, permit.record;
      var key := approval.instrument;
      if isSealed {
        return Err(LM.BatchSealed);
      }
      if !LM.IssuanceOk(State(), portfolioHash, permit, at) {
        return Err(LM.InvalidIssuance);
      }
      KnownInstrument(State(), portfolioHash, permit, at);
      var target := LM.LotTarget(record.maxQuantity, config.instruments[key].lot);
      var reserved := ReservedCash();
      if record.maxCashDebit < 0 || record.maxCashDebit > cash - reserved {
        return Err(LM.CashUnavailable);
      }
      if approval.side.Sell? {
        var claimed := ReservedQuantity(key);
        if key !in holdings || target > holdings[key].quantity - claimed {
          return Err(LM.QuantityUnavailable);
        }
      }
      var item := LM.WorkingOrder(permit, LM.NewOrder(permit, at), target, 0, 0);
      if target <= 0 || approval.notional < config.instruments[key].minimumNotional {
        item := item.(order := LM.WithStatus(item.order, Rejected, at, Some(BelowSimulatorMinimum)));
      }
      orders := orders + [item];
      r := Ok(());
    }

    /** The lot search of one level, as the loop that runs it. */
    method SearchLots(t: LM.Terms, maximum: nat) returns (r: Result<nat, LM.LedgerError>)
      ensures r == LM.SearchLots(t, 0, maximum)
    {
      var low: nat, high: nat := 0, maximum;
      while low < high
        invariant low <= high && LM.SearchLots(t, low, high) == LM.SearchLots(t, 0, maximum)
      {
        var middle := (low + high + 1) / 2;
        var fits := LM.Allowed(t, middle);
        if fits.None? {
          return Err(LM.NotRepresentable);
        }
        if fits.value {
          low := middle;
        } else {
          high := middle - 1;
        }
      }
      r := Ok(low);
    }

    /** The money side of a fill: cash, holding, mark time, realized P&L and fees. */
    method Settle(book: Book, buying: bool, quantity: int, gross: int, fee: int, at: int) returns (r: Result<(), LM.LedgerError>)
      requires |book.bids| > 0 && quantity > 0
      modifies this
      ensures match old(LM.Settle(State(), book, buying, quantity, gross, fee, at))
              case Err(e) => r == Err(e) && State() == old(State())
              case Ok(s) => r == Ok(()) && State() == s
    {
      hide Bump, Date, LM.Settle, LM.HoldingOr;
      BuySettles(State(), book, quantity, gross, fee, at);
      SaleSettles(State(), book, quantity, gross, fee, at);
      var key := book.instrument;
      var h := LM.HoldingOr(State(), book, at);
      var moved, gain, paid := h, 0, 0;
      if buying {
        if cash < gross + fee {
          return Err(LM.CashInvariant);
        }
        moved, gain, paid := h.(quantity := h.quantity + quantity, basis := h.basis + gross), -fee, gross + fee;
      } else {
        if h.quantity < quantity || cash < fee {
          return Err(LM.PositionInvariant);
        }
        var basis := h.basis * quantity / h.quantity;
        moved, gain, paid := h.(quantity := h.quantity - quantity, basis := h.basis - basis), gross - basis - fee, fee - gross;
      }
      Pay(book, moved, paid, gain, fee, at);
      r := Ok(());
    }

    /** Moves cash, holding, mark time, realized P&L and fees together. */
    method Pay(book: Book, moved: LM.Holding, paid: int, gain: int, fee: int, at: int)
      modifies this
      ensures State() == old(Paid(State(), book, moved, paid, gain, fee, at))
    {
      hide Bump, Date;
      cash := cash - paid;
      holdings := holdings[book.instrument := moved.(realized := moved.realized + gain)];
      markTimes := markTimes[book.instrument := book.eventTime];
      realized := Bump(realized, Date(at), gain);
      fees := fees + fee;
    }

    /** One order takes what it may from one level; cash, holding, order and depth move together. */
    method FillLevel(i: nat, book: Book, level: nat, raw: int, depth: array<int>, at: int) returns (r: Result<(), LM.LedgerError>)
      requires i < |orders| && LM.ConfigOk(config) && book.instrument in config.instruments && |book.bids| > 0
      requires level < depth.Length
      modifies this, depth
      ensures match old(LM.FillLevel(State(), i, book, level, raw, depth[level], at))
              case Err(e) => r == Err(e)
              case Ok((s, taken)) =>
                r == Ok(()) && State() == s && depth[..] == old(depth[..])[level := old(depth[level]) - taken]
    {
      hide LM.SearchLots, LM.ExecutionPrice, Product, LM.FillFee, Average, LM.Settle;
      var item := orders[i];
      var settings := config.instruments[book.instrument];
      var t := LM.TermsOf(item, settings, raw);
      if t.price <= 0 {
        return Ok(());
      }
      var maximum := Min(item.target - item.order.filled, depth[level]) / settings.lot;
      if maximum <= 0 {
        return Ok(());
      }
      var lots := SearchLots(t, maximum);
      if lots.Err? {
        return Err(lots.error);
      }
      var quantity := lots.value * settings.lot;
      if quantity <= 0 {
        return Ok(());
      }
      var value := Product(quantity, t.price);
      if value.None? {
        return Err(LM.NotRepresentable);
      }
      var gross := value.value;
      var fee := LM.FillFee(t, gross);
      LF.SettledOrders(State(), book, t.buying, quantity, gross, fee, at);
      var settled := Settle(book, t.buying, quantity, gross, fee, at);
      if settled.Err? {
        return settled;
      }
      orders := orders[i := LM.FilledOrder(item, book, level, quantity, t.price, gross, fee, LM.FillDebit(t, gross), at)];
      depth[level] := depth[level] - quantity;
      r := Ok(());
    }

    /** Walks the levels of one side until the order is filled. */
    method FillLevels(i: nat, book: Book, depth: array<int>, at: int) returns (r: Result<(), LM.LedgerError>)
      requires i < |orders| && LM.ConfigOk(config) && book.instrument in config.instruments && |book.bids| > 0
      requires depth.Length == |LM.LevelsFor(book, orders[i].order.side)|
      modifies this, depth
      ensures match old(LM.FillLevels(State(), i, book, 0, depth[..], at))
              case Err(e) => r == Err(e)
              case Ok((s, left)) => r == Ok(()) && State() == s && depth[..] == left
    {
      hide LM.FillLevel;
      ghost var whole := LM.FillLevels(State(), i, book, 0, depth[..], at);
      var levels := LM.LevelsFor(book, orders[i].order.side);
      var j := 0;
      while j < |levels|
        invariant 0 <= j <= |levels| == depth.Length && i < |orders|
        invariant levels == LM.LevelsFor(book, orders[i].order.side)
        invariant LM.FillLevels(State(), i, book, j, depth[..], at) == whole
      {
        LM.FillLevelShape(State(), i, book, j, levels[j].price, depth[j], at);
        var filled := FillLevel(i, book, j, levels[j].price, depth, at);
        if filled.Err? {
          return filled;
        }
        if orders[i].order.filled == orders[i].target {
          return Ok(());
        }
        j := j + 1;
      }
      r := Ok(());
    }

    /** Records a book, then matches the open orders it is about against its shared depth. */
    method Market(book: Book, at: int, blocked: seq<Id>) returns (r: Result<(), LM.LedgerError>)
      requires LM.ConfigOk(config) && BookOk(book)
      modifies this
      ensures match old(LM.Observe(State(), book, at, blocked))
              case Err(e) => r == Err(e)
              case Ok(s) => r == Ok(()) && State() == s
    {
      hide LM.BookHealthy, LM.FillLevels, LM.WithStatus, LM.Aligned, BookOk;
      BooksHaveLevels(book);
      var key := book.instrument;
      if key !in config.instruments || book.receivedAt > at {
        return Err(LM.InvalidMarketScope);
      }
      if key in books && !LM.InOrder(books[key], book) {
        return Err(LM.OutOfOrderMarket);
      }
      if !LM.Aligned(book.bids, config.instruments[key]) || !LM.Aligned(book.asks, config.instruments[key]) {
        return Err(LM.InvalidIncrement);
      }
      var isHealthy := LM.BookHealthy(State(), book, at);
      Record(book, isHealthy);
      var asks := new int[|book.asks|](i requires 0 <= i < |book.asks| => book.asks[i].quantity);
      var bids := new int[|book.bids|](i requires 0 <= i < |book.bids| => book.bids[i].quantity);
      assert asks[..] == LM.Quantities(book.asks) && bids[..] == LM.Quantities(book.bids);
      r := Match(book, asks, bids, at, blocked, isHealthy);
    }

    /** Replaces the book and, when it is healthy, the mark of a held instrument. */
    method Record(book: Book, isHealthy: bool)
      requires |book.bids| > 0
      modifies this
      ensures State() == old(LM.RecordBook(State(), book, isHealthy))
    {
      var key := book.instrument;
      books, healthy := books[key := book], healthy[key := isHealthy];
      if isHealthy && key in holdings {
        holdings := holdings[key := holdings[key].(mark := book.bids[0].price)];
        markTimes := markTimes[key := book.eventTime];
      }
    }

    /** The pass over the orders, in the order they were submitted. */
    method Match(book: Book, asks: array<int>, bids: array<int>, at: int, blocked: seq<Id>, isHealthy: bool)
      returns (r: Result<(), LM.LedgerError>)
      requires LM.ConfigOk(config) && book.instrument in config.instruments && |book.bids| > 0
      requires asks.Length == |book.asks| && bids.Length == |book.bids| && asks != bids
      modifies this, asks, bids
      ensures match old(LM.MatchFrom(LM.Matching(State(), asks[..], bids[..]), 0, book, at, blocked, isHealthy))
              case Err(e) => r == Err(e)
              case Ok(m) => r == Ok(()) && State() == m.ledger
    {
      hide LM.MatchOrder, LM.ConfigOk;
      ghost var whole := LM.MatchFrom(LM.Matching(State(), asks[..], bids[..]), 0, book, at, blocked, isHealthy);
      var i := 0;
      while i < |orders|
        invariant 0 <= i <= |orders|
        invariant LM.MatchFrom(LM.Matching(State(), asks[..], bids[..]), i, book, at, blocked, isHealthy) == whole
        decreases |orders| - i
      {
        var matched := MatchOne(i, book, asks, bids, at, blocked, isHealthy);
        if matched.Err? {
          return matched;
        }
        i := i + 1;
      }
      r := Ok(());
    }

    /** What the pass does to one order. */
    method MatchOne(i: nat, book: Book, asks: array<int>, bids: array<int>, at: int, blocked: seq<Id>, isHealthy: bool)
      returns (r: Result<(), LM.LedgerError>)
      requires i < |orders| && LM.ConfigOk(config) && book.instrument in config.instruments && |book.bids| > 0
      requires asks.Length == |book.asks| && bids.Length == |book.bids| && asks != bids
      modifies this, asks, bids
      ensures match old(LM.MatchOrder(LM.Matching(State(), asks[..], bids[..]), i, book, at, blocked, isHealthy))
              case Err(e) => r == Err(e)
              case Ok(m) => r == Ok(()) && State() == m.ledger && asks[..] == m.asks && bids[..] == m.bids
    {
      hide LM.FillLevels, LM.WithStatus, LM.ConfigOk;
      var item := orders[i];
      if !IsOpen(item.order.status) || item.order.instrument != book.instrument {
        return Ok(());
      }
      if at >= item.permit.approval.expiresAt {
        SetStatus(i, Expired, at, Some(ApprovalExpired));
        return Ok(());
      }
      if !LM.Ready(item.order, book, config.latencyMs) {
        return Ok(());
      }
      isSealed := true;
      if item.permit.approval.intent in blocked {
        SetStatus(i, Cancelled, at, Some(RiskRecheckRejected));
        return Ok(());
      }
      if !isHealthy || AgeMs(at, book.eventTime) > item.permit.execution.maxMarketAgeMs {
        SetStatus(i, Cancelled, at, Some(MarketUnhealthy));
        return Ok(());
      }
      r := Execute(i, book, asks, bids, at);
    }

    /** Accepts an order, fills it and brings it to its terminal status. */
    method Execute(i: nat, book: Book, asks: array<int>, bids: array<int>, at: int) returns (r: Result<(), LM.LedgerError>)
      requires i < |orders| && LM.ConfigOk(config) && book.instrument in config.instruments && |book.bids| > 0
      requires asks.Length == |book.asks| && bids.Length == |book.bids| && asks != bids
      modifies this, asks, bids
      ensures match old(LM.Execute(LM.Matching(State(), asks[..], bids[..]), i, book, at))
              case Err(e) => r == Err(e)
              case Ok(m) => r == Ok(()) && State() == m.ledger && asks[..] == m.asks && bids[..] == m.bids
    {
      hide LM.FillLevels, LM.ConfigOk;
      SetStatus(i, Accepted, at, None);
      var depth := if orders[i].order.side.Buy? then asks else bids;
      LM.FillLevelsShape(State(), i, book, 0, depth[..], at);
      r := FillLevels(i, book, depth, at);
      if r.Err? {
        return;
      }
      if orders[i].order.filled == orders[i].target {
        SetStatus(i, Filled, at, None);
      } else {
        SetStatus(i, Cancelled, at, Some(IocRemainderCancelled));
      }
    }

    method CancelOrder(id: ClientOrderId, at: int) returns (r: Result<(), LM.LedgerError>)
      modifies this
      ensures match old(LM.Cancel(State(), id, at))
              case Err(e) => r == Err(e) && State() == old(State())
              case Ok(s) => r == Ok(()) && State() == s
    {
      LM.FindOrderIs(orders, id);
      var found := LM.FindOrder(orders, id);
      if found.None? {
        return Err(LM.UnknownOrder);
      }
      if IsOpen(orders[found.value].order.status) {
        SetStatus(found.value, Cancelled, at, Some(CancelledByCoordinator));
      }
      r := Ok(());
    }

    /** A command works on a copy: the caller's ledger never changes, whatever is refused half-way. */
    method Apply(portfolioHash: Portfolio -> Digest, c: LM.Command) returns (r: Result<Ledger, LM.LedgerError>)
      requires LM.ConfigOk(config) && LM.MarketOk(c)
      ensures match LM.Apply(State(), portfolioHash, c)
              case Err(e) => r == Err(e)
              case Ok(s) => r.Ok? && fresh(r.value) && r.value.State() == s
    {
      hide LM.SubmitOrder, LM.Observe, LM.Cancel, LM.Snapshot, LM.ConfigOk;
      if c.at < asOf {
        return Err(LM.OutOfOrderCommand);
      }
      var next := Clone();
      var done;
      match c {
        case SubmitPermit(at, permit) => done := next.Submit(portfolioHash, permit, at);
        case ObserveBook(at, book, blocked) => done := next.Market(book, at, blocked);
        case CancelOrder(at, id) => done := next.CancelOrder(id, at);
      }
      if done.Err? {
        return Err(done.error);
      }
      next.asOf := c.at;
      var shown := next.Snapshot();
      if shown.Err? {
        return Err(shown.error);
      }
      if Abs(shown.value.portfolio.peakEquity) > MAX_UNITS {
        return Err(LM.PeakOutOfRange);
      }
      next.peak := shown.value.portfolio.peakEquity;
      r := Ok(next);
    }

    method BeginGeneration(at: int) returns (r: Result<Ledger, LM.LedgerError>)
      ensures match LM.BeginGeneration(State(), at)
              case Err(e) => r == Err(e)
              case Ok(s) => r.Ok? && fresh(r.value) && r.value.State() == s
    {
      hide LM.Snapshot, LM.OpenCount;
      if at < asOf || LM.OpenCount(orders) > 0 {
        return Err(LM.UnsettledOrders);
      }
      var next := Clone();
      next.asOf := at;
      var shown := next.Snapshot();
      if shown.Err? {
        return Err(shown.error);
      }
      if !shown.value.portfolio.isReconciled {
        return Err(LM.NeedsReconciliation);
      }
      next.initial, next.orders, next.isSealed := shown.value.portfolio, [], false;
      r := Ok(next);
    }
  }

  lemma BooksHaveLevels(book: Book)
    requires BookOk(book)
    ensures |book.bids| > 0 && |book.asks| > 0
  {
  }

  lemma {:induction false} OpeningFails(ps: seq<Position>, n: nat, c: LM.Config, asOf: int)
    requires n <= |ps| && LM.OpenPositions(ps[..n], c, asOf).Err?
    ensures LM.OpenPositions(ps, c, asOf) == LM.OpenPositions(ps[..n], c, asOf)
    decreases |ps| - n
  {
    hide LM.OpenPosition;
    if n < |ps| {
      assert ps[..n + 1][..n] == ps[..n];
      OpeningFails(ps, n + 1, c, asOf);
    } else {
      assert ps[..n] == ps;
    }
  }

  lemma {:induction false} ValueFails(s: LM.Ledger, keys: seq<InstrumentId>, n: nat)
    requires n <= |keys| && LM.Value(s, keys[..n]).Err?
    ensures LM.Value(s, keys) == LM.Value(s, keys[..n])
    decreases |keys| - n
  {
    hide Average, Product;
    if n < |keys| {
      assert keys[..n + 1][..n] == keys[..n];
      ValueFails(s, keys, n + 1);
    } else {
      assert keys[..n] == keys;
    }
  }

  lemma KnownInstrument(s: LM.Ledger, portfolioHash: Portfolio -> Digest, p: Permit, at: int)
    requires LM.ConfigOk(s.config) && LM.IssuanceOk(s, portfolioHash, p, at)
    ensures p.approval.instrument in s.config.instruments && s.config.instruments[p.approval.instrument].lot > 0
  {
  }
}

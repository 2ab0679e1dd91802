/** What one observed book does to every order: which ones it closes, which ones trade, and at what price. */
module LedgerOutcomes {
  import opened Outcomes
  import opened Sums
  import opened Domain
  import opened Fixed
  import opened LedgerModel
  import opened LedgerFills

  // ---- The price of a fill --------------------------------------------------------------------------

  /**
   * The level's price moved by the permit's slippage and rounded outward: the least multiple of the tick
   * that covers it for a buyer, the greatest within it for a seller.
   */
  predicate IsExecutionPrice(buying: bool, raw: int, slippageBps: int, tick: int, price: int)
    requires tick > 0
  {
    && price % tick == 0
    && if buying
       then (price - tick) * BPS_DENOMINATOR < raw * (BPS_DENOMINATOR + slippageBps) <= price * BPS_DENOMINATOR
       else price * BPS_DENOMINATOR <= raw * (BPS_DENOMINATOR - slippageBps) < (price + tick) * BPS_DENOMINATOR
  }

  lemma ExecutionPriceIs(buying: bool, raw: int, slippageBps: int, tick: int)
    requires tick > 0
    ensures IsExecutionPrice(buying, raw, slippageBps, tick, ExecutionPrice(buying, raw, slippageBps, tick))
  {
    PriceIsAligned(buying, raw, slippageBps, tick);
    if buying {
      var q := CeilDiv(raw * (BPS_DENOMINATOR + slippageBps), BPS_DENOMINATOR * tick);
      Regroup(q, BPS_DENOMINATOR, tick);
      Regroup(q - 1, BPS_DENOMINATOR, tick);
      assert (q - 1) * tick == q * tick - tick;
    } else {
      var n := raw * (BPS_DENOMINATOR - slippageBps);
      var q := n / (BPS_DENOMINATOR * tick);
      assert n == BPS_DENOMINATOR * tick * q + n % (BPS_DENOMINATOR * tick);
      Regroup(q, BPS_DENOMINATOR, tick);
      Regroup(q + 1, BPS_DENOMINATOR, tick);
      assert (q + 1) * tick == q * tick + tick;
      NextMultiple(q, BPS_DENOMINATOR * tick);
    }
  }

  lemma NextMultiple(q: int, d: int)
    ensures (q + 1) * d == d * q + d && q * d == d * q
  {
  }

  /** No other multiple of the tick is nearer on the trader's losing side. */
  lemma ExecutionPriceIsNearest(buying: bool, raw: int, slippageBps: int, tick: int, m: int)
    requires tick > 0
    ensures var price := ExecutionPrice(buying, raw, slippageBps, tick);
            if buying then m * tick * BPS_DENOMINATOR >= raw * (BPS_DENOMINATOR + slippageBps) ==> price <= m * tick
            else m * tick * BPS_DENOMINATOR <= raw * (BPS_DENOMINATOR - slippageBps) ==> m * tick <= price
  {
    hide ExecutionPrice;
    ExecutionPriceIs(buying, raw, slippageBps, tick);
    var price := ExecutionPrice(buying, raw, slippageBps, tick);
    var k := price / tick;
    assert price == k * tick;
    if buying && price > m * tick {
      ScaledOrder(k, m, tick);
      ScaledOrder(m, k - 1, tick);
      assert (k - 1) * tick == price - tick;
      ScaledOrder(m * tick, price - tick, BPS_DENOMINATOR);
    }
    if !buying && price < m * tick {
      ScaledOrder(m, k, tick);
      ScaledOrder(k + 1, m, tick);
      assert (k + 1) * tick == price + tick;
      ScaledOrder(price + tick, m * tick, BPS_DENOMINATOR);
    }
  }

  // ---- The fills of one order --------------------------------------------------------------------------

  /** A fill of an order at one level of a book: its price, its exact value, its fee and its place. */
  ghost predicate FillAt(p: Permit, side: Side, id: ClientOrderId, book: Book, settings: PaperInstrument, f: Fill, at: int)
    requires settings.tick > 0 && settings.lot > 0
  {
    && f.id.order == id && f.id.book == book && f.id.level < |LevelsFor(book, side)|
    && f.side == side && f.quantity > 0 && f.quantity % settings.lot == 0
    && IsExecutionPrice(side.Buy?, LevelsFor(book, side)[f.id.level].price, p.execution.slippageBps, settings.tick, f.price)
    && (exists gross: int ::
          && gross * SCALE == f.quantity * f.price
          && (f.fee - 1) * BPS_DENOMINATOR < gross * p.execution.feeBps <= f.fee * BPS_DENOMINATOR)
    && f.venueTime == book.eventTime && f.recordedAt == at && f.sequence == book.sequence
  }

  /** What an order keeps while it trades. */
  predicate SameOrder(w: WorkingOrder, v: WorkingOrder) {
    && v.permit == w.permit && v.target == w.target
    && v.order.side == w.order.side && v.order.instrument == w.order.instrument
    && v.order.clientOrderId == w.order.clientOrderId && v.order.intent == w.order.intent
    && v.order.submittedAt == w.order.submittedAt
  }

  /** `v` is `w` with more fills, each of them one of the book's. */
  ghost predicate Trades(w: WorkingOrder, v: WorkingOrder, book: Book, settings: PaperInstrument, at: int)
    requires settings.tick > 0 && settings.lot > 0
  {
    && SameOrder(w, v) && w.order.fills <= v.order.fills
    && forall j :: |w.order.fills| <= j < |v.order.fills| ==>
         FillAt(w.permit, w.order.side, w.order.clientOrderId, book, settings, v.order.fills[j], at)
  }

  lemma TradesTransitive(u: WorkingOrder, v: WorkingOrder, w: WorkingOrder, book: Book, settings: PaperInstrument, at: int)
    requires settings.tick > 0 && settings.lot > 0
    requires Trades(u, v, book, settings, at) && Trades(v, w, book, settings, at)
    ensures Trades(u, w, book, settings, at)
  {
    hide FillAt;
    forall j | |u.order.fills| <= j < |w.order.fills|
      ensures FillAt(u.permit, u.order.side, u.order.clientOrderId, book, settings, w.order.fills[j], at)
    {
      if j < |v.order.fills| {
        assert w.order.fills[j] == v.order.fills[j];
      }
    }
  }

  lemma WholeLots(lots: int, lot: int)
    requires lot > 0
    ensures lots * lot % lot == 0
  {
    ExactQuotient(lots * lot, lot, lots);
  }

  lemma LevelLots(w: WorkingOrder, settings: PaperInstrument, raw: int, available: int)
    requires InstrumentOk(settings)
    ensures var r := LevelQuantity(w, settings, raw, available); r.Ok? ==> r.value % settings.lot == 0
  {
    hide SearchLots, TermsOf;
    LevelIsSearch(w, settings, raw, available);
    var t := TermsOf(w, settings, raw);
    var maximum := Min(w.target - w.order.filled, available) / settings.lot;
    if t.price > 0 && maximum > 0 && SearchLots(t, 0, maximum).Ok? {
      WholeLots(SearchLots(t, 0, maximum).value, settings.lot);
    } else {
      WholeLots(0, settings.lot);
    }
  }

  /** The one fill a level may add. */
  lemma LevelTrades(s: Ledger, i: nat, book: Book, level: nat, available: int, at: int)
    requires i < |s.orders| && ConfigOk(s.config) && book.instrument in s.config.instruments && |book.bids| > 0
    requires level < |LevelsFor(book, s.orders[i].order.side)|
    ensures InstrumentOk(s.config.instruments[book.instrument])
    ensures var r := FillLevel(s, i, book, level, LevelsFor(book, s.orders[i].order.side)[level].price, available, at);
            r.Ok? ==>
              && |r.value.0.orders| == |s.orders| && r.value.0.config == s.config
              && r.value.0.orders == s.orders[i := r.value.0.orders[i]]
              && Trades(s.orders[i], r.value.0.orders[i], book, s.config.instruments[book.instrument], at)
  {
    hide LevelQuantity, ExecutionPrice, Settle, Average, FillFee, FillDebit, Product;
    var w, settings := s.orders[i], s.config.instruments[book.instrument];
    var raw := LevelsFor(book, w.order.side)[level].price;
    var t := TermsOf(w, settings, raw);
    LevelLots(w, settings, raw, available);
    ExecutionPriceIs(t.buying, raw, w.permit.execution.slippageBps, settings.tick);
    var r := FillLevel(s, i, book, level, raw, available, at);
    if r.Ok? && r.value.1 > 0 {
      var quantity := LevelQuantity(w, settings, raw, available).value;
      var gross := Product(quantity, t.price).value;
      SettledOrders(s, book, t.buying, quantity, gross, FillFee(t, gross), at);
      SlicePriced(t, quantity);
      var f := r.value.0.orders[i].order.fills[|w.order.fills|];
      assert FillAt(w.permit, w.order.side, w.order.clientOrderId, book, settings, f, at);
    }
  }

  lemma SlicePriced(t: Terms, quantity: int)
    requires Product(quantity, t.price).Some?
    ensures var gross := Product(quantity, t.price).value;
            && gross * SCALE == quantity * t.price
            && (FillFee(t, gross) - 1) * BPS_DENOMINATOR < gross * t.feeBps <= FillFee(t, gross) * BPS_DENOMINATOR
  {
    ProductIsExact(quantity, t.price);
  }

  lemma {:induction false} LevelsTrade(s: Ledger, i: nat, book: Book, j: nat, depth: seq<int>, at: int)
    requires i < |s.orders| && ConfigOk(s.config) && book.instrument in s.config.instruments && |book.bids| > 0
    requires j <= |LevelsFor(book, s.orders[i].order.side)| == |depth|
    ensures InstrumentOk(s.config.instruments[book.instrument])
    ensures var r := FillLevels(s, i, book, j, depth, at);
            r.Ok? ==>
              && |r.value.0.orders| == |s.orders| && r.value.0.config == s.config
              && r.value.0.orders == s.orders[i := r.value.0.orders[i]]
              && Trades(s.orders[i], r.value.0.orders[i], book, s.config.instruments[book.instrument], at)
    decreases |depth| - j
  {
    hide FillLevel, FillAt, InstrumentOk;
    KnownInstrument(s.config, book.instrument);
    var levels := LevelsFor(book, s.orders[i].order.side);
    if j < |levels| {
      LevelTrades(s, i, book, j, depth[j], at);
      var first := FillLevel(s, i, book, j, levels[j].price, depth[j], at);
      if first.Ok? && first.value.0.orders[i].order.filled != first.value.0.orders[i].target {
        var t, left := first.value.0, depth[j := depth[j] - first.value.1];
        LevelsTrade(t, i, book, j + 1, left, at);
        var rest := FillLevels(t, i, book, j + 1, left, at);
        if rest.Ok? {
          TradesTransitive(s.orders[i], t.orders[i], rest.value.0.orders[i], book, s.config.instruments[book.instrument], at);
        }
      }
    }
  }

  lemma KnownInstrument(c: Config, key: InstrumentId)
    requires ConfigOk(c) && key in c.instruments
    ensures InstrumentOk(c.instruments[key]) && c.instruments[key].tick > 0 && c.instruments[key].lot > 0
  {
  }

  // ---- What a pass does to one order ---------------------------------------------------------------------

  /** Closed without trading, for a reason. */
  predicate Closed(w: WorkingOrder, v: WorkingOrder, status: Status, at: int, remark: Remark) {
    v == w.(order := w.order.(status := status, updatedAt := at, remark := Some(remark), reconciledAt := at))
  }

  /** Old enough to be matched against the book: the simulated latency has passed on both of its clocks. */
  predicate Ripe(w: WorkingOrder, book: Book, latencyMs: nat) {
    book.eventTime - w.order.submittedAt >= latencyMs * 1000 && book.receivedAt - w.order.submittedAt >= latencyMs * 1000
  }

  /** Traded until nothing was left of the order or of the book, and closed either way. */
  ghost predicate Traded(w: WorkingOrder, v: WorkingOrder, book: Book, settings: PaperInstrument, at: int)
    requires settings.tick > 0 && settings.lot > 0
  {
    && Trades(w, v, book, settings, at) && v.order.updatedAt == at
    && (if v.order.filled == w.target then v.order.status == Filled && v.order.remark == None
        else v.order.status == Cancelled && v.order.remark == Some(IocRemainderCancelled))
  }

  /** The outcome of a book for one order, in the order the reasons are looked at. */
  ghost predicate OutcomeIs(
      w: WorkingOrder, v: WorkingOrder, book: Book, settings: PaperInstrument, latencyMs: nat, at: int, blocked: seq<Id>, isHealthy: bool)
    requires settings.tick > 0 && settings.lot > 0
  {
    if !IsOpen(w.order.status) || w.order.instrument != book.instrument then v == w
    else if w.permit.approval.expiresAt <= at then Closed(w, v, Expired, at, ApprovalExpired)
    else if !Ripe(w, book, latencyMs) then v == w
    else if w.permit.approval.intent in blocked then Closed(w, v, Cancelled, at, RiskRecheckRejected)
    else if !isHealthy || at - book.eventTime > w.permit.execution.maxMarketAgeMs * 1000 then Closed(w, v, Cancelled, at, MarketUnhealthy)
    else Traded(w, v, book, settings, at)
  }

  lemma AgeIs(now: int, earlier: int, limit: int)
    ensures AgeMs(now, earlier) <= limit <==> now - earlier <= limit * 1000
  {
  }

  /** Matching one order leaves every other order alone, and gives it its outcome. */
  lemma MatchOrderOutcome(m: Matching, i: nat, book: Book, at: int, blocked: seq<Id>, isHealthy: bool)
    requires MatchingOk(m, book) && i < |m.ledger.orders|
    ensures InstrumentOk(m.ledger.config.instruments[book.instrument])
    ensures var r := MatchOrder(m, i, book, at, blocked, isHealthy);
            r.Ok? ==>
              && |r.value.ledger.orders| == |m.ledger.orders| && r.value.ledger.config == m.ledger.config
              && r.value.ledger.orders == m.ledger.orders[i := r.value.ledger.orders[i]]
              && OutcomeIs(m.ledger.orders[i], r.value.ledger.orders[i], book, m.ledger.config.instruments[book.instrument],
                           m.ledger.config.latencyMs, at, blocked, isHealthy)
  {
    hide Execute, Traded, InstrumentOk, ConfigOk, SetStatus, Closed;
    KnownInstrument(m.ledger.config, book.instrument);
    var sealing, w := m.ledger.(isSealed := true), m.ledger.orders[i];
    AgeIs(at, book.eventTime, w.permit.execution.maxMarketAgeMs);
    StatusCloses(m.ledger, i, Expired, at, ApprovalExpired);
    StatusCloses(sealing, i, Cancelled, at, RiskRecheckRejected);
    StatusCloses(sealing, i, Cancelled, at, MarketUnhealthy);
    ExecuteOutcome(m.(ledger := sealing), i, book, at);
  }

  lemma StatusCloses(s: Ledger, i: nat, status: Status, at: int, remark: Remark)
    requires i < |s.orders|
    ensures var t := SetStatus(s, i, status, at, Some(remark));
            && |t.orders| == |s.orders| && t.config == s.config && t.orders == s.orders[i := t.orders[i]]
            && Closed(s.orders[i], t.orders[i], status, at, remark)
  {
  }

  lemma ExecuteOutcome(m: Matching, i: nat, book: Book, at: int)
    requires MatchingOk(m, book) && i < |m.ledger.orders|
    ensures InstrumentOk(m.ledger.config.instruments[book.instrument])
    ensures var r := Execute(m, i, book, at);
            r.Ok? ==>
              && |r.value.ledger.orders| == |m.ledger.orders| && r.value.ledger.config == m.ledger.config
              && r.value.ledger.orders == m.ledger.orders[i := r.value.ledger.orders[i]]
              && Traded(m.ledger.orders[i], r.value.ledger.orders[i], book, m.ledger.config.instruments[book.instrument], at)
  {
    hide FillLevels, FillAt, InstrumentOk, ConfigOk;
    KnownInstrument(m.ledger.config, book.instrument);
    var s := SetStatus(m.ledger, i, Accepted, at, None);
    LevelsTrade(s, i, book, 0, if s.orders[i].order.side.Buy? then m.asks else m.bids, at);
  }

  /** A pass from order `i` on leaves the orders before it alone and gives each of the others its outcome. */
  lemma {:induction false} PassOutcomes(m: Matching, i: nat, book: Book, at: int, blocked: seq<Id>, isHealthy: bool, k: nat)
    requires MatchingOk(m, book) && i <= |m.ledger.orders| && k < |m.ledger.orders|
    ensures InstrumentOk(m.ledger.config.instruments[book.instrument])
    ensures var r := MatchFrom(m, i, book, at, blocked, isHealthy);
            r.Ok? ==>
              && |r.value.ledger.orders| == |m.ledger.orders|
              && if k < i then r.value.ledger.orders[k] == m.ledger.orders[k]
                 else OutcomeIs(m.ledger.orders[k], r.value.ledger.orders[k], book, m.ledger.config.instruments[book.instrument],
                                m.ledger.config.latencyMs, at, blocked, isHealthy)
    decreases |m.ledger.orders| - i
  {
    hide MatchOrder, OutcomeIs, InstrumentOk, ConfigOk;
    KnownInstrument(m.ledger.config, book.instrument);
    if i < |m.ledger.orders| {
      MatchOrderOutcome(m, i, book, at, blocked, isHealthy);
      var first := MatchOrder(m, i, book, at, blocked, isHealthy);
      if first.Ok? {
        PassOutcomes(first.value, i + 1, book, at, blocked, isHealthy, k);
      }
    }
  }

  /** A later book of the same instrument, on both of its clocks. */
  predicate Follows(earlier: Book, book: Book) {
    earlier.sequence < book.sequence && earlier.receivedAt <= book.receivedAt && earlier.eventTime <= book.eventTime
  }

  /** Whole ticks and whole lots. */
  predicate OnGrid(levels: seq<Level>, settings: PaperInstrument)
    requires settings.tick > 0 && settings.lot > 0
  {
    forall level :: level in levels ==> level.price % settings.tick == 0 && level.quantity % settings.lot == 0
  }

  /** A book follows its predecessor without a gap, or resynchronizes, and is fresh on both clocks. */
  predicate IsHealthyBook(s: Ledger, book: Book, at: int) {
    var key := book.instrument;
    var follows := if key in s.books then book.sequence == s.books[key].sequence + 1 else book.sequence == 1;
    && (book.resync || (follows && (key in s.healthy ==> s.healthy[key])))
    && at - book.eventTime <= s.config.maxMarketAgeMs * 1000 && at - book.receivedAt <= s.config.maxMarketAgeMs * 1000
  }

  /** Every order's outcome of an accepted observation, and what it says about the instrument's health. */
  lemma ObserveOutcomes(s: Ledger, book: Book, at: int, blocked: seq<Id>, k: nat)
    requires ConfigOk(s.config) && BookOk(book) && Observe(s, book, at, blocked).Ok?
    ensures book.instrument in s.config.instruments && InstrumentOk(s.config.instruments[book.instrument])
    ensures book.receivedAt <= at && (book.instrument in s.books ==> Follows(s.books[book.instrument], book))
    ensures OnGrid(book.bids, s.config.instruments[book.instrument]) && OnGrid(book.asks, s.config.instruments[book.instrument])
    ensures var t := Observe(s, book, at, blocked).value;
            && |t.orders| == |s.orders|
            && (k < |s.orders| ==>
                  OutcomeIs(s.orders[k], t.orders[k], book, s.config.instruments[book.instrument], s.config.latencyMs, at, blocked,
                            IsHealthyBook(s, book, at)))
  {
    hide MatchFrom, OutcomeIs, ConfigOk, BookHealthy, IsHealthyBook, Product;
    KnownInstrument(s.config, book.instrument);
    HealthIs(s, book, at);
    var isHealthy := BookHealthy(s, book, at);
    var m := Matching(RecordBook(s, book, isHealthy), Quantities(book.asks), Quantities(book.bids));
    if k < |s.orders| {
      PassOutcomes(m, 0, book, at, blocked, isHealthy, k);
    }
  }

  lemma HealthIs(s: Ledger, book: Book, at: int)
    ensures BookHealthy(s, book, at) <==> IsHealthyBook(s, book, at)
  {
    AgeIs(at, book.eventTime, s.config.maxMarketAgeMs);
    AgeIs(at, book.receivedAt, s.config.maxMarketAgeMs);
  }
}

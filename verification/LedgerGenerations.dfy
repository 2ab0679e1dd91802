/** How a ledger starts, what a generation leaves untouched, and what holds over whole histories. */
module LedgerGenerations {
  import opened Outcomes
  import opened Sums
  import opened Domain
  import opened Fixed
  import opened LedgerModel
  import opened LedgerFills
  import opened LedgerSafety
  import opened LedgerConservation
  import opened LedgerPass
  import opened LedgerMatching
  import opened LedgerRuns
  import RiskAccount

  // ---- Construction ------------------------------------------------------------------------------

  /** What the portfolio contract validates at construction. */
  ghost predicate InitialOk(p: Portfolio) {
    && PortfolioValid(p) && Abs(p.peakEquity) <= MAX_UNITS
    && (forall i :: 0 <= i < |p.positions| ==>
          && (p.positions[i].averageEntry.Some? ==> p.positions[i].averageEntry.value > 0)
          && (p.positions[i].mark.Some? ==> p.positions[i].mark.value > 0))
    && (forall i, j :: 0 <= i < j < |p.positions| ==> p.positions[i].instrument != p.positions[j].instrument)
  }

  /** The quantity a list of positions gives an instrument. */
  function HeldIn(ps: seq<Position>, key: InstrumentId): int {
    if ps == [] then 0
    else if ps[|ps| - 1].instrument == key then ps[|ps| - 1].quantity
    else HeldIn(ps[..|ps| - 1], key)
  }

  lemma {:induction false} ValuedQuantities(ps: seq<Position>, networks: map<InstrumentId, Id>, key: InstrumentId)
    requires RiskAccount.Valued(ps, networks).Some?
    ensures Get(RiskAccount.Valued(ps, networks).value.quantities, key) == HeldIn(ps, key)
  {
    hide RiskAccount.PositionValue, Bump;
    if ps != [] {
      ValuedQuantities(ps[..|ps| - 1], networks, key);
    }
  }

  ghost predicate OpeningOk(o: Opening, c: Config, ps: seq<Position>) {
    && (forall k :: k in o.holdings ==> k in c.instruments && k in o.markTimes && HoldingOk(o.holdings[k]) &&
                                        Product(o.holdings[k].quantity, o.holdings[k].mark).Some?)
    && (forall k :: (if k in o.holdings then o.holdings[k].quantity else 0) == HeldIn(ps, k))
  }

  lemma OpenedHolding(p: Position, basis: int, value: int)
    requires p.averageEntry.Some? && p.mark.Some? && p.averageEntry.value > 0 && p.mark.value > 0 && p.quantity >= 0
    requires Product(p.quantity, p.averageEntry.value) == Some(basis) && Product(p.quantity, p.mark.value) == Some(value)
    ensures HoldingOk(Holding(p.quantity, basis, p.mark.value, p.realized, p.openedAt))
  {
    ProductIsExact(p.quantity, p.averageEntry.value);
    ScaledOrder(1, p.averageEntry.value, p.quantity);
    if p.quantity == 0 {
      ScaledOrder(1, basis, SCALE);
      ScaledOrder(basis, -1, SCALE);
    }
  }

  /** One more position, whose instrument may or may not have been seen. */
  lemma OpeningStep(o: Opening, ps: seq<Position>, p: Position, c: Config, asOf: int)
    requires OpeningOk(o, c, ps) && OpenPosition(o, p, c, asOf).Ok? && p.quantity >= 0
    requires (p.averageEntry.Some? ==> p.averageEntry.value > 0) && (p.mark.Some? ==> p.mark.value > 0)
    ensures OpeningOk(OpenPosition(o, p, c, asOf).value, c, ps + [p])
  {
    hide HoldingOk, Product;
    OpenedHolding(p, Product(p.quantity, p.averageEntry.value).value, Product(p.quantity, p.mark.value).value);
    assert (ps + [p])[..|ps|] == ps;
  }

  lemma {:induction false} OpeningKeeps(ps: seq<Position>, c: Config, networks: map<InstrumentId, Id>, asOf: int)
    requires forall i :: 0 <= i < |ps| ==> (ps[i].averageEntry.Some? ==> ps[i].averageEntry.value > 0) &&
                                           (ps[i].mark.Some? ==> ps[i].mark.value > 0)
    requires RiskAccount.Valued(ps, networks).Some? && OpenPositions(ps, c, asOf).Ok?
    ensures OpeningOk(OpenPositions(ps, c, asOf).value, c, ps)
  {
    hide HoldingOk, Product, OpenPosition;
    if ps != [] {
      var n := |ps| - 1;
      OpeningKeeps(ps[..n], c, networks, asOf);
      OpeningStep(OpenPositions(ps[..n], c, asOf).value, ps[..n], ps[n], c, asOf);
      assert ps == ps[..n] + [ps[n]];
    }
  }

  /** Cash and stock are still those the generation started with, until a batch is sealed. */
  ghost predicate Untraded(s: Ledger) {
    !s.isSealed ==> s.cash == s.initial.cash && forall k :: Held(s, k) == HeldIn(s.initial.positions, k)
  }

  lemma {:induction false} ValueSucceeds(s: Ledger, keys: seq<InstrumentId>)
    requires HoldingsOk(s) && forall k :: k in s.holdings ==> Product(s.holdings[k].quantity, s.holdings[k].mark).Some?
    ensures Value(s, keys).Ok?
  {
    hide Average, Product;
    if keys != [] {
      var key := keys[|keys| - 1];
      ValueSucceeds(s, keys[..|keys| - 1]);
      if key in s.holdings && s.holdings[key].quantity > 0 {
        AverageIsPositive(s.holdings[key].basis, s.holdings[key].quantity);
      }
    }
  }

  function MarkValue(holdings: map<InstrumentId, Holding>, key: InstrumentId): int {
    if key in holdings then holdings[key].quantity * holdings[key].mark / SCALE else 0
  }

  function MarkValues(holdings: map<InstrumentId, Holding>, keys: seq<InstrumentId>): seq<int> {
    seq(|keys|, i requires 0 <= i < |keys| => MarkValue(holdings, keys[i]))
  }

  lemma {:induction false} ValueExposure(s: Ledger, keys: seq<InstrumentId>)
    requires Value(s, keys).Ok?
    ensures Value(s, keys).value.exposure == Sum(MarkValues(s.holdings, keys))
  {
    hide Average;
    if keys != [] {
      var n := |keys| - 1;
      ValueExposure(s, keys[..n]);
      SumAppend(MarkValues(s.holdings, keys[..n]), MarkValue(s.holdings, keys[n]));
      assert MarkValues(s.holdings, keys) == MarkValues(s.holdings, keys[..n]) + [MarkValue(s.holdings, keys[n])];
    }
  }

  lemma NewMarkValue(holdings: map<InstrumentId, Holding>, keys: seq<InstrumentId>, key: InstrumentId, h: Holding)
    requires key in keys && key !in holdings && forall i, j :: 0 <= i < j < |keys| ==> keys[i] != keys[j]
    ensures Sum(MarkValues(holdings[key := h], keys)) == Sum(MarkValues(holdings, keys)) + h.quantity * h.mark / SCALE
  {
    hide Sum;
    var i :| 0 <= i < |keys| && keys[i] == key;
    var v := h.quantity * h.mark / SCALE;
    SumUpdate(MarkValues(holdings, keys), i, v);
    assert MarkValues(holdings[key := h], keys) == MarkValues(holdings, keys)[i := v];
  }

  lemma {:induction false} OpeningExposure(ps: seq<Position>, c: Config, networks: map<InstrumentId, Id>, asOf: int)
    requires ConfigOk(c) && forall i, j :: 0 <= i < j < |ps| ==> ps[i].instrument != ps[j].instrument
    requires RiskAccount.Valued(ps, networks).Some? && OpenPositions(ps, c, asOf).Ok?
    ensures var o := OpenPositions(ps, c, asOf).value;
            && (forall k :: k in o.holdings ==> exists i :: 0 <= i < |ps| && ps[i].instrument == k)
            && Sum(MarkValues(o.holdings, c.keys)) == RiskAccount.Valued(ps, networks).value.exposure
  {
    hide Sum, Bump, InstrumentOk;
    if ps == [] {
      SumZero(MarkValues(map[], c.keys));
    } else {
      var n := |ps| - 1;
      OpeningExposure(ps[..n], c, networks, asOf);
      var before := OpenPositions(ps[..n], c, asOf).value;
      var after := OpenPositions(ps, c, asOf).value;
      NewMarkValue(before.holdings, c.keys, ps[n].instrument, after.holdings[ps[n].instrument]);
      forall k | k in after.holdings
        ensures exists i :: 0 <= i < |ps| && ps[i].instrument == k
      {
        if k == ps[n].instrument {
          assert ps[n].instrument == k;
        } else {
          var i :| 0 <= i < n && ps[..n][i].instrument == k;
          assert ps[i].instrument == k;
        }
      }
    }
  }

  /** A created ledger satisfies the invariant and holds exactly the portfolio it was given. */
  lemma CreateKeeps(p: Portfolio, c: Config)
    requires ConfigOk(c) && InitialOk(p) && Create(p, c).Ok?
    ensures var s := Create(p, c).value;
            && LedgerInv(s) && Untraded(s) && s.initial == p && s.config == c && s.orders == [] && !s.isSealed
            && s.asOf == p.asOf && s.fees == 0
  {
    hide HoldingOk, Product, Sum, InstrumentOk, Bump, RiskAccount.Valued, OpenPositions, Value, CashHolds, SellsLeft, Taken;
    var s := Create(p, c).value;
    var networks := Networks(c);
    BaseFacts(p, networks);
    OpeningKeeps(p.positions, c, networks, p.asOf);
    OpeningExposure(p.positions, c, networks, p.asOf);
    var o := OpenPositions(p.positions, c, p.asOf).value;
    CreatedMid(s, o);
    ValueSucceeds(s, c.keys);
    ValueExposure(s, c.keys);
    SnapshotIs(s);
    CreatedShows(s, p);
  }

  lemma BaseFacts(p: Portfolio, networks: map<InstrumentId, Id>)
    requires RiskAccount.Base(p, networks).Some?
    ensures RiskAccount.Valued(p.positions, networks).Some?
    ensures p.equity == p.cash + RiskAccount.Valued(p.positions, networks).value.exposure && p.cash >= 0
  {
  }

  lemma CreatedMid(s: Ledger, o: Opening)
    requires ConfigOk(s.config) && OpeningOk(o, s.config, s.initial.positions) && s.cash >= 0
    requires s.holdings == o.holdings && s.markTimes == o.markTimes && s.orders == [] && s.books == map[]
    requires s.cash == s.initial.cash
    ensures MidInv(s) && AllResting(s.orders) && DepthInv(s) && Untraded(s)
  {
    hide InstrumentOk;
    EmptyReserved(s);
    assert forall k :: Held(s, k) >= 0 by {
      HeldNonNegative(s);
    }
    forall b, side, l: nat
      ensures Taken(s, b, side, l) == 0
    {
      SumZero(LevelTaken(s.orders, b, side, l));
    }
  }

  lemma CreatedShows(s: Ledger, p: Portfolio)
    requires MidInv(s) && Value(s, s.config.keys).Ok? && s.cash + Value(s, s.config.keys).value.exposure == p.equity
    requires p.equity <= p.peakEquity == s.peak && (Snapshot(s).Err? ==> Snapshot(s).error == NotRepresentable)
    requires s.orders == []
    ensures Snapshot(s).Ok? && Snapshot(s).value.portfolio.equity <= s.peak
  {
    hide Value;
    EmptyReserved(s);
    ValueIs(s, s.config.keys);
  }

  // ---- What a pass leaves alone ------------------------------------------------------------------

  /** Quantities are whole lots and marks whole ticks. */
  ghost predicate LotAligned(s: Ledger) {
    && ConfigOk(s.config)
    && forall k :: k in s.holdings && k in s.config.instruments ==>
         s.holdings[k].quantity % s.config.instruments[k].lot == 0 && s.holdings[k].mark % s.config.instruments[k].tick == 0
  }

  lemma LotSums(a: int, b: int, lot: int)
    requires lot > 0 && a % lot == 0 && b % lot == 0
    ensures (a + b) % lot == 0 && (a - b) % lot == 0
  {
    ExactQuotient(a + b, lot, a / lot + b / lot);
    ExactQuotient(a - b, lot, a / lot - b / lot);
    assert a == lot * (a / lot) && b == lot * (b / lot);
  }

  lemma SettleAligned(s: Ledger, book: Book, buying: bool, x: Slice, at: int)
    requires LotAligned(s) && BookOk(book) && book.instrument in s.config.instruments && x.quantity > 0
    requires x.quantity % s.config.instruments[book.instrument].lot == 0
    requires book.bids[0].price % s.config.instruments[book.instrument].tick == 0
    ensures var r := Settle(s, book, buying, x.quantity, x.gross, x.fee, at); r.Ok? ==> LotAligned(r.value)
  {
    hide Bump;
    var lot := s.config.instruments[book.instrument].lot;
    assert 0 % lot == 0;
    LotSums(HoldingOr(s, book, at).quantity, x.quantity, lot);
  }

  lemma LevelAligned(s: Ledger, i: nat, book: Book, j: nat, raw: int, available: int, at: int)
    requires LotAligned(s) && BookOk(book) && book.instrument in s.config.instruments && i < |s.orders| && raw > 0
    requires ExecutionOk(s.orders[i].permit.execution)
    requires book.bids[0].price % s.config.instruments[book.instrument].tick == 0
    ensures var r := FillLevel(s, i, book, j, raw, available, at);
            r.Ok? ==>
              && LotAligned(r.value.0) && |r.value.0.orders| == |s.orders| && r.value.0.config == s.config
              && r.value.0.orders[i].permit == s.orders[i].permit && r.value.0.orders[i].order.side == s.orders[i].order.side
  {
    hide Settle, FillLevel, LotAligned, ConfigOk, Average;
    assert ConfigOk(s.config) by {
      AlignedConfig(s);
    }
    var x := FillLevelIs(s, i, book, j, raw, available, at);
    if x.Some? {
      SettleAligned(s, book, s.orders[i].order.side.Buy?, x.value, at);
      SettledFrame(s, book, s.orders[i].order.side.Buy?, x.value, at);
      var settled := Settle(s, book, s.orders[i].order.side.Buy?, x.value.quantity, x.value.gross, x.value.fee, at);
      if settled.Ok? {
        AlignedIgnoresOrders(settled.value, settled.value.(orders := s.orders[i := Sliced(s.orders[i], book, j, x.value, at)]));
      }
    }
  }

  lemma AlignedConfig(s: Ledger)
    requires LotAligned(s)
    ensures ConfigOk(s.config)
  {
  }

  lemma AlignedIgnoresOrders(s: Ledger, t: Ledger)
    requires LotAligned(s) && t.holdings == s.holdings && t.config == s.config
    ensures LotAligned(t)
  {
  }

  lemma {:induction false} LevelsAligned(s: Ledger, i: nat, book: Book, j: nat, depth: seq<int>, at: int)
    requires LotAligned(s) && BookOk(book) && book.instrument in s.config.instruments && i < |s.orders|
    requires ExecutionOk(s.orders[i].permit.execution)
    requires book.bids[0].price % s.config.instruments[book.instrument].tick == 0
    requires j <= |LevelsFor(book, s.orders[i].order.side)| == |depth|
    ensures var r := FillLevels(s, i, book, j, depth, at); r.Ok? ==> LotAligned(r.value.0)
    decreases |depth| - j
  {
    hide FillLevel, LotAligned, ConfigOk;
    AlignedConfig(s);
    var levels := LevelsFor(book, s.orders[i].order.side);
    if j < |levels| {
      LevelAligned(s, i, book, j, levels[j].price, depth[j], at);
      var first := FillLevel(s, i, book, j, levels[j].price, depth[j], at);
      if first.Ok? && first.value.0.orders[i].order.filled != first.value.0.orders[i].target {
        LevelsAligned(first.value.0, i, book, j + 1, depth[j := depth[j] - first.value.1], at);
      }
    }
  }

  /** A pass keeps lots and ticks whole; it moves cash or stock only when it seals the batch. */
  ghost predicate Steady(s: Ledger, t: Ledger) {
    && t.config == s.config
    && (LotAligned(s) ==> LotAligned(t))
    && (s.isSealed ==> t.isSealed)
    && (!t.isSealed ==> t.cash == s.cash && t.holdings == s.holdings)
  }

  lemma ExecuteSteady(m: Matching, i: nat, book: Book, at: int)
    requires PassReady(m, book) && i < |m.ledger.orders| && m.ledger.isSealed && IsOpen(m.ledger.orders[i].order.status)
    requires m.ledger.orders[i].order.instrument == book.instrument
    requires book.bids[0].price % m.ledger.config.instruments[book.instrument].tick == 0
    ensures MatchingOk(m, book)
    ensures var r := Execute(m, i, book, at); r.Ok? ==> Steady(m.ledger, r.value.ledger)
  {
    hide FillLevels, LotAligned, MidInv, Grows, AllResting, Conserves, DepthKept;
    PassReadyOk(m, book);
    ExecuteSteps(m, i, book, at);
    if LotAligned(m.ledger) {
      var s := SetStatus(m.ledger, i, Accepted, at, None);
      var side := m.ledger.orders[i].order.side;
      OrderInstrument(m.ledger, i);
      AlignedIgnoresOrders(m.ledger, s);
      var depth := if side.Buy? then m.asks else m.bids;
      LevelsAligned(s, i, book, 0, depth, at);
      var r := FillLevels(s, i, book, 0, depth, at);
      if r.Ok? {
        ExecutedHoldings(m, i, book, at);
      }
    }
  }

  lemma ExecutedHoldings(m: Matching, i: nat, book: Book, at: int)
    requires MatchingOk(m, book) && i < |m.ledger.orders|
    requires var s := SetStatus(m.ledger, i, Accepted, at, None);
             var r := FillLevels(s, i, book, 0, if s.orders[i].order.side.Buy? then m.asks else m.bids, at);
             r.Ok? && LotAligned(r.value.0)
    ensures Execute(m, i, book, at).Ok? && LotAligned(Execute(m, i, book, at).value.ledger)
  {
    hide FillLevels, LotAligned;
    var s := SetStatus(m.ledger, i, Accepted, at, None);
    var t := FillLevels(s, i, book, 0, if s.orders[i].order.side.Buy? then m.asks else m.bids, at).value.0;
    AlignedIgnoresOrders(t, Execute(m, i, book, at).value.ledger);
  }

  lemma StatusSteady(s: Ledger, u: Ledger, i: nat, status: Status, at: int, remark: Option<Remark>)
    requires i < |s.orders| && (u == s || u == s.(isSealed := true))
    ensures Steady(s, SetStatus(u, i, status, at, remark))
  {
    hide LotAligned, WithStatus;
    if LotAligned(s) {
      AlignedIgnoresOrders(s, SetStatus(u, i, status, at, remark));
    }
  }

  lemma SealSteady(s: Ledger, t: Ledger)
    requires Steady(s.(isSealed := true), t)
    ensures Steady(s, t)
  {
    hide LotAligned;
    if LotAligned(s) {
      AlignedIgnoresOrders(s, s.(isSealed := true));
    }
  }

  lemma MatchSteady(m: Matching, i: nat, book: Book, at: int, blocked: seq<Id>, isHealthy: bool)
    requires PassReady(m, book) && i < |m.ledger.orders|
    requires book.bids[0].price % m.ledger.config.instruments[book.instrument].tick == 0
    ensures MatchingOk(m, book)
    ensures var r := MatchOrder(m, i, book, at, blocked, isHealthy); r.Ok? ==> Steady(m.ledger, r.value.ledger)
  {
    hide Execute, MidInv, AllResting, LotAligned, SetStatus, Steady, ConfigOk;
    PassReadyOk(m, book);
    var s, w := m.ledger, m.ledger.orders[i];
    var sealing := s.(isSealed := true);
    SteadyReflexive(s);
    if IsOpen(w.order.status) && w.order.instrument == book.instrument {
      StatusSteady(s, s, i, Expired, at, Some(ApprovalExpired));
      StatusSteady(s, sealing, i, Cancelled, at, Some(RiskRecheckRejected));
      StatusSteady(s, sealing, i, Cancelled, at, Some(MarketUnhealthy));
      SealedReady(m, book);
      ExecuteSteady(m.(ledger := sealing), i, book, at);
      var r := Execute(m.(ledger := sealing), i, book, at);
      if r.Ok? {
        SealSteady(s, r.value.ledger);
      }
    }
  }

  lemma SteadyReflexive(s: Ledger)
    ensures Steady(s, s)
  {
  }

  lemma {:induction false} PassSteady(m: Matching, i: nat, book: Book, at: int, blocked: seq<Id>, isHealthy: bool)
    requires PassReady(m, book) && i <= |m.ledger.orders|
    requires book.bids[0].price % m.ledger.config.instruments[book.instrument].tick == 0
    ensures MatchingOk(m, book)
    ensures var r := MatchFrom(m, i, book, at, blocked, isHealthy); r.Ok? ==> Steady(m.ledger, r.value.ledger)
    decreases |m.ledger.orders| - i
  {
    hide MidInv, AllResting, BookOk, PassStep, MatchOrder, LotAligned, ConfigOk;
    PassReadyOk(m, book);
    if i < |m.ledger.orders| {
      MatchOrderSteps(m, i, book, at, blocked, isHealthy);
      MatchSteady(m, i, book, at, blocked, isHealthy);
      var first := MatchOrder(m, i, book, at, blocked, isHealthy);
      if first.Ok? {
        StepReady(m, first.value, book);
        PassSteady(first.value, i + 1, book, at, blocked, isHealthy);
      }
    }
  }

  lemma RecordSteady(s: Ledger, book: Book, isHealthy: bool)
    requires MidInv(s) && BookOk(book) && book.instrument in s.config.instruments
    requires Aligned(book.bids, s.config.instruments[book.instrument])
    ensures var t := RecordBook(s, book, isHealthy);
            && (LotAligned(s) ==> LotAligned(t)) && t.cash == s.cash && t.isSealed == s.isSealed
            && forall k :: Held(t, k) == Held(s, k)
  {
    hide OrdersOk, HoldingsOk, ReservedCash, SellsLeft;
  }

  /** An accepted book is one of the ledger's instruments, aligned to its ticks. */
  lemma ObservedBook(s: Ledger, book: Book, at: int, blocked: seq<Id>)
    requires ConfigOk(s.config) && BookOk(book) && Observe(s, book, at, blocked).Ok?
    ensures book.instrument in s.config.instruments && Aligned(book.bids, s.config.instruments[book.instrument])
    ensures s.config.instruments[book.instrument].tick > 0 && book.bids[0].price % s.config.instruments[book.instrument].tick == 0
  {
    hide MatchFrom, BookHealthy, RecordBook;
  }

  lemma ObserveSteady(s: Ledger, book: Book, at: int, blocked: seq<Id>)
    requires LedgerInv(s) && BookOk(book)
    ensures ConfigOk(s.config)
    ensures var r := Observe(s, book, at, blocked);
            r.Ok? ==>
              && (LotAligned(s) ==> LotAligned(r.value))
              && (s.isSealed ==> r.value.isSealed)
              && (!r.value.isSealed ==> r.value.cash == s.cash && forall k :: Held(r.value, k) == Held(s, k))
  {
    hide MidInv, DepthInv, Snapshot, MatchFrom, BookHealthy, RecordBook, AllResting, LotAligned, BookOk, ConfigOk, Aligned;
    MidConfig(s);
    if Observe(s, book, at, blocked).Ok? {
      ObservedBook(s, book, at, blocked);
      var isHealthy := BookHealthy(s, book, at);
      var m := Matching(RecordBook(s, book, isHealthy), Quantities(book.asks), Quantities(book.bids));
      RecordKeeps(s, book, isHealthy);
      RecordSteady(s, book, isHealthy);
      PassSteady(m, 0, book, at, blocked, isHealthy);
    }
  }

  /** What performing a command leaves of cash, stock and alignment, before the state is stamped. */
  lemma PerformSteady(s: Ledger, portfolioHash: Portfolio -> Digest, c: Command)
    requires LedgerInv(s) && CommandOk(c)
    ensures ConfigOk(s.config)
    ensures var r := Perform(s, portfolioHash, c);
            r.Ok? ==>
              && (LotAligned(s) ==> LotAligned(r.value)) && (s.isSealed ==> r.value.isSealed) && r.value.initial == s.initial
              && (!r.value.isSealed ==> r.value.cash == s.cash && forall k :: Held(r.value, k) == Held(s, k))
  {
    hide LedgerInv, LotAligned, Observe, SubmitOrder, Cancel, Conserves, Grows, Held, Submission, DepthInv, AllResting, MidInv;
    InvParts(s);
    match c {
      case SubmitPermit(at, permit) =>
        var w := SubmitShape(s, portfolioHash, permit, at);
        if SubmitOrder(s, portfolioHash, permit, at).Ok? {
          SameStock(s, SubmitOrder(s, portfolioHash, permit, at).value);
        }
      case ObserveBook(at, book, blocked) =>
        ObserveSteady(s, book, at, blocked);
        ObserveKeeps(s, book, at, blocked);
      case CancelOrder(at, id) =>
        CancelShape(s, id, at);
        if Cancel(s, id, at).Ok? {
          SameStock(s, Cancel(s, id, at).value);
        }
    }
  }

  lemma InvParts(s: Ledger)
    requires LedgerInv(s)
    ensures ConfigOk(s.config)
  {
  }

  lemma CancelShape(s: Ledger, id: ClientOrderId, at: int)
    ensures var r := Cancel(s, id, at); r.Ok? ==> r.value == s.(orders := r.value.orders)
  {
    FindOrderIs(s.orders, id);
  }

  lemma ApplySteady(s: Ledger, portfolioHash: Portfolio -> Digest, c: Command)
    requires LedgerInv(s) && Untraded(s) && CommandOk(c)
    ensures ConfigOk(s.config)
    ensures var r := Apply(s, portfolioHash, c);
            r.Ok? ==> Untraded(r.value) && (LotAligned(s) ==> LotAligned(r.value))
  {
    hide LedgerInv, LotAligned, Perform, Finish, Held, HeldIn, CommandOk;
    PerformSteady(s, portfolioHash, c);
    CommandMarket(c);
    var r := Perform(s, portfolioHash, c);
    if r.Ok? {
      FinishShape(r.value, c.at);
      if Finish(r.value, c.at).Ok? {
        SameStock(r.value, Finish(r.value, c.at).value);
      }
    }
  }

  lemma CommandMarket(c: Command)
    requires CommandOk(c)
    ensures MarketOk(c)
  {
  }

  lemma FinishShape(s: Ledger, at: int)
    ensures Finish(s, at).Ok? ==> Finish(s, at).value == s.(asOf := at, peak := Finish(s, at).value.peak)
  {
    hide Snapshot;
  }

  lemma SameStock(s: Ledger, t: Ledger)
    requires t.holdings == s.holdings && t.config == s.config
    ensures LotAligned(s) ==> LotAligned(t)
    ensures forall k :: Held(t, k) == Held(s, k)
  {
  }

  /** The positions a snapshot shows are the holdings. */
  lemma {:induction false} ShownPositions(s: Ledger, keys: seq<InstrumentId>, key: InstrumentId)
    requires Value(s, keys).Ok? && HoldingsOk(s) && forall i, j :: 0 <= i < j < |keys| ==> keys[i] != keys[j]
    ensures HeldIn(Value(s, keys).value.positions, key) == if key in keys then Held(s, key) else 0
  {
    hide Average, Product;
    if keys != [] {
      var n := |keys| - 1;
      ShownPositions(s, keys[..n], key);
      assert keys == keys[..n] + [keys[n]];
      var front := Value(s, keys[..n]).value.positions;
      if keys[n] in s.holdings && s.holdings[keys[n]].quantity > 0 {
        var value := Product(s.holdings[keys[n]].quantity, s.holdings[keys[n]].mark).value;
        assert (front + [PositionOf(s, keys[n], value)])[..|front|] == front;
      }
    }
  }

  lemma ShownIsHeld(s: Ledger, key: InstrumentId)
    requires ConfigOk(s.config) && HoldingsOk(s) && Value(s, s.config.keys).Ok?
    ensures HeldIn(Value(s, s.config.keys).value.positions, key) == Held(s, key)
  {
    hide Value;
    ShownPositions(s, s.config.keys, key);
  }

  lemma ShownIsUntraded(t: Ledger)
    requires LedgerInv(t) && t.initial == Snapshot(t).value.portfolio
    ensures Untraded(t)
  {
    hide DepthInv, AllResting, OrdersOk, ReservedCash, SellsLeft, Held, Value, Snapshot, ConfigOk, HoldingsOk;
    SnapshotIs(t);
    forall k
      ensures Held(t, k) == HeldIn(t.initial.positions, k)
    {
      ShownIsHeld(t, k);
    }
  }

  lemma GenerationUntraded(s: Ledger, at: int)
    requires LedgerInv(s)
    ensures var r := BeginGeneration(s, at);
            r.Ok? ==> Untraded(r.value) && (LotAligned(s) ==> LotAligned(r.value))
  {
    hide LedgerInv, LotAligned, Untraded, BeginGeneration, Snapshot, Held, Worth;
    GenerationKeeps(s, at);
    var r := BeginGeneration(s, at);
    if r.Ok? {
      SameStock(s, r.value);
      ShownIsUntraded(r.value);
    }
  }
}

/** Theorems about every history of a paper ledger: any commands, any generations, any refusals. */
module LedgerHistory {
  import opened Outcomes
  import opened Sums
  import opened Domain
  import opened Fixed
  import opened LedgerModel
  import opened LedgerSafety
  import opened LedgerConservation
  import opened LedgerPass
  import opened LedgerRuns
  import opened LedgerGenerations

  datatype Act = Do(command: Command) | Roll(at: int)

  ghost predicate ActOk(a: Act) {
    a.Do? ==> CommandOk(a.command)
  }

  /** A refused command or generation change leaves the ledger as it was. */
  function After(s: Ledger, portfolioHash: Portfolio -> Digest, a: Act): Ledger
    requires ConfigOk(s.config) && ActOk(a)
  {
    match a
    case Do(c) => var r := Apply(s, portfolioHash, c); if r.Ok? then r.value else s
    case Roll(at) => var r := BeginGeneration(s, at); if r.Ok? then r.value else s
  }

  /** `t` is what the acts make of `s`. */
  ghost predicate Run(s: Ledger, portfolioHash: Portfolio -> Digest, acts: seq<Act>, t: Ledger)
    decreases |acts|
  {
    if acts == [] then t == s
    else ConfigOk(s.config) && ActOk(acts[0]) && Run(After(s, portfolioHash, acts[0]), portfolioHash, acts[1..], t)
  }

  ghost predicate Sound(s: Ledger) {
    LedgerInv(s) && Untraded(s)
  }

  /** What one act keeps. */
  lemma AfterKeeps(s: Ledger, portfolioHash: Portfolio -> Digest, a: Act)
    requires Sound(s) && ActOk(a)
    ensures ConfigOk(s.config)
    ensures var t := After(s, portfolioHash, a);
            Sound(t) && Worth(t) == Worth(s) && t.config == s.config && (LotAligned(s) ==> LotAligned(t))
  {
    hide LedgerInv, LotAligned, Untraded, Apply, BeginGeneration, Snapshot, Worth, FeesBefore, Grows;
    InvConfig(s);
    match a {
      case Do(c) =>
        ApplyKeeps(s, portfolioHash, c);
        ApplySteady(s, portfolioHash, c);
      case Roll(at) =>
        GenerationKeeps(s, at);
        GenerationUntraded(s, at);
    }
  }

  lemma InvConfig(s: Ledger)
    requires LedgerInv(s)
    ensures ConfigOk(s.config) && MidInv(s) && Snapshot(s).Ok?
  {
  }

  lemma {:induction false} RunKeeps(s: Ledger, portfolioHash: Portfolio -> Digest, acts: seq<Act>, t: Ledger)
    requires Sound(s) && Run(s, portfolioHash, acts, t)
    ensures Sound(t) && Worth(t) == Worth(s) && t.config == s.config && (LotAligned(s) ==> LotAligned(t))
    decreases |acts|
  {
    hide Sound, Worth, LotAligned, After;
    if acts != [] {
      AfterKeeps(s, portfolioHash, acts[0]);
      RunKeeps(After(s, portfolioHash, acts[0]), portfolioHash, acts[1..], t);
    }
  }

  /** Everything the bounds promise of one reachable ledger, for any order, instrument, book and level. */
  ghost predicate Bounded(t: Ledger, i: nat, key: InstrumentId, book: Book, side: Side, level: nat) {
    && 0 <= ReservedCash(t) <= t.cash
    && 0 <= Sum(SellsLeft(t.orders, key)) <= Held(t, key)
    && (key in t.holdings ==> HoldingOk(t.holdings[key]))
    && (i < |t.orders| ==> OrderOk(t.config, t.orders[i]) && Resting(t.orders[i]))
    && (i < |t.orders| && t.orders[i].order.filled > 0 ==>
          t.orders[i].order.averagePrice.Some? && t.orders[i].order.averagePrice.value > 0)
    && (BookOk(book) && level < |LevelsFor(book, side)| ==>
          Taken(t, book, side, level) <= LevelsFor(book, side)[level].quantity)
    && Snapshot(t).Ok?
  }

  /**
   * In every ledger reachable from a valid portfolio by any commands and generation changes: reserved
   * cash is covered, unfilled sells are covered by stock, each order is within its permit and its
   * totals are those of its fills, open orders have not traded, no level of any book was over-filled,
   * and the next command is never refused for an impossible cash, stock, average price or portfolio.
   */
  lemma ReachableLedgerIsSafe(
      p: Portfolio, c: Config, portfolioHash: Portfolio -> Digest, acts: seq<Act>, t: Ledger,
      i: nat, key: InstrumentId, book: Book, side: Side, level: nat, next: Command)
    requires ConfigOk(c) && InitialOk(p) && Create(p, c).Ok? && Run(Create(p, c).value, portfolioHash, acts, t)
    requires CommandOk(next)
    ensures Bounded(t, i, key, book, side, level)
    ensures ConfigOk(t.config)
    ensures Apply(t, portfolioHash, next).Err? ==> Refusal(Apply(t, portfolioHash, next).error)
  {
    hide Run, Create, LedgerInv, Untraded, Worth, Apply, Bounded, InitialOk;
    CreateKeeps(p, c);
    RunKeeps(Create(p, c).value, portfolioHash, acts, t);
    ApplyKeeps(t, portfolioHash, next);
    SoundIsBounded(t, i, key, book, side, level);
  }

  lemma SoundIsBounded(t: Ledger, i: nat, key: InstrumentId, book: Book, side: Side, level: nat)
    requires LedgerInv(t)
    ensures Bounded(t, i, key, book, side, level)
  {
    hide Sum, OrderOk, HoldingOk, Resting, BookOk, Snapshot, Held, Taken, SellLeft;
    HoldsNonNegative(t.config, t.orders);
    SumNonNegative(SellsLeft(t.orders, key));
    if i < |t.orders| && t.orders[i].order.filled > 0 {
      assert OrderOk(t.config, t.orders[i]);
      PositivePrice(t.config, t.orders[i]);
    }
  }

  lemma PositivePrice(c: Config, w: WorkingOrder)
    requires OrderOk(c, w) && w.order.filled > 0
    ensures w.order.averagePrice.Some? && w.order.averagePrice.value > 0
  {
    hide Totalled;
    AverageFillPriceIsPositive(w);
  }

  function Unrealized(s: Ledger): int
    requires Snapshot(s).Ok?
  {
    Snapshot(s).value.portfolio.unrealized
  }

  function Equity(s: Ledger): int
    requires Snapshot(s).Ok?
  {
    Snapshot(s).value.portfolio.equity
  }

  /**
   * P&L is conserved: between any two points of a history, equity moves by exactly the change in
   * realized P&L over all days plus the change in unrealized P&L.
   */
  lemma ProfitAndLossIsConserved(
      p: Portfolio, c: Config, portfolioHash: Portfolio -> Digest, before: seq<Act>, s: Ledger, after: seq<Act>, t: Ledger)
    requires ConfigOk(c) && InitialOk(p) && Create(p, c).Ok?
    requires Run(Create(p, c).value, portfolioHash, before, s) && Run(s, portfolioHash, after, t)
    ensures Snapshot(s).Ok? && Snapshot(t).Ok?
    ensures Equity(t) - Equity(s) == (SumMap(t.realized) - SumMap(s.realized)) + (Unrealized(t) - Unrealized(s))
  {
    hide Run, Create, LedgerInv, Untraded, Worth, InitialOk, Snapshot, SumMap, MidInv;
    CreateKeeps(p, c);
    RunKeeps(Create(p, c).value, portfolioHash, before, s);
    RunKeeps(s, portfolioHash, after, t);
    InvConfig(s);
    InvConfig(t);
    EquityIs(s);
    EquityIs(t);
  }

  /** Histories without a generation change. */
  ghost predicate OneGeneration(acts: seq<Act>) {
    forall i :: 0 <= i < |acts| ==> acts[i].Do?
  }

  lemma EvolvesTransitive(s: Ledger, t: Ledger, u: Ledger)
    requires Evolves(s, t) && Evolves(t, u)
    ensures Evolves(s, u)
  {
    hide Grows;
    forall i | 0 <= i < |s.orders|
      ensures Grows(s.orders[i], u.orders[i])
    {
      GrowsTransitive(s.orders[i], t.orders[i], u.orders[i]);
    }
  }

  lemma EvolvesReflexive(s: Ledger)
    ensures Evolves(s, s)
  {
    forall i | 0 <= i < |s.orders|
      ensures Grows(s.orders[i], s.orders[i])
    {
    }
  }

  /** What a generation's fills account for: its fees, its cash and the stock of one instrument. */
  ghost predicate Accounted(s: Ledger, t: Ledger, key: InstrumentId) {
    && t.fees - s.fees == Sum(OrderFees(t.orders)) - Sum(OrderFees(s.orders))
    && t.cash - s.cash == Sum(OrderCashes(t.orders)) - Sum(OrderCashes(s.orders))
    && Held(t, key) - Held(s, key) == Sum(OrderStocks(t.orders, key)) - Sum(OrderStocks(s.orders, key))
  }

  /**
   * Within a generation fills only accumulate, terminal orders never change again, a sealed batch admits
   * no order, and fees, cash and stock move by exactly the fees, net values and quantities of the fills.
   */
  lemma {:induction false} GenerationHistory(s: Ledger, portfolioHash: Portfolio -> Digest, acts: seq<Act>, t: Ledger, key: InstrumentId)
    requires Sound(s) && OneGeneration(acts) && Run(s, portfolioHash, acts, t)
    ensures Evolves(s, t) && Accounted(s, t, key)
    decreases |acts|
  {
    hide Sound, Worth, Evolves, Sum, Apply, OrderFees, OrderCashes, OrderStocks, Held, After;
    if acts == [] {
      EvolvesReflexive(s);
    } else {
      var u := After(s, portfolioHash, acts[0]);
      AfterKeeps(s, portfolioHash, acts[0]);
      OneStep(s, portfolioHash, acts[0], key);
      GenerationHistory(u, portfolioHash, acts[1..], t, key);
      EvolvesTransitive(s, u, t);
    }
  }

  lemma OneStep(s: Ledger, portfolioHash: Portfolio -> Digest, a: Act, key: InstrumentId)
    requires Sound(s) && ActOk(a) && a.Do?
    ensures ConfigOk(s.config)
    ensures var u := After(s, portfolioHash, a); Evolves(s, u) && Accounted(s, u, key)
  {
    hide LedgerInv, Evolves, Sum, OrderFees, OrderCashes, OrderStocks, Held, Apply, Worth, Conserves;
    ApplyKeeps(s, portfolioHash, a.command);
    EvolvesReflexive(s);
    var r := Apply(s, portfolioHash, a.command);
    if r.Ok? {
      ConservedAccounts(s, r.value, key);
    }
  }

  lemma ConservedAccounts(s: Ledger, t: Ledger, key: InstrumentId)
    requires Conserves(s, t)
    ensures Accounted(s, t, key)
  {
    hide Sum, OrderFees, OrderCashes, OrderStocks, Held, Worth;
    assert StockBefore(t, key) == StockBefore(s, key);
  }

  /** With lots and ticks whole from the start, a valuation can only ever fail for its size. */
  lemma AlignedValuationIsExact(
      p: Portfolio, c: Config, portfolioHash: Portfolio -> Digest, acts: seq<Act>, t: Ledger, key: InstrumentId)
    requires ConfigOk(c) && InitialOk(p) && Create(p, c).Ok? && Run(Create(p, c).value, portfolioHash, acts, t)
    requires LotAligned(Create(p, c).value) && key in t.holdings
    ensures t.holdings[key].quantity * t.holdings[key].mark % SCALE == 0
    ensures Product(t.holdings[key].quantity, t.holdings[key].mark).None? ==>
              t.holdings[key].quantity * t.holdings[key].mark / SCALE > MAX_UNITS
  {
    hide Run, Create, Worth, InitialOk, Untraded, ConfigOk, Snapshot;
    CreateKeeps(p, c);
    RunKeeps(Create(p, c).value, portfolioHash, acts, t);
    HoldingExact(t, key);
  }

  lemma HoldingExact(t: Ledger, key: InstrumentId)
    requires MidInv(t) && LotAligned(t) && key in t.holdings
    ensures t.holdings[key].quantity * t.holdings[key].mark % SCALE == 0
    ensures Product(t.holdings[key].quantity, t.holdings[key].mark).None? ==>
              t.holdings[key].quantity * t.holdings[key].mark / SCALE > MAX_UNITS
  {
    hide OrdersOk, ReservedCash, SellsLeft;
    var h, i := t.holdings[key], t.config.instruments[key];
    assert HoldingOk(h) && InstrumentOk(i);
    var m, n := h.quantity / i.lot, h.mark / i.tick;
    assert h.quantity == m * i.lot && h.mark == n * i.tick;
    ProductIsExact(i.lot, i.tick);
    ProductOfAligned(i.lot, i.tick, m, n);
    ScaledOrder(0, h.quantity, h.mark);
  }
}

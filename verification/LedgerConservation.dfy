/** Conservation: what one fill, one cancel or one mark leaves unchanged. */
module LedgerConservation {
  import opened Outcomes
  import opened Sums
  import opened Domain
  import opened Fixed
  import opened LedgerModel
  import opened LedgerFills
  import opened LedgerSafety

  // ---- Cash, cost basis and realized P&L -----------------------------------------------------

  function BasisOf(s: Ledger, key: InstrumentId): int {
    if key in s.holdings then s.holdings[key].basis else 0
  }

  function Bases(s: Ledger): seq<int> {
    seq(|s.config.keys|, i requires 0 <= i < |s.config.keys| => BasisOf(s, s.config.keys[i]))
  }

  /** Cash plus cost basis less every P&L realized on any day. */
  ghost function Worth(s: Ledger): int {
    s.cash + Sum(Bases(s)) - SumMap(s.realized)
  }

  function OrderFees(orders: seq<WorkingOrder>): seq<int> {
    seq(|orders|, i requires 0 <= i < |orders| => orders[i].order.feesPaid)
  }

  /** Fees counted by the ledger that belong to no present order. */
  function FeesBefore(s: Ledger): int {
    s.fees - Sum(OrderFees(s.orders))
  }

  /** What an order's fills moved: cash net of fees, and stock of one instrument. */
  function OrderCash(w: WorkingOrder): int {
    (if w.order.side.Buy? then -w.gross else w.gross) - w.order.feesPaid
  }

  function OrderStock(w: WorkingOrder, key: InstrumentId): int {
    if w.order.instrument != key then 0 else if w.order.side.Buy? then w.order.filled else -w.order.filled
  }

  function OrderCashes(orders: seq<WorkingOrder>): seq<int> {
    seq(|orders|, i requires 0 <= i < |orders| => OrderCash(orders[i]))
  }

  function OrderStocks(orders: seq<WorkingOrder>, key: InstrumentId): seq<int> {
    seq(|orders|, i requires 0 <= i < |orders| => OrderStock(orders[i], key))
  }

  /** Cash and stock that no present order moved. */
  function CashBefore(s: Ledger): int {
    s.cash - Sum(OrderCashes(s.orders))
  }

  function StockBefore(s: Ledger, key: InstrumentId): int {
    Held(s, key) - Sum(OrderStocks(s.orders, key))
  }

  ghost predicate FlowsKept(s: Ledger, t: Ledger) {
    CashBefore(t) == CashBefore(s) && forall k :: StockBefore(t, k) == StockBefore(s, k)
  }

  /** Worth, fees, cash and stock change by exactly what the orders' fills account for. */
  ghost predicate Conserves(s: Ledger, t: Ledger) {
    Worth(t) == Worth(s) && FeesBefore(t) == FeesBefore(s) && FlowsKept(s, t)
  }

  lemma FlowsAfter(s: Ledger, t: Ledger, i: nat, w: WorkingOrder)
    requires i < |s.orders| && t.orders == s.orders[i := w]
    requires t.cash - s.cash == OrderCash(w) - OrderCash(s.orders[i])
    requires forall k :: Held(t, k) - Held(s, k) == OrderStock(w, k) - OrderStock(s.orders[i], k)
    ensures FlowsKept(s, t)
  {
    hide Sum, OrderCash, OrderStock, Held;
    SumUpdate(OrderCashes(s.orders), i, OrderCash(w));
    assert OrderCashes(t.orders) == OrderCashes(s.orders)[i := OrderCash(w)];
    forall k
      ensures StockBefore(t, k) == StockBefore(s, k)
    {
      SumUpdate(OrderStocks(s.orders, k), i, OrderStock(w, k));
      assert OrderStocks(t.orders, k) == OrderStocks(s.orders, k)[i := OrderStock(w, k)];
    }
  }

  lemma SameFlows(s: Ledger, t: Ledger)
    requires t.orders == s.orders && t.cash == s.cash && forall k :: Held(t, k) == Held(s, k)
    ensures FlowsKept(s, t)
  {
    hide Sum, Held;
  }

  /** An order that has not traded moves nothing. */
  lemma AppendedFlows(s: Ledger, t: Ledger, w: WorkingOrder)
    requires t.orders == s.orders + [w] && t.cash == s.cash && (forall k :: Held(t, k) == Held(s, k))
    requires w.gross == 0 && w.order.feesPaid == 0 && w.order.filled == 0
    ensures FlowsKept(s, t)
  {
    hide Sum, Held;
    SumAppend(OrderCashes(s.orders), 0);
    assert OrderCashes(t.orders) == OrderCashes(s.orders) + [0];
    forall k
      ensures StockBefore(t, k) == StockBefore(s, k)
    {
      SumAppend(OrderStocks(s.orders, k), 0);
      assert OrderStocks(t.orders, k) == OrderStocks(s.orders, k) + [0];
    }
  }

  /** A fill moves exactly its value and fee in cash, and its quantity in stock. */
  lemma SliceFlows(s: Ledger, t: Ledger, i: nat, book: Book, level: nat, x: Slice, at: int)
    requires i < |s.orders| && |book.bids| > 0 && Settled(s, t, i, book, level, x, at)
    requires s.orders[i].order.instrument == book.instrument
    ensures FlowsKept(s, t)
  {
    hide Bump, Average;
    FlowsAfter(s, t, i, Sliced(s.orders[i], book, level, x, at));
  }

  /** A bought fill adds exactly its value to the cost basis; a sold one releases its floored share of it. */
  lemma SettledBasis(s: Ledger, book: Book, buying: bool, x: Slice, at: int)
    requires |book.bids| > 0 && x.quantity > 0 && Settle(s, book, buying, x.quantity, x.gross, x.fee, at).Ok?
    ensures var t, key, h := Settle(s, book, buying, x.quantity, x.gross, x.fee, at).value, book.instrument, HoldingOr(s, book, at);
            && key in t.holdings
            && (buying ==>
                  && t.holdings[key].basis == h.basis + x.gross && t.holdings[key].quantity == h.quantity + x.quantity
                  && t.holdings[key].realized == h.realized - x.fee)
            && (!buying ==>
                  var released := h.basis - t.holdings[key].basis;
                  && 0 < x.quantity <= h.quantity && t.holdings[key].quantity == h.quantity - x.quantity
                  && released * h.quantity <= h.basis * x.quantity < (released + 1) * h.quantity
                  && t.holdings[key].realized == h.realized + x.gross - released - x.fee)
  {
    hide Bump;
    var h := HoldingOr(s, book, at);
    if !buying {
      FloorShare(h.basis * x.quantity, h.quantity);
    }
  }

  lemma FloorShare(n: int, d: int)
    requires d > 0
    ensures n / d * d <= n < (n / d + 1) * d
  {
    assert n == d * (n / d) + n % d;
  }

  lemma SettleMoves(s: Ledger, book: Book, buying: bool, x: Slice, at: int)
    requires |book.bids| > 0 && x.quantity > 0 && Settle(s, book, buying, x.quantity, x.gross, x.fee, at).Ok?
    requires HoldingsOk(s) && book.bids[0].price > 0
    ensures var t := Settle(s, book, buying, x.quantity, x.gross, x.fee, at).value;
            var gained := (t.cash - s.cash) + (BasisOf(t, book.instrument) - BasisOf(s, book.instrument));
            && t.realized == Bump(s.realized, Date(at), gained)
            && t.fees == s.fees + x.fee && t.config == s.config
            && forall k :: k != book.instrument ==> BasisOf(t, k) == BasisOf(s, k)
  {
    hide Bump, HoldingOk, ConfigOk;
  }

  lemma BasesAfter(s: Ledger, t: Ledger, key: InstrumentId)
    requires ConfigOk(s.config) && t.config == s.config && key in s.config.instruments
    requires forall k :: k != key ==> BasisOf(t, k) == BasisOf(s, k)
    ensures Sum(Bases(t)) == Sum(Bases(s)) + BasisOf(t, key) - BasisOf(s, key)
  {
    hide BasisOf, Sum;
    var i :| 0 <= i < |s.config.keys| && s.config.keys[i] == key;
    SumUpdate(Bases(s), i, BasisOf(t, key));
    assert Bases(t) == Bases(s)[i := BasisOf(t, key)];
  }

  lemma RealizedAfter(m: map<int, int>, day: int, v: int)
    ensures SumMap(Bump(m, day, v)) == SumMap(m) + v
  {
    SumMapUpdate(m, day, Get(m, day) + v);
  }

  lemma FeesAfter(orders: seq<WorkingOrder>, i: nat, w: WorkingOrder)
    requires i < |orders|
    ensures Sum(OrderFees(orders[i := w])) == Sum(OrderFees(orders)) - orders[i].order.feesPaid + w.order.feesPaid
  {
    hide Sum;
    SumUpdate(OrderFees(orders), i, w.order.feesPaid);
    assert OrderFees(orders[i := w]) == OrderFees(orders)[i := w.order.feesPaid];
  }

  /** A fill moves value between cash, basis and realized P&L, and never makes or loses any. */
  lemma FillConserves(s: Ledger, t: Ledger, i: nat, book: Book, level: nat, x: Slice, at: int)
    requires MidInv(s) && i < |s.orders| && BookOk(book) && book.instrument in s.config.instruments
    requires s.orders[i].order.instrument == book.instrument
    requires Settled(s, t, i, book, level, x, at)
    ensures Conserves(s, t)
  {
    hide FlowsKept, Settle, Sum, SumMap, Bump, BasisOf, Bases, OrderOk, HoldingOk, CashHolds, SellsLeft, Average, ConfigOk;
    SliceFlows(s, t, i, book, level, x, at);
    var w, u := s.orders[i], t.(orders := s.orders);
    SettleMoves(s, book, w.order.side.Buy?, x, at);
    BasesAfter(s, u, book.instrument);
    SameBases(u, t);
    RealizedAfter(s.realized, Date(at), (u.cash - s.cash) + (BasisOf(u, book.instrument) - BasisOf(s, book.instrument)));
    FeesAfter(s.orders, i, Sliced(w, book, level, x, at));
  }

  lemma SameBases(s: Ledger, t: Ledger)
    requires t.config == s.config && t.holdings.Keys == s.holdings.Keys
    requires forall k :: k in s.holdings ==> t.holdings[k].basis == s.holdings[k].basis
    ensures Bases(t) == Bases(s)
  {
  }

  // ---- How an order may change ---------------------------------------------------------------------

  /** Fills only accumulate, identity and limits never change, and a terminal order stays as it is. */
  predicate Grows(w: WorkingOrder, v: WorkingOrder) {
    && v.permit == w.permit && v.target == w.target
    && v.order == w.order.(status := v.order.status, filled := v.order.filled, averagePrice := v.order.averagePrice,
                           feesPaid := v.order.feesPaid, fills := v.order.fills, updatedAt := v.order.updatedAt,
                           remark := v.order.remark, reconciledAt := v.order.reconciledAt)
    && w.order.fills <= v.order.fills
    && w.order.filled <= v.order.filled && w.order.feesPaid <= v.order.feesPaid
    && w.gross <= v.gross && w.debit <= v.debit
    && (!IsOpen(w.order.status) ==> v == w)
  }

  lemma GrowsTransitive(u: WorkingOrder, v: WorkingOrder, w: WorkingOrder)
    requires Grows(u, v) && Grows(v, w)
    ensures Grows(u, w)
  {
  }

  lemma SliceGrows(w: WorkingOrder, book: Book, level: nat, x: Slice, at: int)
    requires SliceOk(w, x) && IsOpen(w.order.status)
    ensures Grows(w, Sliced(w, book, level, x, at))
  {
    hide Average;
  }

  // ---- Depth ----------------------------------------------------------------------------------------

  function TakenBy(fills: seq<Fill>, book: Book, level: nat): seq<int> {
    seq(|fills|, i requires 0 <= i < |fills| =>
      if fills[i].id.book == book && fills[i].id.level == level then fills[i].quantity else 0)
  }

  function OrderTaken(w: WorkingOrder, book: Book, side: Side, level: nat): int {
    if w.order.side == side then Sum(TakenBy(w.order.fills, book, level)) else 0
  }

  function LevelTaken(orders: seq<WorkingOrder>, book: Book, side: Side, level: nat): seq<int> {
    seq(|orders|, i requires 0 <= i < |orders| => OrderTaken(orders[i], book, side, level))
  }

  /** Everything the present orders took from one level of one book. */
  function Taken(s: Ledger, book: Book, side: Side, level: nat): int {
    Sum(LevelTaken(s.orders, book, side, level))
  }

  lemma TakenAfter(s: Ledger, t: Ledger, i: nat, book: Book, side: Side, level: nat)
    requires i < |s.orders| && |t.orders| == |s.orders| && t.orders == s.orders[i := t.orders[i]]
    ensures Taken(t, book, side, level) ==
            Taken(s, book, side, level) - OrderTaken(s.orders[i], book, side, level) + OrderTaken(t.orders[i], book, side, level)
  {
    hide Sum, OrderTaken;
    SumUpdate(LevelTaken(s.orders, book, side, level), i, OrderTaken(t.orders[i], book, side, level));
    assert LevelTaken(t.orders, book, side, level)
        == LevelTaken(s.orders, book, side, level)[i := OrderTaken(t.orders[i], book, side, level)];
  }

  /** A fill is charged to its own level of its own book, and to no other. */
  lemma SliceTaken(w: WorkingOrder, book: Book, level: nat, x: Slice, at: int, other: Book, side: Side, l: nat)
    ensures OrderTaken(Sliced(w, book, level, x, at), other, side, l) ==
            OrderTaken(w, other, side, l) + if w.order.side == side && other == book && l == level then x.quantity else 0
  {
    hide Sum, Average;
    var v := Sliced(w, book, level, x, at);
    var y := if other == book && l == level then x.quantity else 0;
    SumAppend(TakenBy(w.order.fills, other, l), y);
    assert TakenBy(v.order.fills, other, l) == TakenBy(w.order.fills, other, l) + [y];
  }
}

/** What holds of the ledger between commands and in the middle of a matching pass. */
module LedgerSafety {
  import opened Outcomes
  import opened Sums
  import opened Domain
  import opened Fixed
  import opened LedgerModel
  import opened LedgerFills

  // ---- One order ------------------------------------------------------------------------------

  function FillQuantities(fills: seq<Fill>): seq<int> {
    seq(|fills|, i requires 0 <= i < |fills| => fills[i].quantity)
  }

  function FillFees(fills: seq<Fill>): seq<int> {
    seq(|fills|, i requires 0 <= i < |fills| => fills[i].fee)
  }

  function FillValues(fills: seq<Fill>): seq<int> {
    seq(|fills|, i requires 0 <= i < |fills| => fills[i].quantity * fills[i].price)
  }

  /** An order agrees with its permit, and its running totals are exactly those of its fills. */
  ghost predicate OrderOk(c: Config, w: WorkingOrder) {
    var o, a := w.order, w.permit.approval;
    && o.side == a.side && o.instrument == a.instrument && o.clientOrderId == a.clientOrderId && o.intent == a.intent
    && a.instrument in c.instruments
    && ExecutionOk(w.permit.execution)
    && w.target <= w.permit.record.maxQuantity
    && 0 <= o.filled <= Max(0, w.target)
    && 0 <= w.gross <= a.notional
    && 0 <= w.debit <= w.permit.record.maxCashDebit
    && Totalled(w)
    && (IsOpen(o.status) ==> w.target > 0)
  }

  ghost predicate Totalled(w: WorkingOrder) {
    var o := w.order;
    && (forall i :: 0 <= i < |o.fills| ==> o.fills[i].quantity > 0 && o.fills[i].price > 0 && o.fills[i].fee >= 0)
    && o.filled == Sum(FillQuantities(o.fills))
    && o.feesPaid == Sum(FillFees(o.fills))
    && w.gross * SCALE == Sum(FillValues(o.fills))
    && w.debit == (if o.side.Buy? then w.gross else 0) + o.feesPaid
    && (o.filled > 0 ==> o.averagePrice == Some(Average(w.gross, o.filled)))
  }

  /** Between commands an open order has not traded. */
  predicate Resting(w: WorkingOrder) {
    IsOpen(w.order.status) ==>
      w.order.status.Submitted? && w.order.fills == [] && w.gross == 0 && w.debit == 0 && w.order.filled == 0
  }

  // ---- Holdings ---------------------------------------------------------------------------------

  /** The last clause keeps the displayed average price positive. */
  predicate HoldingOk(h: Holding) {
    h.quantity >= 0 && h.basis >= 0 && (h.quantity == 0 ==> h.basis == 0) && h.basis * SCALE >= h.quantity && h.mark > 0
  }

  ghost predicate HoldingsOk(s: Ledger) {
    forall k :: k in s.holdings ==> k in s.config.instruments && k in s.markTimes && HoldingOk(s.holdings[k])
  }

  function Held(s: Ledger, key: InstrumentId): int {
    if key in s.holdings then s.holdings[key].quantity else 0
  }

  function SellLeft(w: WorkingOrder, key: InstrumentId): int {
    if IsOpen(w.order.status) && w.order.side.Sell? && w.order.instrument == key then w.target - w.order.filled else 0
  }

  function SellsLeft(orders: seq<WorkingOrder>, key: InstrumentId): seq<int> {
    seq(|orders|, i requires 0 <= i < |orders| => SellLeft(orders[i], key))
  }

  // ---- The invariant ----------------------------------------------------------------------------------

  ghost predicate OrdersOk(c: Config, orders: seq<WorkingOrder>) {
    && (forall i :: 0 <= i < |orders| ==> OrderOk(c, orders[i]))
    && (forall i, j :: 0 <= i < j < |orders| ==>
          orders[i].order.clientOrderId != orders[j].order.clientOrderId && orders[i].order.intent != orders[j].order.intent)
  }

  /** Holds at every point of a matching pass. */
  ghost predicate MidInv(s: Ledger) {
    && ConfigOk(s.config)
    && OrdersOk(s.config, s.orders)
    && HoldingsOk(s)
    && 0 <= ReservedCash(s) <= s.cash
    && (forall k :: Sum(SellsLeft(s.orders, k)) <= Held(s, k))
  }

  ghost predicate AllResting(orders: seq<WorkingOrder>) {
    forall i :: 0 <= i < |orders| ==> Resting(orders[i])
  }

  lemma HoldsNonNegative(c: Config, orders: seq<WorkingOrder>)
    requires OrdersOk(c, orders)
    ensures forall j :: 0 <= j < |orders| ==> CashHolds(orders)[j] >= 0
    ensures forall k, j :: 0 <= j < |orders| ==> SellsLeft(orders, k)[j] >= 0
  {
    forall j | 0 <= j < |orders|
      ensures CashHolds(orders)[j] >= 0
    {
      assert OrderOk(c, orders[j]);
    }
    forall k, j | 0 <= j < |orders|
      ensures SellsLeft(orders, k)[j] >= 0
    {
      assert OrderOk(c, orders[j]);
    }
  }

  /** One order holds no more than all of them do. */
  lemma OwnHold(s: Ledger, i: nat, key: InstrumentId)
    requires MidInv(s) && i < |s.orders|
    ensures CashHold(s.orders[i]) <= ReservedCash(s) <= s.cash
    ensures SellLeft(s.orders[i], key) <= Sum(SellsLeft(s.orders, key)) <= Held(s, key)
  {
    hide Sum, OrderOk, HoldingsOk, CashHold, SellLeft, Held;
    HoldsNonNegative(s.config, s.orders);
    SumBounds(CashHolds(s.orders), i);
    SumBounds(SellsLeft(s.orders, key), i);
  }

  lemma HoldsAfter(orders: seq<WorkingOrder>, i: nat, w: WorkingOrder, key: InstrumentId)
    requires i < |orders|
    ensures Sum(CashHolds(orders[i := w])) == Sum(CashHolds(orders)) - CashHold(orders[i]) + CashHold(w)
    ensures Sum(SellsLeft(orders[i := w], key)) == Sum(SellsLeft(orders, key)) - SellLeft(orders[i], key) + SellLeft(w, key)
  {
    hide Sum, CashHold, SellLeft;
    SumUpdate(CashHolds(orders), i, CashHold(w));
    assert CashHolds(orders[i := w]) == CashHolds(orders)[i := CashHold(w)];
    SumUpdate(SellsLeft(orders, key), i, SellLeft(w, key));
    assert SellsLeft(orders[i := w], key) == SellsLeft(orders, key)[i := SellLeft(w, key)];
  }

  lemma OrdersAfter(c: Config, orders: seq<WorkingOrder>, i: nat, w: WorkingOrder)
    requires OrdersOk(c, orders) && i < |orders| && OrderOk(c, w)
    requires w.order.clientOrderId == orders[i].order.clientOrderId && w.order.intent == orders[i].order.intent
    ensures OrdersOk(c, orders[i := w])
  {
    hide OrderOk;
  }

  // ---- One fill ---------------------------------------------------------------------------------------

  /** The numbers of one fill. */
  datatype Slice = Slice(quantity: int, price: int, gross: int, fee: int)

  function SliceDebit(w: WorkingOrder, x: Slice): int {
    (if w.order.side.Buy? then x.gross else 0) + x.fee
  }

  ghost predicate SliceOk(w: WorkingOrder, x: Slice) {
    && x.quantity > 0 && x.price > 0 && x.gross * SCALE == x.quantity * x.price && x.gross >= 0 && x.fee >= 0
    && x.quantity <= w.target - w.order.filled
    && x.gross <= w.permit.approval.notional - w.gross
    && SliceDebit(w, x) <= w.permit.record.maxCashDebit - w.debit
  }

  function Sliced(w: WorkingOrder, book: Book, level: nat, x: Slice, at: int): WorkingOrder {
    FilledOrder(w, book, level, x.quantity, x.price, x.gross, x.fee, SliceDebit(w, x), at)
  }

  lemma TermsAreOk(w: WorkingOrder, settings: PaperInstrument, raw: int)
    requires InstrumentOk(settings) && ExecutionOk(w.permit.execution) && raw > 0
    ensures TermsOk(TermsOf(w, settings, raw))
  {
    hide ExecutionPrice;
    PriceIsAdverse(w.order.side.Buy?, raw, w.permit.execution.slippageBps, settings.tick);
  }

  lemma FeeNonNegative(t: Terms, gross: int)
    requires t.feeBps >= 0 && gross >= 0
    ensures FillFee(t, gross) >= 0
  {
    CeilDivNonNegative(gross * t.feeBps, BPS_DENOMINATOR);
  }

  lemma ExactValue(quantity: int, price: int)
    requires quantity > 0 && price > 0 && Product(quantity, price).Some?
    ensures Product(quantity, price).value * SCALE == quantity * price && Product(quantity, price).value >= 0
  {
    ProductIsExact(quantity, price);
    ScaledOrder(Product(quantity, price).value, -1, SCALE);
  }

  /** What a level does, in terms of the slice it takes. */
  lemma FillLevelIs(s: Ledger, i: nat, book: Book, level: nat, raw: int, available: int, at: int) returns (x: Option<Slice>)
    requires i < |s.orders| && ConfigOk(s.config) && book.instrument in s.config.instruments && |book.bids| > 0
    requires ExecutionOk(s.orders[i].permit.execution) && raw > 0
    ensures var r := FillLevel(s, i, book, level, raw, available, at);
            match x
            case None => r == Ok((s, 0)) || r == Err(NotRepresentable)
            case Some(f) =>
              && SliceOk(s.orders[i], f) && f.quantity <= available
              && f.quantity % s.config.instruments[book.instrument].lot == 0
              && var settled := Settle(s, book, s.orders[i].order.side.Buy?, f.quantity, f.gross, f.fee, at);
                 match settled
                 case Err(e) => r == Err(e)
                 case Ok(t) => r == Ok((t.(orders := s.orders[i := Sliced(s.orders[i], book, level, f, at)]), f.quantity))
  {
    hide LevelQuantity, Product, FillFee, ExecutionPrice, Settle, FilledOrder;
    var w, settings := s.orders[i], s.config.instruments[book.instrument];
    var t := TermsOf(w, settings, raw);
    TermsAreOk(w, settings, raw);
    LevelFillIsMaximal(w, settings, raw, available, 0);
    var taken := LevelQuantity(w, settings, raw, available);
    if taken.Ok? && taken.value > 0 {
      ExactValue(taken.value, t.price);
      var gross := Product(taken.value, t.price).value;
      FeeNonNegative(t, gross);
      x := Some(Slice(taken.value, t.price, gross, FillFee(t, gross)));
    } else {
      x := None;
    }
  }

  lemma SlicedTotals(w: WorkingOrder, book: Book, level: nat, x: Slice, at: int)
    requires Totalled(w) && SliceOk(w, x) && w.order.filled >= 0
    ensures Totalled(Sliced(w, book, level, x, at))
  {
    hide Sum, Average;
    var o, v := w.order, Sliced(w, book, level, x, at);
    SumAppend(FillQuantities(o.fills), x.quantity);
    assert FillQuantities(v.order.fills) == FillQuantities(o.fills) + [x.quantity];
    SumAppend(FillFees(o.fills), x.fee);
    assert FillFees(v.order.fills) == FillFees(o.fills) + [x.fee];
    SumAppend(FillValues(o.fills), x.quantity * x.price);
    assert FillValues(v.order.fills) == FillValues(o.fills) + [x.quantity * x.price];
  }

  /** The average fill price an order shows is a valid, positive price. */
  lemma AverageFillPriceIsPositive(w: WorkingOrder)
    requires Totalled(w) && w.order.filled > 0
    ensures w.order.averagePrice.Some? && w.order.averagePrice.value > 0
  {
    hide Average;
    var q, v := FillQuantities(w.order.fills), FillValues(w.order.fills);
    forall j | 0 <= j < |q|
      ensures q[j] <= v[j]
    {
      ScaledOrder(1, w.order.fills[j].price, w.order.fills[j].quantity);
    }
    SumMonotone(q, v);
    AverageIsPositive(w.gross, w.order.filled);
  }

  lemma SlicedIsOk(c: Config, w: WorkingOrder, book: Book, level: nat, x: Slice, at: int)
    requires OrderOk(c, w) && SliceOk(w, x)
    ensures OrderOk(c, Sliced(w, book, level, x, at))
  {
    hide Totalled, Average;
    SlicedTotals(w, book, level, x, at);
  }

  lemma CancelFactor(x: int, y: int, d: int)
    requires d > 0 && x * d >= y * d
    ensures x >= y
  {
    ScaledOrder(x + 1, y, d);
    assert (x + 1) * d == x * d + d;
  }

  lemma Distribute(a: int, b: int, d: int)
    ensures (a - b) * d == a * d - b * d && d * (a - b) == d * a - d * b
  {
  }

  lemma SwapFactors(a: int, b: int, c: int)
    ensures (a * b) * c == (a * c) * b
  {
  }

  /** The basis left, scaled by what was held, covers the share of what was not sold. */
  lemma BasisLeft(basis: int, held: int, sold: int)
    requires 0 < sold <= held && basis >= 0
    ensures (basis - basis * sold / held) * held >= basis * (held - sold) >= 0
  {
    var taken := basis * sold / held;
    FloorIsCovered(basis * sold, held);
    Distribute(basis, taken, held);
    Distribute(held, sold, basis);
    ScaledOrder(0, held - sold, basis);
  }

  lemma BasisExhausted(basis: int, held: int)
    requires held > 0
    ensures basis * held / held == basis
  {
    ExactQuotient(basis * held, held, basis);
  }

  /** The share of the cost basis a sale takes leaves the rest positive. */
  lemma BasisAfterSale(basis: int, held: int, sold: int)
    requires 0 < sold <= held && basis >= 0 && basis * SCALE >= held
    ensures var left := basis - basis * sold / held;
            0 <= left && left * SCALE >= held - sold && (held == sold ==> left == 0)
  {
    var left := basis - basis * sold / held;
    BasisLeft(basis, held, sold);
    CancelFactor(left, 0, held);
    BasisExhausted(basis, held);
    BasisScaled(basis, held, held - sold, left);
  }

  lemma BasisScaled(basis: int, held: int, kept: int, left: int)
    requires held > 0 && kept >= 0 && basis * SCALE >= held && left * held >= basis * kept
    ensures left * SCALE >= kept
  {
    ScaledOrder(held, basis * SCALE, kept);
    ScaledOrder(basis * kept, left * held, SCALE);
    SwapFactors(basis, SCALE, kept);
    SwapFactors(left, SCALE, held);
    assert held * kept == kept * held;
    CancelFactor(left * SCALE, kept, held);
  }

  /** A fill that respects the order's own limits never meets the two "cannot happen" refusals. */
  lemma SettleSucceeds(s: Ledger, i: nat, book: Book, x: Slice, at: int)
    requires MidInv(s) && i < |s.orders| && IsOpen(s.orders[i].order.status) && |book.bids| > 0
    requires s.orders[i].order.instrument == book.instrument && SliceOk(s.orders[i], x)
    ensures Settle(s, book, s.orders[i].order.side.Buy?, x.quantity, x.gross, x.fee, at).Ok?
  {
    hide OrdersOk, HoldingsOk, ReservedCash, SellsLeft;
    OwnHold(s, i, book.instrument);
  }

  ghost predicate Frame(s: Ledger, t: Ledger) {
    && t.config == s.config && t.initial == s.initial && t.peak == s.peak && t.books == s.books
    && t.healthy == s.healthy && t.asOf == s.asOf && t.isSealed == s.isSealed
  }

  lemma HoldingAfterBuy(h: Holding, x: Slice)
    requires HoldingOk(h) && x.quantity > 0 && x.price > 0 && x.gross * SCALE == x.quantity * x.price && x.gross >= 0
    ensures HoldingOk(h.(quantity := h.quantity + x.quantity, basis := h.basis + x.gross))
  {
    ScaledOrder(1, x.price, x.quantity);
    assert x.price * x.quantity == x.quantity * x.price;
  }

  lemma HoldingAfterSale(h: Holding, quantity: int)
    requires HoldingOk(h) && 0 < quantity <= h.quantity
    ensures HoldingOk(h.(quantity := h.quantity - quantity, basis := h.basis - h.basis * quantity / h.quantity))
  {
    BasisAfterSale(h.basis, h.quantity, quantity);
  }

  lemma SettleKeepsHoldings(s: Ledger, i: nat, book: Book, x: Slice, at: int)
    requires MidInv(s) && i < |s.orders| && IsOpen(s.orders[i].order.status)
    requires |book.bids| > 0 && book.bids[0].price > 0
    requires s.orders[i].order.instrument == book.instrument && SliceOk(s.orders[i], x)
    requires book.instrument in s.config.instruments
    requires Settle(s, book, s.orders[i].order.side.Buy?, x.quantity, x.gross, x.fee, at).Ok?
    ensures var buying := s.orders[i].order.side.Buy?;
            var t := Settle(s, book, buying, x.quantity, x.gross, x.fee, at).value;
            && Frame(s, t) && t.orders == s.orders && HoldingsOk(t)
            && t.cash >= s.cash - SliceDebit(s.orders[i], x)
            && forall k :: Held(t, k) ==
                           Held(s, k) + if k != book.instrument then 0 else if buying then x.quantity else -x.quantity
  {
    hide OrdersOk, ReservedCash, Sum, Bump, HoldingOk, SellsLeft, ConfigOk;
    var buying := s.orders[i].order.side.Buy?;
    var h := HoldingOr(s, book, at);
    FreshHolding(s, book, at);
    if buying {
      HoldingAfterBuy(h, x);
    } else {
      HoldingAfterSale(h, x.quantity);
    }
    HoldingOkIgnores(h);
  }

  lemma FreshHolding(s: Ledger, book: Book, at: int)
    requires HoldingsOk(s) && |book.bids| > 0 && book.bids[0].price > 0
    ensures HoldingOk(HoldingOr(s, book, at))
  {
  }

  /** Realized P&L is free. */
  lemma HoldingOkIgnores(h: Holding)
    ensures forall q, b, r :: HoldingOk(h.(quantity := q, basis := b)) ==> HoldingOk(h.(quantity := q, basis := b, realized := r))
  {
  }

  /** The state one slice leaves, when it settles. */
  ghost predicate Settled(s: Ledger, t: Ledger, i: nat, book: Book, level: nat, x: Slice, at: int)
    requires i < |s.orders| && |book.bids| > 0
  {
    && SliceOk(s.orders[i], x)
    && t.orders == s.orders[i := Sliced(s.orders[i], book, level, x, at)]
    && Settle(s, book, s.orders[i].order.side.Buy?, x.quantity, x.gross, x.fee, at) == Ok(t.(orders := s.orders))
  }

  lemma SlicedHolds(w: WorkingOrder, book: Book, level: nat, x: Slice, at: int, key: InstrumentId)
    requires IsOpen(w.order.status) && w.order.instrument == book.instrument
    ensures var v := Sliced(w, book, level, x, at);
            && CashHold(v) == CashHold(w) - SliceDebit(w, x)
            && SellLeft(v, key) == SellLeft(w, key) - (if key == book.instrument && !w.order.side.Buy? then x.quantity else 0)
            && v.order.clientOrderId == w.order.clientOrderId && v.order.intent == w.order.intent
  {
    hide Average;
  }

  lemma SettledKeeps(s: Ledger, t: Ledger, i: nat, book: Book, level: nat, x: Slice, at: int)
    requires MidInv(s) && i < |s.orders| && IsOpen(s.orders[i].order.status) && BookOk(book)
    requires s.orders[i].order.instrument == book.instrument && book.instrument in s.config.instruments
    requires Settled(s, t, i, book, level, x, at)
    ensures MidInv(t) && Frame(s, t)
  {
    hide Settle, Sum, OrderOk, HoldingsOk, Held, FilledOrder, SellsLeft, CashHolds, CashHold, SellLeft, ReservedCash;
    var w, v, u := s.orders[i], Sliced(s.orders[i], book, level, x, at), t.(orders := s.orders);
    SettleKeepsHoldings(s, i, book, x, at);
    HoldingsCarry(u, t);
    SlicedIsOk(s.config, w, book, level, x, at);
    SlicedHolds(w, book, level, x, at, book.instrument);
    OrdersAfter(s.config, s.orders, i, v);
    SlicedHoldNonNegative(w, book, level, x, at);
    ReservedAfterSlice(s, t, i, v);
    forall k
      ensures Sum(SellsLeft(t.orders, k)) <= Held(t, k)
    {
      HoldsAfter(s.orders, i, v, k);
      SlicedHolds(w, book, level, x, at, k);
    }
  }

  lemma SlicedHoldNonNegative(w: WorkingOrder, book: Book, level: nat, x: Slice, at: int)
    requires SliceOk(w, x)
    ensures CashHold(Sliced(w, book, level, x, at)) >= 0
  {
    hide Average;
  }

  /** One level keeps the invariant; the only refusal left is a value too large to represent. */
  lemma FillLevelKeeps(s: Ledger, i: nat, book: Book, level: nat, raw: int, available: int, at: int) returns (x: Option<Slice>)
    requires MidInv(s) && i < |s.orders| && IsOpen(s.orders[i].order.status) && raw > 0 && BookOk(book)
    requires s.orders[i].order.instrument == book.instrument
    ensures book.instrument in s.config.instruments
    ensures var r := FillLevel(s, i, book, level, raw, available, at);
            match r
            case Err(e) => e == NotRepresentable
            case Ok((t, taken)) =>
              && MidInv(t) && Frame(s, t)
              && match x
                 case None => t == s && taken == 0
                 case Some(f) => taken == f.quantity <= available && Settled(s, t, i, book, level, f, at)
  {
    hide FillLevel, Settle, Sum, Totalled, HoldingsOk, Held, SellsLeft, CashHolds, FilledOrder, ReservedCash;
    assert OrderOk(s.config, s.orders[i]);
    x := FillLevelIs(s, i, book, level, raw, available, at);
    if x.Some? {
      SettleSucceeds(s, i, book, x.value, at);
      SettledFrame(s, book, s.orders[i].order.side.Buy?, x.value, at);
      var u := Settle(s, book, s.orders[i].order.side.Buy?, x.value.quantity, x.value.gross, x.value.fee, at).value;
      var t := u.(orders := s.orders[i := Sliced(s.orders[i], book, level, x.value, at)]);
      assert t.(orders := s.orders) == u;
      SettledKeeps(s, t, i, book, level, x.value, at);
    }
  }

  lemma SettledFrame(s: Ledger, book: Book, buying: bool, x: Slice, at: int)
    requires |book.bids| > 0 && x.quantity > 0
    ensures var r := Settle(s, book, buying, x.quantity, x.gross, x.fee, at);
            r.Ok? ==> r.value.orders == s.orders && Frame(s, r.value)
  {
  }

  lemma HoldingsCarry(s: Ledger, t: Ledger)
    requires HoldingsOk(s) && t == s.(orders := t.orders)
    ensures HoldingsOk(t) && forall k :: Held(t, k) == Held(s, k)
  {
  }

  lemma ReservedAfterSlice(s: Ledger, t: Ledger, i: nat, v: WorkingOrder)
    requires MidInv(s) && i < |s.orders| && t.orders == s.orders[i := v]
    requires OrdersOk(t.config, t.orders)
    requires CashHold(v) >= 0 && t.cash - s.cash >= CashHold(v) - CashHold(s.orders[i])
    ensures 0 <= ReservedCash(t) <= t.cash
  {
    hide Sum, OrderOk, HoldingsOk, CashHold, SellsLeft;
    HoldsAfter(s.orders, i, v, s.orders[i].order.instrument);
    HoldsNonNegative(t.config, t.orders);
    SumNonNegative(CashHolds(t.orders));
  }
}

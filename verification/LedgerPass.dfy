/** One matching pass over the orders of a ledger. */
module LedgerPass {
  import opened Outcomes
  import opened Sums
  import opened Domain
  import opened Fixed
  import opened LedgerModel
  import opened LedgerFills
  import opened LedgerSafety
  import opened LedgerConservation

  // ---- The levels of one order -----------------------------------------------------------------

  /** Only order `i` moved, and nothing was created or lost. */
  ghost predicate Progress(s: Ledger, t: Ledger, i: nat)
    requires i < |s.orders|
  {
    && MidInv(t) && Frame(s, t) && Conserves(s, t)
    && |t.orders| == |s.orders| && t.orders == s.orders[i := t.orders[i]]
    && IsOpen(t.orders[i].order.status) && Grows(s.orders[i], t.orders[i])
  }

  /** What order `w` became by taking from `depth` until `left` remained. */
  ghost predicate Charged(w: WorkingOrder, v: WorkingOrder, book: Book, depth: seq<int>, left: seq<int>) {
    && |left| == |depth| && v.order.side == w.order.side
    && (forall l: nat :: l < |depth| ==>
          left[l] == depth[l] - OrderTaken(v, book, w.order.side, l) + OrderTaken(w, book, w.order.side, l))
    && (forall l: nat :: l < |depth| && depth[l] >= 0 ==> left[l] >= 0)
    && (forall other, side, l: nat :: other != book || side != w.order.side || l >= |depth| ==>
          OrderTaken(v, other, side, l) == OrderTaken(w, other, side, l))
  }

  lemma ChargedTransitive(
      u: WorkingOrder, v: WorkingOrder, w: WorkingOrder, book: Book, depth: seq<int>, mid: seq<int>, left: seq<int>)
    requires Charged(u, v, book, depth, mid) && Charged(v, w, book, mid, left)
    ensures Charged(u, w, book, depth, left)
  {
    hide OrderTaken;
  }

  lemma ProgressTransitive(s: Ledger, t: Ledger, u: Ledger, i: nat)
    requires i < |s.orders| && Progress(s, t, i) && Progress(t, u, i)
    ensures Progress(s, u, i)
  {
    hide MidInv, Worth, FeesBefore, CashBefore, StockBefore, Grows;
    GrowsTransitive(s.orders[i], t.orders[i], u.orders[i]);
  }

  lemma SliceCharged(w: WorkingOrder, book: Book, j: nat, x: Slice, at: int, depth: seq<int>)
    requires j < |depth| && x.quantity <= depth[j]
    ensures Charged(w, Sliced(w, book, j, x, at), book, depth, depth[j := depth[j] - x.quantity])
  {
    hide OrderTaken, FilledOrder;
    var v := Sliced(w, book, j, x, at);
    forall other, side, l: nat
      ensures OrderTaken(v, other, side, l) ==
              OrderTaken(w, other, side, l) + if w.order.side == side && other == book && l == j then x.quantity else 0
    {
      SliceTaken(w, book, j, x, at, other, side, l);
    }
    assert v.order.side == w.order.side by {
      SlicedSide(w, book, j, x, at);
    }
  }

  lemma SlicedSide(w: WorkingOrder, book: Book, j: nat, x: Slice, at: int)
    ensures Sliced(w, book, j, x, at).order.side == w.order.side
    ensures IsOpen(Sliced(w, book, j, x, at).order.status)
    ensures Sliced(w, book, j, x, at).order.instrument == w.order.instrument
  {
    hide Average;
  }

  lemma StayPut(s: Ledger, i: nat, book: Book, depth: seq<int>)
    requires MidInv(s) && i < |s.orders| && IsOpen(s.orders[i].order.status)
    ensures Progress(s, s, i) && Charged(s.orders[i], s.orders[i], book, depth, depth)
  {
    hide OrderTaken, Worth, FeesBefore, CashBefore, StockBefore, MidInv;
  }

  /** One level: progress, with its quantity charged to the depth. */
  lemma LevelProgress(s: Ledger, i: nat, book: Book, j: nat, raw: int, depth: seq<int>, at: int)
    requires MidInv(s) && i < |s.orders| && IsOpen(s.orders[i].order.status) && raw > 0 && BookOk(book)
    requires s.orders[i].order.instrument == book.instrument && j < |depth|
    ensures book.instrument in s.config.instruments
    ensures match FillLevel(s, i, book, j, raw, depth[j], at)
            case Err(e) => e == NotRepresentable
            case Ok((t, taken)) =>
              Progress(s, t, i) && Charged(s.orders[i], t.orders[i], book, depth, depth[j := depth[j] - taken])
  {
    hide FillLevel, MidInv, Settle, FilledOrder, SliceOk, Conserves, OrderTaken, Grows, Charged, ConfigOk;
    MidConfig(s);
    var x := FillLevelKeeps(s, i, book, j, raw, depth[j], at);
    var r := FillLevel(s, i, book, j, raw, depth[j], at);
    if r.Ok? {
      if x.None? {
        assert depth[j := depth[j] - 0] == depth;
        StayPut(s, i, book, depth);
      } else {
        SliceGrows(s.orders[i], book, j, x.value, at);
        SlicedSide(s.orders[i], book, j, x.value, at);
        SliceCharged(s.orders[i], book, j, x.value, at, depth);
        FillConserves(s, r.value.0, i, book, j, x.value, at);
      }
    }
  }

  lemma {:induction false} FillLevelsKeep(s: Ledger, i: nat, book: Book, j: nat, depth: seq<int>, at: int)
    requires MidInv(s) && i < |s.orders| && IsOpen(s.orders[i].order.status) && BookOk(book)
    requires s.orders[i].order.instrument == book.instrument
    requires j <= |LevelsFor(book, s.orders[i].order.side)| == |depth|
    ensures book.instrument in s.config.instruments
    ensures match FillLevels(s, i, book, j, depth, at)
            case Err(e) => e == NotRepresentable
            case Ok((t, left)) => Progress(s, t, i) && Charged(s.orders[i], t.orders[i], book, depth, left)
    decreases |depth| - j
  {
    hide FillLevel, OrderOk, MidInv, Conserves, Grows, Charged, Frame, Progress;
    OrderInstrument(s, i);
    MidConfig(s);
    var levels := LevelsFor(book, s.orders[i].order.side);
    if j == |levels| {
      StayPut(s, i, book, depth);
    } else {
      LevelProgress(s, i, book, j, levels[j].price, depth, at);
      var first := FillLevel(s, i, book, j, levels[j].price, depth[j], at);
      if first.Ok? {
        var t, mid := first.value.0, depth[j := depth[j] - first.value.1];
        ProgressShape(s, t, i);
        if t.orders[i].order.filled != t.orders[i].target {
          FillLevelsKeep(t, i, book, j + 1, mid, at);
          var rest := FillLevels(t, i, book, j + 1, mid, at);
          if rest.Ok? {
            ProgressTransitive(s, t, rest.value.0, i);
            ProgressShape(t, rest.value.0, i);
            ChargedTransitive(s.orders[i], t.orders[i], rest.value.0.orders[i], book, depth, mid, rest.value.1);
          }
        }
      }
    }
  }

  lemma ProgressShape(s: Ledger, t: Ledger, i: nat)
    requires i < |s.orders| && Progress(s, t, i)
    ensures MidInv(t) && |t.orders| == |s.orders| && IsOpen(t.orders[i].order.status) && t.config == s.config
    ensures t.orders[i].order.instrument == s.orders[i].order.instrument && t.orders[i].order.side == s.orders[i].order.side
  {
    hide MidInv, Conserves;
    GrowsSame(s.orders[i], t.orders[i]);
  }

  lemma MidConfig(s: Ledger)
    requires MidInv(s)
    ensures ConfigOk(s.config)
  {
  }

  lemma OrderInstrument(s: Ledger, i: nat)
    requires MidInv(s) && i < |s.orders|
    ensures s.orders[i].order.instrument in s.config.instruments && OrderOk(s.config, s.orders[i])
  {
  }

  lemma GrowsSame(w: WorkingOrder, v: WorkingOrder)
    requires Grows(w, v)
    ensures v.order.instrument == w.order.instrument && v.order.side == w.order.side
    ensures v.order.clientOrderId == w.order.clientOrderId && v.order.intent == w.order.intent
  {
  }

  // ---- One order ---------------------------------------------------------------------------------

  /** A status change of an open order keeps the invariant. */
  lemma StatusKeeps(s: Ledger, i: nat, status: Status, at: int, remark: Option<Remark>)
    requires MidInv(s) && i < |s.orders| && IsOpen(s.orders[i].order.status)
    ensures var t := SetStatus(s, i, status, at, remark);
            && MidInv(t) && Conserves(s, t) && Frame(s, t)
            && Grows(s.orders[i], t.orders[i])
            && forall book, side, l: nat :: OrderTaken(t.orders[i], book, side, l) == OrderTaken(s.orders[i], book, side, l)
  {
    hide Sum, Totalled, HoldingOk, Held, SumMap, BasisOf, CashHold, SellLeft, OrderTaken, FlowsKept;
    var w := s.orders[i];
    var t := SetStatus(s, i, status, at, remark);
    var v := t.orders[i];
    OrderInstrument(s, i);
    StatusHolds(s.config, w, v);
    OrdersAfter(s.config, s.orders, i, v);
    ReservedAfterSlice(s, t, i, v);
    SameBases(s, t);
    FeesAfter(s.orders, i, v);
    StatusFlows(s, i, status, at, remark);
    HoldingsCarry(s, t);
    forall k
      ensures Sum(SellsLeft(t.orders, k)) <= Held(t, k)
    {
      HoldsAfter(s.orders, i, v, k);
      StatusSells(s.config, w, v, k);
    }
    forall book, side, l: nat
      ensures OrderTaken(v, book, side, l) == OrderTaken(w, book, side, l)
    {
      SameFills(w, v, book, side, l);
    }
  }

  lemma StatusFlows(s: Ledger, i: nat, status: Status, at: int, remark: Option<Remark>)
    requires i < |s.orders|
    ensures FlowsKept(s, SetStatus(s, i, status, at, remark))
  {
    hide FlowsKept;
    var t := SetStatus(s, i, status, at, remark);
    FlowsAfter(s, t, i, t.orders[i]);
  }

  lemma SameFills(w: WorkingOrder, v: WorkingOrder, book: Book, side: Side, l: nat)
    requires v.order.fills == w.order.fills && v.order.side == w.order.side
    ensures OrderTaken(v, book, side, l) == OrderTaken(w, book, side, l)
  {
  }

  ghost predicate Restated(w: WorkingOrder, v: WorkingOrder) {
    IsOpen(w.order.status) &&
    v == w.(order := w.order.(status := v.order.status, updatedAt := v.order.updatedAt, remark := v.order.remark,
                              reconciledAt := v.order.reconciledAt))
  }

  lemma StatusHolds(c: Config, w: WorkingOrder, v: WorkingOrder)
    requires OrderOk(c, w) && Restated(w, v)
    ensures OrderOk(c, v) && 0 <= CashHold(v) <= CashHold(w)
  {
    hide Average, FillValues, FillQuantities, FillFees, Sum;
  }

  lemma StatusSells(c: Config, w: WorkingOrder, v: WorkingOrder, k: InstrumentId)
    requires OrderOk(c, w) && Restated(w, v)
    ensures 0 <= SellLeft(v, k) <= SellLeft(w, k)
  {
    hide Totalled;
  }

  // ---- The pass -------------------------------------------------------------------------------------

  /** A pass may seal the batch; it touches no configuration, book, clock or peak. */
  ghost predicate PassFrame(s: Ledger, t: Ledger) {
    && t.config == s.config && t.initial == s.initial && t.peak == s.peak && t.books == s.books
    && t.healthy == s.healthy && t.asOf == s.asOf && (s.isSealed ==> t.isSealed)
  }

  /** What matching one order, or several, does to the ledger. */
  ghost predicate Matched(s: Ledger, t: Ledger) {
    && MidInv(t) && AllResting(t.orders) && PassFrame(s, t) && Conserves(s, t)
    && |t.orders| == |s.orders| && forall k :: 0 <= k < |s.orders| ==> Grows(s.orders[k], t.orders[k])
  }

  /** The depth on each side is what is left after the quantities taken since `s`. */
  ghost predicate DepthKept(s: Ledger, t: Ledger, book: Book, side: Side, depth: seq<int>, left: seq<int>) {
    && |left| == |depth|
    && (forall l: nat :: l < |depth| ==>
          left[l] == depth[l] - Taken(t, book, side, l) + Taken(s, book, side, l))
    && (forall l: nat :: l < |depth| && depth[l] >= 0 ==> left[l] >= 0)
    && (forall other, l: nat :: other != book || l >= |depth| ==> Taken(t, other, side, l) == Taken(s, other, side, l))
  }

  ghost predicate PassStep(m: Matching, n: Matching, book: Book) {
    && Matched(m.ledger, n.ledger)
    && DepthKept(m.ledger, n.ledger, book, Buy, m.asks, n.asks)
    && DepthKept(m.ledger, n.ledger, book, Sell, m.bids, n.bids)
  }

  lemma OneOrderDepth(
      s: Ledger, t: Ledger, i: nat, book: Book, side: Side, depth: seq<int>, left: seq<int>, own: seq<int>, rest: seq<int>)
    requires i < |s.orders| && |t.orders| == |s.orders| && t.orders == s.orders[i := t.orders[i]]
    requires Charged(s.orders[i], t.orders[i], book, own, rest)
    requires if side == s.orders[i].order.side then depth == own && left == rest else left == depth
    ensures DepthKept(s, t, book, side, depth, left)
  {
    hide OrderTaken, Taken;
    forall other, l: nat
      ensures Taken(t, other, side, l) ==
              Taken(s, other, side, l) - OrderTaken(s.orders[i], other, side, l) + OrderTaken(t.orders[i], other, side, l)
    {
      TakenAfter(s, t, i, other, side, l);
    }
  }

  lemma SameTaking(
      u: WorkingOrder, v: WorkingOrder, w: WorkingOrder, x: WorkingOrder, book: Book, depth: seq<int>, left: seq<int>)
    requires Charged(v, w, book, depth, left) && u.order.side == v.order.side && x.order.side == w.order.side
    requires forall b, d, l: nat :: OrderTaken(v, b, d, l) == OrderTaken(u, b, d, l)
    requires forall b, d, l: nat :: OrderTaken(x, b, d, l) == OrderTaken(w, b, d, l)
    ensures Charged(u, x, book, depth, left)
  {
    hide OrderTaken;
  }

  lemma ConservesTransitive(s: Ledger, t: Ledger, u: Ledger)
    requires Conserves(s, t) && Conserves(t, u)
    ensures Conserves(s, u)
  {
    hide Worth, FeesBefore, CashBefore, StockBefore;
  }

  /** A pass touches order `i` alone, and leaves it resting again. */
  ghost predicate Touched(s: Ledger, t: Ledger, i: nat)
    requires i < |s.orders|
  {
    && MidInv(t) && PassFrame(s, t) && Conserves(s, t)
    && |t.orders| == |s.orders| && t.orders == s.orders[i := t.orders[i]]
    && Grows(s.orders[i], t.orders[i]) && Resting(t.orders[i])
  }

  lemma TouchedMatches(s: Ledger, t: Ledger, i: nat)
    requires i < |s.orders| && AllResting(s.orders) && Touched(s, t, i)
    ensures Matched(s, t)
  {
    hide MidInv, Conserves, PassFrame;
    forall k | 0 <= k < |s.orders|
      ensures Grows(s.orders[k], t.orders[k]) && Resting(t.orders[k])
    {
    }
  }

  lemma CloseTouches(s: Ledger, i: nat, status: Status, at: int, remark: Option<Remark>)
    requires MidInv(s) && i < |s.orders| && IsOpen(s.orders[i].order.status) && !IsOpen(status)
    ensures var t := SetStatus(s, i, status, at, remark);
            && Touched(s, t, i)
            && forall book, side, l: nat :: OrderTaken(t.orders[i], book, side, l) == OrderTaken(s.orders[i], book, side, l)
  {
    hide MidInv, Conserves, Grows, OrderTaken;
    StatusKeeps(s, i, status, at, remark);
  }

  lemma SealTouches(s: Ledger)
    requires MidInv(s)
    ensures var t := s.(isSealed := true); MidInv(t) && Conserves(s, t) && PassFrame(s, t)
  {
    var t := s.(isSealed := true);
    SameBases(s, t);
    HoldingsCarry(s, t.(isSealed := s.isSealed));
    assert forall k :: Held(t, k) == Held(s, k);
  }

  /** The three stages an accepted order goes through, joined. */
  lemma ExecuteTouches(s: Ledger, i: nat, book: Book, at: int, depth: seq<int>)
    requires MidInv(s) && i < |s.orders| && IsOpen(s.orders[i].order.status) && BookOk(book)
    requires s.orders[i].order.instrument == book.instrument
    requires |LevelsFor(book, s.orders[i].order.side)| == |depth|
    ensures book.instrument in s.config.instruments
    ensures match FillLevels(SetStatus(s, i, Accepted, at, None), i, book, 0, depth, at)
            case Err(e) => e == NotRepresentable
            case Ok((u, left)) =>
              && i < |u.orders| && IsOpen(u.orders[i].order.status)
              && forall status, remark :: !IsOpen(status) ==>
                   var t := SetStatus(u, i, status, at, remark);
                   Touched(s, t, i) && Charged(s.orders[i], t.orders[i], book, depth, left)
  {
    hide MidInv, Conserves, Grows, OrderTaken, FillLevels, Charged;
    MidConfig(s);
    StatusKeeps(s, i, Accepted, at, None);
    var a := SetStatus(s, i, Accepted, at, None);
    FillLevelsKeep(a, i, book, 0, depth, at);
    var r := FillLevels(a, i, book, 0, depth, at);
    if r.Ok? {
      var u, left := r.value.0, r.value.1;
      forall status, remark | !IsOpen(status)
        ensures var t := SetStatus(u, i, status, at, remark);
                Touched(s, t, i) && Charged(s.orders[i], t.orders[i], book, depth, left)
      {
        var t := SetStatus(u, i, status, at, remark);
        CloseTouches(u, i, status, at, remark);
        ConservesTransitive(s, a, u);
        ConservesTransitive(s, u, t);
        GrowsTransitive(s.orders[i], a.orders[i], u.orders[i]);
        GrowsTransitive(s.orders[i], u.orders[i], t.orders[i]);
        GrowsSame(a.orders[i], u.orders[i]);
        SameTaking(s.orders[i], a.orders[i], u.orders[i], t.orders[i], book, depth, left);
      }
    }
  }
}

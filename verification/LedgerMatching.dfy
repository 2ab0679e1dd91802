/** A whole matching pass keeps the invariant, conserves value and never over-fills a level. */
module LedgerMatching {
  import opened Outcomes
  import opened Sums
  import opened Domain
  import opened Fixed
  import opened LedgerModel
  import opened LedgerFills
  import opened LedgerSafety
  import opened LedgerConservation
  import opened LedgerPass

  // ---- A whole pass ------------------------------------------------------------------------------

  ghost predicate PassReady(m: Matching, book: Book) {
    && MidInv(m.ledger) && AllResting(m.ledger.orders) && BookOk(book) && book.instrument in m.ledger.config.instruments
    && |m.asks| == |book.asks| && |m.bids| == |book.bids|
  }

  lemma PassReadyOk(m: Matching, book: Book)
    requires PassReady(m, book)
    ensures MatchingOk(m, book)
  {
  }

  lemma UnchangedDepth(s: Ledger, t: Ledger, book: Book, side: Side, depth: seq<int>)
    requires t.orders == s.orders
    ensures DepthKept(s, t, book, side, depth, depth)
  {
  }

  lemma SameMatch(m: Matching, n: Matching, book: Book)
    requires PassReady(m, book) && n == m
    ensures PassStep(m, n, book)
  {
    hide MidInv, Worth, FeesBefore, CashBefore, StockBefore, Taken;
    forall k | 0 <= k < |m.ledger.orders|
      ensures Grows(m.ledger.orders[k], m.ledger.orders[k])
    {
    }
  }

  lemma DepthTransitive(
      s: Ledger, t: Ledger, u: Ledger, book: Book, side: Side, depth: seq<int>, mid: seq<int>, left: seq<int>)
    requires DepthKept(s, t, book, side, depth, mid) && DepthKept(t, u, book, side, mid, left)
    ensures DepthKept(s, u, book, side, depth, left)
  {
    hide Taken;
  }

  lemma MatchedTransitive(s: Ledger, t: Ledger, u: Ledger)
    requires Matched(s, t) && Matched(t, u)
    ensures Matched(s, u)
  {
    hide MidInv, Worth, FeesBefore, CashBefore, StockBefore, Grows, Resting;
    forall k | 0 <= k < |s.orders|
      ensures Grows(s.orders[k], u.orders[k])
    {
      GrowsTransitive(s.orders[k], t.orders[k], u.orders[k]);
    }
  }

  lemma StepTransitive(m: Matching, n: Matching, o: Matching, book: Book)
    requires PassStep(m, n, book) && PassStep(n, o, book)
    ensures PassStep(m, o, book)
  {
    hide Matched, DepthKept;
    MatchedTransitive(m.ledger, n.ledger, o.ledger);
    DepthTransitive(m.ledger, n.ledger, o.ledger, book, Buy, m.asks, n.asks, o.asks);
    DepthTransitive(m.ledger, n.ledger, o.ledger, book, Sell, m.bids, n.bids, o.bids);
  }

  /** Closing an order without trading, after sealing or not. */
  lemma CloseSteps(m: Matching, s: Ledger, i: nat, book: Book, status: Status, at: int, remark: Option<Remark>)
    requires PassReady(m, book) && i < |m.ledger.orders| && IsOpen(m.ledger.orders[i].order.status) && !IsOpen(status)
    requires s == m.ledger || s == m.ledger.(isSealed := true)
    ensures PassStep(m, m.(ledger := SetStatus(s, i, status, at, remark)), book)
  {
    hide MidInv, Conserves, Grows, OrderTaken, Taken;
    SealTouches(m.ledger);
    CloseTouches(s, i, status, at, remark);
    var t := SetStatus(s, i, status, at, remark);
    if s != m.ledger {
      ConservesTransitive(m.ledger, s, t);
    }
    TouchedMatches(m.ledger, t, i);
    NoDepth(m.ledger, t, i, book, Buy, m.asks);
    NoDepth(m.ledger, t, i, book, Sell, m.bids);
  }

  lemma NoDepth(s: Ledger, t: Ledger, i: nat, book: Book, side: Side, depth: seq<int>)
    requires i < |s.orders| && |t.orders| == |s.orders| && t.orders == s.orders[i := t.orders[i]]
    requires forall b, d, l: nat :: OrderTaken(t.orders[i], b, d, l) == OrderTaken(s.orders[i], b, d, l)
    ensures DepthKept(s, t, book, side, depth, depth)
  {
    hide OrderTaken, Taken;
    forall other, l: nat
      ensures Taken(t, other, side, l) == Taken(s, other, side, l)
    {
      TakenAfter(s, t, i, other, side, l);
    }
  }

  /** One order's trades, with the depth they left on its side. */
  lemma TradedSteps(m: Matching, t: Ledger, i: nat, book: Book, own: seq<int>, left: seq<int>)
    requires PassReady(m, book) && i < |m.ledger.orders|
    requires own == if m.ledger.orders[i].order.side.Buy? then m.asks else m.bids
    requires Touched(m.ledger, t, i) && i < |t.orders| && Charged(m.ledger.orders[i], t.orders[i], book, own, left)
    ensures PassStep(m, if m.ledger.orders[i].order.side.Buy? then Matching(t, left, m.bids) else Matching(t, m.asks, left), book)
  {
    hide MidInv, Conserves, Grows, Charged, Touched, Taken, Matched, DepthKept;
    var s, buying := m.ledger, m.ledger.orders[i].order.side.Buy?;
    TouchedMatches(s, t, i);
    TouchedShape(s, t, i);
    OneOrderDepth(s, t, i, book, Buy, m.asks, if buying then left else m.asks, own, left);
    OneOrderDepth(s, t, i, book, Sell, m.bids, if buying then m.bids else left, own, left);
  }

  lemma ExecuteSteps(m: Matching, i: nat, book: Book, at: int)
    requires PassReady(m, book) && i < |m.ledger.orders| && IsOpen(m.ledger.orders[i].order.status)
    requires m.ledger.orders[i].order.instrument == book.instrument
    ensures MatchingOk(m, book)
    ensures match Execute(m, i, book, at)
            case Err(e) => e == NotRepresentable
            case Ok(n) => PassStep(m, n, book)
  {
    hide MidInv, Conserves, Grows, FillLevels, Charged, Touched, PassStep, ConfigOk;
    PassReadyOk(m, book);
    var s := m.ledger;
    var side := s.orders[i].order.side;
    var own := if side.Buy? then m.asks else m.bids;
    ExecuteTouches(s, i, book, at, own);
    var r := FillLevels(SetStatus(s, i, Accepted, at, None), i, book, 0, own, at);
    if r.Ok? {
      var u, left := r.value.0, r.value.1;
      var status, remark :=
        if u.orders[i].order.filled == u.orders[i].target then Filled else Cancelled,
        if u.orders[i].order.filled == u.orders[i].target then None else Some(IocRemainderCancelled);
      var t := SetStatus(u, i, status, at, remark);
      TradedSteps(m, t, i, book, own, left);
      assert Execute(m, i, book, at) == Ok(if side.Buy? then Matching(t, left, m.bids) else Matching(t, m.asks, left));
    }
  }

  lemma TouchedShape(s: Ledger, t: Ledger, i: nat)
    requires i < |s.orders| && Touched(s, t, i)
    ensures |t.orders| == |s.orders| && t.orders == s.orders[i := t.orders[i]]
  {
  }

  /** Matching one order never meets an impossible state, and leaves the ledger resting. */
  lemma MatchOrderSteps(m: Matching, i: nat, book: Book, at: int, blocked: seq<Id>, isHealthy: bool)
    requires PassReady(m, book) && i < |m.ledger.orders|
    ensures MatchingOk(m, book)
    ensures match MatchOrder(m, i, book, at, blocked, isHealthy)
            case Err(e) => e == NotRepresentable
            case Ok(n) => PassStep(m, n, book)
  {
    hide MidInv, Conserves, Execute, PassStep, Matched, SetStatus, AllResting;
    PassReadyOk(m, book);
    var s, w := m.ledger, m.ledger.orders[i];
    if !IsOpen(w.order.status) || w.order.instrument != book.instrument {
      SameMatch(m, m, book);
    } else if at >= w.permit.approval.expiresAt {
      CloseSteps(m, s, i, book, Expired, at, Some(ApprovalExpired));
    } else if !Ready(w.order, book, s.config.latencyMs) {
      SameMatch(m, m, book);
    } else {
      var sealing := s.(isSealed := true);
      if w.permit.approval.intent in blocked {
        CloseSteps(m, sealing, i, book, Cancelled, at, Some(RiskRecheckRejected));
      } else if !isHealthy || AgeMs(at, book.eventTime) > w.permit.execution.maxMarketAgeMs {
        CloseSteps(m, sealing, i, book, Cancelled, at, Some(MarketUnhealthy));
      } else {
        SealedReady(m, book);
        ExecuteSteps(m.(ledger := sealing), i, book, at);
        var r := Execute(m.(ledger := sealing), i, book, at);
        if r.Ok? {
          SealStep(m, book);
          StepTransitive(m, m.(ledger := sealing), r.value, book);
        }
      }
    }
  }

  lemma SealedReady(m: Matching, book: Book)
    requires PassReady(m, book)
    ensures PassReady(m.(ledger := m.ledger.(isSealed := true)), book)
  {
    hide MidInv, Conserves;
    SealTouches(m.ledger);
  }

  lemma SealStep(m: Matching, book: Book)
    requires PassReady(m, book)
    ensures PassStep(m, m.(ledger := m.ledger.(isSealed := true)), book)
  {
    hide MidInv, Conserves, Taken;
    SealTouches(m.ledger);
    UnchangedDepth(m.ledger, m.ledger.(isSealed := true), book, Buy, m.asks);
    UnchangedDepth(m.ledger, m.ledger.(isSealed := true), book, Sell, m.bids);
    forall k | 0 <= k < |m.ledger.orders|
      ensures Grows(m.ledger.orders[k], m.ledger.orders[k])
    {
    }
  }

  lemma StepReady(m: Matching, n: Matching, book: Book)
    requires PassReady(m, book) && PassStep(m, n, book)
    ensures PassReady(n, book) && |n.ledger.orders| == |m.ledger.orders|
  {
    hide MidInv, Conserves, Taken;
  }

  lemma {:induction false} PassKeeps(m: Matching, i: nat, book: Book, at: int, blocked: seq<Id>, isHealthy: bool)
    requires PassReady(m, book) && i <= |m.ledger.orders|
    ensures MatchingOk(m, book)
    ensures match MatchFrom(m, i, book, at, blocked, isHealthy)
            case Err(e) => e == NotRepresentable
            case Ok(n) => PassStep(m, n, book)
    decreases |m.ledger.orders| - i
  {
    hide PassReady, PassStep, MatchOrder;
    PassReadyOk(m, book);
    if i == |m.ledger.orders| {
      SameMatch(m, m, book);
    } else {
      MatchOrderSteps(m, i, book, at, blocked, isHealthy);
      var first := MatchOrder(m, i, book, at, blocked, isHealthy);
      if first.Ok? {
        StepReady(m, first.value, book);
        PassKeeps(first.value, i + 1, book, at, blocked, isHealthy);
        var rest := MatchFrom(first.value, i + 1, book, at, blocked, isHealthy);
        if rest.Ok? {
          StepTransitive(m, first.value, rest.value, book);
        }
      }
    }
  }
}

/** What a ledger records over its histories: for whom its orders were issued, its peak, and what it shows. */
module LedgerRecords {
  import opened Outcomes
  import opened Sums
  import opened Domain
  import opened Fixed
  import opened LedgerModel
  import opened LedgerFills
  import opened LedgerSafety
  import opened LedgerConservation
  import opened LedgerPass
  import opened LedgerMatching
  import opened LedgerRuns
  import opened LedgerGenerations
  import opened LedgerHistory

  // ---- Permits --------------------------------------------------------------------------------------

  /** An order was submitted under a live approval for this account, portfolio and mode, at market and at once. */
  ghost predicate IssuedHere(s: Ledger, portfolioHash: Portfolio -> Digest, w: WorkingOrder) {
    var a, r, o := w.permit.approval, w.permit.record, w.order;
    && w.permit.account == r.account == s.config.account
    && a.workspace == r.evaluation.workspace == s.initial.workspace && a.mode == s.initial.mode
    && r.portfolioHash == portfolioHash(s.initial)
    && r.evaluation.intent == a.intent && r.evaluation.id == a.evaluation && r.evaluation.approved == a.notional
    && !r.evaluation.verdict.RejectedByRisk?
    && a.approvedAt <= o.submittedAt < a.expiresAt && o.submittedAt < r.expiresAt && o.submittedAt <= s.asOf
    && a.orderType.MarketOrder? && a.timeInForce.Ioc? && a.limitPrice.None? && a.currency == USD
    && o.intent == a.intent && o.clientOrderId == a.clientOrderId && o.instrument == a.instrument && o.side == a.side
    && o.workspace == a.workspace && o.mode == a.mode && o.requested == a.notional
  }

  ghost predicate AllIssuedHere(s: Ledger, portfolioHash: Portfolio -> Digest) {
    forall i :: 0 <= i < |s.orders| ==> IssuedHere(s, portfolioHash, s.orders[i])
  }

  lemma GrownIssued(s: Ledger, t: Ledger, portfolioHash: Portfolio -> Digest, w: WorkingOrder, v: WorkingOrder)
    requires IssuedHere(s, portfolioHash, w) && Grows(w, v) && t.config == s.config && t.initial == s.initial && s.asOf <= t.asOf
    ensures IssuedHere(t, portfolioHash, v)
  {
  }

  lemma EvolvedIssued(s: Ledger, t: Ledger, portfolioHash: Portfolio -> Digest, n: nat)
    requires AllIssuedHere(s, portfolioHash) && Evolves(s, t) && s.asOf <= t.asOf && n == |s.orders|
    ensures forall i :: 0 <= i < n ==> IssuedHere(t, portfolioHash, t.orders[i])
  {
    hide IssuedHere, Grows;
    forall i | 0 <= i < n
      ensures IssuedHere(t, portfolioHash, t.orders[i])
    {
      GrownIssued(s, t, portfolioHash, s.orders[i], t.orders[i]);
    }
  }

  lemma SubmittedIssued(s: Ledger, portfolioHash: Portfolio -> Digest, p: Permit, at: int)
    requires ConfigOk(s.config) && Apply(s, portfolioHash, SubmitPermit(at, p)).Ok?
    ensures var t := Apply(s, portfolioHash, SubmitPermit(at, p)).value;
            |t.orders| == |s.orders| + 1 && IssuedHere(t, portfolioHash, t.orders[|s.orders|])
  {
    hide ReservedCash, SellTargets, Sum, LotTarget, Finish, ConfigOk;
    var w := SubmitShape(s, portfolioHash, p, at);
    FinishShape(SubmitOrder(s, portfolioHash, p, at).value, at);
  }

  lemma AfterIssued(s: Ledger, portfolioHash: Portfolio -> Digest, a: Act)
    requires Sound(s) && ActOk(a) && AllIssuedHere(s, portfolioHash)
    ensures ConfigOk(s.config) && AllIssuedHere(After(s, portfolioHash, a), portfolioHash)
  {
    hide LedgerInv, Untraded, Apply, BeginGeneration, IssuedHere, Grows, Worth, Conserves, Evolves;
    InvConfig(s);
    match a {
      case Do(c) =>
        ApplyKeeps(s, portfolioHash, c);
        var r := Apply(s, portfolioHash, c);
        if r.Ok? {
          EvolvedIssued(s, r.value, portfolioHash, |s.orders|);
          if c.SubmitPermit? {
            SubmittedIssued(s, portfolioHash, c.permit, c.at);
          } else {
            NoNewOrders(s, portfolioHash, c);
          }
        }
      case Roll(at) => GenerationKeeps(s, at);
    }
  }

  lemma NoNewOrders(s: Ledger, portfolioHash: Portfolio -> Digest, c: Command)
    requires ConfigOk(s.config) && MarketOk(c) && !c.SubmitPermit?
    ensures var r := Apply(s, portfolioHash, c); r.Ok? ==> |r.value.orders| == |s.orders|
  {
    hide MatchFrom, BookHealthy, Aligned, FindOrder, Finish, InstrumentOk, Snapshot;
    if Apply(s, portfolioHash, c).Ok? {
      FinishShape(Perform(s, portfolioHash, c).value, c.at);
      if c.CancelOrder? {
        FindOrderIs(s.orders, c.clientOrderId);
      }
    }
  }

  lemma {:induction false} RunIssued(s: Ledger, portfolioHash: Portfolio -> Digest, acts: seq<Act>, t: Ledger)
    requires Sound(s) && AllIssuedHere(s, portfolioHash) && LedgerHistory.Run(s, portfolioHash, acts, t)
    ensures AllIssuedHere(t, portfolioHash)
    decreases |acts|
  {
    hide Sound, AllIssuedHere, After, LotAligned, Worth;
    if acts != [] {
      AfterKeeps(s, portfolioHash, acts[0]);
      AfterIssued(s, portfolioHash, acts[0]);
      RunIssued(After(s, portfolioHash, acts[0]), portfolioHash, acts[1..], t);
    }
  }

  /**
   * In every reachable ledger each order was issued for this account, portfolio and mode under an approval
   * that was live when it was submitted, and no two orders share an intent or an identifier.
   */
  lemma OrdersAreIssued(
      p: Portfolio, c: Config, portfolioHash: Portfolio -> Digest, acts: seq<Act>, t: Ledger, i: nat, j: nat)
    requires ConfigOk(c) && InitialOk(p) && Create(p, c).Ok? && LedgerHistory.Run(Create(p, c).value, portfolioHash, acts, t)
    requires i < j < |t.orders|
    ensures IssuedHere(t, portfolioHash, t.orders[i]) && IssuedHere(t, portfolioHash, t.orders[j])
    ensures t.orders[i].permit.approval.intent != t.orders[j].permit.approval.intent
    ensures t.orders[i].order.clientOrderId != t.orders[j].order.clientOrderId
  {
    hide LedgerHistory.Run, Create, Untraded, Worth, InitialOk, IssuedHere, LotAligned, DepthInv, Snapshot;
    CreateKeeps(p, c);
    RunKeeps(Create(p, c).value, portfolioHash, acts, t);
    RunIssued(Create(p, c).value, portfolioHash, acts, t);
    OrderNames(t, i);
    OrderNames(t, j);
  }

  lemma OrderNames(t: Ledger, i: nat)
    requires MidInv(t) && i < |t.orders|
    ensures t.orders[i].order.intent == t.orders[i].permit.approval.intent
  {
    hide Totalled;
    assert OrderOk(t.config, t.orders[i]);
  }

  // ---- The peak ----------------------------------------------------------------------------------------

  /** A command raises the peak to the new equity exactly when that is higher. */
  lemma PeakIsHighWater(s: Ledger, portfolioHash: Portfolio -> Digest, c: Command)
    requires Sound(s) && CommandOk(c)
    ensures ConfigOk(s.config)
    ensures var r := Apply(s, portfolioHash, c);
            r.Ok? ==> Snapshot(r.value).Ok? && r.value.peak == Max(s.peak, Equity(r.value)) && r.value.asOf == c.at
  {
    hide Untraded, Conserves, Evolves, DepthInv, MidInv;
    InvConfig(s);
    ApplyKeeps(s, portfolioHash, c);
    PerformPeak(s, portfolioHash, c);
    hide Perform, Snapshot, LedgerInv;
    var r := Apply(s, portfolioHash, c);
    if r.Ok? {
      FinishedPeak(Perform(s, portfolioHash, c).value, c.at);
    }
  }

  lemma PerformPeak(s: Ledger, portfolioHash: Portfolio -> Digest, c: Command)
    requires LedgerInv(s) && CommandOk(c)
    ensures ConfigOk(s.config)
    ensures var r := Perform(s, portfolioHash, c); r.Ok? ==> r.value.peak == s.peak
  {
    hide DepthInv, Snapshot, SubmitOrder, Observe, Cancel, AllResting, OrdersOk, HoldingsOk;
    match c {
      case SubmitPermit(at, permit) => var w := SubmitShape(s, portfolioHash, permit, at);
      case ObserveBook(at, book, blocked) => ObservedPeak(s, book, at, blocked);
      case CancelOrder(at, id) => CancelledPeak(s, id, at);
    }
  }

  lemma CancelledPeak(s: Ledger, id: ClientOrderId, at: int)
    ensures Cancel(s, id, at).Ok? ==> Cancel(s, id, at).value.peak == s.peak
  {
    hide FindOrder;
    FindOrderIs(s.orders, id);
  }

  lemma ObservedPeak(s: Ledger, book: Book, at: int, blocked: seq<Id>)
    requires LedgerInv(s) && BookOk(book)
    ensures ConfigOk(s.config)
    ensures Observe(s, book, at, blocked).Ok? ==> Observe(s, book, at, blocked).value.peak == s.peak
  {
    hide MidInv, Conserves, Grows, DepthInv, Snapshot, MatchFrom, BookHealthy, RecordBook, Aligned, AllResting, PassStep;
    MidConfig(s);
    if Observe(s, book, at, blocked).Ok? {
      var isHealthy := BookHealthy(s, book, at);
      var m := Matching(RecordBook(s, book, isHealthy), Quantities(book.asks), Quantities(book.bids));
      RecordKeeps(s, book, isHealthy);
      PassKeeps(m, 0, book, at, blocked, isHealthy);
      SteppedPeak(m, MatchFrom(m, 0, book, at, blocked, isHealthy).value, book);
    }
  }

  lemma SteppedPeak(m: Matching, n: Matching, book: Book)
    requires PassStep(m, n, book)
    ensures n.ledger.peak == m.ledger.peak
  {
    hide MidInv, Conserves, DepthKept, Grows;
  }

  lemma FinishedPeak(s: Ledger, at: int)
    requires Finish(s, at).Ok?
    ensures var t := Finish(s, at).value;
            && Snapshot(t).Ok? && t.peak == Max(s.peak, Snapshot(t).value.portfolio.equity)
  {
    hide Value;
    var u := s.(asOf := at);
    ShownAgain(u, Finish(s, at).value);
  }

  // ---- What is shown ---------------------------------------------------------------------------------------

  /** Every observed instrument's last book was healthy, and everything held was marked recently enough. */
  predicate UpToDate(s: Ledger) {
    && (forall k :: k in s.healthy ==> s.healthy[k])
    && (forall k :: k in s.holdings && s.holdings[k].quantity != 0 ==>
          k in s.markTimes && s.asOf - s.markTimes[k] <= s.config.maxMarketAgeMs * 1000)
  }

  lemma UpToDateIs(s: Ledger)
    ensures AllHealthy(s) && MarksFresh(s) <==> UpToDate(s)
  {
  }

  /** What a snapshot tells of the account, beside its valuation. */
  lemma ShownIs(s: Ledger)
    requires Snapshot(s).Ok?
    ensures var p := Snapshot(s).value.portfolio;
            && p.cash == s.cash && p.asOf == s.asOf && p.baseCurrency == USD
            && p.reservedCash == Sum(CashHolds(s.orders))
            && p.realizedToday == Get(s.realized, s.asOf / MICROS_PER_DAY)
            && p.equity == p.cash + p.grossExposure && p.netExposure == p.grossExposure
            && p.peakEquity == Max(p.equity, s.peak)
            && (p.openOrders == 0 <==> forall w :: w in s.orders ==> !IsOpen(w.order.status))
            && (p.isReconciled <==> UpToDate(s))
            && |Snapshot(s).value.orders| == |s.orders|
            && forall i :: 0 <= i < |s.orders| ==> Snapshot(s).value.orders[i] == s.orders[i].order
  {
    hide Value;
    UpToDateIs(s);
    NothingOpen(s.orders);
    hide AllHealthy, MarksFresh, OpenCount, Sum, CashHolds;
  }
}

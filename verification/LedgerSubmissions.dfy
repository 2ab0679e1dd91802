/** When a ledger accepts a permit, a cancellation or a new generation, and what each leaves. */
module LedgerSubmissions {
  import opened Outcomes
  import opened Sums
  import opened Domain
  import opened LedgerModel
  import LedgerRuns
  import opened Fixed

  /** The permit is a live market approval for this ledger, by a record that says so, and new here. */
  ghost predicate IsIssued(s: Ledger, portfolioHash: Portfolio -> Digest, p: Permit, at: int) {
    var a, r, e := p.approval, p.record, p.record.evaluation;
    && a.instrument in s.config.instruments && p.account == s.config.account == r.account
    && a.workspace == e.workspace == s.initial.workspace && a.mode == s.initial.mode
    && r.portfolioHash == portfolioHash(s.initial)
    && e.intent == a.intent && e.id == a.evaluation && e.approved == a.notional && e.verdict != RejectedByRisk
    && a.approvedAt <= at < a.expiresAt && at < r.expiresAt
    && a.orderType == MarketOrder && a.timeInForce == Ioc && a.limitPrice == None
    && r.quantityAsset == a.instrument.base && a.currency == r.debitCurrency == USD
    && forall i :: 0 <= i < |s.orders| ==>
         s.orders[i].order.clientOrderId != a.clientOrderId && s.orders[i].order.intent != a.intent
  }

  /** The whole lots within the quantity of a record. */
  ghost predicate WholeLots(target: int, quantity: int, lot: int) {
    target <= quantity < target + lot && exists n: int :: target == n * lot
  }

  /** Unreserved cash covers the debit, and unreserved stock the target of a sell. */
  ghost predicate IsCovered(s: Ledger, p: Permit, target: int) {
    && 0 <= p.record.maxCashDebit && p.record.maxCashDebit + Sum(CashHolds(s.orders)) <= s.cash
    && (p.approval.side.Sell? ==>
          && p.approval.instrument in s.holdings
          && target + Sum(SellTargets(s.orders, p.approval.instrument)) <= s.holdings[p.approval.instrument].quantity)
  }

  lemma LotsAre(quantity: int, lot: int)
    requires lot > 0
    ensures WholeLots(LotTarget(quantity, lot), quantity, lot)
  {
    assert quantity == lot * (quantity / lot) + quantity % lot;
    assert LotTarget(quantity, lot) == (quantity / lot) * lot;
  }

  lemma LotsOnce(t: int, u: int, quantity: int, lot: int)
    requires lot > 0 && WholeLots(t, quantity, lot) && WholeLots(u, quantity, lot)
    ensures t == u
  {
    var n: int :| t == n * lot;
    var m: int :| u == m * lot;
    if n < m {
      ScaledOrder(n + 1, m, lot);
    } else if m < n {
      ScaledOrder(m + 1, n, lot);
    }
  }

  /**
   * A permit is accepted exactly while the batch is open, when it was issued for this ledger and is covered.
   * It becomes one order for its whole lots, rejected at once when there are none or its value is too small.
   */
  lemma SubmissionIsExact(s: Ledger, portfolioHash: Portfolio -> Digest, p: Permit, at: int, target: int)
    requires ConfigOk(s.config)
    requires p.approval.instrument in s.config.instruments ==>
               WholeLots(target, p.record.maxQuantity, s.config.instruments[p.approval.instrument].lot)
    ensures var r := SubmitOrder(s, portfolioHash, p, at);
            && (r.Ok? <==> !s.isSealed && IsIssued(s, portfolioHash, p, at) && IsCovered(s, p, target))
            && (r.Ok? ==>
                  && r.value == s.(orders := r.value.orders) && |r.value.orders| == |s.orders| + 1
                  && r.value.orders[..|s.orders|] == s.orders
                  && IsPlaced(s, p, at, target, r.value.orders[|s.orders|]))
  {
    IssuedIs(s, portfolioHash, p, at);
    hide IsIssued, IssuanceOk;
    if p.approval.instrument in s.config.instruments {
      var lot := s.config.instruments[p.approval.instrument].lot;
      LotsAre(p.record.maxQuantity, lot);
      LotsOnce(target, LotTarget(p.record.maxQuantity, lot), p.record.maxQuantity, lot);
    }
    hide LotTarget, WholeLots, Sum, CashHolds, SellTargets;
  }

  lemma IssuedIs(s: Ledger, portfolioHash: Portfolio -> Digest, p: Permit, at: int)
    ensures IssuanceOk(s, portfolioHash, p, at) <==> IsIssued(s, portfolioHash, p, at)
    ensures IsIssued(s, portfolioHash, p, at) ==> p.approval.instrument in s.config.instruments
  {
    var a := p.approval;
    assert (forall w :: w in s.orders ==> w.order.clientOrderId != a.clientOrderId && w.order.intent != a.intent) <==>
           (forall i :: 0 <= i < |s.orders| ==> s.orders[i].order.clientOrderId != a.clientOrderId && s.orders[i].order.intent != a.intent);
  }

  /** The order a permit becomes: its terms, nothing filled, and its status at submission. */
  predicate IsPlaced(s: Ledger, p: Permit, at: int, target: int, w: WorkingOrder)
    requires p.approval.instrument in s.config.instruments
  {
    var a, o := p.approval, w.order;
    && w.permit == p && w.target == target && w.gross == 0 && w.debit == 0
    && o.clientOrderId == a.clientOrderId && o.intent == a.intent && o.workspace == a.workspace
    && o.instrument == a.instrument && o.mode == a.mode && o.side == a.side && o.requested == a.notional
    && o.filled == 0 && o.fills == [] && o.averagePrice == None && o.submittedAt == o.updatedAt == at
    && if target <= 0 || a.notional < s.config.instruments[a.instrument].minimumNotional
       then o.status == Rejected && o.remark == Some(BelowSimulatorMinimum)
       else o.status == Submitted && o.remark == None
  }

  /** A cancellation ends the one open order of that name and touches nothing else. */
  lemma CancellationIsExact(s: Ledger, id: ClientOrderId, at: int, i: nat)
    requires i < |s.orders| && s.orders[i].order.clientOrderId == id
    requires forall j, k :: 0 <= j < k < |s.orders| ==> s.orders[j].order.clientOrderId != s.orders[k].order.clientOrderId
    ensures var r, o := Cancel(s, id, at), s.orders[i].order;
            && r.Ok?
            && (!IsOpen(o.status) ==> r.value == s)
            && (IsOpen(o.status) ==>
                  r.value == s.(orders := s.orders[i := s.orders[i].(order := o.(
                    status := Cancelled, updatedAt := at, remark := Some(CancelledByCoordinator), reconciledAt := at))]))
  {
    hide FindOrder;
    FindOrderIs(s.orders, id);
    assert s.orders[i] in s.orders;
  }

  /**
   * A new generation begins exactly at a time that has come, with nothing open and the account reconciled:
   * it starts from the portfolio shown then, without orders, and with everything else carried over.
   */
  lemma GenerationIsExact(s: Ledger, at: int)
    ensures var shown, r := Snapshot(s.(asOf := at)), BeginGeneration(s, at);
            && (r.Ok? <==> s.asOf <= at && (forall i :: 0 <= i < |s.orders| ==> !IsOpen(s.orders[i].order.status))
                           && shown.Ok? && shown.value.portfolio.isReconciled)
            && (r.Ok? ==> r.value == s.(asOf := at, initial := shown.value.portfolio, orders := [], isSealed := false))
  {
    LedgerRuns.NothingOpen(s.orders);
    assert (forall w :: w in s.orders ==> !IsOpen(w.order.status)) <==>
           (forall i :: 0 <= i < |s.orders| ==> !IsOpen(s.orders[i].order.status));
    hide Snapshot, OpenCount;
  }
}

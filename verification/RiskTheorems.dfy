/** What the sizing of one request guarantees, and how two approvals relate. */
module RiskTheorems {
  import opened Outcomes
  import opened Sums
  import opened Domain
  import opened RiskAccount
  import opened RiskSizing
  import opened Fixed

  predicate Usable(q: Quote) {
    QuoteOk(q) && q.increment > 0 && WorstPrice(q) > 0
  }

  /** A candidate an approval may carry: it fits, reaches every minimum and stands for some quantity. */
  ghost predicate Approvable(q: Quote, a: Account, ps: seq<Policy>, c: int)
    requires WorstPrice(q) > 0
  {
    && 0 < c <= q.requested
    && Fits(q, a, ps, c)
    && (forall p :: p in ps ==> p.minOrder <= c)
    && QuantityFor(q, c) > 0
  }

  lemma {:induction false} LargestMinimumIs(ps: seq<Policy>, c: int)
    requires |ps| > 0
    ensures c >= LargestMinimum(ps) <==> forall p :: p in ps ==> p.minOrder <= c
  {
    if |ps| == 1 {
      assert forall p :: p in ps <==> p == ps[0];
    } else {
      LargestMinimumIs(ps[1..], c);
      assert forall p :: p in ps <==> p == ps[0] || p in ps[1..];
    }
  }

  lemma QuantityMonotone(q: Quote, c: int, d: int)
    requires WorstPrice(q) > 0 && c <= d
    ensures QuantityFor(q, c) <= QuantityFor(q, d)
  {
    CeilDivMonotone(c * SCALE, d * SCALE, WorstPrice(q));
    FloorMonotone(c * SCALE, d * SCALE, WorstPrice(q));
  }

  lemma FloorMonotone(m: int, n: int, d: int)
    requires d > 0 && m <= n
    ensures m / d <= n / d
  {
    assert m == d * (m / d) + m % d && n == d * (n / d) + n % d;
    ScaledOrder(n / d + 1, m / d, d);
  }

  lemma SettleIs(q: Quote, a: Account, ps: seq<Policy>, c: int)
    requires WorstPrice(q) > 0 && |ps| > 0 && c <= q.requested
    ensures var s := Settle(q, a, ps, c);
            s.amount == if Approvable(q, a, ps, c) then c else 0
    ensures var s := Settle(q, a, ps, c);
            s.amount > 0 ==>
              (s.quantity == QuantityFor(q, c) && s.cost == FeeCost(q, c) &&
               s.debit == (if q.buying then c else 0) + FeeCost(q, c))
    ensures Settle(q, a, ps, c).amount == 0 ==> Settle(q, a, ps, c).quantity == 0
  {
    LargestMinimumIs(ps, c);
    ViolationsIff(q, a, ps, c);
    hide Violations, Fits, WorstPrice, QuantityFor, FeeCost, LargestMinimum;
  }

  /**
   * The approved amount is the largest multiple of the increment, not above the request, that can
   * be approved at all; nothing is approved exactly when the gates are shut or no multiple can be.
   */
  lemma SizingIsExact(q: Quote, a: Account, ps: seq<Policy>, j: nat)
    requires Usable(q) && PoliciesOk(ps)
    ensures var amount := Size(q, a, ps).amount;
            && 0 <= amount <= q.requested
            && (amount > 0 ==> GatesOpen(q, a, ps) && Approvable(q, a, ps, amount))
            && (exists k: nat :: amount == k * q.increment)
            && (GatesOpen(q, a, ps) && Approvable(q, a, ps, j * q.increment) ==> j * q.increment <= amount)
            && (amount > 0 && amount < j * q.increment <= q.requested ==> !Fits(q, a, ps, j * q.increment))
  {
    hide Violations, Fits, WorstPrice, QuantityFor, FeeCost, GatesOpen, GateReasons;
    GateReasonsIff(q, a, ps);
    var n := q.requested / q.increment;
    var k := LargestSteps(q, a, ps, n);
    LargestStepsFits(q, a, ps, n);
    ScaledOrder(k, n, q.increment);
    assert n * q.increment <= q.requested;
    SettleIs(q, a, ps, k * q.increment);
    assert Size(q, a, ps).amount == k * q.increment || Size(q, a, ps).amount == 0 * q.increment;
    if j * q.increment <= q.requested {
      StepsWithin(j, q.increment, q.requested);
      ScaledOrder(j, k, q.increment);
      if GatesOpen(q, a, ps) && Approvable(q, a, ps, j * q.increment) {
        LargerIsApprovable(q, a, ps, j, k);
      }
    }
  }

  lemma StepsWithin(j: nat, step: int, limit: int)
    requires step > 0 && j * step <= limit
    ensures j <= limit / step
  {
    FloorMonotone(j * step, limit, step);
    assert j * step / step == j by {
      ExactQuotient(j * step, step, j);
    }
  }

  /** When one multiple can be approved, so can the largest one that fits. */
  lemma LargerIsApprovable(q: Quote, a: Account, ps: seq<Policy>, j: nat, k: nat)
    requires Usable(q) && PoliciesOk(ps)
    requires k * q.increment <= q.requested
    requires Approvable(q, a, ps, j * q.increment)
    requires j <= q.requested / q.increment
    requires k == LargestSteps(q, a, ps, q.requested / q.increment)
    ensures j <= k && Approvable(q, a, ps, k * q.increment)
  {
    hide Fits, WorstPrice, QuantityFor;
    LargestStepsFits(q, a, ps, q.requested / q.increment);
    assert j <= k;
    assert j != 0;
    ScaledOrder(j, k, q.increment);
    QuantityMonotone(q, j * q.increment, k * q.increment);
  }

  /** A buy's quantity costs at most the approved amount at the worst price, and was on display. */
  lemma BuyQuantityIsCovered(q: Quote, a: Account, ps: seq<Policy>)
    requires Usable(q) && PoliciesOk(ps) && q.buying && Size(q, a, ps).amount > 0
    ensures var s := Size(q, a, ps);
            && 0 < s.quantity
            && s.quantity * WorstPrice(q) <= s.amount * SCALE
            && s.quantity <= q.displayed
            && s.debit == s.amount + s.cost <= a.cash
  {
    hide Size, WorstPrice, FeeCost;
    var s := Size(q, a, ps);
    SizedIs(q, a, ps);
    WorstPriceCoversAsk(q);
    FloorIsCovered(s.amount * SCALE, WorstPrice(q));
    CoveredByDisplay(s.quantity, WorstPrice(q), q.displayed, q.ask);
  }

  lemma WorstPriceCoversAsk(q: Quote)
    requires QuoteOk(q) && q.buying
    ensures WorstPrice(q) >= q.ask
  {
    ScaledOrder(WorstPrice(q), q.ask - 1, BPS_DENOMINATOR);
    assert q.ask * (BPS_DENOMINATOR + q.slippage) >= q.ask * BPS_DENOMINATOR;
  }

  lemma CoveredByDisplay(quantity: int, worst: int, displayed: int, ask: int)
    requires 0 < ask <= worst && quantity * worst <= displayed * ask && quantity > 0
    ensures quantity <= displayed
  {
    assert quantity * ask <= quantity * worst;
    ScaledOrder(displayed + 1, quantity, ask);
  }

  function SearchedAmount(q: Quote, a: Account, ps: seq<Policy>): int
    requires Usable(q)
  {
    LargestSteps(q, a, ps, q.requested / q.increment) * q.increment
  }

  lemma SearchedBelowRequest(q: Quote, a: Account, ps: seq<Policy>)
    requires Usable(q)
    ensures 0 <= SearchedAmount(q, a, ps) <= q.requested
  {
    hide WorstPrice, LargestSteps, Fits;
    var n := q.requested / q.increment;
    LargestStepsFits(q, a, ps, n);
    var k := LargestSteps(q, a, ps, n);
    ScaledOrder(0, k, q.increment);
    ScaledOrder(k, n, q.increment);
    assert q.requested == q.increment * n + q.requested % q.increment;
  }

  lemma SizeIsSettled(q: Quote, a: Account, ps: seq<Policy>)
    requires Usable(q) && |ps| > 0
    ensures Size(q, a, ps) == NothingSized(GateReasons(q, a, ps)) || Size(q, a, ps) == Settle(q, a, ps, SearchedAmount(q, a, ps))
  {
    hide WorstPrice, GateReasons, Settle, LargestSteps;
  }

  /** The fields of an approval, in terms of its amount. */
  lemma SizedIs(q: Quote, a: Account, ps: seq<Policy>)
    requires Usable(q) && PoliciesOk(ps)
    ensures var s := Size(q, a, ps);
            && s.amount >= 0
            && (s.amount > 0 ==>
                  && Approvable(q, a, ps, s.amount)
                  && s.quantity == QuantityFor(q, s.amount) && s.cost == FeeCost(q, s.amount)
                  && s.debit == (if q.buying then s.amount else 0) + s.cost)
            && (s.amount == 0 ==> s.quantity == 0)
  {
    hide WorstPrice, QuantityFor, FeeCost, GateReasons, Approvable, Settle, SearchedAmount, Size;
    SizeIsSettled(q, a, ps);
    SearchedBelowRequest(q, a, ps);
    SettleIs(q, a, ps, SearchedAmount(q, a, ps));
  }

  lemma FeeCostNonNegative(q: Quote, c: int)
    requires q.fee >= 0 && c >= 0
    ensures FeeCost(q, c) >= 0
  {
    CeilDivNonNegative(c * q.fee, BPS_DENOMINATOR);
  }

  lemma ReservationForOk(q: Quote, a: Account, ps: seq<Policy>, intent: Id)
    requires Usable(q) && PoliciesOk(ps) && Size(q, a, ps).amount > 0
    ensures ReservationOk(ReservationFor(q, intent, Size(q, a, ps)))
  {
    hide Size, Fits, WorstPrice, QuantityFor, FeeCost;
    SizedIs(q, a, ps);
    FeeCostNonNegative(q, Size(q, a, ps).amount);
  }

  // ---- Most restrictive wins ------------------------------------------------------------------

  lemma GatesMonotone(q: Quote, a: Account, b: Account, ps: seq<Policy>, qs: seq<Policy>)
    requires QuoteOk(q) && Tighter(b, a) && (forall p :: p in ps ==> p in qs)
    requires GatesOpen(q, b, qs)
    ensures GatesOpen(q, a, ps)
  {
    hide MarketGateOpen, WorstPrice;
    TighterScalars(a, b);
    forall p | p in ps
      ensures MarketGateOpen(q, p) && LossGateOpen(q, a, p) && DrawdownGateOpen(q, a, p)
    {
      assert MarketGateOpen(q, p) && LossGateOpen(q, b, p) && DrawdownGateOpen(q, b, p);
    }
  }

  /** Adding policies, or tightening the account, never raises what the same request is approved for. */
  lemma MostRestrictiveWins(q: Quote, a: Account, b: Account, ps: seq<Policy>, qs: seq<Policy>)
    requires QuoteOk(q) && PoliciesOk(ps) && PoliciesOk(qs)
    requires Tighter(b, a) && (forall p :: p in ps ==> p in qs)
    ensures Size(q, b, qs).amount <= Size(q, a, ps).amount
  {
    if Usable(q) {
      var d := Size(q, b, qs).amount;
      SizingIsExact(q, b, qs, 0);
      var k: nat :| d == k * q.increment;
      SizingIsExact(q, a, ps, k);
      if d > 0 {
        GatesMonotone(q, a, b, ps, qs);
        FitsMonotone(q, a, b, ps, qs, d, d);
        hide Fits, Size, GatesOpen;
      }
    }
  }

  /** Every earlier reservation, whichever place it takes in the list, can only lower an approval. */
  lemma EarlierReservationLowersApproval(
      q: Quote, base: Account, before: seq<Reservation>, r: Reservation, after: seq<Reservation>, ps: seq<Policy>)
    requires QuoteOk(q) && PoliciesOk(ps) && ReservationOk(r)
    ensures Size(q, ReserveAll(base, before + [r] + after), ps).amount
         <= Size(q, ReserveAll(base, before + after), ps).amount
  {
    hide Size, Reserve, Tighter;
    ReserveAnywhere(base, before, r, after);
    ReserveTightens(ReserveAll(base, before + after), r);
    MostRestrictiveWins(q, ReserveAll(base, before + after), Reserve(ReserveAll(base, before + after), r), ps, ps);
  }

  // ---- Exchange of approvals ---------------------------------------------------------------------

  /** What a reservation takes, for a candidate that would be approved. */
  function Taking(q: Quote, intent: Id, c: int): Reservation
    requires WorstPrice(q) > 0
  {
    Reservation(
      intent, q.instrument, q.instrument.base, q.network,
      if q.buying then c else 0, if q.buying then 0 else QuantityFor(q, c),
      (if q.buying then c else 0) + FeeCost(q, c), FeeCost(q, c))
  }

  lemma SharesExchange(v: map<Id, int>, own: Id, c: int, other: Id, d: int, cap: int, e: int)
    requires SharesWithin(Bump(v, own, c), other, d, cap, e)
    ensures SharesWithin(Bump(v, other, d), own, c, cap, e)
  {
    hide Within, Get, Bump;
    BumpGet(v, own, c, own);
    BumpGet(v, other, d, other);
    forall k | k in Bump(v, other, d).Keys + {own}
      ensures Within(Get(Bump(v, other, d), k) + if k == own then c else 0, cap, e)
    {
      BumpGet(v, own, c, k);
      BumpGet(v, other, d, k);
      assert k in Bump(v, own, c).Keys + {other};
    }
  }

  /** Two buys: the limits one met after the other are the limits the other meets after it. */
  lemma BuyPolicyExchange(qa: Quote, qb: Quote, r: Account, p: Policy, a: int, b: int, ia: Id, ib: Id)
    requires qa.buying && qb.buying && WorstPrice(qa) > 0 && WorstPrice(qb) > 0
    requires a > 0 && b > 0 && a <= p.maxOrder && qa.startEquity == qb.startEquity
    requires PolicyFits(qb, Reserve(r, Taking(qa, ia, a)), p, b)
    ensures PolicyFits(qa, Reserve(r, Taking(qb, ib, b)), p, a)
  {
    hide SharesWithin, FeeCost, Get, Bump, Within, WorstPrice, QuantityFor;
    var ra, rb := Reserve(r, Taking(qa, ia, a)), Reserve(r, Taking(qb, ib, b));
    var e := r.equity - FeeCost(qa, a) - FeeCost(qb, b);
    assert e == rb.equity - FeeCost(qa, a) == ra.equity - FeeCost(qb, b);
    SharesExchange(r.assets, qa.instrument.base, a, qb.instrument.base, b, p.maxAssetPct, e);
    SharesExchange(r.networks, qa.network, a, qb.network, b, p.maxNetworkPct, e);
    assert ra.openAssets + {qb.instrument.base} == rb.openAssets + {qa.instrument.base};
  }

  lemma OrderExchange(qa: Quote, qb: Quote, r: Account, a: int, b: int, ia: Id, ib: Id)
    requires WorstPrice(qa) > 0 && WorstPrice(qb) > 0
    requires OrderFits(qa, r, a) && OrderFits(qb, Reserve(r, Taking(qa, ia, a)), b)
    ensures OrderFits(qa, Reserve(r, Taking(qb, ib, b)), a)
  {
    hide FeeCost, WorstPrice, Bump, Get;
    BumpGet(r.quantities, qb.instrument, -Taking(qb, ib, b).sellQuantity, qa.instrument);
    BumpGet(r.quantities, qa.instrument, -Taking(qa, ia, a).sellQuantity, qb.instrument);
  }

  /**
   * If A was sized against reservations R and B against R with A, then A breaks no constraint when
   * it is checked against R with B. It holds for two buys, and for a sell A whatever B is.
   */
  lemma ExchangeOfApprovals(
      qa: Quote, qb: Quote, r: Account, ps: seq<Policy>, a: int, b: int, ia: Id, ib: Id)
    requires WorstPrice(qa) > 0 && WorstPrice(qb) > 0 && a > 0 && b > 0 && qa.startEquity == qb.startEquity
    requires Fits(qa, r, ps, a)
    requires Fits(qb, Reserve(r, Taking(qa, ia, a)), ps, b)
    requires qa.buying ==> qb.buying
    ensures Fits(qa, Reserve(r, Taking(qb, ib, b)), ps, a)
  {
    OrderExchange(qa, qb, r, a, b, ia, ib);
    forall p | p in ps
      ensures PolicyFits(qa, Reserve(r, Taking(qb, ib, b)), p, a)
    {
      assert PolicyFits(qa, r, p, a) && PolicyFits(qb, Reserve(r, Taking(qa, ia, a)), p, b);
      if qa.buying {
        BuyPolicyExchange(qa, qb, r, p, a, b, ia, ib);
      }
    }
  }

  /**
   * The two strict loss gates can still refuse the recheck of A. With a fee on A they cannot:
   * B left room for that fee, so the losses and the drawdown before it are strictly inside.
   */
  lemma GatesAfterExchange(
      qa: Quote, qb: Quote, r: Account, ps: seq<Policy>, a: int, b: int, ia: Id, ib: Id)
    requires QuoteOk(qa) && WorstPrice(qa) > 0 && WorstPrice(qb) > 0
    requires qa.buying && qb.buying && qa.startEquity == qb.startEquity
    requires FeeCost(qa, a) > 0
    requires GatesOpen(qa, r, ps) && Fits(qb, Reserve(r, Taking(qa, ia, a)), ps, b)
    ensures GatesOpen(qa, Reserve(r, Taking(qb, ib, b)), ps)
  {
    hide MarketGateOpen, SharesWithin, FeeCost, WorstPrice, QuantityFor, Bump;
    forall p | p in ps
      ensures var rb := Reserve(r, Taking(qb, ib, b));
              MarketGateOpen(qa, p) && LossGateOpen(qa, rb, p) && DrawdownGateOpen(qa, rb, p)
    {
      assert PolicyFits(qb, Reserve(r, Taking(qa, ia, a)), p, b);
    }
  }

  /** A recheck approves at least the earlier amount, provided the amount still fits and the gates open. */
  lemma RecheckApproves(q: Quote, before: Account, after: Account, ps: seq<Policy>)
    requires Usable(q) && PoliciesOk(ps) && Size(q, before, ps).amount > 0
    requires GatesOpen(q, after, ps) && Fits(q, after, ps, Size(q, before, ps).amount)
    ensures Size(q, after, ps).amount >= Size(q, before, ps).amount
  {
    hide Fits, Size, GatesOpen, QuantityFor, WorstPrice;
    var a := Size(q, before, ps).amount;
    SizingIsExact(q, before, ps, 0);
    var k: nat :| a == k * q.increment;
    SizingIsExact(q, after, ps, k);
  }

  /**
   * A buy that was sized first and rechecked after a second buy is approved again, for no less, exactly
   * when its gates are still open; with a fee of its own they always are.
   */
  lemma RecheckAfterBuyIsGated(
      qa: Quote, qb: Quote, r: Account, ps: seq<Policy>, b: int, ia: Id, ib: Id)
    requires Usable(qa) && Usable(qb) && PoliciesOk(ps) && qa.buying && qb.buying && qa.startEquity == qb.startEquity
    requires Size(qa, r, ps).amount > 0 && b > 0
    requires Fits(qb, Reserve(r, Taking(qa, ia, Size(qa, r, ps).amount)), ps, b)
    ensures var after := Reserve(r, Taking(qb, ib, b));
            Size(qa, after, ps).amount >= Size(qa, r, ps).amount <==> GatesOpen(qa, after, ps)
    ensures FeeCost(qa, Size(qa, r, ps).amount) > 0 ==> GatesOpen(qa, Reserve(r, Taking(qb, ib, b)), ps)
  {
    hide Fits, Size, GatesOpen, QuantityFor, WorstPrice, FeeCost, Reserve;
    var a, after := Size(qa, r, ps).amount, Reserve(r, Taking(qb, ib, b));
    SizingIsExact(qa, r, ps, 0);
    SizingIsExact(qa, after, ps, 0);
    ExchangeOfApprovals(qa, qb, r, ps, a, b, ia, ib);
    if FeeCost(qa, a) > 0 {
      GatesAfterExchange(qa, qb, r, ps, a, b, ia, ib);
    }
    if GatesOpen(qa, after, ps) {
      RecheckApproves(qa, r, after, ps);
    }
  }

  // ---- What later approvals can take away ------------------------------------------------------------

  /** The limits of a buy that are measured on equity, once `paid` more than `r` shows was spent on costs. */
  predicate CapsAfter(q: Quote, r: Account, p: Policy, c: int, paid: int) {
    var e := r.equity - FeeCost(q, c) - paid;
    && e > 0
    && Within(r.losses + FeeCost(q, c) + paid, p.maxDailyLossPct, q.startEquity)
    && Within(r.peak - e, p.maxDrawdownPct, r.peak)
    && Within(r.exposure + c, p.maxGrossPct, e)
    && SharesWithin(r.assets, q.instrument.base, c, p.maxAssetPct, e)
    && SharesWithin(r.networks, q.network, c, p.maxNetworkPct, e)
  }

  /** The strict loss gates once `paid` more was spent. */
  predicate GatesAfter(q: Quote, r: Account, p: Policy, paid: int) {
    && Below(r.losses + paid, p.maxDailyLossPct, q.startEquity)
    && Below(r.peak - r.equity + paid, p.maxDrawdownPct, r.peak)
  }

  /** The limits that are not measured on equity. */
  ghost predicate PlainFits(q: Quote, a: Account, ps: seq<Policy>, c: int)
    requires QuoteOk(q) && WorstPrice(q) > 0
  {
    && OrderFits(q, a, c)
    && forall p :: p in ps ==>
         && MarketGateOpen(q, p)
         && c <= p.maxOrder
         && (q.buying ==> |a.openAssets + {q.instrument.base}| <= p.maxOpenPositions)
  }

  /** An amount fits with open gates exactly when it meets the plain limits and, buying, those on equity. */
  lemma FitsSplit(q: Quote, a: Account, ps: seq<Policy>, c: int)
    requires QuoteOk(q) && WorstPrice(q) > 0
    ensures Fits(q, a, ps, c) && GatesOpen(q, a, ps) <==>
            (PlainFits(q, a, ps, c) && (q.buying ==> forall p :: p in ps ==> CapsAfter(q, a, p, c, 0) && GatesAfter(q, a, p, 0)))
  {
    hide WorstPrice, OrderFits, SharesWithin, FeeCost, MarketGateOpen, Within, Below;
    forall p | p in ps
      ensures PolicyFits(q, a, p, c) && MarketGateOpen(q, p) && LossGateOpen(q, a, p) && DrawdownGateOpen(q, a, p) <==>
              (MarketGateOpen(q, p) && c <= p.maxOrder &&
               (q.buying ==> |a.openAssets + {q.instrument.base}| <= p.maxOpenPositions && CapsAfter(q, a, p, c, 0) && GatesAfter(q, a, p, 0)))
    {
    }
    hide PolicyFits, LossGateOpen, DrawdownGateOpen, CapsAfter, GatesAfter;
  }

  /** The plain limits of an approval survive whatever is approved after it, buy or sell. */
  lemma PlainFitsBesideNewcomer(
      qa: Quote, qb: Quote, r: Account, ps: seq<Policy>, a: int, b: int, ia: Id, ib: Id)
    requires QuoteOk(qa) && WorstPrice(qa) > 0 && WorstPrice(qb) > 0 && a > 0 && b > 0
    requires PlainFits(qa, r, ps, a) && Fits(qb, Reserve(r, Taking(qa, ia, a)), ps, b)
    ensures PlainFits(qa, Reserve(r, Taking(qb, ib, b)), ps, a)
  {
    hide WorstPrice, OrderFits, SharesWithin, FeeCost, MarketGateOpen, Within, QuantityFor, Bump;
    OrderExchange(qa, qb, r, a, b, ia, ib);
    var ra, rb := Reserve(r, Taking(qa, ia, a)), Reserve(r, Taking(qb, ib, b));
    forall p | p in ps
      ensures qa.buying ==> |rb.openAssets + {qa.instrument.base}| <= p.maxOpenPositions
    {
      assert PolicyFits(qb, ra, p, b);
      if qa.buying && qb.buying {
        assert ra.openAssets + {qb.instrument.base} == rb.openAssets + {qa.instrument.base};
      }
    }
  }
}

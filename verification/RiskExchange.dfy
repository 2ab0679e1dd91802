/** How an approval fares once a later one is taken: exact conditions, and inputs on which they fail. */
module RiskExchange {
  import opened Outcomes
  import opened Sums
  import opened Domain
  import opened RiskAccount
  import opened RiskSizing
  import opened RiskTheorems
  import opened Fixed

  // ---- A sell after a buy ------------------------------------------------------------------------------

  /** Naming one more group that holds nothing changes no share. */
  lemma SharesAfterNothing(v: map<Id, int>, own: Id, c: int, other: Id, cap: int, e: int)
    requires cap >= 0 && e > 0
    ensures SharesWithin(Bump(v, other, 0), own, c, cap, e) <==> SharesWithin(v, own, c, cap, e)
  {
    hide Within, Get, Bump;
    ZeroIsWithin(cap, e);
    forall k
      ensures Get(Bump(v, other, 0), k) == Get(v, k)
    {
      BumpGet(v, other, 0, k);
    }
    BumpGet(v, other, 0, other);
    GetAbsent(v, other);
    assert forall k :: k in v.Keys + {own} ==> k in Bump(v, other, 0).Keys + {own};
  }

  lemma ZeroIsWithin(cap: int, e: int)
    requires cap >= 0 && e >= 0
    ensures Within(0, cap, e)
  {
  }

  lemma GetAbsent(v: map<Id, int>, k: Id)
    ensures k !in v ==> Get(v, k) == 0
  {
  }

  /** One policy, for a buy measured again after a sell. */
  lemma PolicyAfterSell(qa: Quote, qb: Quote, r: Account, p: Policy, a: int, b: int, ib: Id)
    requires qa.buying && !qb.buying && WorstPrice(qb) > 0 && PolicyOk(p) && PolicyFits(qa, r, p, a)
    ensures PolicyFits(qa, Reserve(r, Taking(qb, ib, b)), p, a) <==> CapsAfter(qa, r, p, a, FeeCost(qb, b))
  {
    hide SharesWithin, FeeCost, Bump, Within, WorstPrice, QuantityFor;
    var e := r.equity - FeeCost(qa, a) - FeeCost(qb, b);
    if e > 0 {
      SharesAfterNothing(r.assets, qa.instrument.base, a, qb.instrument.base, p.maxAssetPct, e);
      SharesAfterNothing(r.networks, qa.network, a, qb.network, p.maxNetworkPct, e);
    }
  }

  /**
   * A buy that was sized first still fits after a sell exactly when its caps hold of the equity both
   * fees leave. The account before the sell and the two fees decide it.
   */
  lemma BuyAfterSellIsExact(
      qa: Quote, qb: Quote, r: Account, ps: seq<Policy>, a: int, b: int, ia: Id, ib: Id)
    requires WorstPrice(qa) > 0 && WorstPrice(qb) > 0 && PoliciesOk(ps) && a > 0 && b > 0
    requires qa.buying && !qb.buying
    requires Fits(qa, r, ps, a) && Fits(qb, Reserve(r, Taking(qa, ia, a)), ps, b)
    ensures Fits(qa, Reserve(r, Taking(qb, ib, b)), ps, a) <==>
            forall p :: p in ps ==> CapsAfter(qa, r, p, a, FeeCost(qb, b))
  {
    hide FeeCost, WorstPrice, QuantityFor, PolicyFits, OrderFits, CapsAfter, Reserve;
    OrderExchange(qa, qb, r, a, b, ia, ib);
    forall p | p in ps
      ensures PolicyFits(qa, Reserve(r, Taking(qb, ib, b)), p, a) <==> CapsAfter(qa, r, p, a, FeeCost(qb, b))
    {
      PolicyAfterSell(qa, qb, r, p, a, b, ib);
    }
  }

  /** A sell without a fee never takes anything from a buy. */
  lemma FreeSellKeepsBuy(
      qa: Quote, qb: Quote, r: Account, ps: seq<Policy>, a: int, b: int, ia: Id, ib: Id)
    requires WorstPrice(qa) > 0 && WorstPrice(qb) > 0 && PoliciesOk(ps) && a > 0 && b > 0
    requires qa.buying && !qb.buying && FeeCost(qb, b) == 0
    requires Fits(qa, r, ps, a) && Fits(qb, Reserve(r, Taking(qa, ia, a)), ps, b)
    ensures Fits(qa, Reserve(r, Taking(qb, ib, b)), ps, a)
  {
    BuyAfterSellIsExact(qa, qb, r, ps, a, b, ia, ib);
    hide FeeCost, WorstPrice, QuantityFor, OrderFits, SharesWithin, Reserve, Within;
    assert forall p :: p in ps ==> PolicyFits(qa, r, p, a);
  }

  /** The gates of a buy after a later approval read its account and the other's cost alone. */
  lemma GatesAfterSell(qa: Quote, qb: Quote, r: Account, ps: seq<Policy>, b: int, ib: Id)
    requires QuoteOk(qa) && qa.buying && WorstPrice(qb) > 0 && GatesOpen(qa, r, ps)
    ensures GatesOpen(qa, Reserve(r, Taking(qb, ib, b)), ps) <==> forall p :: p in ps ==> GatesAfter(qa, r, p, FeeCost(qb, b))
  {
    hide MarketGateOpen, FeeCost, WorstPrice, QuantityFor, Bump, Below;
    var after := Reserve(r, Taking(qb, ib, b));
    forall p | p in ps
      ensures MarketGateOpen(qa, p) && LossGateOpen(qa, after, p) && DrawdownGateOpen(qa, after, p) <==> GatesAfter(qa, r, p, FeeCost(qb, b))
    {
      assert MarketGateOpen(qa, p);
    }
  }

  lemma OwnFeeOpensGates(qa: Quote, r: Account, p: Policy, a: int, paid: int)
    requires CapsAfter(qa, r, p, a, paid) && FeeCost(qa, a) > 0
    ensures GatesAfter(qa, r, p, paid)
  {
    hide FeeCost, SharesWithin;
  }

  /**
   * The recheck of a buy after a later sell approves it again, for no less, exactly when its caps and
   * its strict gates hold of what the sell's fee leaves. With a fee of its own the caps decide alone.
   */
  lemma RecheckAfterSellIsExact(
      qa: Quote, qb: Quote, r: Account, ps: seq<Policy>, b: int, ia: Id, ib: Id)
    requires Usable(qa) && Usable(qb) && PoliciesOk(ps) && qa.buying && !qb.buying
    requires Size(qa, r, ps).amount > 0 && b > 0
    requires Fits(qb, Reserve(r, Taking(qa, ia, Size(qa, r, ps).amount)), ps, b)
    ensures var a, after, fee := Size(qa, r, ps).amount, Reserve(r, Taking(qb, ib, b)), FeeCost(qb, b);
            && (Size(qa, after, ps).amount >= a <==>
                forall p :: p in ps ==> CapsAfter(qa, r, p, a, fee) && GatesAfter(qa, r, p, fee))
            && (FeeCost(qa, a) > 0 ==>
                  (Size(qa, after, ps).amount >= a <==> forall p :: p in ps ==> CapsAfter(qa, r, p, a, fee)))
  {
    hide Fits, Size, GatesOpen, QuantityFor, WorstPrice, FeeCost, Reserve, CapsAfter, GatesAfter;
    var a, after, fee := Size(qa, r, ps).amount, Reserve(r, Taking(qb, ib, b)), FeeCost(qb, b);
    SizingIsExact(qa, r, ps, 0);
    BuyAfterSellIsExact(qa, qb, r, ps, a, b, ia, ib);
    GatesAfterSell(qa, qb, r, ps, b, ib);
    RecheckIs(qa, r, after, ps);
    forall p | p in ps && CapsAfter(qa, r, p, a, fee) && FeeCost(qa, a) > 0
      ensures GatesAfter(qa, r, p, fee)
    {
      OwnFeeOpensGates(qa, r, p, a, fee);
    }
  }

  /** A recheck on another account approves no less exactly when the amount fits and the gates are open. */
  lemma RecheckIs(q: Quote, before: Account, after: Account, ps: seq<Policy>)
    requires Usable(q) && PoliciesOk(ps) && Size(q, before, ps).amount > 0
    ensures Size(q, after, ps).amount >= Size(q, before, ps).amount <==>
            GatesOpen(q, after, ps) && Fits(q, after, ps, Size(q, before, ps).amount)
  {
    hide Fits, Size, GatesOpen, QuantityFor, WorstPrice, Tighter;
    var a, b := Size(q, before, ps).amount, Size(q, after, ps).amount;
    SizingIsExact(q, after, ps, 0);
    if b >= a {
      TighterReflexive(after);
      FitsMonotone(q, after, after, ps, ps, a, b);
    }
    if GatesOpen(q, after, ps) && Fits(q, after, ps, a) {
      RecheckApproves(q, before, after, ps);
    }
  }

  // ---- A later buy closes the gate of a free one ---------------------------------------------------------

  const Coin := InstrumentId(1, USD, 0, true)
  const Token := InstrumentId(2, USD, 0, true)

  /** A request for the given notional at a fee in basis points, priced at one with a tick of spread. */
  function Trade(buying: bool, instrument: InstrumentId, notional: int, feeBps: int): Quote {
    Quote(buying, false, instrument, 7, notional * SCALE, SCALE, feeBps * SCALE, 0, SCALE, SCALE + 1, 1000 * SCALE,
          SCALE, if buying then 100 else -100, 1000 * SCALE)
  }

  function Limits(grossPct: int, lossPct: int): Policy {
    Policy(1, GlobalScope, grossPct, grossPct, grossPct, 5, lossPct, 100 * SCALE, 0, 10_000, 0, 1000 * SCALE, 0, 0)
  }

  /** The three policies every registration must have, with the same limits. */
  function Tiers(p: Policy): seq<Policy> {
    [p.(id := 1, scope := GlobalScope), p.(id := 2, scope := WorkspaceScope), p.(id := 3, scope := AgentScope)]
  }

  /** 900 in cash and 100 of `Token`, with nothing reserved. */
  const Start := Account(
    900 * SCALE, 1000 * SCALE, 100 * SCALE, map[2 := 100 * SCALE], map[7 := 100 * SCALE],
    map[Token := 100 * SCALE], {2}, 0, 1000 * SCALE)

  const FreeBuy := Trade(true, Coin, 100, 0)
  const PaidBuy := Trade(true, Coin, 100, 10)
  const LargeBuy := Trade(true, Coin, 400, 0)
  const PaidSell := Trade(false, Token, 50, 10)
  const TightLoss := Limits(100 * SCALE, 10_000_000_000)
  const HalfGross := Limits(50 * SCALE, 100 * SCALE)

  lemma TradeNumbers()
    ensures Usable(FreeBuy) && Usable(PaidBuy) && Usable(LargeBuy) && Usable(PaidSell) && PolicyOk(TightLoss) && PolicyOk(HalfGross)
    ensures WorstPrice(FreeBuy) == WorstPrice(PaidBuy) == WorstPrice(LargeBuy) == SCALE + 1 && WorstPrice(PaidSell) == SCALE
    ensures FeeCost(FreeBuy, 100 * SCALE) == FeeCost(LargeBuy, 400 * SCALE) == 0
    ensures FeeCost(PaidBuy, 100 * SCALE) == 100_000_000_000
    ensures FeeCost(PaidSell, 50 * SCALE) == 50_000_000_000
    ensures SpreadBps(FreeBuy) == SpreadBps(PaidBuy) == SpreadBps(LargeBuy) == SpreadBps(PaidSell) <= 20_000
  {
  }

  lemma TradeQuantities()
    requires WorstPrice(FreeBuy) == WorstPrice(PaidBuy) == WorstPrice(LargeBuy) == SCALE + 1 && WorstPrice(PaidSell) == SCALE
    ensures QuantityFor(FreeBuy, 100 * SCALE) > 0 && QuantityFor(PaidBuy, 100 * SCALE) > 0
    ensures QuantityFor(LargeBuy, 400 * SCALE) > 0 && QuantityFor(PaidSell, 50 * SCALE) == 50 * SCALE
  {
    hide WorstPrice;
  }

  lemma TiersAre(p: Policy)
    ensures PolicyOk(p) ==> PoliciesOk(Tiers(p))
    ensures forall x :: x in Tiers(p) ==> x == p.(id := x.id, scope := x.scope)
    ensures Tiers(p)[0] in Tiers(p)
  {
  }

  /** Limits do not depend on the scope they are set for. */
  lemma TiersFit(q: Quote, a: Account, p: Policy, c: int)
    requires WorstPrice(q) > 0
    ensures Fits(q, a, Tiers(p), c) <==> OrderFits(q, a, c) && PolicyFits(q, a, p, c)
  {
    hide OrderFits, WorstPrice, SharesWithin, FeeCost, Within, Tiers;
    TiersAre(p);
    assert PolicyFits(q, a, Tiers(p)[0], c) <==> PolicyFits(q, a, p, c);
  }

  lemma TiersGates(q: Quote, a: Account, p: Policy)
    requires QuoteOk(q)
    ensures GatesOpen(q, a, Tiers(p)) <==> MarketGateOpen(q, p) && LossGateOpen(q, a, p) && DrawdownGateOpen(q, a, p)
  {
    hide SpreadBps, Below, Tiers;
    TiersAre(p);
    var t := Tiers(p)[0];
    assert MarketGateOpen(q, t) && LossGateOpen(q, a, t) && DrawdownGateOpen(q, a, t) <==>
           MarketGateOpen(q, p) && LossGateOpen(q, a, p) && DrawdownGateOpen(q, a, p);
  }

  /** A request that fits as it stands, behind open gates, is approved in full. */
  lemma ApprovedInFull(q: Quote, a: Account, p: Policy)
    requires Usable(q) && PolicyOk(p) && p.minOrder <= q.requested && q.requested == q.requested / q.increment * q.increment
    requires OrderFits(q, a, q.requested) && PolicyFits(q, a, p, q.requested) && QuantityFor(q, q.requested) > 0
    requires MarketGateOpen(q, p) && LossGateOpen(q, a, p) && DrawdownGateOpen(q, a, p)
    ensures PoliciesOk(Tiers(p)) && Size(q, a, Tiers(p)).amount == q.requested
    ensures GatesOpen(q, a, Tiers(p)) && Fits(q, a, Tiers(p), q.requested)
  {
    hide Fits, Size, GatesOpen, QuantityFor, WorstPrice, OrderFits, PolicyFits, MarketGateOpen, LossGateOpen, DrawdownGateOpen, Tiers;
    TiersAre(p);
    TiersFit(q, a, p, q.requested);
    TiersGates(q, a, p);
    SizingIsExact(q, a, Tiers(p), q.requested / q.increment);
  }

  /** Shares of the starting account, which holds asset 2 in network 7. */
  lemma StartShares(c: int, cap: int, e: int)
    requires Within(c, cap, e) && Within(100 * SCALE, cap, e) && Within(100 * SCALE + c, cap, e)
    ensures SharesWithin(Start.assets, 1, c, cap, e) && SharesWithin(Start.networks, 7, c, cap, e)
    ensures |Start.openAssets + {1}| <= 2
  {
    hide Within, SharesWithin;
    StartAssets(c, cap, e);
    StartNetworks(c, cap, e);
    CardinalityMonotone(Start.openAssets + {1}, {1, 2});
  }

  lemma StartAssets(c: int, cap: int, e: int)
    requires Within(c, cap, e) && Within(100 * SCALE, cap, e)
    ensures SharesWithin(Start.assets, 1, c, cap, e)
  {
    hide Within;
  }

  lemma StartNetworks(c: int, cap: int, e: int)
    requires Within(100 * SCALE + c, cap, e)
    ensures SharesWithin(Start.networks, 7, c, cap, e)
  {
    hide Within;
  }

  lemma FreeBuyFits()
    requires Usable(FreeBuy)
    ensures OrderFits(FreeBuy, Start, 100 * SCALE) && PolicyFits(FreeBuy, Start, TightLoss, 100 * SCALE)
  {
    hide FeeCost, WorstPrice, SharesWithin;
    TradeNumbers();
    StartShares(100 * SCALE, TightLoss.maxAssetPct, 1000 * SCALE);
  }

  lemma PaidBuyFitsAfterIt()
    requires Usable(PaidBuy) && Usable(FreeBuy)
    ensures var r := Reserve(Start, Taking(FreeBuy, 1, 100 * SCALE));
            OrderFits(PaidBuy, r, 100 * SCALE) && PolicyFits(PaidBuy, r, TightLoss, 100 * SCALE)
  {
    TradeNumbers();
    hide FeeCost, WorstPrice, QuantityFor;
  }

  lemma MarketIsOpen()
    requires Usable(PaidBuy) && Usable(FreeBuy) && Usable(LargeBuy) && Usable(PaidSell)
    ensures MarketGateOpen(FreeBuy, TightLoss) && MarketGateOpen(PaidBuy, TightLoss)
    ensures MarketGateOpen(LargeBuy, HalfGross) && MarketGateOpen(PaidSell, HalfGross)
  {
    TradeNumbers();
    hide SpreadBps, WorstPrice;
  }

  lemma GatesAround()
    requires Usable(PaidBuy) && Usable(FreeBuy)
    ensures LossGateOpen(FreeBuy, Start, TightLoss) && DrawdownGateOpen(FreeBuy, Start, TightLoss)
    ensures var r := Reserve(Start, Taking(FreeBuy, 1, 100 * SCALE));
            LossGateOpen(PaidBuy, r, TightLoss) && DrawdownGateOpen(PaidBuy, r, TightLoss)
    ensures !LossGateOpen(FreeBuy, Reserve(Start, Taking(PaidBuy, 2, 100 * SCALE)), TightLoss)
  {
    TradeNumbers();
    hide FeeCost, WorstPrice, QuantityFor, Bump;
  }

  /**
   * Without a fee on A its recheck can be refused: both buys are approved in full, and B's fee brings
   * the losses exactly to the daily limit, which B's own sizing allows and A's gate does not.
   */
  lemma FreeApprovalCanFailRecheck()
    ensures Usable(FreeBuy) && Usable(PaidBuy) && PoliciesOk(Tiers(TightLoss)) && FeeCost(FreeBuy, 100 * SCALE) == 0
    ensures Size(FreeBuy, Start, Tiers(TightLoss)).amount == FreeBuy.requested == 100 * SCALE
    ensures Size(PaidBuy, Reserve(Start, Taking(FreeBuy, 1, 100 * SCALE)), Tiers(TightLoss)).amount == PaidBuy.requested == 100 * SCALE
    ensures var after := Reserve(Start, Taking(PaidBuy, 2, 100 * SCALE));
            && Fits(FreeBuy, after, Tiers(TightLoss), 100 * SCALE) && !GatesOpen(FreeBuy, after, Tiers(TightLoss))
            && Size(FreeBuy, after, Tiers(TightLoss)).amount == 0
  {
    hide FeeCost, WorstPrice, PolicyFits, OrderFits, Fits, GatesOpen, QuantityFor, MarketGateOpen, LossGateOpen, DrawdownGateOpen, Size, Tiers;
    TradeNumbers();
    TradeQuantities();
    FreeBuyFits();
    PaidBuyFitsAfterIt();
    MarketIsOpen();
    GatesAround();
    ApprovedInFull(FreeBuy, Start, TightLoss);
    ApprovedInFull(PaidBuy, Reserve(Start, Taking(FreeBuy, 1, 100 * SCALE)), TightLoss);
    var after := Reserve(Start, Taking(PaidBuy, 2, 100 * SCALE));
    ExchangeOfApprovals(FreeBuy, PaidBuy, Start, Tiers(TightLoss), 100 * SCALE, 100 * SCALE, 1, 2);
    TiersGates(FreeBuy, after, TightLoss);
    SizingIsExact(FreeBuy, after, Tiers(TightLoss), 0);
  }

  // ---- A later sell takes a buy over its caps ----------------------------------------------------------------

  lemma LargeBuyFits()
    requires Usable(LargeBuy)
    ensures OrderFits(LargeBuy, Start, 400 * SCALE) && PolicyFits(LargeBuy, Start, HalfGross, 400 * SCALE)
    ensures LossGateOpen(LargeBuy, Start, HalfGross) && DrawdownGateOpen(LargeBuy, Start, HalfGross)
  {
    hide FeeCost, WorstPrice, SharesWithin;
    TradeNumbers();
    StartShares(400 * SCALE, HalfGross.maxAssetPct, 1000 * SCALE);
  }

  lemma PaidSellFits()
    requires Usable(LargeBuy) && Usable(PaidSell)
    ensures var r := Reserve(Start, Taking(LargeBuy, 1, 400 * SCALE));
            OrderFits(PaidSell, r, 50 * SCALE) && PolicyFits(PaidSell, r, HalfGross, 50 * SCALE) &&
            LossGateOpen(PaidSell, r, HalfGross) && DrawdownGateOpen(PaidSell, r, HalfGross)
    ensures !PolicyFits(LargeBuy, Reserve(Start, Taking(PaidSell, 2, 50 * SCALE)), HalfGross, 400 * SCALE)
  {
    TradeNumbers();
    hide FeeCost, WorstPrice, QuantityFor, SharesWithin;
  }

  /**
   * A sell approved after a buy can break the buy: both are approved in full, and the sell's fee
   * shrinks the equity the buy was measured on, so its recheck approves less and the handoff refuses.
   */
  lemma LaterSellCanBreakBuy()
    ensures Usable(LargeBuy) && Usable(PaidSell) && PoliciesOk(Tiers(HalfGross))
    ensures GatesOpen(LargeBuy, Start, Tiers(HalfGross))
    ensures Size(LargeBuy, Start, Tiers(HalfGross)).amount == LargeBuy.requested == 400 * SCALE
    ensures var r := Reserve(Start, Taking(LargeBuy, 1, 400 * SCALE));
            && GatesOpen(PaidSell, r, Tiers(HalfGross))
            && Size(PaidSell, r, Tiers(HalfGross)).amount == PaidSell.requested == 50 * SCALE
    ensures var after := Reserve(Start, Taking(PaidSell, 2, 50 * SCALE));
            && !Fits(LargeBuy, after, Tiers(HalfGross), 400 * SCALE)
            && Size(LargeBuy, after, Tiers(HalfGross)).amount < 400 * SCALE
  {
    hide FeeCost, WorstPrice, PolicyFits, OrderFits, Fits, GatesOpen, QuantityFor, MarketGateOpen, LossGateOpen, DrawdownGateOpen, Size, Tiers;
    TradeNumbers();
    TradeQuantities();
    LargeBuyFits();
    PaidSellFits();
    MarketIsOpen();
    ApprovedInFull(LargeBuy, Start, HalfGross);
    ApprovedInFull(PaidSell, Reserve(Start, Taking(LargeBuy, 1, 400 * SCALE)), HalfGross);
    var after := Reserve(Start, Taking(PaidSell, 2, 50 * SCALE));
    TiersFit(LargeBuy, after, HalfGross, 400 * SCALE);
    RecheckIs(LargeBuy, Start, after, Tiers(HalfGross));
  }
}

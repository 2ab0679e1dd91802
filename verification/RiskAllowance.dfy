/**
 * What an evaluation allows, written on the portfolio, the reservations, the request and the policies
 * alone, and the proof that the evaluator approves the largest amount allowed.
 */
module RiskAllowance {
  import opened Outcomes
  import opened Sums
  import opened Domain
  import opened RiskAccount
  import opened RiskSizing
  import opened RiskTheorems
  import opened RiskEvaluator
  import opened RiskPortfolio
  import opened Fixed
  import LG = LedgerGenerations

  /** `u` is the least number of units of `d` that covers `n`. */
  predicate Covers(u: int, n: int, d: int) {
    (u - 1) * d < n <= u * d
  }

  /** `u` is the greatest number of units of `d` within `n`. */
  predicate FitsIn(u: int, n: int, d: int) {
    u * d <= n < (u + 1) * d
  }

  lemma CoversOnce(u: int, v: int, n: int, d: int)
    requires d > 0 && Covers(u, n, d) && Covers(v, n, d)
    ensures u == v
  {
    ScaledOrder(u, v - 1, d);
    ScaledOrder(v, u - 1, d);
  }

  lemma FitsInOnce(u: int, v: int, n: int, d: int)
    requires d > 0 && FitsIn(u, n, d) && FitsIn(v, n, d)
    ensures u == v
  {
    ScaledOrder(u + 1, v, d);
    ScaledOrder(v + 1, u, d);
  }

  lemma FloorFitsIn(n: int, d: int)
    requires d > 0
    ensures FitsIn(n / d, n, d)
  {
    assert n == d * (n / d) + n % d;
  }

  // ---- The numbers of a request -------------------------------------------------------------------

  /** The price an order may have to accept: the touch moved by the slippage, rounded against the trader. */
  predicate IsWorstPrice(req: Request, exec: Execution, price: int) {
    if req.intent.side.Buy? then Covers(price, req.ask * (BPS_DENOMINATOR + exec.slippageBps), BPS_DENOMINATOR)
    else FitsIn(price, req.bid * (BPS_DENOMINATOR - exec.slippageBps), BPS_DENOMINATOR)
  }

  predicate IsCost(exec: Execution, amount: int, cost: int) {
    Covers(cost, amount * exec.feeBps, BPS_DENOMINATOR)
  }

  /** Twice the spread over the sum of the touches, in basis points. */
  predicate IsSpread(req: Request, spread: int) {
    Covers(spread, 20_000 * SCALE * (req.ask - req.bid), req.ask + req.bid)
  }

  predicate IsQuantity(req: Request, amount: int, price: int, quantity: int) {
    if req.intent.side.Buy? then FitsIn(quantity, amount * SCALE, price) else Covers(quantity, amount * SCALE, price)
  }

  /** Everything an amount is judged by. */
  datatype Numbers = Numbers(cost: int, price: int, spread: int, quantity: int)

  predicate NumbersOf(req: Request, exec: Execution, amount: int, n: Numbers) {
    && IsCost(exec, amount, n.cost) && IsWorstPrice(req, exec, n.price) && IsSpread(req, n.spread)
    && n.price > 0 && IsQuantity(req, amount, n.price, n.quantity)
  }

  /** The books and frozen holdings an evaluation starts from. */
  datatype Scene = Scene(portfolio: Portfolio, networks: map<InstrumentId, Id>, reserved: seq<Reservation>)

  // ---- What is allowed ---------------------------------------------------------------------------------

  predicate MarketAllows(req: Request, exec: Execution, p: Policy, n: Numbers) {
    var edge := if req.intent.side.Buy? then req.expectedReturnBps else -req.expectedReturnBps;
    && n.spread <= p.maxSpreadBps * SCALE
    && p.minLiquidity <= req.liquidity
    && (req.action.ProposeReduce? || req.action.ProposeClose? ||
        edge * SCALE > exec.feeBps + exec.slippageBps + n.spread + p.minEdgeBps * SCALE)
  }

  /** What is left of cash, stock and displayed size covers the order. */
  predicate ResourcesAllow(req: Request, s: Scene, amount: int, n: Numbers) {
    && n.quantity > 0
    && (if req.intent.side.Buy? then amount else 0) + n.cost + Sum(Debits(s.reserved)) <= s.portfolio.cash
    && (req.intent.side.Sell? ==>
          n.quantity + Sum(Sells(s.reserved, req.intent.instrument)) <= LG.HeldIn(s.portfolio.positions, req.intent.instrument))
    && amount * SCALE <= if req.intent.side.Buy? then req.askSize * req.ask else req.bidSize * req.bid
  }

  /** Losses so far are strictly inside the limits, and with this cost still within them. */
  predicate LossesAllow(s: Scene, p: Policy, cost: int) {
    var lost := Max(-s.portfolio.realizedToday, 0) + Sum(Costs(s.reserved));
    var equity := s.portfolio.equity - Sum(Costs(s.reserved));
    && lost * 100 * SCALE < p.maxDailyLossPct * s.portfolio.equity
    && (lost + cost) * 100 * SCALE <= p.maxDailyLossPct * s.portfolio.equity
    && (s.portfolio.peakEquity - equity) * 100 * SCALE < p.maxDrawdownPct * s.portfolio.peakEquity
    && (s.portfolio.peakEquity - equity + cost) * 100 * SCALE <= p.maxDrawdownPct * s.portfolio.peakEquity
  }

  function AssetExposure(s: Scene, asset: Id): int {
    Sum(AssetWorths(s.portfolio.positions, asset)) + Sum(AssetBuys(s.reserved, asset))
  }

  function NetworkExposure(s: Scene, network: Id): int {
    Sum(NetworkWorths(s.portfolio.positions, s.networks, network)) + Sum(NetworkBuys(s.reserved, network))
  }

  /** Held at a positive value, bought by a reservation, or about to be bought. */
  ghost predicate OpenIn(s: Scene, own: Id, asset: Id) {
    || asset == own
    || Sum(AssetWorths(s.portfolio.positions, asset)) > 0
    || exists i :: 0 <= i < |s.reserved| && s.reserved[i].asset == asset && s.reserved[i].buyNotional != 0
  }

  /** Gross, per-asset and per-network exposure within their shares of the equity left, and few enough assets. */
  ghost predicate ExposureAllows(req: Request, s: Scene, p: Policy, amount: int, cost: int) {
    var equity := s.portfolio.equity - Sum(Costs(s.reserved)) - cost;
    var own := req.intent.instrument.base;
    && equity > 0
    && (Sum(Worths(s.portfolio.positions)) + Sum(Buys(s.reserved)) + amount) * 100 * SCALE <= p.maxGrossPct * equity
    && (forall k :: (AssetExposure(s, k) + if k == own then amount else 0) * 100 * SCALE <= p.maxAssetPct * equity)
    && (forall k :: (NetworkExposure(s, k) + if k == Get(s.networks, req.intent.instrument) then amount else 0) * 100 * SCALE
                    <= p.maxNetworkPct * equity)
    && (forall held: set<Id> :: (forall k :: k in held ==> OpenIn(s, own, k)) ==> |held| <= p.maxOpenPositions)
  }

  /** One policy's part of what is allowed. */
  ghost predicate PolicyAllows(req: Request, exec: Execution, s: Scene, p: Policy, amount: int, n: Numbers) {
    && p.minOrder <= amount <= p.maxOrder
    && MarketAllows(req, exec, p, n)
    && (req.intent.side.Buy? ==> LossesAllow(s, p, n.cost) && ExposureAllows(req, s, p, amount, n.cost))
  }

  /** An amount the policies allow on a scene. */
  ghost predicate Allowed(req: Request, exec: Execution, s: Scene, ps: seq<Policy>, amount: int, n: Numbers) {
    && 0 < amount <= req.intent.notional
    && ResourcesAllow(req, s, amount, n)
    && forall p :: p in ps ==> PolicyAllows(req, exec, s, p, amount, n)
  }

  // ---- The evaluator's own quantities --------------------------------------------------------------------

  function QuoteOf(req: Request, exec: Execution, s: Scene): Quote {
    QuoteFor(req, exec, Get(s.networks, req.intent.instrument), s.portfolio.equity)
  }

  lemma NumbersAre(req: Request, exec: Execution, s: Scene, amount: int, n: Numbers)
    requires RequestOk(req) && ExecutionOk(exec) && NumbersOf(req, exec, amount, n)
    ensures var q := QuoteOf(req, exec, s);
            && QuoteOk(q) && WorstPrice(q) == n.price && FeeCost(q, amount) == n.cost && SpreadBps(q) == n.spread
            && QuantityFor(q, amount) == n.quantity
  {
    hide CeilDiv;
    var q := QuoteOf(req, exec, s);
    CoversOnce(FeeCost(q, amount), n.cost, amount * exec.feeBps, BPS_DENOMINATOR);
    CoversOnce(SpreadBps(q), n.spread, 20_000 * SCALE * (req.ask - req.bid), req.ask + req.bid);
    PriceIs(req, exec, s, n.price);
    QuantityIs(req, exec, s, amount, n);
  }

  lemma PriceIs(req: Request, exec: Execution, s: Scene, price: int)
    requires RequestOk(req) && ExecutionOk(exec) && IsWorstPrice(req, exec, price)
    ensures WorstPrice(QuoteOf(req, exec, s)) == price
  {
    hide CeilDiv;
    if req.intent.side.Buy? {
      CoversOnce(WorstPrice(QuoteOf(req, exec, s)), price, req.ask * (BPS_DENOMINATOR + exec.slippageBps), BPS_DENOMINATOR);
    } else {
      FloorFitsIn(req.bid * (BPS_DENOMINATOR - exec.slippageBps), BPS_DENOMINATOR);
      FitsInOnce(WorstPrice(QuoteOf(req, exec, s)), price, req.bid * (BPS_DENOMINATOR - exec.slippageBps), BPS_DENOMINATOR);
    }
  }

  lemma QuantityIs(req: Request, exec: Execution, s: Scene, amount: int, n: Numbers)
    requires RequestOk(req) && n.price > 0 && WorstPrice(QuoteOf(req, exec, s)) == n.price
    requires IsQuantity(req, amount, n.price, n.quantity)
    ensures QuantityFor(QuoteOf(req, exec, s), amount) == n.quantity
  {
    hide CeilDiv, WorstPrice;
    if req.intent.side.Buy? {
      FloorFitsIn(amount * SCALE, n.price);
      FitsInOnce(amount * SCALE / n.price, n.quantity, amount * SCALE, n.price);
    } else {
      CoversOnce(CeilDiv(amount * SCALE, n.price), n.quantity, amount * SCALE, n.price);
    }
  }

  /** The account the evaluator measures against, as totals of the scene, for any asset and network. */
  ghost predicate Measures(a: Account, s: Scene, asset: Id, network: Id, key: InstrumentId) {
    && a.cash == s.portfolio.cash - Sum(Debits(s.reserved))
    && a.equity == s.portfolio.equity - Sum(Costs(s.reserved))
    && a.losses == Max(-s.portfolio.realizedToday, 0) + Sum(Costs(s.reserved))
    && a.peak == s.portfolio.peakEquity
    && a.exposure == Sum(Worths(s.portfolio.positions)) + Sum(Buys(s.reserved))
    && Get(a.assets, asset) == AssetExposure(s, asset)
    && Get(a.networks, network) == NetworkExposure(s, network)
    && Get(a.quantities, key) == LG.HeldIn(s.portfolio.positions, key) - Sum(Sells(s.reserved, key))
  }

  lemma AccountMeasures(s: Scene, a: Account, asset: Id, network: Id, key: InstrumentId)
    requires AccountState(s.portfolio, s.networks, s.reserved) == Some(a)
    ensures Measures(a, s, asset, network, key)
  {
    hide Sum, Worths, AssetWorths, NetworkWorths, Debits, Costs, Buys, Sells, AssetBuys, NetworkBuys, Valued, Trusted, ReserveAll, LG.HeldIn;
    var base := Base(s.portfolio, s.networks).value;
    BaseIs(s.portfolio, s.networks, asset, network);
    LG.ValuedQuantities(s.portfolio.positions, s.networks, key);
    ReserveAllTotals(base, s.reserved, asset, network, key);
  }

  lemma MeasuredOpen(s: Scene, a: Account, own: Id, asset: Id)
    requires AccountState(s.portfolio, s.networks, s.reserved) == Some(a)
    ensures asset in a.openAssets + {own} <==> OpenIn(s, own, asset)
  {
    hide Sum, Worths, AssetWorths, NetworkWorths, Valued, Trusted, ReserveAll, Base;
    var base := Base(s.portfolio, s.networks).value;
    BaseIs(s.portfolio, s.networks, asset, 0);
    OpenAfter(base, s.reserved, asset);
  }

  /** A bound on the number of open assets, with and without naming their set. */
  lemma OpenCountIs(s: Scene, a: Account, own: Id, most: int)
    requires AccountState(s.portfolio, s.networks, s.reserved) == Some(a)
    ensures |a.openAssets + {own}| <= most <==>
            forall held: set<Id> :: (forall k :: k in held ==> OpenIn(s, own, k)) ==> |held| <= most
  {
    hide OpenIn, AccountState;
    var all := a.openAssets + {own};
    forall k
      ensures k in all <==> OpenIn(s, own, k)
    {
      MeasuredOpen(s, a, own, k);
    }
    forall held: set<Id> | (forall k :: k in held ==> OpenIn(s, own, k))
      ensures |held| <= |all|
    {
      forall k | k in held
        ensures k in all
      {
        assert OpenIn(s, own, k);
      }
      CardinalityMonotone(held, all);
    }
  }

  /** Shares listed in a map, and the same for every group at all. */
  lemma SharesEverywhere(v: map<Id, int>, own: Id, c: int, cap: int, e: int)
    requires cap >= 0 && e > 0
    ensures SharesWithin(v, own, c, cap, e) <==>
            forall k :: (Get(v, k) + if k == own then c else 0) * 100 * SCALE <= cap * e
  {
    hide Get;
    ScaledOrder(0, cap, e);
    forall k | k !in v.Keys + {own}
      ensures Get(v, k) == 0
    {
      AbsentShare(v, k);
    }
  }

  lemma AbsentShare(v: map<Id, int>, k: Id)
    ensures k !in v ==> Get(v, k) == 0
  {
  }

  lemma ExposureIs(req: Request, exec: Execution, s: Scene, a: Account, p: Policy, amount: int, n: Numbers)
    requires PolicyOk(p) && AccountState(s.portfolio, s.networks, s.reserved) == Some(a)
    requires var q := QuoteOf(req, exec, s); q.buying && FeeCost(q, amount) == n.cost
    ensures var q := QuoteOf(req, exec, s);
            var e := a.equity - n.cost;
            ExposureAllows(req, s, p, amount, n.cost) <==>
              (e > 0 && Within(a.exposure + amount, p.maxGrossPct, e)
               && SharesWithin(a.assets, q.instrument.base, amount, p.maxAssetPct, e)
               && SharesWithin(a.networks, q.network, amount, p.maxNetworkPct, e)
               && |a.openAssets + {q.instrument.base}| <= p.maxOpenPositions)
  {
    hide Sum, Worths, Debits, Costs, Buys, Sells, AccountState, OpenIn, LG.HeldIn, AssetExposure, NetworkExposure, SharesWithin, FeeCost, Get;
    var own, network, key, e := req.intent.instrument.base, Get(s.networks, req.intent.instrument), req.intent.instrument, a.equity - n.cost;
    AccountMeasures(s, a, own, network, key);
    OpenCountIs(s, a, own, p.maxOpenPositions);
    if e > 0 {
      SharesEverywhere(a.assets, own, amount, p.maxAssetPct, e);
      SharesEverywhere(a.networks, network, amount, p.maxNetworkPct, e);
      forall k
        ensures Get(a.assets, k) == AssetExposure(s, k) && Get(a.networks, k) == NetworkExposure(s, k)
      {
        AccountMeasures(s, a, k, k, key);
      }
    }
  }

  lemma LossesAre(req: Request, exec: Execution, s: Scene, a: Account, p: Policy, amount: int, n: Numbers)
    requires AccountState(s.portfolio, s.networks, s.reserved) == Some(a)
    requires var q := QuoteOf(req, exec, s); q.buying && FeeCost(q, amount) == n.cost
    ensures var q := QuoteOf(req, exec, s);
            LossesAllow(s, p, n.cost) <==>
              (LossGateOpen(q, a, p) && DrawdownGateOpen(q, a, p)
               && Within(a.losses + n.cost, p.maxDailyLossPct, q.startEquity)
               && Within(a.peak - (a.equity - n.cost), p.maxDrawdownPct, a.peak))
  {
    hide Sum, Worths, Debits, Costs, Buys, Sells, AccountState, LG.HeldIn, AssetExposure, NetworkExposure, FeeCost;
    AccountMeasures(s, a, 0, 0, req.intent.instrument);
  }

  lemma MarketIs(req: Request, exec: Execution, s: Scene, p: Policy, n: Numbers)
    requires QuoteOk(QuoteOf(req, exec, s)) && SpreadBps(QuoteOf(req, exec, s)) == n.spread
    ensures MarketAllows(req, exec, p, n) <==> MarketGateOpen(QuoteOf(req, exec, s), p)
  {
    hide SpreadBps;
  }

  lemma ResourcesAre(req: Request, exec: Execution, s: Scene, a: Account, amount: int, n: Numbers)
    requires AccountState(s.portfolio, s.networks, s.reserved) == Some(a) && n.price > 0
    requires var q := QuoteOf(req, exec, s);
             WorstPrice(q) == n.price && FeeCost(q, amount) == n.cost && QuantityFor(q, amount) == n.quantity
    ensures var q := QuoteOf(req, exec, s);
            ResourcesAllow(req, s, amount, n) <==> (OrderFits(q, a, amount) && n.quantity > 0)
  {
    hide Sum, Worths, Debits, Costs, Buys, Sells, AccountState, LG.HeldIn, AssetExposure, NetworkExposure, FeeCost, WorstPrice, Get;
    AccountMeasures(s, a, 0, 0, req.intent.instrument);
  }

  lemma PolicyAllowsIs(req: Request, exec: Execution, s: Scene, a: Account, p: Policy, amount: int, n: Numbers)
    requires PolicyOk(p) && AccountState(s.portfolio, s.networks, s.reserved) == Some(a)
    requires var q := QuoteOf(req, exec, s); QuoteOk(q) && FeeCost(q, amount) == n.cost && SpreadBps(q) == n.spread
    ensures var q := QuoteOf(req, exec, s);
            PolicyAllows(req, exec, s, p, amount, n) <==>
              (p.minOrder <= amount && PolicyFits(q, a, p, amount) &&
               MarketGateOpen(q, p) && LossGateOpen(q, a, p) && DrawdownGateOpen(q, a, p))
  {
    hide AccountState, FeeCost, SpreadBps, MarketGateOpen, MarketAllows, LossesAllow, ExposureAllows, SharesWithin, Within;
    MarketIs(req, exec, s, p, n);
    if req.intent.side.Buy? {
      LossesAre(req, exec, s, a, p, amount, n);
      ExposureIs(req, exec, s, a, p, amount, n);
    }
  }

  /** What the policies allow on the scene is what the evaluator's gates and constraints let through. */
  lemma AllowedIs(req: Request, exec: Execution, s: Scene, a: Account, ps: seq<Policy>, amount: int, n: Numbers)
    requires RequestOk(req) && ExecutionOk(exec) && PoliciesOk(ps) && NumbersOf(req, exec, amount, n)
    requires AccountState(s.portfolio, s.networks, s.reserved) == Some(a)
    ensures var q := QuoteOf(req, exec, s);
            && QuoteOk(q) && WorstPrice(q) == n.price > 0
            && (Allowed(req, exec, s, ps, amount, n) <==> (Approvable(q, a, ps, amount) && GatesOpen(q, a, ps)))
  {
    NumbersAre(req, exec, s, amount, n);
    var q := QuoteOf(req, exec, s);
    hide AccountState, NumbersOf, WorstPrice, FeeCost, QuantityFor, SpreadBps, OrderFits, MarketGateOpen,
         ResourcesAllow, PolicyAllows, PolicyFits, LossGateOpen, DrawdownGateOpen;
    ResourcesAre(req, exec, s, a, amount, n);
    forall p | p in ps
      ensures PolicyAllows(req, exec, s, p, amount, n) <==>
              (p.minOrder <= amount && PolicyFits(q, a, p, amount) &&
               MarketGateOpen(q, p) && LossGateOpen(q, a, p) && DrawdownGateOpen(q, a, p))
    {
      PolicyAllowsIs(req, exec, s, a, p, amount, n);
    }
  }

  // ---- The evaluation -------------------------------------------------------------------------------------

  /**
   * An evaluation whose context holds approves the largest multiple of the increment that the policies
   * allow on its scene: what it approves is allowed, and nothing larger is.
   */
  lemma EvaluationIsLargestAllowed(
      env: Environment, req: Request, reg: Registration, controls: Controls, s: Scene, now: int, j: nat, n: Numbers)
    requires RequestOk(req) && RegistrationOk(reg)
    requires ContextReasons(env, req, reg, s.portfolio, controls, now) == [] && Trusted(s.portfolio, s.networks)
    requires NumbersOf(req, reg.execution, j * reg.execution.notionalIncrement, n)
    ensures var amount := j * reg.execution.notionalIncrement;
            var approved := Evaluate(env, req, reg, s.portfolio, controls, s.networks, s.reserved, now).record.evaluation.approved;
            && (Allowed(req, reg.execution, s, reg.policies, amount, n) ==> amount <= approved)
            && (approved == amount > 0 ==> Allowed(req, reg.execution, s, reg.policies, amount, n))
            && exists k: nat :: approved == k * reg.execution.notionalIncrement
  {
    BaseIs(s.portfolio, s.networks, 0, 0);
    var a := AccountState(s.portfolio, s.networks, s.reserved).value;
    var amount := j * reg.execution.notionalIncrement;
    AllowedIs(req, reg.execution, s, a, reg.policies, amount, n);
    var q := QuoteOf(req, reg.execution, s);
    hide AccountState, NumbersOf, WorstPrice, Allowed, Approvable, GatesOpen, Size, ContextReasons, Trusted, Base, Distinct;
    SizingIsExact(q, a, reg.policies, j);
    EvaluatedAmount(env, req, reg, controls, s, now, a);
  }

  lemma EvaluatedAmount(
      env: Environment, req: Request, reg: Registration, controls: Controls, s: Scene, now: int, a: Account)
    requires RequestOk(req) && RegistrationOk(reg) && ContextReasons(env, req, reg, s.portfolio, controls, now) == []
    requires AccountState(s.portfolio, s.networks, s.reserved) == Some(a) && QuoteOk(QuoteOf(req, reg.execution, s))
    ensures Evaluate(env, req, reg, s.portfolio, controls, s.networks, s.reserved, now).record.evaluation.approved ==
            Size(QuoteOf(req, reg.execution, s), a, reg.policies).amount
  {
    hide AccountState, Size, ContextReasons, Distinct;
  }

  /** The numbers of an amount exist, so every approval is one of those above. */
  lemma NumbersExist(req: Request, exec: Execution, s: Scene, amount: int) returns (n: Numbers)
    requires RequestOk(req) && ExecutionOk(exec) && WorstPrice(QuoteOf(req, exec, s)) > 0
    ensures NumbersOf(req, exec, amount, n)
  {
    hide CeilDiv;
    var q := QuoteOf(req, exec, s);
    n := Numbers(FeeCost(q, amount), WorstPrice(q), SpreadBps(q), QuantityFor(q, amount));
    FloorFitsIn(req.bid * (BPS_DENOMINATOR - exec.slippageBps), BPS_DENOMINATOR);
    FloorFitsIn(amount * SCALE, n.price);
  }

  /**
   * Everything an approval stands on: its amount is allowed with the numbers it was judged by, and the
   * record and the reservation carry exactly those.
   */
  lemma ApprovalIsAllowed(
      env: Environment, req: Request, reg: Registration, controls: Controls, s: Scene, now: int) returns (n: Numbers)
    requires RequestOk(req) && RegistrationOk(reg)
    requires IsApproved(Evaluate(env, req, reg, s.portfolio, controls, s.networks, s.reserved, now).record)
    ensures var o := Evaluate(env, req, reg, s.portfolio, controls, s.networks, s.reserved, now);
            var amount := o.record.evaluation.approved;
            && NumbersOf(req, reg.execution, amount, n)
            && Allowed(req, reg.execution, s, reg.policies, amount, n)
            && o.record.maxQuantity == n.quantity
            && o.record.maxCashDebit == (if req.intent.side.Buy? then amount else 0) + n.cost
            && o.reservation == Some(Reservation(
                 req.intent.id, req.intent.instrument, req.intent.instrument.base, Get(s.networks, req.intent.instrument),
                 if req.intent.side.Buy? then amount else 0, if req.intent.side.Buy? then 0 else n.quantity,
                 o.record.maxCashDebit, n.cost))
  {
    hide Evaluate, AccountState, ContextReasons, Fits, GatesOpen, Approvable, Allowed, WorstPrice, FeeCost, QuantityFor;
    ApprovalGrounds(env, req, reg, s.portfolio, controls, s.networks, s.reserved, now);
    var o := Evaluate(env, req, reg, s.portfolio, controls, s.networks, s.reserved, now);
    var amount := o.record.evaluation.approved;
    n := NumbersExist(req, reg.execution, s, amount);
    NumbersAre(req, reg.execution, s, amount, n);
    AllowedIs(req, reg.execution, s, AccountState(s.portfolio, s.networks, s.reserved).value, reg.policies, amount, n);
  }

  /** A buy is only approved on a day whose losses, and those of the costs reserved, are below every policy's limit. */
  lemma ApprovedBuyIsBelowLossLimit(
      env: Environment, req: Request, reg: Registration, controls: Controls, s: Scene, now: int, p: Policy)
    requires RequestOk(req) && RegistrationOk(reg) && p in reg.policies && req.intent.side.Buy?
    requires IsApproved(Evaluate(env, req, reg, s.portfolio, controls, s.networks, s.reserved, now).record)
    ensures (-s.portfolio.realizedToday + Sum(Costs(s.reserved))) * 100 * SCALE < p.maxDailyLossPct * s.portfolio.equity
  {
    hide Evaluate, ExposureAllows, ResourcesAllow, MarketAllows, NumbersOf, Sum, Costs;
    var n := ApprovalIsAllowed(env, req, reg, controls, s, now);
    assert LossesAllow(s, p, n.cost);
    ScaledOrder(-s.portfolio.realizedToday, Max(-s.portfolio.realizedToday, 0), 100 * SCALE);
  }

  /** An approval lapses with the first of its intent, the controls, the account's lease and its own age. */
  lemma ApprovalLapses(
      env: Environment, req: Request, reg: Registration, controls: Controls, s: Scene, now: int)
    requires RequestOk(req) && RegistrationOk(reg)
    ensures var record := Evaluate(env, req, reg, s.portfolio, controls, s.networks, s.reserved, now).record;
            var limits := [req.intent.expiresAt, controls.validUntil, controls.leaseExpiresAt, now + reg.execution.maxApprovalAgeMs * 1000];
            && record.expiresAt in limits && (forall i :: 0 <= i < |limits| ==> record.expiresAt <= limits[i])
            && (IsApproved(record) ==> now < record.expiresAt)
  {
    hide SizeRequest, Distinct, PoliciesFit;
    ApprovalContext(env, req, reg, controls, s, now);
    var limits := [req.intent.expiresAt, controls.validUntil, controls.leaseExpiresAt, now + reg.execution.maxApprovalAgeMs * 1000];
    assert limits[0] in limits && limits[1] in limits && limits[2] in limits && limits[3] in limits;
  }

  lemma ApprovalContext(env: Environment, req: Request, reg: Registration, controls: Controls, s: Scene, now: int)
    requires RequestOk(req) && RegistrationOk(reg)
    ensures IsApproved(Evaluate(env, req, reg, s.portfolio, controls, s.networks, s.reserved, now).record) ==>
              ContextReasons(env, req, reg, s.portfolio, controls, now) == []
  {
    hide Evaluate, AccountState, ContextReasons;
    ApprovalGrounds(env, req, reg, s.portfolio, controls, s.networks, s.reserved, now);
  }
}

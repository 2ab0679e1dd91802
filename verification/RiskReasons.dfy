/** Why an evaluation says what it says: its context, its verdict, its reasons and its binding scope. */
module RiskReasons {
  import opened Outcomes
  import opened Sums
  import opened Domain
  import opened RiskAccount
  import opened RiskSizing
  import opened RiskTheorems
  import opened RiskEvaluator
  import opened RiskPortfolio
  import opened RiskAllowance
  import opened Fixed

  // ---- Context --------------------------------------------------------------------------------------

  /** The request belongs where it is evaluated, and asks for what it may ask for. */
  predicate Belongs(req: Request, reg: Registration, p: Portfolio, now: int) {
    var i := req.intent;
    && p.workspace == i.workspace == reg.workspace && i.agentVersion == reg.version
    && (match req.action
        case ProposeBuy => i.side.Buy?
        case ProposeSell => i.side.Sell?
        case ProposeReduce => i.side.Sell?
        case ProposeClose => i.side.Sell?
        case _ => false)
    && i.createdAt <= now
  }

  /** Everything a request's context has to meet before it is sized. */
  ghost predicate InContext(env: Environment, req: Request, reg: Registration, p: Portfolio, controls: Controls, now: int) {
    var i := req.intent;
    && Belongs(req, reg, p, now)
    && now < i.expiresAt && i.orderType.MarketOrder? && i.timeInForce.Ioc?
    && (i.mode == Paper || i.mode == Backtest) && p.mode == i.mode == reg.mode
    && i.instrument in reg.universe && i.instrument.quote == USD
    && controls.asOf <= now < controls.validUntil && now < controls.leaseExpiresAt
    && env.requestFits(req, p, controls, now)
    && forall policy :: policy in reg.policies ==> env.policyFits(policy, req, controls, now)
  }

  /** The context gives a reason exactly when something in it fails. */
  lemma ContextIs(env: Environment, req: Request, reg: Registration, p: Portfolio, controls: Controls, now: int)
    ensures ContextReasons(env, req, reg, p, controls, now) == [] <==> InContext(env, req, reg, p, controls, now)
  {
  }

  /** And it names what fails. */
  ghost predicate ContextFails(env: Environment, req: Request, reg: Registration, p: Portfolio, controls: Controls, now: int, r: Reason) {
    var i := req.intent;
    match r
    case ContextMismatch => !Belongs(req, reg, p, now)
    case IntentExpired => i.expiresAt <= now
    case UnsupportedOrderType => !(i.orderType.MarketOrder? && i.timeInForce.Ioc?)
    case ModeNotPermitted => !((i.mode == Paper || i.mode == Backtest) && p.mode == i.mode == reg.mode)
    case UnsupportedSymbol => !(i.instrument in reg.universe && i.instrument.quote == USD)
    case UnknownAccountState => now < controls.asOf || controls.validUntil <= now
    case LeaseExpired => controls.leaseExpiresAt <= now
    case ContextRefused => !env.requestFits(req, p, controls, now)
    case PolicyContextRefused => exists policy :: policy in reg.policies && !env.policyFits(policy, req, controls, now)
    case _ => false
  }

  lemma ContextReasonIs(env: Environment, req: Request, reg: Registration, p: Portfolio, controls: Controls, now: int, r: Reason)
    ensures r in ContextReasons(env, req, reg, p, controls, now) <==> ContextFails(env, req, reg, p, controls, now, r)
  {
    hide ContextReasons, ContextFails, Belongs;
    ReasonsSplit(env, req, reg, p, controls, now, r);
    IdentityReasonIs(req, reg, p, now, r);
    FailsIs(env, req, reg, p, controls, now, r);
  }

  /** The reasons that look at the request and its registration alone. */
  function IdentityReasons(req: Request, reg: Registration, p: Portfolio, now: int): seq<Reason> {
    var i := req.intent;
    (if !Belongs(req, reg, p, now) then [ContextMismatch] else []) +
    (if now >= i.expiresAt then [IntentExpired] else []) +
    (if !i.orderType.MarketOrder? || !i.timeInForce.Ioc? then [UnsupportedOrderType] else []) +
    (if !(i.mode.Paper? || i.mode.Backtest?) || i.mode != p.mode || i.mode != reg.mode then [ModeNotPermitted] else []) +
    (if i.instrument !in reg.universe || i.instrument.quote != USD then [UnsupportedSymbol] else [])
  }

  lemma IdentityReasonIs(req: Request, reg: Registration, p: Portfolio, now: int, r: Reason)
    ensures var i := req.intent;
            r in IdentityReasons(req, reg, p, now) <==>
              || (r == ContextMismatch && !Belongs(req, reg, p, now))
              || (r == IntentExpired && now >= i.expiresAt)
              || (r == UnsupportedOrderType && (!i.orderType.MarketOrder? || !i.timeInForce.Ioc?))
              || (r == ModeNotPermitted && (!(i.mode.Paper? || i.mode.Backtest?) || i.mode != p.mode || i.mode != reg.mode))
              || (r == UnsupportedSymbol && (i.instrument !in reg.universe || i.instrument.quote != USD))
  {
    hide Belongs;
  }

  lemma ReasonsSplit(env: Environment, req: Request, reg: Registration, p: Portfolio, controls: Controls, now: int, r: Reason)
    ensures r in ContextReasons(env, req, reg, p, controls, now) <==>
              || r in IdentityReasons(req, reg, p, now)
              || (r == UnknownAccountState && !(controls.asOf <= now < controls.validUntil))
              || (r == LeaseExpired && now >= controls.leaseExpiresAt)
              || (r == ContextRefused && !env.requestFits(req, p, controls, now))
              || (r == PolicyContextRefused && !PoliciesFit(env, reg.policies, req, controls, now))
  {
    ReasonsAre(env, req, reg, p, controls, now);
    hide PoliciesFit, ContextReasons, IdentityReasons;
  }

  lemma ReasonsAre(env: Environment, req: Request, reg: Registration, p: Portfolio, controls: Controls, now: int)
    ensures ContextReasons(env, req, reg, p, controls, now) ==
            IdentityReasons(req, reg, p, now) +
            (if !(controls.asOf <= now < controls.validUntil) then [UnknownAccountState] else []) +
            (if now >= controls.leaseExpiresAt then [LeaseExpired] else []) +
            (if !env.requestFits(req, p, controls, now) then [ContextRefused] else []) +
            (if !PoliciesFit(env, reg.policies, req, controls, now) then [PolicyContextRefused] else [])
  {
    hide PoliciesFit, Belongs;
    BelongsIs(req, reg, p, now);
  }

  lemma FailsIs(env: Environment, req: Request, reg: Registration, p: Portfolio, controls: Controls, now: int, r: Reason)
    ensures var i := req.intent;
            ContextFails(env, req, reg, p, controls, now, r) <==>
              || (r == ContextMismatch && !Belongs(req, reg, p, now))
              || (r == IntentExpired && now >= i.expiresAt)
              || (r == UnsupportedOrderType && (!i.orderType.MarketOrder? || !i.timeInForce.Ioc?))
              || (r == ModeNotPermitted && (!(i.mode.Paper? || i.mode.Backtest?) || i.mode != p.mode || i.mode != reg.mode))
              || (r == UnsupportedSymbol && (i.instrument !in reg.universe || i.instrument.quote != USD))
              || (r == UnknownAccountState && !(controls.asOf <= now < controls.validUntil))
              || (r == LeaseExpired && now >= controls.leaseExpiresAt)
              || (r == ContextRefused && !env.requestFits(req, p, controls, now))
              || (r == PolicyContextRefused && !PoliciesFit(env, reg.policies, req, controls, now))
  {
    hide Belongs;
  }

  lemma BelongsIs(req: Request, reg: Registration, p: Portfolio, now: int)
    ensures var i := req.intent;
            Belongs(req, reg, p, now) <==>
              !(i.workspace != p.workspace || i.workspace != reg.workspace || i.agentVersion != reg.version ||
                i.side.Buy? != req.action.ProposeBuy? || req.action.ProposeHold? || req.action.ProposeNoTrade? || i.createdAt > now)
  {
  }

  // ---- Gates and violations -----------------------------------------------------------------------------

  /** A gate of one policy is closed. */
  predicate GateFails(q: Quote, a: Account, p: Policy, r: Reason)
    requires QuoteOk(q)
  {
    match r
    case SpreadTooWide => p.maxSpreadBps * SCALE < SpreadBps(q)
    case InsufficientLiquidity => q.liquidity < p.minLiquidity
    case EdgeTooSmall =>
      !q.reducing && (if q.buying then q.expectedReturnBps else -q.expectedReturnBps) * SCALE
                     <= q.fee + q.slippage + SpreadBps(q) + p.minEdgeBps * SCALE
    case DailyLossReached => q.buying && a.losses * 100 * SCALE >= p.maxDailyLossPct * q.startEquity
    case DrawdownReached => q.buying && (a.peak - a.equity) * 100 * SCALE >= p.maxDrawdownPct * a.peak
    case _ => false
  }

  lemma PolicyGateIs(q: Quote, a: Account, p: Policy, r: Reason)
    requires QuoteOk(q)
    ensures r in PolicyGateReasons(q, a, p) <==> GateFails(q, a, p, r)
  {
    hide SpreadBps;
  }

  lemma {:induction false} GateReasonIs(q: Quote, a: Account, ps: seq<Policy>, r: Reason)
    requires QuoteOk(q)
    ensures r in GateReasons(q, a, ps) <==> exists p :: p in ps && GateFails(q, a, p, r)
  {
    hide PolicyGateReasons, GateFails;
    if ps != [] {
      PolicyGateIs(q, a, ps[0], r);
      GateReasonIs(q, a, ps[1..], r);
      assert forall p :: p in ps <==> p == ps[0] || p in ps[1..];
    }
  }

  /** An amount breaks a limit of the order itself. */
  predicate OrderBreaks(q: Quote, a: Account, c: int, r: Reason, scope: Scope)
    requires WorstPrice(q) > 0
  {
    match r
    case InsufficientCash => scope == PortfolioScope && a.cash < (if q.buying then c else 0) + FeeCost(q, c)
    case MaxPosition => scope == AssetScope && !q.buying && Get(a.quantities, q.instrument) < QuantityFor(q, c)
    case InsufficientLiquidity => scope == OrderScope && q.displayed * (if q.buying then q.ask else q.bid) < c * SCALE
    case _ => false
  }

  /** Some group, with the amount added to its own, exceeds its share. */
  ghost predicate SomeShareExceeds(values: map<Id, int>, own: Id, c: int, cap: int, equity: int) {
    exists k :: k in values.Keys + {own} && (Get(values, k) + if k == own then c else 0) * 100 * SCALE > cap * equity
  }

  lemma SharesExceed(values: map<Id, int>, own: Id, c: int, cap: int, equity: int)
    ensures SomeShareExceeds(values, own, c, cap, equity) <==> !SharesWithin(values, own, c, cap, equity)
  {
    hide Get;
  }

  /** An amount breaks a limit of a policy. */
  ghost predicate PolicyBreaks(q: Quote, a: Account, p: Policy, c: int, r: Reason) {
    var equity := a.equity - FeeCost(q, c);
    match r
    case MaxOrder => p.maxOrder < c
    case InsufficientCash => q.buying && equity <= 0
    case DailyLossReached => q.buying && (a.losses + FeeCost(q, c)) * 100 * SCALE > p.maxDailyLossPct * q.startEquity
    case DrawdownReached => q.buying && (a.peak - equity) * 100 * SCALE > p.maxDrawdownPct * a.peak
    case MaxGross => q.buying && (a.exposure + c) * 100 * SCALE > p.maxGrossPct * equity
    case MaxPosition => q.buying && SomeShareExceeds(a.assets, q.instrument.base, c, p.maxAssetPct, equity)
    case NetworkConcentration => q.buying && SomeShareExceeds(a.networks, q.network, c, p.maxNetworkPct, equity)
    case MaxOpenPositions => q.buying && |a.openAssets + {q.instrument.base}| > p.maxOpenPositions
    case _ => false
  }

  lemma OrderBreakIs(q: Quote, a: Account, c: int, r: Reason, scope: Scope)
    requires WorstPrice(q) > 0
    ensures (r, scope) in OrderViolations(q, a, c) <==> OrderBreaks(q, a, c, r, scope)
  {
    hide FeeCost, WorstPrice, Get;
  }

  lemma PolicyBreakIs(q: Quote, a: Account, p: Policy, c: int, r: Reason, scope: Scope)
    ensures (r, scope) in PolicyViolations(q, a, p, c) <==> scope == p.scope && PolicyBreaks(q, a, p, c, r)
  {
    var equity := a.equity - FeeCost(q, c);
    ListedIs(q, a, p, c, r, scope);
    SharesExceed(a.assets, q.instrument.base, c, p.maxAssetPct, equity);
    SharesExceed(a.networks, q.network, c, p.maxNetworkPct, equity);
    hide FeeCost, SharesWithin, SomeShareExceeds, PolicyViolations;
  }

  /** The same with the comparisons left closed. */
  lemma ListedIs(q: Quote, a: Account, p: Policy, c: int, r: Reason, scope: Scope)
    ensures var equity := a.equity - FeeCost(q, c);
            (r, scope) in PolicyViolations(q, a, p, c) <==>
              scope == p.scope &&
              (match r
               case MaxOrder => p.maxOrder < c
               case InsufficientCash => q.buying && equity <= 0
               case DailyLossReached => q.buying && !Within(a.losses + FeeCost(q, c), p.maxDailyLossPct, q.startEquity)
               case DrawdownReached => q.buying && !Within(a.peak - equity, p.maxDrawdownPct, a.peak)
               case MaxGross => q.buying && !Within(a.exposure + c, p.maxGrossPct, equity)
               case MaxPosition => q.buying && !SharesWithin(a.assets, q.instrument.base, c, p.maxAssetPct, equity)
               case NetworkConcentration => q.buying && !SharesWithin(a.networks, q.network, c, p.maxNetworkPct, equity)
               case MaxOpenPositions => q.buying && |a.openAssets + {q.instrument.base}| > p.maxOpenPositions
               case _ => false)
  {
    ViolationsSplit(q, a, p, c);
    LossViolationIs(q, a, p, c, r, scope);
    hide FeeCost, Get, Within, SharesWithin, PolicyViolations, LossViolations;
  }

  /** The violations that come with a loss of equity. */
  function LossViolations(q: Quote, a: Account, p: Policy, c: int): seq<(Reason, Scope)> {
    var equity := a.equity - FeeCost(q, c);
    (if equity <= 0 then [(InsufficientCash, p.scope)] else []) +
    (if !Within(a.losses + FeeCost(q, c), p.maxDailyLossPct, q.startEquity) then [(DailyLossReached, p.scope)] else []) +
    (if !Within(a.peak - equity, p.maxDrawdownPct, a.peak) then [(DrawdownReached, p.scope)] else [])
  }

  lemma LossViolationIs(q: Quote, a: Account, p: Policy, c: int, r: Reason, scope: Scope)
    ensures var equity := a.equity - FeeCost(q, c);
            (r, scope) in LossViolations(q, a, p, c) <==>
              scope == p.scope &&
              ((r == InsufficientCash && equity <= 0) ||
               (r == DailyLossReached && !Within(a.losses + FeeCost(q, c), p.maxDailyLossPct, q.startEquity)) ||
               (r == DrawdownReached && !Within(a.peak - equity, p.maxDrawdownPct, a.peak)))
  {
    hide FeeCost, Within;
  }

  lemma ViolationsSplit(q: Quote, a: Account, p: Policy, c: int)
    ensures var equity := a.equity - FeeCost(q, c);
            PolicyViolations(q, a, p, c) ==
              (if c > p.maxOrder then [(MaxOrder, p.scope)] else []) +
              if !q.buying then []
              else
                LossViolations(q, a, p, c) +
                (if !Within(a.exposure + c, p.maxGrossPct, equity) then [(MaxGross, p.scope)] else []) +
                (if !SharesWithin(a.assets, q.instrument.base, c, p.maxAssetPct, equity) then [(MaxPosition, p.scope)] else []) +
                (if !SharesWithin(a.networks, q.network, c, p.maxNetworkPct, equity) then [(NetworkConcentration, p.scope)] else []) +
                (if |a.openAssets + {q.instrument.base}| > p.maxOpenPositions then [(MaxOpenPositions, p.scope)] else [])
  {
    hide FeeCost, Get, Within, SharesWithin;
  }

  lemma {:induction false} AllPolicyBreaksAre(q: Quote, a: Account, ps: seq<Policy>, c: int, r: Reason, scope: Scope)
    ensures (r, scope) in AllPolicyViolations(q, a, ps, c) <==> exists p :: p in ps && p.scope == scope && PolicyBreaks(q, a, p, c, r)
  {
    hide PolicyViolations, PolicyBreaks;
    if ps != [] {
      PolicyBreakIs(q, a, ps[0], c, r, scope);
      AllPolicyBreaksAre(q, a, ps[1..], c, r, scope);
      assert forall p :: p in ps <==> p == ps[0] || p in ps[1..];
    }
  }

  /** What an amount breaks, and under whose scope. */
  ghost predicate Breaks(q: Quote, a: Account, ps: seq<Policy>, c: int, r: Reason, scope: Scope)
    requires WorstPrice(q) > 0
  {
    OrderBreaks(q, a, c, r, scope) || exists p :: p in ps && p.scope == scope && PolicyBreaks(q, a, p, c, r)
  }

  /** The reported violations are what the amount breaks. */
  lemma ViolationIs(q: Quote, a: Account, ps: seq<Policy>, c: int, r: Reason, scope: Scope)
    requires WorstPrice(q) > 0
    ensures (r, scope) in Violations(q, a, ps, c) <==> Breaks(q, a, ps, c, r, scope)
  {
    hide OrderViolations, AllPolicyViolations, OrderBreaks, PolicyBreaks, WorstPrice;
    OrderBreakIs(q, a, c, r, scope);
    AllPolicyBreaksAre(q, a, ps, c, r, scope);
  }

  lemma ReasonOfIs(vs: seq<(Reason, Scope)>, r: Reason)
    ensures r in ReasonsOf(vs) <==> exists scope :: (r, scope) in vs
  {
    var rs := ReasonsOf(vs);
    if r in rs {
      var i :| 0 <= i < |rs| && rs[i] == r;
      assert vs[i] in vs && vs[i] == (r, vs[i].1);
    }
    forall scope | (r, scope) in vs
      ensures r in rs
    {
      var i :| 0 <= i < |vs| && vs[i] == (r, scope);
      assert rs[i] == r;
    }
  }

  // ---- The binding scope --------------------------------------------------------------------------------

  /** The order's own limits bind before any policy, and policies in their order. */
  ghost predicate BindsFirst(q: Quote, a: Account, ps: seq<Policy>, c: int, scope: Scope)
    requires WorstPrice(q) > 0
  {
    if exists r, o :: OrderBreaks(q, a, c, r, o) then
      if OrderBreaks(q, a, c, InsufficientCash, PortfolioScope) then scope == PortfolioScope
      else if OrderBreaks(q, a, c, MaxPosition, AssetScope) then scope == AssetScope
      else scope == OrderScope
    else exists i :: 0 <= i < |ps| && scope == ps[i].scope && !PolicyFits(q, a, ps[i], c) &&
                     forall j :: 0 <= j < i ==> PolicyFits(q, a, ps[j], c)
  }

  lemma {:induction false} FirstPolicyBinds(q: Quote, a: Account, ps: seq<Policy>, c: int)
    requires AllPolicyViolations(q, a, ps, c) != []
    ensures exists i :: 0 <= i < |ps| && AllPolicyViolations(q, a, ps, c)[0].1 == ps[i].scope && !PolicyFits(q, a, ps[i], c) &&
                        forall j :: 0 <= j < i ==> PolicyFits(q, a, ps[j], c)
  {
    hide PolicyFits;
    OnePolicyViolationsIff(q, a, ps[0], c);
    if PolicyViolations(q, a, ps[0], c) != [] {
      OneScope(q, a, ps[0], c);
      hide PolicyViolations;
      assert AllPolicyViolations(q, a, ps, c)[0] == PolicyViolations(q, a, ps[0], c)[0];
      assert !PolicyFits(q, a, ps[0], c);
    } else {
      hide PolicyViolations;
      FirstPolicyBinds(q, a, ps[1..], c);
      var i :| 0 <= i < |ps[1..]| && AllPolicyViolations(q, a, ps[1..], c)[0].1 == ps[1..][i].scope &&
               !PolicyFits(q, a, ps[1..][i], c) && forall j :: 0 <= j < i ==> PolicyFits(q, a, ps[1..][j], c);
      forall j | 0 <= j < i + 1
        ensures PolicyFits(q, a, ps[j], c)
      {
        assert j > 0 ==> ps[j] == ps[1..][j - 1];
      }
      assert ps[i + 1] == ps[1..][i];
    }
  }

  lemma OneScope(q: Quote, a: Account, p: Policy, c: int)
    requires PolicyViolations(q, a, p, c) != []
    ensures PolicyViolations(q, a, p, c)[0].1 == p.scope
  {
    hide PolicyBreaks;
    var v := PolicyViolations(q, a, p, c)[0];
    assert v in PolicyViolations(q, a, p, c);
    PolicyBreakIs(q, a, p, c, v.0, v.1);
  }

  /** The first reported violation is under the scope that binds first. */
  lemma FirstViolationBinds(q: Quote, a: Account, ps: seq<Policy>, c: int)
    requires WorstPrice(q) > 0 && Violations(q, a, ps, c) != []
    ensures BindsFirst(q, a, ps, c, Violations(q, a, ps, c)[0].1)
  {
    hide PolicyFits, WorstPrice, AllPolicyViolations, FeeCost, Get;
    if OrderViolations(q, a, c) == [] {
      forall r, o
        ensures !OrderBreaks(q, a, c, r, o)
      {
        OrderBreakIs(q, a, c, r, o);
      }
      FirstPolicyBinds(q, a, ps, c);
    } else {
      var v := OrderViolations(q, a, c)[0];
      OrderBreakIs(q, a, c, v.0, v.1);
      assert OrderBreaks(q, a, c, v.0, v.1);
    }
  }

  // ---- The evaluation -----------------------------------------------------------------------------------

  lemma {:induction false} DistinctIs(rs: seq<Reason>)
    ensures forall r :: r in Distinct(rs) <==> r in rs
    ensures forall i, j :: 0 <= i < j < |Distinct(rs)| ==> Distinct(rs)[i] != Distinct(rs)[j]
  {
    if rs != [] {
      DistinctIs(rs[..|rs| - 1]);
      assert rs == rs[..|rs| - 1] + [rs[|rs| - 1]];
    }
  }

  /** A record is about its request, and its verdict is the comparison of what was approved with what was asked for. */
  lemma VerdictIs(env: Environment, req: Request, reg: Registration, controls: Controls, s: Scene, now: int)
    requires RequestOk(req) && RegistrationOk(reg)
    ensures var record := Evaluate(env, req, reg, s.portfolio, controls, s.networks, s.reserved, now).record;
            var e, i := record.evaluation, req.intent;
            && 0 <= e.approved <= e.requested == i.notional
            && (e.verdict == RejectedByRisk <==> e.approved == 0)
            && (e.verdict == ApprovedResized <==> 0 < e.approved < i.notional)
            && (e.verdict == Approved <==> e.approved == i.notional)
            && e.intent == i.id && e.decision == i.decision && e.workspace == i.workspace && e.at == now && e.id == EvaluationId(i.id, now)
            && record.account == controls.account && record.quantityAsset == i.instrument.base && record.debitCurrency == USD
            && record.requestHash == env.requestHash(req) && record.portfolioHash == env.portfolioHash(s.portfolio)
  {
    var q, a := QuoteOf(req, reg.execution, s), AccountState(s.portfolio, s.networks, s.reserved);
    if a.Some? {
      SizedReasons(q, a.value, reg.policies);
    }
    hide Size, AccountState, ContextReasons, Distinct, Expiry;
  }

  /** Sizing says whether it cut the request down. */
  lemma SizedReasons(q: Quote, a: Account, ps: seq<Policy>)
    requires QuoteOk(q) && q.requested > 0 && PoliciesOk(ps)
    ensures var s := Size(q, a, ps);
            && 0 <= s.amount <= q.requested
            && (s.amount > 0 ==> (WasResized in s.reasons <==> s.amount < q.requested))
  {
    hide WorstPrice, Violations, GateReasons, LargestSteps, QuantityFor, FeeCost, LargestMinimum, ReasonsOf;
    if Usable(q) {
      SizingIsExact(q, a, ps, 0);
    }
  }

  /** Why a request that could be sized was sized as it was. */
  ghost predicate SizingGives(q: Quote, a: Account, ps: seq<Policy>, amount: int, r: Reason)
    requires QuoteOk(q)
  {
    if !Usable(q) then r == UnsupportedPrecision
    else if exists p, o :: p in ps && GateFails(q, a, p, o) then exists p :: p in ps && GateFails(q, a, p, r)
    else if amount == q.requested then r == WasApproved
    else r == (if amount == 0 then BelowMinimum else WasResized) || exists scope :: Breaks(q, a, ps, q.requested, r, scope)
  }

  lemma SizingReasonIs(q: Quote, a: Account, ps: seq<Policy>, r: Reason)
    requires QuoteOk(q) && q.requested > 0 && PoliciesOk(ps)
    ensures r in Size(q, a, ps).reasons <==> SizingGives(q, a, ps, Size(q, a, ps).amount, r)
  {
    hide WorstPrice, Violations, GateReasons, LargestSteps, QuantityFor, FeeCost, LargestMinimum, ReasonsOf, Breaks, GateFails;
    if Usable(q) {
      GatesGiven(q, a, ps);
      GateReasonIs(q, a, ps, r);
      ReasonOfIs(Violations(q, a, ps, q.requested), r);
      forall scope
        ensures (r, scope) in Violations(q, a, ps, q.requested) <==> Breaks(q, a, ps, q.requested, r, scope)
      {
        ViolationIs(q, a, ps, q.requested, r, scope);
      }
      SizingIsExact(q, a, ps, 0);
    }
  }

  lemma GatesGiven(q: Quote, a: Account, ps: seq<Policy>)
    requires QuoteOk(q)
    ensures GateReasons(q, a, ps) != [] <==> exists p, o :: p in ps && GateFails(q, a, p, o)
  {
    hide GateReasons, GateFails;
    if GateReasons(q, a, ps) != [] {
      var o := GateReasons(q, a, ps)[0];
      GateReasonIs(q, a, ps, o);
      var p :| p in ps && GateFails(q, a, p, o);
    }
    if p: Policy, o: Reason :| p in ps && GateFails(q, a, p, o) {
      GateReasonIs(q, a, ps, o);
    }
  }

  /** The reasons of a record, each once: what fails in the context, or what the sizing came to. */
  lemma ReasonIs(env: Environment, req: Request, reg: Registration, controls: Controls, s: Scene, now: int, r: Reason)
    requires RequestOk(req) && RegistrationOk(reg)
    ensures QuoteOk(QuoteOf(req, reg.execution, s))
    ensures var e := Evaluate(env, req, reg, s.portfolio, controls, s.networks, s.reserved, now).record.evaluation;
            var a := AccountState(s.portfolio, s.networks, s.reserved);
            && (a.Some? <==> Trusted(s.portfolio, s.networks))
            && (forall i, j :: 0 <= i < j < |e.reasons| ==> e.reasons[i] != e.reasons[j])
            && (r in e.reasons <==>
                  || ContextFails(env, req, reg, s.portfolio, controls, now, r)
                  || (a.None? && r == UnknownAccountState)
                  || (a.Some? && InContext(env, req, reg, s.portfolio, controls, now) &&
                      SizingGives(QuoteOf(req, reg.execution, s), a.value, reg.policies, e.approved, r)))
  {
    hide Size, ContextReasons, Distinct, Expiry, SizingGives, ContextFails, InContext, Trusted, Base, ReserveAll;
    var q, a := QuoteOf(req, reg.execution, s), AccountState(s.portfolio, s.networks, s.reserved);
    BaseIs(s.portfolio, s.networks, 0, 0);
    ContextIs(env, req, reg, s.portfolio, controls, now);
    ContextReasonIs(env, req, reg, s.portfolio, controls, now, r);
    var context := ContextReasons(env, req, reg, s.portfolio, controls, now);
    if a.Some? {
      SizingReasonIs(q, a.value, reg.policies, r);
    }
    DistinctIs(context + SizeRequest(context, a, req, reg, s.portfolio, s.networks).reasons);
  }

  /** A request cut down names the scope that bound it: what the next larger amount breaks first. */
  lemma BindingIs(q: Quote, a: Account, ps: seq<Policy>)
    requires Usable(q) && q.requested > 0 && PoliciesOk(ps)
    ensures var s := Size(q, a, ps);
            && (s.binding.Some? <==> 0 < s.amount < q.requested)
            && (s.binding.Some? ==>
                  if s.amount + q.increment <= q.requested then BindsFirst(q, a, ps, s.amount + q.increment, s.binding.value)
                  else s.binding.value == OrderScope)
  {
    hide WorstPrice, Violations, GateReasons, LargestSteps, QuantityFor, FeeCost, LargestMinimum, ReasonsOf, BindsFirst, Fits;
    var amount := Size(q, a, ps).amount;
    SizingIsExact(q, a, ps, 0);
    if 0 < amount && amount + q.increment <= q.requested {
      var k: nat :| amount == k * q.increment;
      SizingIsExact(q, a, ps, k + 1);
      assert (k + 1) * q.increment == amount + q.increment;
      ViolationsIff(q, a, ps, amount + q.increment);
      FirstViolationBinds(q, a, ps, amount + q.increment);
    }
  }

  /** So many steps of the increment are allowed. */
  ghost predicate AllowedSteps(req: Request, reg: Registration, s: Scene, k: nat, n: Numbers) {
    var amount := k * reg.execution.notionalIncrement;
    NumbersOf(req, reg.execution, amount, n) && Allowed(req, reg.execution, s, reg.policies, amount, n)
  }

  /**
   * A request is approved exactly when its context holds, its account can be valued, and some multiple of
   * the increment is allowed.
   */
  lemma ApprovedExactly(env: Environment, req: Request, reg: Registration, controls: Controls, s: Scene, now: int)
    requires RequestOk(req) && RegistrationOk(reg)
    ensures IsApproved(Evaluate(env, req, reg, s.portfolio, controls, s.networks, s.reserved, now).record) <==>
              && InContext(env, req, reg, s.portfolio, controls, now) && Trusted(s.portfolio, s.networks)
              && exists k: nat, n: Numbers :: AllowedSteps(req, reg, s, k, n)
  {
    hide Evaluate, InContext, ContextReasons, Trusted, NumbersOf, Allowed, AccountState, Grounds;
    ContextIs(env, req, reg, s.portfolio, controls, now);
    ApprovalGrounds(env, req, reg, s.portfolio, controls, s.networks, s.reserved, now);
    ApprovalContext(env, req, reg, controls, s, now);
    var o := Evaluate(env, req, reg, s.portfolio, controls, s.networks, s.reserved, now);
    if IsApproved(o.record) {
      var n := ApprovalIsAllowed(env, req, reg, controls, s, now);
      var k := ApprovalSteps(env, req, reg, controls, s, now);
      assert AllowedSteps(req, reg, s, k, n);
    } else {
      forall k: nat, n: Numbers | InContext(env, req, reg, s.portfolio, controls, now) && Trusted(s.portfolio, s.networks)
        && NumbersOf(req, reg.execution, k * reg.execution.notionalIncrement, n)
        ensures !AllowedSteps(req, reg, s, k, n)
      {
        EvaluationIsLargestAllowed(env, req, reg, controls, s, now, k, n);
        AllowedIsPositive(req, reg.execution, s, reg.policies, k * reg.execution.notionalIncrement, n);
      }
    }
  }

  lemma AllowedIsPositive(req: Request, exec: Execution, s: Scene, ps: seq<Policy>, amount: int, n: Numbers)
    ensures Allowed(req, exec, s, ps, amount, n) ==> amount > 0
  {
    hide ResourcesAllow, MarketAllows, LossesAllow, ExposureAllows;
  }

  lemma ApprovalSteps(env: Environment, req: Request, reg: Registration, controls: Controls, s: Scene, now: int) returns (k: nat)
    requires RequestOk(req) && RegistrationOk(reg)
    requires IsApproved(Evaluate(env, req, reg, s.portfolio, controls, s.networks, s.reserved, now).record)
    ensures Evaluate(env, req, reg, s.portfolio, controls, s.networks, s.reserved, now).record.evaluation.approved ==
            k * reg.execution.notionalIncrement
    ensures Trusted(s.portfolio, s.networks)
  {
    hide Evaluate, ContextReasons, Trusted, Base, ReserveAll, GatesOpen, Approvable, Usable, QuantityFor, Taking, Get;
    BaseIs(s.portfolio, s.networks, 0, 0);
    ApprovalGrounds(env, req, reg, s.portfolio, controls, s.networks, s.reserved, now);
    var o := Evaluate(env, req, reg, s.portfolio, controls, s.networks, s.reserved, now);
    var q := QuoteFor(req, reg.execution, Get(s.networks, req.intent.instrument), s.portfolio.equity);
    k :| o.record.evaluation.approved == k * q.increment;
  }
}

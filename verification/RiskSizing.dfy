/** Integer sizing of one request against an account view and a list of policies. */
module RiskSizing {
  import opened Outcomes
  import opened Sums
  import opened Domain
  import opened RiskAccount
  import opened Fixed

  datatype Policy = Policy(
    id: Id,
    scope: Scope,
    maxGrossPct: int,
    maxAssetPct: int,
    maxNetworkPct: int,
    maxOpenPositions: int,
    maxDailyLossPct: int,
    maxDrawdownPct: int,
    minLiquidity: int,
    maxSpreadBps: int,
    minOrder: int,
    maxOrder: int,
    minEdgeBps: int,
    context: Id)

  /** The ranges the limits contract enforces. */
  predicate PolicyOk(p: Policy) {
    && 0 <= p.maxAssetPct <= p.maxGrossPct <= 100 * SCALE
    && 0 <= p.maxNetworkPct <= 100 * SCALE
    && 0 <= p.maxDailyLossPct <= 100 * SCALE
    && 0 <= p.maxDrawdownPct <= 100 * SCALE
    && 0 <= p.minOrder <= p.maxOrder
  }

  predicate PoliciesOk(ps: seq<Policy>) {
    |ps| > 0 && forall i :: 0 <= i < |ps| ==> PolicyOk(ps[i])
  }

  /** The numbers the sizing of one request depends on. */
  datatype Quote = Quote(
    buying: bool,
    reducing: bool,
    instrument: InstrumentId,
    network: Id,
    requested: int,
    increment: int,
    fee: int,
    slippage: int,
    bid: int,
    ask: int,
    displayed: int,
    liquidity: int,
    expectedReturnBps: int,
    startEquity: int)

  predicate QuoteOk(q: Quote) {
    0 < q.bid < q.ask && 0 <= q.fee && 0 <= q.slippage && q.displayed >= 0 && q.requested > 0
  }

  function WorstPrice(q: Quote): int {
    if q.buying then CeilDiv(q.ask * (BPS_DENOMINATOR + q.slippage), BPS_DENOMINATOR)
    else q.bid * (BPS_DENOMINATOR - q.slippage) / BPS_DENOMINATOR
  }

  function SpreadBps(q: Quote): int
    requires QuoteOk(q)
  {
    CeilDiv(20_000 * SCALE * (q.ask - q.bid), q.ask + q.bid)
  }

  function FeeCost(q: Quote, candidate: int): int {
    CeilDiv(candidate * q.fee, BPS_DENOMINATOR)
  }

  /** The base quantity one candidate notional stands for at the worst price. */
  function QuantityFor(q: Quote, candidate: int): int
    requires WorstPrice(q) > 0
  {
    if q.buying then candidate * SCALE / WorstPrice(q) else CeilDiv(candidate * SCALE, WorstPrice(q))
  }

  /** `x` is at most `cap` percent of `base`. */
  predicate Within(x: int, cap: int, base: int) {
    x * 100 * SCALE <= cap * base
  }

  /** `x` is strictly less than `cap` percent of `base`. */
  predicate Below(x: int, cap: int, base: int) {
    x * 100 * SCALE < cap * base
  }

  // ---- Gates that do not depend on the candidate size ---------------------------------------

  predicate LossGateOpen(q: Quote, a: Account, p: Policy) {
    !q.buying || Below(a.losses, p.maxDailyLossPct, q.startEquity)
  }

  predicate DrawdownGateOpen(q: Quote, a: Account, p: Policy) {
    !q.buying || Below(a.peak - a.equity, p.maxDrawdownPct, a.peak)
  }

  /** The gates on the market alone. */
  predicate MarketGateOpen(q: Quote, p: Policy)
    requires QuoteOk(q)
  {
    && SpreadBps(q) <= p.maxSpreadBps * SCALE
    && q.liquidity >= p.minLiquidity
    && (q.reducing ||
        (if q.buying then q.expectedReturnBps else -q.expectedReturnBps) * SCALE
        > q.fee + q.slippage + SpreadBps(q) + p.minEdgeBps * SCALE)
  }

  function PolicyGateReasons(q: Quote, a: Account, p: Policy): seq<Reason>
    requires QuoteOk(q)
  {
    (if SpreadBps(q) > p.maxSpreadBps * SCALE then [SpreadTooWide] else []) +
    (if q.liquidity < p.minLiquidity then [InsufficientLiquidity] else []) +
    (if !q.reducing && (if q.buying then q.expectedReturnBps else -q.expectedReturnBps) * SCALE
        <= q.fee + q.slippage + SpreadBps(q) + p.minEdgeBps * SCALE then [EdgeTooSmall] else []) +
    (if !LossGateOpen(q, a, p) then [DailyLossReached] else []) +
    (if !DrawdownGateOpen(q, a, p) then [DrawdownReached] else [])
  }

  function GateReasons(q: Quote, a: Account, ps: seq<Policy>): seq<Reason>
    requires QuoteOk(q)
  {
    if ps == [] then [] else PolicyGateReasons(q, a, ps[0]) + GateReasons(q, a, ps[1..])
  }

  // ---- Constraints on the candidate size ----------------------------------------------------

  /** The largest share, with the candidate added to its own group, stays within `cap` of equity. */
  predicate SharesWithin(values: map<Id, int>, own: Id, candidate: int, cap: int, equity: int) {
    forall k :: k in values.Keys + {own} ==>
      Within(Get(values, k) + if k == own then candidate else 0, cap, equity)
  }

  function OrderViolations(q: Quote, a: Account, c: int): seq<(Reason, Scope)>
    requires WorstPrice(q) > 0
  {
    (if (if q.buying then c else 0) + FeeCost(q, c) > a.cash then [(InsufficientCash, PortfolioScope)] else []) +
    (if !q.buying && CeilDiv(c * SCALE, WorstPrice(q)) > Get(a.quantities, q.instrument)
     then [(MaxPosition, AssetScope)] else []) +
    (if c * SCALE > q.displayed * (if q.buying then q.ask else q.bid) then [(InsufficientLiquidity, OrderScope)] else [])
  }

  function PolicyViolations(q: Quote, a: Account, p: Policy, c: int): seq<(Reason, Scope)> {
    var equity := a.equity - FeeCost(q, c);
    (if c > p.maxOrder then [(MaxOrder, p.scope)] else []) +
    if !q.buying then []
    else
      (if equity <= 0 then [(InsufficientCash, p.scope)] else []) +
      (if !Within(a.losses + FeeCost(q, c), p.maxDailyLossPct, q.startEquity)
       then [(DailyLossReached, p.scope)] else []) +
      (if !Within(a.peak - equity, p.maxDrawdownPct, a.peak) then [(DrawdownReached, p.scope)] else []) +
      (if !Within(a.exposure + c, p.maxGrossPct, equity) then [(MaxGross, p.scope)] else []) +
      (if !SharesWithin(a.assets, q.instrument.base, c, p.maxAssetPct, equity) then [(MaxPosition, p.scope)] else []) +
      (if !SharesWithin(a.networks, q.network, c, p.maxNetworkPct, equity)
       then [(NetworkConcentration, p.scope)] else []) +
      (if |a.openAssets + {q.instrument.base}| > p.maxOpenPositions then [(MaxOpenPositions, p.scope)] else [])
  }

  function AllPolicyViolations(q: Quote, a: Account, ps: seq<Policy>, c: int): seq<(Reason, Scope)> {
    if ps == [] then [] else PolicyViolations(q, a, ps[0], c) + AllPolicyViolations(q, a, ps[1..], c)
  }

  /** Every constraint the candidate breaks, in the order the evaluator reports them. */
  function Violations(q: Quote, a: Account, ps: seq<Policy>, c: int): seq<(Reason, Scope)>
    requires WorstPrice(q) > 0
  {
    OrderViolations(q, a, c) + AllPolicyViolations(q, a, ps, c)
  }

  function ReasonsOf(vs: seq<(Reason, Scope)>): seq<Reason> {
    seq(|vs|, i requires 0 <= i < |vs| => vs[i].0)
  }

  // ---- The sized result -----------------------------------------------------------------------

  /** Reference search: the largest step count at most `n` that breaks nothing, by counting down. */
  function LargestSteps(q: Quote, a: Account, ps: seq<Policy>, n: nat): nat
    requires WorstPrice(q) > 0
  {
    if n == 0 || Violations(q, a, ps, n * q.increment) == [] then n else LargestSteps(q, a, ps, n - 1)
  }

  function LargestMinimum(ps: seq<Policy>): int
    requires |ps| > 0
  {
    if |ps| == 1 then ps[0].minOrder else Max(ps[0].minOrder, LargestMinimum(ps[1..]))
  }

  datatype Sized = Sized(amount: int, quantity: int, debit: int, cost: int, reasons: seq<Reason>, binding: Option<Scope>)

  const NothingSized := (reasons: seq<Reason>) => Sized(0, 0, 0, 0, reasons, None)

  /** Rejects or approves a candidate the search has settled on. */
  function Settle(q: Quote, a: Account, ps: seq<Policy>, amount: int): Sized
    requires WorstPrice(q) > 0 && |ps| > 0
  {
    var original := ReasonsOf(Violations(q, a, ps, q.requested));
    var quantity := QuantityFor(q, amount);
    if amount < LargestMinimum(ps) || amount <= 0 || quantity <= 0 || Violations(q, a, ps, amount) != [] then
      NothingSized(original + [BelowMinimum])
    else
      var cost := FeeCost(q, amount);
      var debit := (if q.buying then amount else 0) + cost;
      if amount < q.requested then
        var next := Violations(q, a, ps, amount + q.increment);
        Sized(amount, quantity, debit, cost, [WasResized] + original,
              Some(if next != [] && amount + q.increment <= q.requested then next[0].1 else OrderScope))
      else Sized(amount, quantity, debit, cost, [WasApproved], None)
  }

  function Size(q: Quote, a: Account, ps: seq<Policy>): Sized
    requires QuoteOk(q) && |ps| > 0
  {
    if q.increment <= 0 || WorstPrice(q) <= 0 then NothingSized([UnsupportedPrecision])
    else
      var gates := GateReasons(q, a, ps);
      if gates != [] then NothingSized(gates)
      else Settle(q, a, ps, LargestSteps(q, a, ps, q.requested / q.increment) * q.increment)
  }

  function ReservationFor(q: Quote, intent: Id, s: Sized): Reservation {
    Reservation(
      intent, q.instrument, q.instrument.base, q.network,
      if q.buying then s.amount else 0, if q.buying then 0 else s.quantity, s.debit, s.cost)
  }

  // ---- What the constraints mean -----------------------------------------------------------------

  predicate OrderFits(q: Quote, a: Account, c: int)
    requires WorstPrice(q) > 0
  {
    && (if q.buying then c else 0) + FeeCost(q, c) <= a.cash
    && (q.buying || CeilDiv(c * SCALE, WorstPrice(q)) <= Get(a.quantities, q.instrument))
    && c * SCALE <= q.displayed * (if q.buying then q.ask else q.bid)
  }

  predicate PolicyFits(q: Quote, a: Account, p: Policy, c: int) {
    var equity := a.equity - FeeCost(q, c);
    && c <= p.maxOrder
    && (q.buying ==>
          && equity > 0
          && Within(a.losses + FeeCost(q, c), p.maxDailyLossPct, q.startEquity)
          && Within(a.peak - equity, p.maxDrawdownPct, a.peak)
          && Within(a.exposure + c, p.maxGrossPct, equity)
          && SharesWithin(a.assets, q.instrument.base, c, p.maxAssetPct, equity)
          && SharesWithin(a.networks, q.network, c, p.maxNetworkPct, equity)
          && |a.openAssets + {q.instrument.base}| <= p.maxOpenPositions)
  }

  /** The candidate respects cash, holdings, displayed depth and every policy. */
  ghost predicate Fits(q: Quote, a: Account, ps: seq<Policy>, c: int)
    requires WorstPrice(q) > 0
  {
    OrderFits(q, a, c) && forall p :: p in ps ==> PolicyFits(q, a, p, c)
  }

  ghost predicate GatesOpen(q: Quote, a: Account, ps: seq<Policy>)
    requires QuoteOk(q)
  {
    forall p :: p in ps ==> MarketGateOpen(q, p) && LossGateOpen(q, a, p) && DrawdownGateOpen(q, a, p)
  }

  lemma {:induction false} AllPolicyViolationsIff(q: Quote, a: Account, ps: seq<Policy>, c: int)
    ensures AllPolicyViolations(q, a, ps, c) == [] <==> forall p :: p in ps ==> PolicyFits(q, a, p, c)
  {
    if ps != [] {
      OnePolicyViolationsIff(q, a, ps[0], c);
      AllPolicyViolationsIff(q, a, ps[1..], c);
      hide PolicyViolations, PolicyFits;
      assert forall p :: p in ps <==> p == ps[0] || p in ps[1..];
    }
  }

  lemma OnePolicyViolationsIff(q: Quote, a: Account, p: Policy, c: int)
    ensures PolicyViolations(q, a, p, c) == [] <==> PolicyFits(q, a, p, c)
  {
    hide SharesWithin, FeeCost, Within;
  }

  /** Reporting no violation is the same as fitting every constraint. */
  lemma ViolationsIff(q: Quote, a: Account, ps: seq<Policy>, c: int)
    requires WorstPrice(q) > 0
    ensures Violations(q, a, ps, c) == [] <==> Fits(q, a, ps, c)
  {
    AllPolicyViolationsIff(q, a, ps, c);
    hide AllPolicyViolations, PolicyFits, WorstPrice;
  }

  lemma {:induction false} GateReasonsIff(q: Quote, a: Account, ps: seq<Policy>)
    requires QuoteOk(q)
    ensures GateReasons(q, a, ps) == [] <==> GatesOpen(q, a, ps)
  {
    if ps != [] {
      GateReasonsIff(q, a, ps[1..]);
      assert PolicyGateReasons(q, a, ps[0]) == [] <==>
             MarketGateOpen(q, ps[0]) && LossGateOpen(q, a, ps[0]) && DrawdownGateOpen(q, a, ps[0]) by {
        hide SpreadBps, LossGateOpen, DrawdownGateOpen;
      }
      hide PolicyGateReasons, MarketGateOpen, LossGateOpen, DrawdownGateOpen;
      assert forall p :: p in ps <==> p == ps[0] || p in ps[1..];
    }
  }

  // ---- Monotonicity ----------------------------------------------------------------------------------

  /** `b` offers no more room than `a`: less cash, equity and stock, more exposure and losses. */
  ghost predicate Tighter(b: Account, a: Account) {
    && b.cash <= a.cash
    && b.equity <= a.equity
    && b.exposure >= a.exposure
    && a.assets.Keys <= b.assets.Keys && (forall k :: Get(b.assets, k) >= Get(a.assets, k))
    && a.networks.Keys <= b.networks.Keys && (forall k :: Get(b.networks, k) >= Get(a.networks, k))
    && (forall k :: Get(b.quantities, k) <= Get(a.quantities, k))
    && a.openAssets <= b.openAssets
    && b.losses >= a.losses
    && b.peak == a.peak
  }

  lemma FeeCostMonotone(q: Quote, c: int, d: int)
    requires q.fee >= 0 && c <= d
    ensures FeeCost(q, c) <= FeeCost(q, d)
  {
    CeilDivOfProductMonotone(c, d, q.fee, BPS_DENOMINATOR);
  }

  lemma WithinMonotone(x: int, y: int, cap: int, e: int, f: int)
    requires x <= y && f <= e && cap >= 0 && Within(y, cap, f)
    ensures Within(x, cap, e)
  {
    ScaledOrder(f, e, cap);
  }

  lemma SharesMonotone(v: map<Id, int>, w: map<Id, int>, own: Id, c: int, d: int, cap: int, e: int, f: int)
    requires v.Keys <= w.Keys && (forall k :: Get(w, k) >= Get(v, k)) && c <= d && cap >= 0 && f <= e
    requires SharesWithin(w, own, d, cap, f)
    ensures SharesWithin(v, own, c, cap, e)
  {
    hide Get, Within;
    forall k | k in v.Keys + {own}
      ensures Within(Get(v, k) + if k == own then c else 0, cap, e)
    {
      assert k in w.Keys + {own};
      WithinMonotone(Get(v, k) + if k == own then c else 0, Get(w, k) + if k == own then d else 0, cap, e, f);
    }
  }

  lemma CardinalityMonotone(s: set<Id>, t: set<Id>)
    requires s <= t
    ensures |s| <= |t|
  {
    assert t == s + (t - s);
  }

  lemma SharesTighter(q: Quote, a: Account, b: Account, p: Policy, c: int, d: int, e: int, f: int)
    requires PolicyOk(p) && Tighter(b, a) && c <= d && f <= e
    requires SharesWithin(b.assets, q.instrument.base, d, p.maxAssetPct, f)
    requires SharesWithin(b.networks, q.network, d, p.maxNetworkPct, f)
    ensures SharesWithin(a.assets, q.instrument.base, c, p.maxAssetPct, e)
    ensures SharesWithin(a.networks, q.network, c, p.maxNetworkPct, e)
    ensures |a.openAssets + {q.instrument.base}| <= |b.openAssets + {q.instrument.base}|
  {
    hide SharesWithin;
    SharesMonotone(a.assets, b.assets, q.instrument.base, c, d, p.maxAssetPct, e, f);
    SharesMonotone(a.networks, b.networks, q.network, c, d, p.maxNetworkPct, e, f);
    CardinalityMonotone(a.openAssets + {q.instrument.base}, b.openAssets + {q.instrument.base});
  }

  lemma TighterScalars(a: Account, b: Account)
    requires Tighter(b, a)
    ensures b.equity <= a.equity && b.exposure >= a.exposure && b.losses >= a.losses && b.peak == a.peak
  {
  }

  lemma BuyFitsMonotone(q: Quote, a: Account, b: Account, p: Policy, c: int, d: int)
    requires q.buying && q.fee >= 0 && PolicyOk(p) && Tighter(b, a) && c <= d && PolicyFits(q, b, p, d)
    ensures PolicyFits(q, a, p, c)
  {
    hide SharesWithin, FeeCost, Get, Tighter, Within;
    FeeCostMonotone(q, c, d);
    TighterScalars(a, b);
    var e, f := a.equity - FeeCost(q, c), b.equity - FeeCost(q, d);
    SharesTighter(q, a, b, p, c, d, e, f);
    WithinMonotone(a.exposure + c, b.exposure + d, p.maxGrossPct, e, f);
    WithinMonotone(a.losses + FeeCost(q, c), b.losses + FeeCost(q, d), p.maxDailyLossPct, q.startEquity, q.startEquity);
    WithinMonotone(a.peak - e, b.peak - f, p.maxDrawdownPct, a.peak, b.peak);
  }

  /** A smaller candidate on a looser account still fits one policy. */
  lemma PolicyFitsMonotone(q: Quote, a: Account, b: Account, p: Policy, c: int, d: int)
    requires q.fee >= 0 && PolicyOk(p) && Tighter(b, a) && c <= d && PolicyFits(q, b, p, d)
    ensures PolicyFits(q, a, p, c)
  {
    if q.buying {
      BuyFitsMonotone(q, a, b, p, c, d);
    }
  }

  lemma OrderFitsMonotone(q: Quote, a: Account, b: Account, c: int, d: int)
    requires q.fee >= 0 && WorstPrice(q) > 0 && Tighter(b, a) && c <= d && OrderFits(q, b, d)
    ensures OrderFits(q, a, c)
  {
    FeeCostMonotone(q, c, d);
    CeilDivMonotone(c * SCALE, d * SCALE, WorstPrice(q));
    assert Get(b.quantities, q.instrument) <= Get(a.quantities, q.instrument);
    hide WorstPrice, FeeCost, Get;
  }

  /** Every sizing constraint is monotone: in the size, in the account and in the set of policies. */
  lemma FitsMonotone(q: Quote, a: Account, b: Account, ps: seq<Policy>, qs: seq<Policy>, c: int, d: int)
    requires q.fee >= 0 && WorstPrice(q) > 0
    requires Tighter(b, a) && c <= d && (forall p :: p in ps ==> p in qs && PolicyOk(p))
    requires Fits(q, b, qs, d)
    ensures Fits(q, a, ps, c)
  {
    OrderFitsMonotone(q, a, b, c, d);
    forall p | p in ps
      ensures PolicyFits(q, a, p, c)
    {
      PolicyFitsMonotone(q, a, b, p, c, d);
    }
  }

  lemma TighterReflexive(a: Account)
    ensures Tighter(a, a)
  {
  }

  lemma ReserveTightens(a: Account, r: Reservation)
    requires ReservationOk(r)
    ensures Tighter(Reserve(a, r), a)
  {
    forall k
      ensures Get(Bump(a.assets, r.asset, r.buyNotional), k) >= Get(a.assets, k)
      ensures Get(Bump(a.networks, r.network, r.buyNotional), k) >= Get(a.networks, k)
    {
      BumpGet(a.assets, r.asset, r.buyNotional, k);
      BumpGet(a.networks, r.network, r.buyNotional, k);
    }
    forall k
      ensures Get(Bump(a.quantities, r.instrument, -r.sellQuantity), k) <= Get(a.quantities, k)
    {
      BumpGet(a.quantities, r.instrument, -r.sellQuantity, k);
    }
    BumpGet(a.assets, r.asset, r.buyNotional, r.asset);
    BumpGet(a.networks, r.network, r.buyNotional, r.network);
    hide Bump, Get;
  }

  // ---- The search ---------------------------------------------------------------------------------------

  /** One step of counting down. */
  lemma LargestStep(q: Quote, a: Account, ps: seq<Policy>, n: nat, c: int)
    requires WorstPrice(q) > 0 && c == n * q.increment
    ensures LargestSteps(q, a, ps, n) == if n == 0 || Fits(q, a, ps, c) then n else LargestSteps(q, a, ps, n - 1)
  {
    ViolationsIff(q, a, ps, c);
    hide Violations, Fits, WorstPrice;
  }

  /** What the counting-down search answers, said without it. */
  lemma {:induction false} LargestStepsIs(q: Quote, a: Account, ps: seq<Policy>, n: nat, k: nat)
    requires WorstPrice(q) > 0 && k <= n
    requires k == 0 || Fits(q, a, ps, k * q.increment)
    requires forall j :: k < j <= n ==> !Fits(q, a, ps, j * q.increment)
    ensures LargestSteps(q, a, ps, n) == k
  {
    hide LargestSteps, Fits, WorstPrice;
    LargestStep(q, a, ps, n, n * q.increment);
    if n > k {
      assert !Fits(q, a, ps, n * q.increment);
      LargestStepsIs(q, a, ps, n - 1, k);
    }
  }

  lemma {:induction false} LargestStepsFits(q: Quote, a: Account, ps: seq<Policy>, n: nat)
    requires WorstPrice(q) > 0
    ensures var k := LargestSteps(q, a, ps, n);
            && k <= n
            && (k == 0 || Fits(q, a, ps, k * q.increment))
            && forall j {:trigger j * q.increment} :: k < j <= n ==> !Fits(q, a, ps, j * q.increment)
  {
    ViolationsIff(q, a, ps, n * q.increment);
    hide Violations, Fits;
    if n != 0 && Violations(q, a, ps, n * q.increment) != [] {
      LargestStepsFits(q, a, ps, n - 1);
    }
  }

  /** The evaluator's binary search finds what counting down finds, because `Fits` is monotone. */
  method SearchSteps(q: Quote, a: Account, ps: seq<Policy>) returns (low: nat)
    requires QuoteOk(q) && PoliciesOk(ps) && q.increment > 0 && WorstPrice(q) > 0
    ensures low == LargestSteps(q, a, ps, q.requested / q.increment)
  {
    hide Violations, Fits, WorstPrice;
    var high := q.requested / q.increment;
    ghost var n := high;
    low := 0;
    while low < high
      invariant 0 <= low <= high <= n
      invariant low == 0 || Fits(q, a, ps, low * q.increment)
      invariant forall j :: high < j <= n ==> !Fits(q, a, ps, j * q.increment)
    {
      var mid := (low + high + 1) / 2;
      ViolationsIff(q, a, ps, mid * q.increment);
      if Violations(q, a, ps, mid * q.increment) != [] {
        forall j | mid <= j <= n
          ensures !Fits(q, a, ps, j * q.increment)
        {
          if Fits(q, a, ps, j * q.increment) {
            ScaledOrder(mid, j, q.increment);
            TighterReflexive(a);
            FitsMonotone(q, a, a, ps, ps, mid * q.increment, j * q.increment);
          }
        }
        high := mid - 1;
      } else {
        low := mid;
      }
    }
    LargestStepsIs(q, a, ps, n, low);
  }
}

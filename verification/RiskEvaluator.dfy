/** One risk evaluation: context checks, account view, sizing and the resulting record. */
module RiskEvaluator {
  import opened Outcomes
  import opened Sums
  import opened Domain
  import opened RiskAccount
  import opened RiskSizing
  import RiskTheorems
  import Fixed

  datatype Action = ProposeBuy | ProposeSell | ProposeReduce | ProposeClose | ProposeHold | ProposeNoTrade

  datatype Intent = Intent(
    id: Id,
    decision: Id,
    workspace: Id,
    agentVersion: Id,
    instrument: InstrumentId,
    mode: Mode,
    side: Side,
    orderType: OrderType,
    notional: int,
    currency: Id,
    limitPrice: Option<int>,
    timeInForce: TimeInForce,
    key: Id,
    createdAt: int,
    expiresAt: int)

  /** `evidence` stands for the parts of a request only the abstract checks look at. */
  datatype Request = Request(
    intent: Intent,
    action: Action,
    expectedReturnBps: int,
    bid: int,
    bidSize: int,
    ask: int,
    askSize: int,
    liquidity: int,
    evidence: Id)

  /** What the intent and book contracts validate at construction. */
  predicate RequestOk(r: Request) {
    && r.intent.notional > 0
    && r.intent.instrument.spot
    && r.intent.currency == r.intent.instrument.quote
    && (r.intent.orderType.MarketOrder? <==> r.intent.limitPrice.None?)
    && r.intent.createdAt < r.intent.expiresAt
    && 0 < r.bid < r.ask && 0 <= r.bidSize && 0 <= r.askSize
  }

  /** `observations` stands for kills, connectivity, calendar and revocations. */
  datatype Controls = Controls(
    workspace: Id,
    account: Id,
    version: int,
    asOf: int,
    validUntil: int,
    fencingToken: int,
    leaseExpiresAt: int,
    observations: Id)

  datatype Registration = Registration(
    version: Id,
    workspace: Id,
    mode: Mode,
    universe: set<InstrumentId>,
    networks: map<InstrumentId, Id>,
    policies: seq<Policy>,
    execution: Execution)

  predicate RegistrationOk(r: Registration) {
    PoliciesOk(r.policies) && ExecutionOk(r.execution) && r.universe <= r.networks.Keys
  }

  /**
   * What a registration's contract asks of its policies: distinct ids, and at least one policy each of the
   * global, the workspace and the agent scope. No theorem needs it.
   */
  predicate Tiered(ps: seq<Policy>) {
    && 3 <= |ps| <= 16
    && (forall i, j :: 0 <= i < j < |ps| ==> ps[i].id != ps[j].id)
    && (exists p :: p in ps && p.scope == GlobalScope)
    && (exists p :: p in ps && p.scope == WorkspaceScope)
    && (exists p :: p in ps && p.scope == AgentScope)
  }

  /** The remaining freshness, evidence and governance checks, and the content hashes. */
  datatype Environment = Environment(
    requestFits: (Request, Portfolio, Controls, int) -> bool,
    policyFits: (Policy, Request, Controls, int) -> bool,
    requestHash: Request -> Digest,
    portfolioHash: Portfolio -> Digest)

  datatype Outcome = Outcome(record: Record, reservation: Option<Reservation>)

  predicate PoliciesFit(env: Environment, ps: seq<Policy>, req: Request, controls: Controls, now: int) {
    forall p :: p in ps ==> env.policyFits(p, req, controls, now)
  }

  function ContextReasons(
      env: Environment, req: Request, reg: Registration, p: Portfolio, controls: Controls, now: int): seq<Reason>
  {
    var i := req.intent;
    (if i.workspace != p.workspace || i.workspace != reg.workspace || i.agentVersion != reg.version ||
        i.side.Buy? != req.action.ProposeBuy? || req.action.ProposeHold? || req.action.ProposeNoTrade? ||
        i.createdAt > now then [ContextMismatch] else []) +
    (if now >= i.expiresAt then [IntentExpired] else []) +
    (if !i.orderType.MarketOrder? || !i.timeInForce.Ioc? then [UnsupportedOrderType] else []) +
    (if !(i.mode.Paper? || i.mode.Backtest?) || i.mode != p.mode || i.mode != reg.mode then [ModeNotPermitted] else []) +
    (if i.instrument !in reg.universe || i.instrument.quote != USD then [UnsupportedSymbol] else []) +
    (if !(controls.asOf <= now < controls.validUntil) then [UnknownAccountState] else []) +
    (if now >= controls.leaseExpiresAt then [LeaseExpired] else []) +
    (if !env.requestFits(req, p, controls, now) then [ContextRefused] else []) +
    (if !PoliciesFit(env, reg.policies, req, controls, now) then [PolicyContextRefused] else [])
  }

  function QuoteFor(req: Request, exec: Execution, network: Id, startEquity: int): Quote {
    var buying := req.intent.side.Buy?;
    Quote(
      buying, req.action.ProposeReduce? || req.action.ProposeClose?, req.intent.instrument, network,
      req.intent.notional, exec.notionalIncrement, exec.feeBps, exec.slippageBps, req.bid, req.ask,
      if buying then req.askSize else req.bidSize, req.liquidity, req.expectedReturnBps, startEquity)
  }

  /** Each reason once, in the order first given. */
  function Distinct(rs: seq<Reason>): seq<Reason> {
    if rs == [] then []
    else
      var front, last := Distinct(rs[..|rs| - 1]), rs[|rs| - 1];
      if last in front then front else front + [last]
  }

  function Expiry(req: Request, exec: Execution, controls: Controls, now: int): int {
    Fixed.Min(Fixed.Min(req.intent.expiresAt, controls.validUntil),
              Fixed.Min(controls.leaseExpiresAt, now + exec.maxApprovalAgeMs * 1000))
  }

  function RecordFor(
      env: Environment, req: Request, reg: Registration, p: Portfolio, controls: Controls, now: int,
      context: seq<Reason>, sized: Sized): Record
  {
    var i := req.intent;
    var verdict :=
      if sized.amount == 0 then RejectedByRisk
      else if WasResized in sized.reasons then ApprovedResized else Approved;
    Record(
      Evaluation(
        EvaluationId(i.id, now), i.id, i.decision, i.workspace, now, verdict,
        Distinct(context + sized.reasons), sized.binding, i.notional, sized.amount),
      controls.account, env.requestHash(req), env.portfolioHash(p),
      Expiry(req, reg.execution, controls, now), sized.quantity, i.instrument.base, sized.debit, USD)
  }

  /** The sizing outcome of one request, before it is written into a record. */
  function SizeRequest(
      context: seq<Reason>, account: Option<Account>, req: Request, reg: Registration, p: Portfolio,
      networks: map<InstrumentId, Id>): Sized
    requires RequestOk(req) && RegistrationOk(reg)
  {
    if account.None? then NothingSized([UnknownAccountState])
    else if context != [] then NothingSized([])
    else Size(QuoteFor(req, reg.execution, Get(networks, req.intent.instrument), p.equity), account.value, reg.policies)
  }

  function Evaluate(
      env: Environment, req: Request, reg: Registration, p: Portfolio, controls: Controls,
      networks: map<InstrumentId, Id>, reservations: seq<Reservation>, now: int): Outcome
    requires RequestOk(req) && RegistrationOk(reg)
  {
    var context := ContextReasons(env, req, reg, p, controls, now);
    var quote := QuoteFor(req, reg.execution, Get(networks, req.intent.instrument), p.equity);
    var sized := SizeRequest(context, AccountState(p, networks, reservations), req, reg, p, networks);
    Outcome(
      RecordFor(env, req, reg, p, controls, now, context, sized),
      if sized.amount == 0 then None else Some(ReservationFor(quote, req.intent.id, sized)))
  }

  predicate IsApproved(r: Record) {
    r.evaluation.verdict.Approved? || r.evaluation.verdict.ApprovedResized?
  }

  /** The imperative evaluator: account loops and binary search, same outcome. */
  method EvaluateRequest(
      env: Environment, req: Request, reg: Registration, p: Portfolio, controls: Controls,
      networks: map<InstrumentId, Id>, reservations: seq<Reservation>, now: int) returns (outcome: Outcome)
    requires RequestOk(req) && RegistrationOk(reg)
    ensures outcome == Evaluate(env, req, reg, p, controls, networks, reservations, now)
  {
    hide WorstPrice, GateReasons, Violations, ContextReasons, RecordFor, AccountState, LargestSteps;
    var context := ContextReasons(env, req, reg, p, controls, now);
    var account := ComputeAccountState(p, networks, reservations);
    var quote := QuoteFor(req, reg.execution, Get(networks, req.intent.instrument), p.equity);
    var sized := NothingSized([]);
    if account.None? {
      sized := NothingSized([UnknownAccountState]);
    } else if context == [] {
      if quote.increment <= 0 || WorstPrice(quote) <= 0 {
        sized := NothingSized([UnsupportedPrecision]);
      } else {
        var gates := GateReasons(quote, account.value, reg.policies);
        if gates != [] {
          sized := NothingSized(gates);
        } else {
          var steps := SearchSteps(quote, account.value, reg.policies);
          sized := Settle(quote, account.value, reg.policies, steps * quote.increment);
        }
      }
    }
    outcome := Outcome(
      RecordFor(env, req, reg, p, controls, now, context, sized),
      if sized.amount == 0 then None else Some(ReservationFor(quote, req.intent.id, sized)));
  }

  // ---- What an approval establishes ---------------------------------------------------------------

  /** The facts an approved evaluation gives the session and the ledger. */
  ghost predicate Grounds(
      o: Outcome, env: Environment, req: Request, reg: Registration, p: Portfolio, controls: Controls,
      networks: map<InstrumentId, Id>, reservations: seq<Reservation>, now: int)
  {
    var i, r := req.intent, o.record;
    var a := AccountState(p, networks, reservations);
    var q := QuoteFor(req, reg.execution, Get(networks, i.instrument), p.equity);
    && a.Some?
    && RiskTheorems.Usable(q)
    && GatesOpen(q, a.value, reg.policies)
    && RiskTheorems.Approvable(q, a.value, reg.policies, r.evaluation.approved)
    && (exists k: nat :: r.evaluation.approved == k * q.increment)
    && o.reservation == Some(RiskTheorems.Taking(q, i.id, r.evaluation.approved))
    && ReservationOk(o.reservation.value)
    && r.maxQuantity == QuantityFor(q, r.evaluation.approved) > 0
    && r.maxCashDebit == o.reservation.value.cashDebit
    && ContextReasons(env, req, reg, p, controls, now) == []
  }

  /** An evaluation approves exactly when it reserves, and then everything below holds. */
  lemma ApprovalGrounds(
      env: Environment, req: Request, reg: Registration, p: Portfolio, controls: Controls,
      networks: map<InstrumentId, Id>, reservations: seq<Reservation>, now: int)
    requires RequestOk(req) && RegistrationOk(reg)
    ensures var o := Evaluate(env, req, reg, p, controls, networks, reservations, now);
            && (IsApproved(o.record) <==> o.reservation.Some?)
            && (IsApproved(o.record) <==> o.record.evaluation.approved > 0)
            && 0 <= o.record.evaluation.approved <= req.intent.notional
            && (IsApproved(o.record) ==> Grounds(o, env, req, reg, p, controls, networks, reservations, now))
  {
    var a := AccountState(p, networks, reservations);
    var q := QuoteFor(req, reg.execution, Get(networks, req.intent.instrument), p.equity);
    hide WorstPrice, GateReasons, Violations, ContextReasons, AccountState, LargestSteps, Fits, GatesOpen, QuantityFor, FeeCost, Distinct, Settle;
    if a.Some? && ContextReasons(env, req, reg, p, controls, now) == [] && RiskTheorems.Usable(q) {
      RiskTheorems.SizedIs(q, a.value, reg.policies);
      RiskTheorems.SizingIsExact(q, a.value, reg.policies, 0);
      if Size(q, a.value, reg.policies).amount > 0 {
        RiskTheorems.ReservationForOk(q, a.value, reg.policies, req.intent.id);
      }
    }
  }

  /** More policies and more earlier reservations never raise the approved notional of a request. */
  lemma MostRestrictiveEvaluation(
      env: Environment, req: Request, reg: Registration, union: Registration, p: Portfolio, controls: Controls,
      networks: map<InstrumentId, Id>, before: seq<Reservation>, r: Reservation, after: seq<Reservation>, now: int)
    requires RequestOk(req) && RegistrationOk(reg) && RegistrationOk(union) && ReservationOk(r)
    requires union == reg.(policies := union.policies) && forall x :: x in reg.policies ==> x in union.policies
    ensures Evaluate(env, req, union, p, controls, networks, before + after, now).record.evaluation.approved
         <= Evaluate(env, req, reg, p, controls, networks, before + after, now).record.evaluation.approved
    ensures Evaluate(env, req, union, p, controls, networks, before + [r] + after, now).record.evaluation.approved
         <= Evaluate(env, req, union, p, controls, networks, before + after, now).record.evaluation.approved
  {
    ApprovalGrounds(env, req, reg, p, controls, networks, before + after, now);
    ApprovalGrounds(env, req, union, p, controls, networks, before + after, now);
    var base := Base(p, networks);
    var q := QuoteFor(req, reg.execution, Get(networks, req.intent.instrument), p.equity);
    hide WorstPrice, Size, Fits, GatesOpen, QuantityFor, FeeCost, Distinct, Base, ReserveAll, RiskTheorems.Approvable;
    if base.Some? {
      TighterReflexive(ReserveAll(base.value, before + after));
      RiskTheorems.MostRestrictiveWins(
        q, ReserveAll(base.value, before + after), ReserveAll(base.value, before + after), reg.policies, union.policies);
      RiskTheorems.EarlierReservationLowersApproval(q, base.value, before, r, after, union.policies);
      assert PoliciesFit(env, union.policies, req, controls, now) ==> PoliciesFit(env, reg.policies, req, controls, now);
    }
  }
}

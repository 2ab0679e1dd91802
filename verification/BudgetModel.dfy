/** The model budget ledger: admission control over workspace, agent and decision scopes. */
module BudgetModel {
  import opened Outcomes
  import opened Domain

  // ---- Tariff ------------------------------------------------------------------------------------

  const TOKENS_PER_PRICE: int := 1_000_000

  datatype Route = Route(inputPrice: nat, outputPrice: nat, maxInputTokens: nat, maxOutputTokens: nat)

  /** Picodollars for a number of tokens, rounded up once. */
  function CostUnits(r: Route, input: nat, output: nat): int {
    (r.inputPrice * input + r.outputPrice * output + TOKENS_PER_PRICE - 1) / TOKENS_PER_PRICE
  }

  // ---- State ---------------------------------------------------------------------------------------

  datatype ScopeId = WorkspaceId(workspace: Id) | AgentId(workspace: Id, agent: Id)

  datatype CycleId = CycleId(workspace: Id, agent: Id, decision: Id)

  /** What a ticket is counted against. */
  datatype CounterKey = Daily(scope: ScopeId, day: int) | ForDecision(cycle: CycleId)

  datatype Counter = Counter(units: int, calls: nat)

  datatype Cycle = Cycle(version: Id, deadline: real)

  datatype TicketKey = TicketKey(workspace: Id, key: Id)

  /** `usage` is absent while the call is in progress; a finished call may still not know its cost. */
  datatype Ticket = Ticket(fingerprint: Digest, reserved: int, counters: seq<CounterKey>, deadline: real, usage: Option<Option<int>>)

  datatype Budget = Budget(
    capacity: nat,
    tickets: map<TicketKey, Ticket>,
    counters: map<CounterKey, Counter>,
    rates: map<ScopeId, seq<real>>,
    cycles: map<CycleId, Cycle>)

  datatype ScopeBudget = ScopeBudget(dailyUnits: int, callsPerDay: nat, callsPerMinute: nat)

  datatype DecisionBudget = DecisionBudget(maxUnits: int, maxCalls: nat, timeoutMs: nat)

  datatype CallScope = CallScope(workspace: Id, agent: Id, version: Id, decision: Id, key: Id)

  datatype BudgetError =
    | InvalidCapacity | IdempotencyConflict | InProgress | NoCapacity | TimedOut | CostBudget | CallBudget | RateBudget | AlreadyFinalized

  datatype Admission = Admission(ticket: Ticket, first: bool)

  /** What an operation leaves behind, also when it raises. */
  datatype Step<+T> = Step(budget: Budget, result: Result<T, BudgetError>)

  function CounterOf(b: Budget, k: CounterKey): Counter {
    if k in b.counters then b.counters[k] else Counter(0, 0)
  }

  function RatesOf(b: Budget, s: ScopeId): seq<real> {
    if s in b.rates then b.rates[s] else []
  }

  /** Drops the admissions a minute old or older. */
  function Prune(times: seq<real>, now: real): seq<real> {
    if times != [] && times[0] <= now - 60.0 then Prune(times[1..], now) else times
  }

  // ---- Admission -------------------------------------------------------------------------------------

  /** One scope's daily and per-minute limits; pruning persists even when a later limit refuses. */
  function CheckScope(b: Budget, s: ScopeId, p: ScopeBudget, day: int, units: int, now: real): Step<()> {
    var counter := CounterOf(b, Daily(s, day));
    if counter.units + units > p.dailyUnits then Step(b, Err(CostBudget))
    else if counter.calls >= p.callsPerDay then Step(b, Err(CallBudget))
    else
      var left := Prune(RatesOf(b, s), now);
      var c := if s in b.rates then b.(rates := b.rates[s := left]) else b;
      if |left| >= p.callsPerMinute then Step(c, Err(RateBudget)) else Step(c, Ok(()))
  }

  function CycleFor(b: Budget, id: CycleId, version: Id, p: DecisionBudget, now: real): Cycle {
    if id in b.cycles then b.cycles[id] else Cycle(version, now + p.timeoutMs as real / 1000.0)
  }

  function Charged(b: Budget, k: CounterKey, units: int): Budget {
    var c := CounterOf(b, k);
    b.(counters := b.counters[k := Counter(c.units + units, c.calls + 1)])
  }

  function ChargeAll(b: Budget, ks: seq<CounterKey>, units: int): Budget {
    if ks == [] then b else Charged(ChargeAll(b, ks[..|ks| - 1], units), ks[|ks| - 1], units)
  }

  function Stamped(b: Budget, s: ScopeId, now: real): Budget {
    b.(rates := b.rates[s := RatesOf(b, s) + [now]])
  }

  function KeysOf(c: CallScope, day: int): seq<CounterKey> {
    [Daily(WorkspaceId(c.workspace), day), Daily(AgentId(c.workspace, c.agent), day),
     ForDecision(CycleId(c.workspace, c.agent, c.decision))]
  }

  /** No quota is consumed until every scope has passed. */
  function Admit(b: Budget, c: CallScope, fingerprint: Digest, units: int, cycle: Cycle, now: real, day: int): (Budget, Ticket) {
    var ticket := Ticket(fingerprint, units, KeysOf(c, day), cycle.deadline, None);
    var stamped := Stamped(Stamped(b, WorkspaceId(c.workspace), now), AgentId(c.workspace, c.agent), now);
    var charged := ChargeAll(stamped, KeysOf(c, day), units);
    (charged.(cycles := b.cycles[CycleId(c.workspace, c.agent, c.decision) := cycle],
              tickets := b.tickets[TicketKey(c.workspace, c.key) := ticket]), ticket)
  }

  function Reserve(
      b: Budget, c: CallScope, fingerprint: Digest, units: int, workspace: ScopeBudget, agent: ScopeBudget,
      decision: DecisionBudget, now: real, day: int): Step<Admission>
  {
    var key, id := TicketKey(c.workspace, c.key), CycleId(c.workspace, c.agent, c.decision);
    if key in b.tickets then
      var previous := b.tickets[key];
      if previous.fingerprint != fingerprint then Step(b, Err(IdempotencyConflict))
      else if previous.usage.None? then Step(b, Err(InProgress))
      else Step(b, Ok(Admission(previous, false)))
    else if |b.tickets| >= b.capacity then Step(b, Err(NoCapacity))
    else
      var cycle := CycleFor(b, id, c.version, decision, now);
      if cycle.version != c.version then Step(b, Err(IdempotencyConflict))
      else if now >= cycle.deadline then Step(b, Err(TimedOut))
      else
        var first := CheckScope(b, WorkspaceId(c.workspace), workspace, day, units, now);
        match first.result
        case Err(e) => Step(first.budget, Err(e))
        case Ok(_) =>
          var second := CheckScope(first.budget, AgentId(c.workspace, c.agent), agent, day, units, now);
          match second.result
          case Err(e) => Step(second.budget, Err(e))
          case Ok(_) =>
            var spent := CounterOf(second.budget, ForDecision(id));
            if spent.units + units > decision.maxUnits then Step(second.budget, Err(CostBudget))
            else if spent.calls >= decision.maxCalls then Step(second.budget, Err(CallBudget))
            else
              var (admitted, ticket) := Admit(second.budget, c, fingerprint, units, cycle, now, day);
              Step(admitted, Ok(Admission(ticket, true)))
  }

  // ---- Finalization -----------------------------------------------------------------------------------

  function Adjusted(b: Budget, k: CounterKey, delta: int): Budget {
    var c := CounterOf(b, k);
    b.(counters := b.counters[k := Counter(c.units + delta, c.calls)])
  }

  function AdjustAll(b: Budget, ks: seq<CounterKey>, delta: int): Budget {
    if ks == [] then b else Adjusted(AdjustAll(b, ks[..|ks| - 1], delta), ks[|ks| - 1], delta)
  }

  /** Unknown usage keeps the whole reservation; known usage replaces it, even beyond its bound. */
  function Finish(b: Budget, key: TicketKey, actual: Option<int>): Step<()>
    requires key in b.tickets
  {
    var t := b.tickets[key];
    if t.usage.Some? then Step(b, Err(AlreadyFinalized))
    else
      var counted := if actual.Some? then AdjustAll(b, t.counters, actual.value - t.reserved) else b;
      Step(counted.(tickets := b.tickets[key := t.(usage := Some(actual))]), Ok(()))
  }
}

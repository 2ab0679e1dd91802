/** The budget ledger as an object: tickets, counters, rate windows and decision cycles updated in place. */
module BudgetLedger {
  import opened Outcomes
  import opened Domain
  import BM = BudgetModel
  import BS = BudgetSafety

  class LocalBudgetLedger {
    const capacity: nat
    var tickets: map<BM.TicketKey, BM.Ticket>
    var counters: map<BM.CounterKey, BM.Counter>
    var rates: map<BM.ScopeId, seq<real>>
    var cycles: map<BM.CycleId, BM.Cycle>

    /** The value the specification speaks about. */
    function State(): BM.Budget
      reads this
    {
      BM.Budget(capacity, tickets, counters, rates, cycles)
    }

    constructor (limit: nat)
      ensures State() == BM.Budget(limit, map[], map[], map[], map[])
    {
      capacity, tickets, counters, rates, cycles := limit, map[], map[], map[], map[];
    }

    /** Refuses a capacity below one. */
    static method Open(limit: int) returns (r: Result<LocalBudgetLedger, BM.BudgetError>)
      ensures if limit < 1 then r == Err(BM.InvalidCapacity)
              else r.Ok? && fresh(r.value) && r.value.State() == BM.Budget(limit, map[], map[], map[], map[])
    {
      if limit < 1 {
        return Err(BM.InvalidCapacity);
      }
      var ledger := new LocalBudgetLedger(limit);
      r := Ok(ledger);
    }

    /** Drops the admissions a minute old or older from the front of a window. */
    method Prune(times: seq<real>, now: real) returns (left: seq<real>)
      ensures left == BM.Prune(times, now)
    {
      left := times;
      while left != [] && left[0] <= now - 60.0
        invariant BM.Prune(left, now) == BM.Prune(times, now)
        decreases |left|
      {
        left := left[1..];
      }
    }

    /** One scope's limits; pruning stays even when the scope refuses. */
    method CheckScope(s: BM.ScopeId, p: BM.ScopeBudget, day: int, units: int, now: real) returns (r: Result<(), BM.BudgetError>)
      modifies this`rates
      ensures var step := old(BM.CheckScope(State(), s, p, day, units, now)); r == step.result && State() == step.budget
    {
      hide BM.Prune;
      var counter := BM.CounterOf(State(), BM.Daily(s, day));
      if counter.units + units > p.dailyUnits {
        return Err(BM.CostBudget);
      }
      if counter.calls >= p.callsPerDay {
        return Err(BM.CallBudget);
      }
      var left := Prune(BM.RatesOf(State(), s), now);
      if s in rates {
        rates := rates[s := left];
      }
      r := if |left| >= p.callsPerMinute then Err(BM.RateBudget) else Ok(());
    }

    /** Counts a new ticket against each of its counters. */
    method Charge(ks: seq<BM.CounterKey>, units: int)
      modifies this`counters
      ensures State() == old(BM.ChargeAll(State(), ks, units))
    {
      for i := 0 to |ks|
        invariant State() == old(BM.ChargeAll(State(), ks[..i], units))
      {
        assert ks[..i + 1][..i] == ks[..i];
        var c := BM.CounterOf(State(), ks[i]);
        counters := counters[ks[i] := BM.Counter(c.units + units, c.calls + 1)];
      }
      assert ks[..|ks|] == ks;
    }

    /** Corrects each counter of a ticket by the same amount. */
    method Adjust(ks: seq<BM.CounterKey>, delta: int)
      modifies this`counters
      ensures State() == old(BM.AdjustAll(State(), ks, delta))
    {
      for i := 0 to |ks|
        invariant State() == old(BM.AdjustAll(State(), ks[..i], delta))
      {
        assert ks[..i + 1][..i] == ks[..i];
        var c := BM.CounterOf(State(), ks[i]);
        counters := counters[ks[i] := BM.Counter(c.units + delta, c.calls)];
      }
      assert ks[..|ks|] == ks;
    }

    /** Stamps both windows, charges every counter and registers the ticket. */
    method Admit(c: BM.CallScope, fingerprint: Digest, units: int, cycle: BM.Cycle, now: real, day: int) returns (ticket: BM.Ticket)
      modifies this
      ensures (State(), ticket) == old(BM.Admit(State(), c, fingerprint, units, cycle, now, day))
    {
      hide BM.ChargeAll;
      ghost var before := State();
      var ws, agent := BM.WorkspaceId(c.workspace), BM.AgentId(c.workspace, c.agent);
      rates := rates[ws := BM.RatesOf(State(), ws) + [now]];
      rates := rates[agent := BM.RatesOf(State(), agent) + [now]];
      BS.SameCharges(State(), before, BM.KeysOf(c, day), units);
      Charge(BM.KeysOf(c, day), units);
      cycles := cycles[BM.CycleId(c.workspace, c.agent, c.decision) := cycle];
      ticket := BM.Ticket(fingerprint, units, BM.KeysOf(c, day), cycle.deadline, None);
      tickets := tickets[BM.TicketKey(c.workspace, c.key) := ticket];
    }

    method Reserve(
        c: BM.CallScope, fingerprint: Digest, units: int, workspace: BM.ScopeBudget, agent: BM.ScopeBudget,
        decision: BM.DecisionBudget, now: real, day: int) returns (r: Result<BM.Admission, BM.BudgetError>)
      modifies this
      ensures var step := old(BM.Reserve(State(), c, fingerprint, units, workspace, agent, decision, now, day));
              r == step.result && State() == step.budget
    {
      hide BM.CheckScope, BM.Admit;
      var key, id := BM.TicketKey(c.workspace, c.key), BM.CycleId(c.workspace, c.agent, c.decision);
      if key in tickets {
        var previous := tickets[key];
        if previous.fingerprint != fingerprint {
          return Err(BM.IdempotencyConflict);
        }
        if previous.usage.None? {
          return Err(BM.InProgress);
        }
        return Ok(BM.Admission(previous, false));
      }
      if |tickets| >= capacity {
        return Err(BM.NoCapacity);
      }
      var cycle := BM.CycleFor(State(), id, c.version, decision, now);
      if cycle.version != c.version {
        return Err(BM.IdempotencyConflict);
      }
      if now >= cycle.deadline {
        return Err(BM.TimedOut);
      }
      var first := CheckScope(BM.WorkspaceId(c.workspace), workspace, day, units, now);
      if first.Err? {
        return Err(first.error);
      }
      var second := CheckScope(BM.AgentId(c.workspace, c.agent), agent, day, units, now);
      if second.Err? {
        return Err(second.error);
      }
      var spent := BM.CounterOf(State(), BM.ForDecision(id));
      if spent.units + units > decision.maxUnits {
        return Err(BM.CostBudget);
      }
      if spent.calls >= decision.maxCalls {
        return Err(BM.CallBudget);
      }
      var ticket := Admit(c, fingerprint, units, cycle, now, day);
      r := Ok(BM.Admission(ticket, true));
    }

    /** Known usage replaces the reservation; unknown usage keeps it. */
    method Finish(key: BM.TicketKey, actual: Option<int>) returns (r: Result<(), BM.BudgetError>)
      requires key in tickets
      modifies this
      ensures var step := old(BM.Finish(State(), key, actual)); r == step.result && State() == step.budget
    {
      hide BM.AdjustAll;
      var t := tickets[key];
      if t.usage.Some? {
        return Err(BM.AlreadyFinalized);
      }
      if actual.Some? {
        Adjust(t.counters, actual.value - t.reserved);
      }
      tickets := tickets[key := t.(usage := Some(actual))];
      r := Ok(());
    }
  }
}

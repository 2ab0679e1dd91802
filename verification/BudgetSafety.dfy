/** Rate windows, counter totals and spending caps of the budget ledger, over every run. */
module BudgetSafety {
  import opened Outcomes
  import opened Sums
  import opened Domain
  import opened BudgetModel

  // ---- The tariff ----------------------------------------------------------------------------------

  /** The cost is the least number of whole units that covers the exact price. */
  lemma CostCovers(r: Route, input: nat, output: nat)
    ensures var exact := r.inputPrice * input + r.outputPrice * output;
            (CostUnits(r, input, output) - 1) * TOKENS_PER_PRICE < exact <= CostUnits(r, input, output) * TOKENS_PER_PRICE
  {
    var n := r.inputPrice * input + r.outputPrice * output + TOKENS_PER_PRICE - 1;
    assert n == TOKENS_PER_PRICE * (n / TOKENS_PER_PRICE) + n % TOKENS_PER_PRICE;
  }

  /** A provider that stays within its token bounds never costs more than what was reserved. */
  lemma CostIsMonotone(r: Route, input: nat, output: nat, maxInput: nat, maxOutput: nat)
    requires input <= maxInput && output <= maxOutput
    ensures 0 <= CostUnits(r, input, output) <= CostUnits(r, maxInput, maxOutput)
  {
    CostCovers(r, input, output);
    CostCovers(r, maxInput, maxOutput);
    PriceMonotone(r.inputPrice, input, maxInput);
    PriceMonotone(r.outputPrice, output, maxOutput);
  }

  lemma PriceMonotone(price: nat, n: nat, m: nat)
    requires n <= m
    ensures 0 <= price * n <= price * m
  {
  }

  // ---- Counters are totals of tickets -------------------------------------------------------------------

  /** What a ticket counts for: its actual cost once known, its reservation until then. */
  function Cost(t: Ticket): int {
    if t.usage.Some? && t.usage.value.Some? then t.usage.value.value else t.reserved
  }

  function UnitsFor(t: Ticket, k: CounterKey): int {
    if k in t.counters then Cost(t) else 0
  }

  function CallsFor(t: Ticket, k: CounterKey): int {
    if k in t.counters then 1 else 0
  }

  function UnitCharges(tickets: map<TicketKey, Ticket>, k: CounterKey): map<TicketKey, int> {
    map i | i in tickets :: UnitsFor(tickets[i], k)
  }

  function CallCharges(tickets: map<TicketKey, Ticket>, k: CounterKey): map<TicketKey, int> {
    map i | i in tickets :: CallsFor(tickets[i], k)
  }

  predicate Distinct(ks: seq<CounterKey>) {
    forall i, j :: 0 <= i < j < |ks| ==> ks[i] != ks[j]
  }

  ghost predicate CountersOk(b: Budget) {
    && (forall i :: i in b.tickets ==> Distinct(b.tickets[i].counters))
    && forall k ::
         && CounterOf(b, k).units == SumMap(UnitCharges(b.tickets, k))
         && CounterOf(b, k).calls == SumMap(CallCharges(b.tickets, k))
  }

  lemma TicketAdded(tickets: map<TicketKey, Ticket>, i: TicketKey, t: Ticket, k: CounterKey)
    ensures SumMap(UnitCharges(tickets[i := t], k)) ==
            SumMap(UnitCharges(tickets, k)) + UnitsFor(t, k) - if i in tickets then UnitsFor(tickets[i], k) else 0
    ensures SumMap(CallCharges(tickets[i := t], k)) ==
            SumMap(CallCharges(tickets, k)) + CallsFor(t, k) - if i in tickets then CallsFor(tickets[i], k) else 0
  {
    hide UnitsFor, CallsFor, SumMap;
    SumMapUpdate(UnitCharges(tickets, k), i, UnitsFor(t, k));
    assert UnitCharges(tickets[i := t], k) == UnitCharges(tickets, k)[i := UnitsFor(t, k)];
    SumMapUpdate(CallCharges(tickets, k), i, CallsFor(t, k));
    assert CallCharges(tickets[i := t], k) == CallCharges(tickets, k)[i := CallsFor(t, k)];
  }

  lemma ChargedOne(b: Budget, j: CounterKey, units: int, k: CounterKey)
    ensures var c := Charged(b, j, units);
            && c == b.(counters := c.counters)
            && CounterOf(c, k) == if k == j then Counter(CounterOf(b, k).units + units, CounterOf(b, k).calls + 1) else CounterOf(b, k)
  {
  }

  lemma AdjustedOne(b: Budget, j: CounterKey, delta: int, k: CounterKey)
    ensures var c := Adjusted(b, j, delta);
            && c == b.(counters := c.counters)
            && CounterOf(c, k) == if k == j then Counter(CounterOf(b, k).units + delta, CounterOf(b, k).calls) else CounterOf(b, k)
  {
  }

  /** The last key of a distinct list is not among the others. */
  lemma LastKey(ks: seq<CounterKey>, k: CounterKey)
    requires Distinct(ks) && ks != []
    ensures var n := |ks| - 1; Distinct(ks[..n]) && ks[n] !in ks[..n] && (k in ks <==> k in ks[..n] || k == ks[n])
  {
    var n := |ks| - 1;
    assert ks == ks[..n] + [ks[n]];
  }

  lemma {:induction false} ChargedCounters(b: Budget, ks: seq<CounterKey>, units: int, k: CounterKey)
    requires Distinct(ks)
    ensures var c := ChargeAll(b, ks, units);
            && c == b.(counters := c.counters)
            && CounterOf(c, k) == Counter(
                 CounterOf(b, k).units + (if k in ks then units else 0), CounterOf(b, k).calls + if k in ks then 1 else 0)
  {
    hide Charged, CounterOf, Distinct;
    if ks != [] {
      var n := |ks| - 1;
      LastKey(ks, k);
      ChargedCounters(b, ks[..n], units, k);
      ChargedOne(ChargeAll(b, ks[..n], units), ks[n], units, k);
    }
  }

  lemma {:induction false} AdjustedCounters(b: Budget, ks: seq<CounterKey>, delta: int, k: CounterKey)
    requires Distinct(ks)
    ensures var c := AdjustAll(b, ks, delta);
            && c == b.(counters := c.counters)
            && CounterOf(c, k) == Counter(CounterOf(b, k).units + (if k in ks then delta else 0), CounterOf(b, k).calls)
  {
    hide Adjusted, CounterOf, Distinct;
    if ks != [] {
      var n := |ks| - 1;
      LastKey(ks, k);
      AdjustedCounters(b, ks[..n], delta, k);
      AdjustedOne(AdjustAll(b, ks[..n], delta), ks[n], delta, k);
    }
  }

  // ---- What a reservation does -----------------------------------------------------------------------------

  /** Checking a scope changes nothing but its pruned window. */
  lemma CheckIs(b: Budget, s: ScopeId, p: ScopeBudget, day: int, units: int, now: real)
    ensures var r := CheckScope(b, s, p, day, units, now);
            && r.budget == b.(rates := r.budget.rates)
            && (forall o :: o != s ==> RatesOf(r.budget, o) == RatesOf(b, o))
            && (RatesOf(r.budget, s) == RatesOf(b, s) || RatesOf(r.budget, s) == Prune(RatesOf(b, s), now))
            && (r.result.Ok? ==>
                  && RatesOf(r.budget, s) == Prune(RatesOf(b, s), now) && |RatesOf(r.budget, s)| < p.callsPerMinute
                  && CounterOf(b, Daily(s, day)).units + units <= p.dailyUnits
                  && CounterOf(b, Daily(s, day)).calls < p.callsPerDay)
  {
  }

  /** The two scopes of a call and their limits. */
  function PolicyOf(c: CallScope, s: ScopeId, workspace: ScopeBudget, agent: ScopeBudget): ScopeBudget {
    if s.WorkspaceId? then workspace else agent
  }

  predicate OwnScope(c: CallScope, s: ScopeId) {
    s == WorkspaceId(c.workspace) || s == AgentId(c.workspace, c.agent)
  }

  /** Windows after a step: each is as before, pruned, or pruned and stamped. */
  ghost predicate WindowsMove(b: Budget, r: Budget, c: CallScope, stamped: bool, now: real) {
    forall s ::
      if OwnScope(c, s) && stamped then RatesOf(r, s) == Prune(RatesOf(b, s), now) + [now]
      else RatesOf(r, s) == RatesOf(b, s) || RatesOf(r, s) == Prune(RatesOf(b, s), now)
  }

  /** Every limit of every scope leaves room for one more call of `units`. */
  ghost predicate Passed(
      b: Budget, c: CallScope, units: int, workspace: ScopeBudget, agent: ScopeBudget, decision: DecisionBudget, now: real, day: int)
  {
    && TicketKey(c.workspace, c.key) !in b.tickets
    && (forall s :: OwnScope(c, s) ==>
          && |Prune(RatesOf(b, s), now)| < PolicyOf(c, s, workspace, agent).callsPerMinute
          && CounterOf(b, Daily(s, day)).units + units <= PolicyOf(c, s, workspace, agent).dailyUnits
          && CounterOf(b, Daily(s, day)).calls < PolicyOf(c, s, workspace, agent).callsPerDay)
    && var spent := CounterOf(b, ForDecision(CycleId(c.workspace, c.agent, c.decision)));
       spent.units + units <= decision.maxUnits && spent.calls < decision.maxCalls
  }

  /** The one new ticket and its charges. */
  ghost predicate Admitted(b: Budget, r: Budget, c: CallScope, units: int, t: Ticket, day: int) {
    && t.counters == KeysOf(c, day) && t.reserved == units && t.usage == None
    && r.tickets == b.tickets[TicketKey(c.workspace, c.key) := t]
    && r.counters == ChargeAll(b, KeysOf(c, day), units).counters
    && r.cycles.Keys == b.cycles.Keys + {CycleId(c.workspace, c.agent, c.decision)} && r.capacity == b.capacity
  }

  lemma AdmitIs(b: Budget, p: Budget, c: CallScope, fingerprint: Digest, units: int, cycle: Cycle, now: real, day: int)
    requires p == b.(rates := p.rates)
    ensures var (r, t) := Admit(p, c, fingerprint, units, cycle, now, day);
            && Admitted(b, r, c, units, t, day)
            && forall s :: RatesOf(r, s) == if OwnScope(c, s) then RatesOf(p, s) + [now] else RatesOf(p, s)
  {
    hide ChargeAll;
    var stamped := Stamped(Stamped(p, WorkspaceId(c.workspace), now), AgentId(c.workspace, c.agent), now);
    SameCharges(stamped, b, KeysOf(c, day), units);
  }

  /** The state in which both scopes have been checked, as far as the checks went. */
  function Checked(b: Budget, c: CallScope, units: int, workspace: ScopeBudget, agent: ScopeBudget, now: real, day: int): Step<()> {
    var first := CheckScope(b, WorkspaceId(c.workspace), workspace, day, units, now);
    if first.result.Err? then first else CheckScope(first.budget, AgentId(c.workspace, c.agent), agent, day, units, now)
  }

  lemma CheckedIs(b: Budget, c: CallScope, units: int, workspace: ScopeBudget, agent: ScopeBudget, now: real, day: int)
    ensures var r := Checked(b, c, units, workspace, agent, now, day);
            && r.budget == b.(rates := r.budget.rates)
            && (forall s :: RatesOf(r.budget, s) == RatesOf(b, s) || RatesOf(r.budget, s) == Prune(RatesOf(b, s), now))
            && (r.result.Ok? ==>
                  forall s :: OwnScope(c, s) ==>
                    && RatesOf(r.budget, s) == Prune(RatesOf(b, s), now)
                    && |Prune(RatesOf(b, s), now)| < PolicyOf(c, s, workspace, agent).callsPerMinute
                    && CounterOf(b, Daily(s, day)).units + units <= PolicyOf(c, s, workspace, agent).dailyUnits
                    && CounterOf(b, Daily(s, day)).calls < PolicyOf(c, s, workspace, agent).callsPerDay)
  {
    hide Prune, CheckScope, RatesOf, CounterOf;
    CheckIs(b, WorkspaceId(c.workspace), workspace, day, units, now);
    var first := CheckScope(b, WorkspaceId(c.workspace), workspace, day, units, now);
    SameCounters(b, first.budget);
    CheckIs(first.budget, AgentId(c.workspace, c.agent), agent, day, units, now);
  }

  /** A reservation either admits after both scopes and the cycle passed, or leaves what the checks left. */
  lemma ReserveShape(
      b: Budget, c: CallScope, fingerprint: Digest, units: int, workspace: ScopeBudget, agent: ScopeBudget,
      decision: DecisionBudget, now: real, day: int)
    ensures var r := Reserve(b, c, fingerprint, units, workspace, agent, decision, now, day);
            var p := Checked(b, c, units, workspace, agent, now, day);
            var cycle := CycleFor(b, CycleId(c.workspace, c.agent, c.decision), c.version, decision, now);
            if r.result.Ok? && r.result.value.first then
              && TicketKey(c.workspace, c.key) !in b.tickets && p.result.Ok?
              && CounterOf(p.budget, ForDecision(CycleId(c.workspace, c.agent, c.decision))).units + units <= decision.maxUnits
              && CounterOf(p.budget, ForDecision(CycleId(c.workspace, c.agent, c.decision))).calls < decision.maxCalls
              && (r.budget, r.result.value.ticket) == Admit(p.budget, c, fingerprint, units, cycle, now, day)
            else r.budget == b || r.budget == p.budget
  {
    hide CheckScope, Admit, CounterOf, CycleFor;
  }

  /** A reservation that is admitted passed every limit; any other changes no ticket and no counter. */
  lemma ReserveIs(
      b: Budget, c: CallScope, fingerprint: Digest, units: int, workspace: ScopeBudget, agent: ScopeBudget,
      decision: DecisionBudget, now: real, day: int)
    ensures var r := Reserve(b, c, fingerprint, units, workspace, agent, decision, now, day);
            var admitted := r.result.Ok? && r.result.value.first;
            && WindowsMove(b, r.budget, c, admitted, now)
            && (if admitted
                then Passed(b, c, units, workspace, agent, decision, now, day) && Admitted(b, r.budget, c, units, r.result.value.ticket, day)
                else r.budget == b.(rates := r.budget.rates))
  {
    hide Prune, Checked, Admit, Admitted, RatesOf, CounterOf, Reserve, CycleFor, PolicyOf;
    ReserveShape(b, c, fingerprint, units, workspace, agent, decision, now, day);
    CheckedIs(b, c, units, workspace, agent, now, day);
    var p := Checked(b, c, units, workspace, agent, now, day).budget;
    SameCounters(b, p);
    AdmitIs(b, p, c, fingerprint, units, CycleFor(b, CycleId(c.workspace, c.agent, c.decision), c.version, decision, now), now, day);
  }

  /** The decision's cycle is this version's and has not run out of time. */
  predicate CycleOpen(b: Budget, c: CallScope, decision: DecisionBudget, now: real) {
    var cycle := CycleFor(b, CycleId(c.workspace, c.agent, c.decision), c.version, decision, now);
    cycle.version == c.version && now < cycle.deadline
  }

  /** And nothing else refuses: a new key is admitted exactly when there is room in every scope. */
  lemma AdmittedExactlyWithRoom(
      b: Budget, c: CallScope, fingerprint: Digest, units: int, workspace: ScopeBudget, agent: ScopeBudget,
      decision: DecisionBudget, now: real, day: int)
    ensures var r := Reserve(b, c, fingerprint, units, workspace, agent, decision, now, day);
            r.result.Ok? && r.result.value.first <==>
              (Passed(b, c, units, workspace, agent, decision, now, day) && |b.tickets| < b.capacity && CycleOpen(b, c, decision, now))
  {
    hide Prune, CheckScope, Admit, Admitted, RatesOf, CounterOf;
    var ws, ag := WorkspaceId(c.workspace), AgentId(c.workspace, c.agent);
    CheckIs(b, ws, workspace, day, units, now);
    CheckPasses(b, ws, workspace, day, units, now);
    var first := CheckScope(b, ws, workspace, day, units, now);
    CheckIs(first.budget, ag, agent, day, units, now);
    CheckPasses(first.budget, ag, agent, day, units, now);
    var second := CheckScope(first.budget, ag, agent, day, units, now);
    SameCounters(b, first.budget);
    SameCounters(b, second.budget);
  }

  lemma CheckPasses(b: Budget, s: ScopeId, p: ScopeBudget, day: int, units: int, now: real)
    ensures CheckScope(b, s, p, day, units, now).result.Ok? <==>
            (|Prune(RatesOf(b, s), now)| < p.callsPerMinute
             && CounterOf(b, Daily(s, day)).units + units <= p.dailyUnits
             && CounterOf(b, Daily(s, day)).calls < p.callsPerDay)
  {
  }

  lemma SameCounters(b: Budget, r: Budget)
    requires r.counters == b.counters
    ensures forall k :: CounterOf(r, k) == CounterOf(b, k)
  {
  }

  /** Charging looks at counters alone. */
  lemma {:induction false} SameCharges(a: Budget, b: Budget, ks: seq<CounterKey>, units: int)
    requires a.counters == b.counters
    ensures ChargeAll(a, ks, units).counters == ChargeAll(b, ks, units).counters
    ensures ChargeAll(a, ks, units) == a.(counters := ChargeAll(a, ks, units).counters)
  {
    if ks != [] {
      SameCharges(a, b, ks[..|ks| - 1], units);
    }
  }
}

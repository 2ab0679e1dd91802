/** Theorems about every run of the budget ledger under fixed policies and a monotone clock. */
module BudgetHistory {
  import opened Outcomes
  import opened Sums
  import opened Domain
  import opened BudgetModel
  import opened BudgetSafety

  datatype Policies = Policies(daily: ScopeId -> ScopeBudget, decision: CycleId -> DecisionBudget)

  ghost predicate PoliciesOk(p: Policies) {
    && (forall s :: p.daily(s).dailyUnits >= 0 && p.daily(s).callsPerMinute >= 1)
    && forall c :: p.decision(c).maxUnits >= 0
  }

  datatype Act =
    | DoReserve(call: CallScope, fingerprint: Digest, units: nat, now: real, day: int)
    | DoFinish(key: TicketKey, actual: Option<int>)

  /** The ledger, every admission ever made per scope, and the latest clock reading. */
  datatype System = System(budget: Budget, admitted: map<ScopeId, seq<real>>, now: real)

  function AdmittedTo(s: System, id: ScopeId): seq<real> {
    if id in s.admitted then s.admitted[id] else []
  }

  ghost predicate Possible(s: System, a: Act) {
    match a
    case DoReserve(_, _, _, now, _) => s.now <= now
    case DoFinish(key, _) => key in s.budget.tickets
  }

  /** A provider that used no more than it was reserved for. */
  predicate Honest(s: System, a: Act) {
    a.DoFinish? && a.key in s.budget.tickets && a.actual.Some? ==> a.actual.value <= s.budget.tickets[a.key].reserved
  }

  function ReserveUnder(p: Policies, b: Budget, c: CallScope, fingerprint: Digest, units: int, now: real, day: int): Step<Admission> {
    Reserve(b, c, fingerprint, units, p.daily(WorkspaceId(c.workspace)), p.daily(AgentId(c.workspace, c.agent)),
            p.decision(CycleId(c.workspace, c.agent, c.decision)), now, day)
  }

  function Recorded(s: System, c: CallScope, now: real): map<ScopeId, seq<real>> {
    s.admitted[WorkspaceId(c.workspace) := AdmittedTo(s, WorkspaceId(c.workspace)) + [now]]
              [AgentId(c.workspace, c.agent) := AdmittedTo(s, AgentId(c.workspace, c.agent)) + [now]]
  }

  ghost function Next(p: Policies, s: System, a: Act): System
    requires Possible(s, a)
  {
    match a
    case DoReserve(c, fingerprint, units, now, day) =>
      var r := ReserveUnder(p, s.budget, c, fingerprint, units, now, day);
      System(r.budget, if r.result.Ok? && r.result.value.first then Recorded(s, c, now) else s.admitted, now)
    case DoFinish(key, actual) => s.(budget := Finish(s.budget, key, actual).budget)
  }

  /** `t` is what the acts make of `s`; with `honest`, every provider stays within its reservation. */
  ghost predicate Run(p: Policies, s: System, acts: seq<Act>, honest: bool, t: System)
    decreases |acts|
  {
    if acts == [] then t == s
    else Possible(s, acts[0]) && (honest ==> Honest(s, acts[0])) && Run(p, Next(p, s, acts[0]), acts[1..], honest, t)
  }

  function Empty(capacity: nat): System {
    System(Budget(capacity, map[], map[], map[], map[]), map[], 0.0)
  }

  // ---- Counters ------------------------------------------------------------------------------------

  lemma ReserveKeepsCounters(p: Policies, b: Budget, c: CallScope, fingerprint: Digest, units: int, now: real, day: int)
    requires CountersOk(b)
    ensures CountersOk(ReserveUnder(p, b, c, fingerprint, units, now, day).budget)
  {
    hide ChargeAll, SumMap, UnitCharges, CallCharges, Reserve, WindowsMove, UnitsFor, CallsFor, CounterOf, Prune;
    ReserveIs(b, c, fingerprint, units, p.daily(WorkspaceId(c.workspace)), p.daily(AgentId(c.workspace, c.agent)),
              p.decision(CycleId(c.workspace, c.agent, c.decision)), now, day);
    var r := ReserveUnder(p, b, c, fingerprint, units, now, day);
    if r.result.Ok? && r.result.value.first {
      KeysDistinct(c, day);
      forall k
        ensures CounterOf(r.budget, k).units == SumMap(UnitCharges(r.budget.tickets, k))
        ensures CounterOf(r.budget, k).calls == SumMap(CallCharges(r.budget.tickets, k))
      {
        AdmittedTotals(b, r.budget, c, units, r.result.value.ticket, day, k);
      }
    } else {
      SameTotals(b, r.budget);
    }
  }

  lemma SameTotals(b: Budget, r: Budget)
    requires CountersOk(b) && r.counters == b.counters && r.tickets == b.tickets
    ensures CountersOk(r)
  {
    hide SumMap, UnitCharges, CallCharges;
    assert forall k :: CounterOf(r, k) == CounterOf(b, k);
  }

  lemma KeysDistinct(c: CallScope, day: int)
    ensures Distinct(KeysOf(c, day))
  {
  }

  lemma AdmittedTotals(b: Budget, r: Budget, c: CallScope, units: int, t: Ticket, day: int, k: CounterKey)
    requires CountersOk(b) && Admitted(b, r, c, units, t, day) && TicketKey(c.workspace, c.key) !in b.tickets
    ensures CounterOf(r, k).units == SumMap(UnitCharges(r.tickets, k))
    ensures CounterOf(r, k).calls == SumMap(CallCharges(r.tickets, k))
  {
    hide ChargeAll, SumMap, UnitCharges, CallCharges, KeysOf;
    KeysDistinct(c, day);
    ChargedCounters(b, KeysOf(c, day), units, k);
    TicketAdded(b.tickets, TicketKey(c.workspace, c.key), t, k);
  }

  lemma FinishKeepsCounters(b: Budget, key: TicketKey, actual: Option<int>)
    requires CountersOk(b) && key in b.tickets
    ensures CountersOk(Finish(b, key, actual).budget)
  {
    hide AdjustAll, SumMap, UnitCharges, CallCharges;
    var t := b.tickets[key];
    if t.usage.None? {
      var r := Finish(b, key, actual).budget;
      forall k
        ensures CounterOf(r, k).units == SumMap(UnitCharges(r.tickets, k))
        ensures CounterOf(r, k).calls == SumMap(CallCharges(r.tickets, k))
      {
        TicketAdded(b.tickets, key, t.(usage := Some(actual)), k);
        if actual.Some? {
          AdjustedCounters(b, t.counters, actual.value - t.reserved, k);
        }
      }
    }
  }

  // ---- Rate windows ------------------------------------------------------------------------------------

  ghost predicate Ordered(xs: seq<real>) {
    forall i, j :: 0 <= i <= j < |xs| ==> xs[i] <= xs[j]
  }

  /** Any `limit` + 1 consecutive admissions span at least a minute. */
  ghost predicate Spaced(xs: seq<real>, limit: nat) {
    forall i, j :: 0 <= i <= j < |xs| && j - i >= limit ==> xs[j] - xs[i] >= 60.0
  }

  /** The retained window is the recent end of the history. */
  ghost predicate WindowIs(xs: seq<real>, window: seq<real>, now: real) {
    && |window| <= |xs| && window == xs[|xs| - |window|..]
    && (forall i :: 0 <= i < |xs| - |window| ==> xs[i] <= now - 60.0)
    && (forall i :: 0 <= i < |xs| ==> xs[i] <= now)
  }

  ghost predicate RateOk(p: Policies, s: System, id: ScopeId) {
    var xs := AdmittedTo(s, id);
    Ordered(xs) && Spaced(xs, p.daily(id).callsPerMinute) && WindowIs(xs, RatesOf(s.budget, id), s.now)
  }

  lemma {:induction false} PruneIs(times: seq<real>, now: real)
    ensures |Prune(times, now)| <= |times| && Prune(times, now) == times[|times| - |Prune(times, now)|..]
    ensures forall i :: 0 <= i < |times| - |Prune(times, now)| ==> times[i] <= now - 60.0
  {
    if times != [] && times[0] <= now - 60.0 {
      PruneIs(times[1..], now);
    }
  }

  lemma PrunedWindow(xs: seq<real>, window: seq<real>, before: real, now: real)
    requires WindowIs(xs, window, before) && before <= now
    ensures WindowIs(xs, window, now) && WindowIs(xs, Prune(window, now), now)
  {
    PruneIs(window, now);
  }

  lemma StampedWindow(xs: seq<real>, window: seq<real>, now: real, limit: nat)
    requires Ordered(xs) && Spaced(xs, limit) && WindowIs(xs, window, now) && |window| < limit
    ensures Ordered(xs + [now]) && Spaced(xs + [now], limit) && WindowIs(xs + [now], window + [now], now)
  {
    var ys := xs + [now];
    forall i, j | 0 <= i <= j < |ys| && j - i >= limit
      ensures ys[j] - ys[i] >= 60.0
    {
      if j == |xs| {
        assert i < |xs| - |window|;
      }
    }
  }

  lemma ReserveKeepsRate(p: Policies, s: System, a: Act, id: ScopeId)
    requires a.DoReserve? && Possible(s, a) && RateOk(p, s, id)
    ensures RateOk(p, Next(p, s, a), id)
  {
    hide Prune, Reserve, Admitted, CounterOf, Ordered, Spaced, WindowIs;
    var c := a.call;
    ReserveIs(s.budget, c, a.fingerprint, a.units, p.daily(WorkspaceId(c.workspace)), p.daily(AgentId(c.workspace, c.agent)),
              p.decision(CycleId(c.workspace, c.agent, c.decision)), a.now, a.day);
    var t := Next(p, s, a);
    PrunedWindow(AdmittedTo(s, id), RatesOf(s.budget, id), s.now, a.now);
    if AdmittedTo(t, id) != AdmittedTo(s, id) {
      StampedWindow(AdmittedTo(s, id), Prune(RatesOf(s.budget, id), a.now), a.now, p.daily(id).callsPerMinute);
    }
  }

  // ---- Caps -------------------------------------------------------------------------------------------------

  ghost predicate CallsCapped(p: Policies, b: Budget) {
    && (forall s, day :: CounterOf(b, Daily(s, day)).calls <= p.daily(s).callsPerDay)
    && forall c :: CounterOf(b, ForDecision(c)).calls <= p.decision(c).maxCalls
  }

  ghost predicate UnitsCapped(p: Policies, b: Budget) {
    && (forall s, day :: CounterOf(b, Daily(s, day)).units <= p.daily(s).dailyUnits)
    && forall c :: CounterOf(b, ForDecision(c)).units <= p.decision(c).maxUnits
  }

  lemma AdmittedCounter(p: Policies, b: Budget, r: Budget, c: CallScope, units: nat, t: Ticket, now: real, day: int, k: CounterKey)
    requires Admitted(b, r, c, units, t, day)
    requires Passed(b, c, units, p.daily(WorkspaceId(c.workspace)), p.daily(AgentId(c.workspace, c.agent)),
                    p.decision(CycleId(c.workspace, c.agent, c.decision)), now, day)
    ensures CounterOf(r, k) == CounterOf(b, k) ||
            (match k
             case Daily(s, d) => CounterOf(r, k).units <= p.daily(s).dailyUnits && CounterOf(r, k).calls <= p.daily(s).callsPerDay
             case ForDecision(id) => CounterOf(r, k).units <= p.decision(id).maxUnits && CounterOf(r, k).calls <= p.decision(id).maxCalls)
  {
    hide ChargeAll, Prune;
    KeysDistinct(c, day);
    ChargedCounters(b, KeysOf(c, day), units, k);
  }

  lemma ReserveKeepsCaps(p: Policies, s: System, a: Act)
    requires a.DoReserve? && Possible(s, a)
    ensures CallsCapped(p, s.budget) ==> CallsCapped(p, Next(p, s, a).budget)
    ensures UnitsCapped(p, s.budget) ==> UnitsCapped(p, Next(p, s, a).budget)
  {
    hide Prune, Reserve, ChargeAll, WindowsMove, Passed, Admitted, CounterOf;
    var c, b, r := a.call, s.budget, Next(p, s, a).budget;
    var step := ReserveUnder(p, b, c, a.fingerprint, a.units, a.now, a.day);
    ReserveIs(b, c, a.fingerprint, a.units, p.daily(WorkspaceId(c.workspace)), p.daily(AgentId(c.workspace, c.agent)),
              p.decision(CycleId(c.workspace, c.agent, c.decision)), a.now, a.day);
    if step.result.Ok? && step.result.value.first {
      forall k
        ensures CounterOf(r, k) == CounterOf(b, k) ||
                (match k
                 case Daily(s, d) => CounterOf(r, k).units <= p.daily(s).dailyUnits && CounterOf(r, k).calls <= p.daily(s).callsPerDay
                 case ForDecision(id) => CounterOf(r, k).units <= p.decision(id).maxUnits && CounterOf(r, k).calls <= p.decision(id).maxCalls)
      {
        AdmittedCounter(p, b, r, c, a.units, step.result.value.ticket, a.now, a.day, k);
      }
    } else {
      SameCounters(b, r);
    }
  }

  lemma FinishKeepsCaps(p: Policies, s: System, a: Act)
    requires a.DoFinish? && Possible(s, a) && CountersOk(s.budget)
    ensures CallsCapped(p, s.budget) ==> CallsCapped(p, Next(p, s, a).budget)
    ensures Honest(s, a) && UnitsCapped(p, s.budget) ==> UnitsCapped(p, Next(p, s, a).budget)
  {
    hide AdjustAll, SumMap, UnitCharges, CallCharges;
    var b, t := s.budget, s.budget.tickets[a.key];
    if t.usage.None? && a.actual.Some? {
      forall k
        ensures CounterOf(Next(p, s, a).budget, k).calls == CounterOf(b, k).calls
        ensures Honest(s, a) ==> CounterOf(Next(p, s, a).budget, k).units <= CounterOf(b, k).units
      {
        AdjustedCounters(b, t.counters, a.actual.value - t.reserved, k);
      }
    } else {
      SameCounters(b, Next(p, s, a).budget);
    }
  }

  // ---- Theorems ------------------------------------------------------------------------------------------------

  ghost predicate SystemInv(p: Policies, s: System) {
    CountersOk(s.budget) && CallsCapped(p, s.budget) && forall id :: RateOk(p, s, id)
  }

  lemma NextKeeps(p: Policies, s: System, a: Act)
    requires SystemInv(p, s) && Possible(s, a)
    ensures SystemInv(p, Next(p, s, a))
    ensures Honest(s, a) && UnitsCapped(p, s.budget) ==> UnitsCapped(p, Next(p, s, a).budget)
  {
    hide CountersOk, CallsCapped, UnitsCapped, Reserve, Honest, AdjustAll;
    if a.DoReserve? {
      ReserveKeepsCounters(p, s.budget, a.call, a.fingerprint, a.units, a.now, a.day);
      ReserveKeepsCaps(p, s, a);
      forall id
        ensures RateOk(p, Next(p, s, a), id)
      {
        ReserveKeepsRate(p, s, a, id);
      }
    } else {
      FinishKeepsCounters(s.budget, a.key, a.actual);
      FinishKeepsCaps(p, s, a);
      FinishRates(s.budget, a.key, a.actual);
      forall id
        ensures RateOk(p, Next(p, s, a), id)
      {
        assert RateOk(p, s, id);
      }
    }
  }

  lemma FinishRates(b: Budget, key: TicketKey, actual: Option<int>)
    requires CountersOk(b) && key in b.tickets
    ensures Finish(b, key, actual).budget.rates == b.rates
  {
    hide AdjustAll, SumMap;
    var t := b.tickets[key];
    if actual.Some? {
      AdjustedCounters(b, t.counters, actual.value - t.reserved, Daily(WorkspaceId(0), 0));
    }
  }

  lemma {:induction false} RunKeeps(p: Policies, s: System, acts: seq<Act>, honest: bool, t: System)
    requires SystemInv(p, s) && Run(p, s, acts, honest, t)
    ensures SystemInv(p, t)
    ensures honest && UnitsCapped(p, s.budget) ==> UnitsCapped(p, t.budget)
    decreases |acts|
  {
    hide SystemInv, UnitsCapped, Next, Honest;
    if acts != [] {
      NextKeeps(p, s, acts[0]);
      RunKeeps(p, Next(p, s, acts[0]), acts[1..], honest, t);
    }
  }

  lemma EmptyInv(p: Policies, capacity: nat)
    requires PoliciesOk(p)
    ensures SystemInv(p, Empty(capacity)) && UnitsCapped(p, Empty(capacity).budget)
  {
    assert forall k :: UnitCharges(map[], k) == map[] && CallCharges(map[], k) == map[];
  }

  /** One of the two half-open minutes starting at `t`. */
  predicate InWindow(x: real, t: real, fromOpen: bool) {
    if fromOpen then t < x <= t + 60.0 else t <= x < t + 60.0
  }

  function CountIn(xs: seq<real>, t: real, fromOpen: bool): nat {
    if xs == [] then 0
    else CountIn(xs[..|xs| - 1], t, fromOpen) + if InWindow(xs[|xs| - 1], t, fromOpen) then 1 else 0
  }

  lemma {:induction false} CountBelow(xs: seq<real>, t: real, fromOpen: bool, k: nat)
    requires k <= |xs| && forall i :: 0 <= i < k ==> !InWindow(xs[i], t, fromOpen)
    ensures CountIn(xs, t, fromOpen) <= |xs| - k
  {
    if k < |xs| {
      CountBelow(xs[..|xs| - 1], t, fromOpen, k);
    } else if xs != [] {
      CountBelow(xs[..|xs| - 1], t, fromOpen, k - 1);
    }
  }

  lemma {:induction false} WindowCount(xs: seq<real>, limit: nat, t: real, fromOpen: bool)
    requires Ordered(xs) && Spaced(xs, limit) && limit >= 1
    ensures CountIn(xs, t, fromOpen) <= limit
  {
    if xs != [] {
      var n := |xs| - 1;
      if InWindow(xs[n], t, fromOpen) {
        var k := if n + 1 < limit then 0 else n + 1 - limit;
        CountBelow(xs, t, fromOpen, k);
      } else {
        WindowCount(xs[..n], limit, t, fromOpen);
      }
    }
  }

  /**
   * Whatever is reserved and finished, no half-open minute holds more admissions of a scope than its
   * limit; every counter is the total of its tickets, actual cost where known and reservation where
   * not; and no scope makes more calls than allowed.
   */
  lemma BudgetsAreKept(
      p: Policies, capacity: nat, acts: seq<Act>, t: System, id: ScopeId, from: real, fromOpen: bool, k: CounterKey)
    requires PoliciesOk(p) && Run(p, Empty(capacity), acts, false, t)
    ensures CountIn(AdmittedTo(t, id), from, fromOpen) <= p.daily(id).callsPerMinute
    ensures CounterOf(t.budget, k).units == SumMap(UnitCharges(t.budget.tickets, k))
    ensures CounterOf(t.budget, k).calls == SumMap(CallCharges(t.budget.tickets, k))
    ensures CallsCapped(p, t.budget)
  {
    hide Run, SumMap, UnitCharges, CallCharges, CallsCapped, UnitsCapped, Empty, WindowIs;
    EmptyInv(p, capacity);
    RunKeeps(p, Empty(capacity), acts, false, t);
    assert RateOk(p, t, id);
    WindowCount(AdmittedTo(t, id), p.daily(id).callsPerMinute, from, fromOpen);
  }

  /** If no provider exceeds its reservation, no workspace, agent or decision ever spends beyond its cap. */
  lemma SpendingIsCapped(p: Policies, capacity: nat, acts: seq<Act>, t: System)
    requires PoliciesOk(p) && Run(p, Empty(capacity), acts, true, t)
    ensures UnitsCapped(p, t.budget)
  {
    hide Run, UnitsCapped, SystemInv, Empty;
    EmptyInv(p, capacity);
    RunKeeps(p, Empty(capacity), acts, true, t);
  }

  // ---- Spending under the tariff ---------------------------------------------------------------------------------

  /** The route of a call and the token bounds it is reserved for. */
  datatype Metering = Metering(route: Route, maxInput: nat, maxOutput: nat)

  function Ceiling(m: Metering): int {
    CostUnits(m.route, m.maxInput, m.maxOutput)
  }

  /** Reservation and actual cost are what the tariff says, and no provider exceeds its token bounds. */
  ghost predicate Metered(meters: TicketKey -> Metering, a: Act) {
    match a
    case DoReserve(c, _, units, _, _) => units == Ceiling(meters(TicketKey(c.workspace, c.key)))
    case DoFinish(key, actual) =>
      actual.Some? ==>
        var m := meters(key);
        exists input: nat, output: nat ::
          input <= m.maxInput && output <= m.maxOutput && actual.value == CostUnits(m.route, input, output)
  }

  ghost predicate ReservedByTariff(meters: TicketKey -> Metering, b: Budget) {
    forall k :: k in b.tickets ==> b.tickets[k].reserved == Ceiling(meters(k))
  }

  lemma MeteredIsHonest(meters: TicketKey -> Metering, s: System, a: Act)
    requires ReservedByTariff(meters, s.budget) && Metered(meters, a)
    ensures Honest(s, a)
  {
    hide CostUnits;
    if a.DoFinish? && a.key in s.budget.tickets && a.actual.Some? {
      var m := meters(a.key);
      var input: nat, output: nat :|
        input <= m.maxInput && output <= m.maxOutput && a.actual.value == CostUnits(m.route, input, output);
      CostIsMonotone(m.route, input, output, m.maxInput, m.maxOutput);
    }
  }

  lemma TariffKept(p: Policies, meters: TicketKey -> Metering, s: System, a: Act)
    requires ReservedByTariff(meters, s.budget) && Metered(meters, a) && Possible(s, a) && CountersOk(s.budget)
    ensures ReservedByTariff(meters, Next(p, s, a).budget)
  {
    hide Reserve, Prune, Passed, RatesOf, ChargeAll, AdjustAll, Ceiling, KeysOf, WindowsMove, SumMap, UnitCharges, CallCharges;
    match a
    case DoReserve(c, fingerprint, units, now, day) =>
      ReserveIs(s.budget, c, fingerprint, units, p.daily(WorkspaceId(c.workspace)), p.daily(AgentId(c.workspace, c.agent)),
                p.decision(CycleId(c.workspace, c.agent, c.decision)), now, day);
    case DoFinish(key, actual) =>
  }

  lemma {:induction false} MeteredRun(p: Policies, meters: TicketKey -> Metering, s: System, acts: seq<Act>, t: System)
    requires SystemInv(p, s) && ReservedByTariff(meters, s.budget) && Run(p, s, acts, false, t)
    requires forall a :: a in acts ==> Metered(meters, a)
    ensures Run(p, s, acts, true, t)
    decreases |acts|
  {
    hide Next, Honest, Metered, ReservedByTariff, CallsCapped;
    if acts != [] {
      MeteredIsHonest(meters, s, acts[0]);
      TariffKept(p, meters, s, acts[0]);
      NextKeeps(p, s, acts[0]);
      MeteredRun(p, meters, Next(p, s, acts[0]), acts[1..], t);
    }
  }

  /**
   * With reservations and costs read off the tariff, and no provider beyond its declared token bounds,
   * no workspace, agent or decision ever spends beyond its cap.
   */
  lemma MeteredSpendingIsCapped(p: Policies, meters: TicketKey -> Metering, capacity: nat, acts: seq<Act>, t: System)
    requires PoliciesOk(p) && Run(p, Empty(capacity), acts, false, t)
    requires forall a :: a in acts ==> Metered(meters, a)
    ensures UnitsCapped(p, t.budget)
  {
    hide Run, UnitsCapped, SystemInv, Metered;
    EmptyInv(p, capacity);
    MeteredRun(p, meters, Empty(capacity), acts, t);
    SpendingIsCapped(p, capacity, acts, t);
  }
}

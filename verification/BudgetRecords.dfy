/** One admission a key, one deadline a decision, and room counted over what was admitted. */
module BudgetRecords {
  import opened Outcomes
  import opened Sums
  import opened Domain
  import opened BudgetModel
  import opened BudgetSafety
  import opened BudgetHistory

  // ---- Tickets and cycles -------------------------------------------------------------------------

  /** The first usage reported for a key. */
  function FirstReport(acts: seq<Act>, key: TicketKey): Option<Option<int>> {
    if acts == [] then None
    else if acts[0].DoFinish? && acts[0].key == key then Some(acts[0].actual)
    else FirstReport(acts[1..], key)
  }

  /** Tickets and cycles stay; a ticket gains its usage once, from the first report. */
  ghost predicate Keeps(s: System, t: System, acts: seq<Act>) {
    && s.budget.capacity == t.budget.capacity
    && (forall id :: id in s.budget.cycles ==> id in t.budget.cycles && t.budget.cycles[id] == s.budget.cycles[id])
    && forall k :: k in s.budget.tickets ==>
         && k in t.budget.tickets
         && t.budget.tickets[k] == s.budget.tickets[k].(
              usage := if s.budget.tickets[k].usage.Some? then s.budget.tickets[k].usage else FirstReport(acts, k))
  }

  /** A decision has a cycle as soon as a ticket of it was admitted, and tickets have their decision's deadline. */
  ghost predicate CyclesOk(b: Budget) {
    TicketsForCycles(b) && CyclesForTickets(b)
  }

  ghost predicate TicketsForCycles(b: Budget) {
    forall id :: id in b.cycles ==> exists k :: k in b.tickets && ForDecision(id) in b.tickets[k].counters
  }

  ghost predicate CyclesForTickets(b: Budget) {
    forall k, id :: k in b.tickets && ForDecision(id) in b.tickets[k].counters ==>
         id in b.cycles && b.tickets[k].deadline == b.cycles[id].deadline
  }

  lemma AdmissionIs(b: Budget, c: CallScope, fingerprint: Digest, units: int, workspace: ScopeBudget, agent: ScopeBudget,
                    decision: DecisionBudget, now: real, day: int)
    ensures var r := Reserve(b, c, fingerprint, units, workspace, agent, decision, now, day);
            var id := CycleId(c.workspace, c.agent, c.decision);
            && r.budget.capacity == b.capacity
            && (r.result.Ok? && r.result.value.first ==>
                  && TicketKey(c.workspace, c.key) !in b.tickets
                  && id in r.budget.cycles
                  && r.budget.cycles == b.cycles[id := r.budget.cycles[id]]
                  && (if id in b.cycles then r.budget.cycles[id] == b.cycles[id]
                      else r.budget.cycles[id] == Cycle(c.version, now + decision.timeoutMs as real / 1000.0))
                  && r.budget.cycles[id].version == c.version && now < r.budget.cycles[id].deadline
                  && r.result.value.ticket == Ticket(fingerprint, units, KeysOf(c, day), r.budget.cycles[id].deadline, None)
                  && r.budget.tickets == b.tickets[TicketKey(c.workspace, c.key) := r.result.value.ticket])
            && (!(r.result.Ok? && r.result.value.first) ==> r.budget == b.(rates := r.budget.rates))
  {
    hide CheckScope, ChargeAll, CounterOf, Stamped, Reserve;
    ReserveShape(b, c, fingerprint, units, workspace, agent, decision, now, day);
    AdmittedExactlyWithRoom(b, c, fingerprint, units, workspace, agent, decision, now, day);
    CheckedIs(b, c, units, workspace, agent, now, day);
    hide Checked, Passed;
    var p := Checked(b, c, units, workspace, agent, now, day).budget;
    var stamped := Stamped(Stamped(p, WorkspaceId(c.workspace), now), AgentId(c.workspace, c.agent), now);
    SameCharges(stamped, stamped, KeysOf(c, day), units);
    StampedKeeps(p, WorkspaceId(c.workspace), now);
    StampedKeeps(Stamped(p, WorkspaceId(c.workspace), now), AgentId(c.workspace, c.agent), now);
  }

  lemma StampedKeeps(b: Budget, s: ScopeId, now: real)
    ensures Stamped(b, s, now) == b.(rates := Stamped(b, s, now).rates)
  {
  }

  lemma FinishIs(b: Budget, key: TicketKey, actual: Option<int>)
    requires key in b.tickets && CountersOk(b)
    ensures var r := Finish(b, key, actual);
            && (r.result.Err? <==> b.tickets[key].usage.Some?)
            && (r.result.Err? ==> r.budget == b)
            && r.budget.cycles == b.cycles && r.budget.capacity == b.capacity
            && (r.result.Ok? ==> r.budget.tickets == b.tickets[key := b.tickets[key].(usage := Some(actual))])
  {
    hide AdjustAll, SumMap;
    if actual.Some? {
      AdjustedCounters(b, b.tickets[key].counters, actual.value - b.tickets[key].reserved, Daily(WorkspaceId(0), 0));
    }
  }

  lemma StepKeeps(p: Policies, s: System, a: Act)
    requires Possible(s, a) && CountersOk(s.budget) && CyclesOk(s.budget)
    ensures Keeps(s, Next(p, s, a), [a]) && CyclesOk(Next(p, s, a).budget)
  {
    hide Reserve, Finish, CountersOk, CyclesOk, FirstReport;
    OnlyReport(a);
    match a {
      case DoReserve(c, fingerprint, units, now, day) =>
        var ws, ag, d := p.daily(WorkspaceId(c.workspace)), p.daily(AgentId(c.workspace, c.agent)), p.decision(CycleId(c.workspace, c.agent, c.decision));
        AdmissionIs(s.budget, c, fingerprint, units, ws, ag, d, now, day);
        AdmissionKeepsCycles(s.budget, c, fingerprint, units, ws, ag, d, now, day);
      case DoFinish(key, actual) =>
        FinishIs(s.budget, key, actual);
        SameDeadlines(s.budget, Next(p, s, a).budget);
    }
  }

  lemma AdmissionKeepsCycles(b: Budget, c: CallScope, fingerprint: Digest, units: int, workspace: ScopeBudget, agent: ScopeBudget,
                             decision: DecisionBudget, now: real, day: int)
    requires CyclesOk(b)
    ensures CyclesOk(Reserve(b, c, fingerprint, units, workspace, agent, decision, now, day).budget)
  {
    hide Reserve, TicketsForCycles, CyclesForTickets;
    AdmissionIs(b, c, fingerprint, units, workspace, agent, decision, now, day);
    var r := Reserve(b, c, fingerprint, units, workspace, agent, decision, now, day);
    if r.result.Ok? && r.result.value.first {
      AdmittedHasCycle(b, r.budget, c, r.result.value.ticket, day);
      AdmittedDeadlines(b, r.budget, c, r.result.value.ticket, day);
    } else {
      SameDeadlines(b, r.budget);
    }
  }

  /** The one new ticket belongs to its decision's cycle, which no earlier ticket sees moved. */
  ghost predicate JoinsCycle(b: Budget, r: Budget, c: CallScope, t: Ticket, day: int) {
    var id := CycleId(c.workspace, c.agent, c.decision);
    && TicketKey(c.workspace, c.key) !in b.tickets && r.tickets == b.tickets[TicketKey(c.workspace, c.key) := t]
    && t.counters == KeysOf(c, day) && id in r.cycles && t.deadline == r.cycles[id].deadline
    && r.cycles == b.cycles[id := r.cycles[id]] && (id in b.cycles ==> r.cycles[id] == b.cycles[id])
  }

  lemma AdmittedHasCycle(b: Budget, r: Budget, c: CallScope, t: Ticket, day: int)
    requires TicketsForCycles(b) && JoinsCycle(b, r, c, t, day)
    ensures TicketsForCycles(r)
  {
    var key, own := TicketKey(c.workspace, c.key), CycleId(c.workspace, c.agent, c.decision);
    assert t.counters[2] == ForDecision(own);
    forall id | id in r.cycles
      ensures exists k :: k in r.tickets && ForDecision(id) in r.tickets[k].counters
    {
      if id == own {
        assert ForDecision(id) in r.tickets[key].counters;
      } else {
        var k :| k in b.tickets && ForDecision(id) in b.tickets[k].counters;
        assert ForDecision(id) in r.tickets[k].counters;
      }
    }
  }

  lemma AdmittedDeadlines(b: Budget, r: Budget, c: CallScope, t: Ticket, day: int)
    requires CyclesForTickets(b) && JoinsCycle(b, r, c, t, day)
    ensures CyclesForTickets(r)
  {
    forall k, id | k in r.tickets && ForDecision(id) in r.tickets[k].counters
      ensures id in r.cycles && r.tickets[k].deadline == r.cycles[id].deadline
    {
      if k == TicketKey(c.workspace, c.key) {
        OwnDecision(c, day, id);
      }
    }
  }

  lemma OwnDecision(c: CallScope, day: int, id: CycleId)
    requires ForDecision(id) in KeysOf(c, day)
    ensures id == CycleId(c.workspace, c.agent, c.decision)
  {
  }

  lemma SameDeadlines(b: Budget, r: Budget)
    requires CyclesOk(b) && r.cycles == b.cycles && r.tickets.Keys == b.tickets.Keys
    requires forall k :: k in b.tickets ==> r.tickets[k].counters == b.tickets[k].counters && r.tickets[k].deadline == b.tickets[k].deadline
    ensures CyclesOk(r)
  {
    forall id | id in r.cycles
      ensures exists k :: k in r.tickets && ForDecision(id) in r.tickets[k].counters
    {
      var k :| k in b.tickets && ForDecision(id) in b.tickets[k].counters;
      assert ForDecision(id) in r.tickets[k].counters;
    }
  }

  lemma KeepsJoined(s: System, t: System, u: System, a: Act, acts: seq<Act>)
    requires Keeps(s, t, [a]) && Keeps(t, u, acts)
    ensures Keeps(s, u, [a] + acts)
  {
    forall k | k in s.budget.tickets
      ensures u.budget.tickets[k] == s.budget.tickets[k].(
                usage := if s.budget.tickets[k].usage.Some? then s.budget.tickets[k].usage else FirstReport([a] + acts, k))
    {
      OneReport(a, acts, k);
      OnlyReport(a);
    }
  }

  lemma OnlyReport(a: Act)
    ensures forall k :: FirstReport([a], k) == if a.DoFinish? && a.key == k then Some(a.actual) else None
  {
    assert [a][1..] == [];
  }

  lemma OneReport(a: Act, acts: seq<Act>, key: TicketKey)
    ensures FirstReport([a] + acts, key) == if a.DoFinish? && a.key == key then Some(a.actual) else FirstReport(acts, key)
  {
    assert ([a] + acts)[1..] == acts;
  }

  /**
   * From any reachable point on, tickets and decision cycles stay what they are, except that a ticket gains
   * its usage from the first report about it and from no later one.
   */
  lemma {:induction false} RecordsStay(p: Policies, s: System, acts: seq<Act>, t: System)
    requires SystemInv(p, s) && CyclesOk(s.budget) && Run(p, s, acts, false, t)
    ensures SystemInv(p, t) && CyclesOk(t.budget) && Keeps(s, t, acts)
    decreases |acts|
  {
    hide SystemInv, CyclesOk, Keeps, Next, Possible;
    if acts == [] {
      NothingReported(s);
    } else {
      InvCounters(p, s);
      StepKeeps(p, s, acts[0]);
      NextKeeps(p, s, acts[0]);
      var n := Next(p, s, acts[0]);
      RecordsStay(p, n, acts[1..], t);
      KeepsJoined(s, n, t, acts[0], acts[1..]);
      assert [acts[0]] + acts[1..] == acts;
    }
  }

  lemma NothingReported(s: System)
    ensures Keeps(s, s, [])
  {
  }

  lemma InvCounters(p: Policies, s: System)
    requires SystemInv(p, s)
    ensures CountersOk(s.budget)
  {
  }

  // ---- Room ------------------------------------------------------------------------------------------

  lemma {:induction false} AllCounted(xs: seq<real>, t: real, n: nat)
    requires n <= |xs|
    requires forall i :: 0 <= i < |xs| ==> (InWindow(xs[i], t, true) <==> i >= |xs| - n)
    ensures CountIn(xs, t, true) == n
  {
    if xs != [] {
      AllCounted(xs[..|xs| - 1], t, if n == 0 then 0 else n - 1);
    }
  }

  lemma {:induction false} PrunedIsRecent(times: seq<real>, now: real)
    requires Ordered(times)
    ensures forall i :: 0 <= i < |Prune(times, now)| ==> Prune(times, now)[i] > now - 60.0
  {
    if times != [] && times[0] <= now - 60.0 {
      PrunedIsRecent(times[1..], now);
    }
  }

  /** What is left of a window after pruning is what was admitted in the last minute. */
  lemma PrunedCounts(p: Policies, s: System, id: ScopeId, now: real)
    requires RateOk(p, s, id) && s.now <= now
    ensures |Prune(RatesOf(s.budget, id), now)| == CountIn(AdmittedTo(s, id), now - 60.0, true)
  {
    hide Prune, CountIn, RatesOf, Spaced;
    var xs, window := AdmittedTo(s, id), RatesOf(s.budget, id);
    PrunedWindow(xs, window, s.now, now);
    SuffixOrdered(xs, |xs| - |window|);
    PrunedIsRecent(window, now);
    AllCounted(xs, now - 60.0, |Prune(window, now)|);
  }

  lemma SuffixOrdered(xs: seq<real>, k: nat)
    requires Ordered(xs) && k <= |xs|
    ensures Ordered(xs[k..])
  {
  }

  /** Room in one scope for one more call, by what was admitted and what it cost. */
  ghost predicate ScopeHasRoom(s: System, id: ScopeId, limits: ScopeBudget, units: int, now: real, day: int) {
    && CountIn(AdmittedTo(s, id), now - 60.0, true) < limits.callsPerMinute
    && SumMap(UnitCharges(s.budget.tickets, Daily(id, day))) + units <= limits.dailyUnits
    && SumMap(CallCharges(s.budget.tickets, Daily(id, day))) < limits.callsPerDay
  }

  ghost predicate DecisionHasRoom(s: System, id: CycleId, limits: DecisionBudget, units: int) {
    && SumMap(UnitCharges(s.budget.tickets, ForDecision(id))) + units <= limits.maxUnits
    && SumMap(CallCharges(s.budget.tickets, ForDecision(id))) < limits.maxCalls
  }

  /** The workspace, the agent and the decision of a call have room for it, and so has the ledger. */
  ghost predicate HasRoom(p: Policies, s: System, c: CallScope, units: int, now: real, day: int) {
    && |s.budget.tickets| < s.budget.capacity
    && ScopeHasRoom(s, WorkspaceId(c.workspace), p.daily(WorkspaceId(c.workspace)), units, now, day)
    && ScopeHasRoom(s, AgentId(c.workspace, c.agent), p.daily(AgentId(c.workspace, c.agent)), units, now, day)
    && DecisionHasRoom(s, CycleId(c.workspace, c.agent, c.decision), p.decision(CycleId(c.workspace, c.agent, c.decision)), units)
  }

  lemma ScopeRoomIs(p: Policies, s: System, id: ScopeId, units: int, now: real, day: int)
    requires SystemInv(p, s) && s.now <= now
    ensures ScopeHasRoom(s, id, p.daily(id), units, now, day) <==>
            (|Prune(RatesOf(s.budget, id), now)| < p.daily(id).callsPerMinute
             && CounterOf(s.budget, Daily(id, day)).units + units <= p.daily(id).dailyUnits
             && CounterOf(s.budget, Daily(id, day)).calls < p.daily(id).callsPerDay)
  {
    hide Prune, CountIn, RatesOf, CounterOf, SumMap, UnitCharges, CallCharges, RateOk, CallsCapped;
    PrunedCounts(p, s, id, now);
  }

  lemma DecisionRoomIs(p: Policies, s: System, id: CycleId, units: int)
    requires SystemInv(p, s)
    ensures DecisionHasRoom(s, id, p.decision(id), units) <==>
            (CounterOf(s.budget, ForDecision(id)).units + units <= p.decision(id).maxUnits
             && CounterOf(s.budget, ForDecision(id)).calls < p.decision(id).maxCalls)
  {
    hide CounterOf, SumMap, UnitCharges, CallCharges, RateOk, CallsCapped;
  }

  /**
   * A key that was never admitted is admitted exactly when there is room and its decision, once started,
   * was started for this version and has time left.
   */
  lemma AdmittedExactly(p: Policies, s: System, c: CallScope, fingerprint: Digest, units: nat, now: real, day: int)
    requires SystemInv(p, s) && s.now <= now && TicketKey(c.workspace, c.key) !in s.budget.tickets
    ensures var r := ReserveUnder(p, s.budget, c, fingerprint, units, now, day).result;
            var id := CycleId(c.workspace, c.agent, c.decision);
            r.Ok? <==>
              && HasRoom(p, s, c, units, now, day)
              && (if id in s.budget.cycles then s.budget.cycles[id].version == c.version && now < s.budget.cycles[id].deadline
                  else p.decision(id).timeoutMs > 0)
  {
    var ws, ag, id := WorkspaceId(c.workspace), AgentId(c.workspace, c.agent), CycleId(c.workspace, c.agent, c.decision);
    NewIsFirst(s.budget, c, fingerprint, units, p.daily(ws), p.daily(ag), p.decision(id), now, day);
    hide Prune, RatesOf, CounterOf, Reserve, SystemInv, ScopeHasRoom, DecisionHasRoom;
    AdmittedExactlyWithRoom(s.budget, c, fingerprint, units, p.daily(ws), p.daily(ag), p.decision(id), now, day);
    ScopeRoomIs(p, s, ws, units, now, day);
    ScopeRoomIs(p, s, ag, units, now, day);
    DecisionRoomIs(p, s, id, units);
    PassedIs(s.budget, c, units, p.daily(ws), p.daily(ag), p.decision(id), now, day);
    hide Passed;
  }

  lemma PassedIs(b: Budget, c: CallScope, units: int, workspace: ScopeBudget, agent: ScopeBudget, decision: DecisionBudget, now: real, day: int)
    ensures var ws, ag, id := WorkspaceId(c.workspace), AgentId(c.workspace, c.agent), CycleId(c.workspace, c.agent, c.decision);
            Passed(b, c, units, workspace, agent, decision, now, day) <==>
              && TicketKey(c.workspace, c.key) !in b.tickets
              && |Prune(RatesOf(b, ws), now)| < workspace.callsPerMinute
              && CounterOf(b, Daily(ws, day)).units + units <= workspace.dailyUnits
              && CounterOf(b, Daily(ws, day)).calls < workspace.callsPerDay
              && |Prune(RatesOf(b, ag), now)| < agent.callsPerMinute
              && CounterOf(b, Daily(ag, day)).units + units <= agent.dailyUnits
              && CounterOf(b, Daily(ag, day)).calls < agent.callsPerDay
              && CounterOf(b, ForDecision(id)).units + units <= decision.maxUnits
              && CounterOf(b, ForDecision(id)).calls < decision.maxCalls
  {
    hide Prune, RatesOf, CounterOf;
    assert OwnScope(c, WorkspaceId(c.workspace)) && OwnScope(c, AgentId(c.workspace, c.agent));
  }

  lemma NewIsFirst(b: Budget, c: CallScope, fingerprint: Digest, units: int, workspace: ScopeBudget, agent: ScopeBudget,
                   decision: DecisionBudget, now: real, day: int)
    requires TicketKey(c.workspace, c.key) !in b.tickets
    ensures var r := Reserve(b, c, fingerprint, units, workspace, agent, decision, now, day).result; r.Ok? ==> r.value.first
  {
    hide CheckScope, Admit, CounterOf;
  }

  // ---- Theorems --------------------------------------------------------------------------------------

  /** The call `a` reserves for is admitted in `s`. */
  ghost predicate Admits(p: Policies, s: System, a: Act) {
    && a.DoReserve? && Possible(s, a)
    && var r := ReserveUnder(p, s.budget, a.call, a.fingerprint, a.units, a.now, a.day).result; r.Ok? && r.value.first
  }

  lemma EmptyCycles(capacity: nat)
    ensures CyclesOk(Empty(capacity).budget)
  {
  }

  /** What an admission leaves for as long as the ledger lives. */
  lemma AdmissionLasts(p: Policies, capacity: nat, before: seq<Act>, s: System, a: Act, after: seq<Act>, t: System)
    requires PoliciesOk(p) && Run(p, Empty(capacity), before, false, s)
    requires Admits(p, s, a) && Run(p, Next(p, s, a), after, false, t)
    ensures var key, id := TicketKey(a.call.workspace, a.call.key), CycleId(a.call.workspace, a.call.agent, a.call.decision);
            && SystemInv(p, s) && SystemInv(p, t) && key !in s.budget.tickets && key in t.budget.tickets && id in t.budget.cycles
            && t.budget.tickets[key] ==
                 Ticket(a.fingerprint, a.units, KeysOf(a.call, a.day), t.budget.cycles[id].deadline, FirstReport(after, key))
            && ReserveUnder(p, s.budget, a.call, a.fingerprint, a.units, a.now, a.day).result.value.ticket ==
                 t.budget.tickets[key].(usage := None)
            && t.budget.cycles[id].version == a.call.version && a.now < t.budget.cycles[id].deadline
            && ((forall k :: k in s.budget.tickets ==> ForDecision(id) !in s.budget.tickets[k].counters) ==>
                  t.budget.cycles[id].deadline == a.now + p.decision(id).timeoutMs as real / 1000.0)
  {
    hide Run, SystemInv, Reserve, Empty;
    EmptyInv(p, capacity);
    EmptyCycles(capacity);
    RecordsStay(p, Empty(capacity), before, s);
    var c := a.call;
    AdmissionIs(s.budget, c, a.fingerprint, a.units, p.daily(WorkspaceId(c.workspace)), p.daily(AgentId(c.workspace, c.agent)),
                p.decision(CycleId(c.workspace, c.agent, c.decision)), a.now, a.day);
    InvCounters(p, s);
    hide CountersOk;
    StepKeeps(p, s, a);
    NextKeeps(p, s, a);
    RecordsStay(p, Next(p, s, a), after, t);
  }

  /**
   * A key is admitted once: whatever happened since, another call under it charges nothing, and gets the
   * ticket of the admission with the first usage reported for it; it is refused while no usage was
   * reported, and refused for good with another fingerprint.
   */
  lemma AdmittedOnce(p: Policies, capacity: nat, before: seq<Act>, s: System, a: Act, after: seq<Act>, t: System,
                     again: CallScope, fingerprint: Digest, units: nat, now: real, day: int)
    requires PoliciesOk(p) && Run(p, Empty(capacity), before, false, s)
    requires Admits(p, s, a) && Run(p, Next(p, s, a), after, false, t)
    requires again.workspace == a.call.workspace && again.key == a.call.key
    ensures var r := ReserveUnder(p, t.budget, again, fingerprint, units, now, day);
            var first := ReserveUnder(p, s.budget, a.call, a.fingerprint, a.units, a.now, a.day).result.value.ticket;
            var report := FirstReport(after, TicketKey(a.call.workspace, a.call.key));
            && r.budget == t.budget
            && r.result == if fingerprint != a.fingerprint then Err(IdempotencyConflict)
                           else if report.None? then Err(InProgress)
                           else Ok(Admission(first.(usage := report), false))
  {
    AdmissionLasts(p, capacity, before, s, a, after, t);
    hide Run, Admits, SystemInv, CheckScope;
  }

  /**
   * A decision's time runs from its first admitted call: whatever happened since, a later call of the
   * decision under a new key is admitted exactly when there is room, it is for the same version, and the
   * time since then is within the timeout; its ticket has the same deadline.
   */
  lemma DecisionRunsOutOfTime(p: Policies, capacity: nat, before: seq<Act>, s: System, a: Act, after: seq<Act>, t: System,
                              later: CallScope, fingerprint: Digest, units: nat, now: real, day: int)
    requires PoliciesOk(p) && Run(p, Empty(capacity), before, false, s)
    requires Admits(p, s, a) && Run(p, Next(p, s, a), after, false, t)
    requires var id := CycleId(a.call.workspace, a.call.agent, a.call.decision);
             forall k :: k in s.budget.tickets ==> ForDecision(id) !in s.budget.tickets[k].counters
    requires later.workspace == a.call.workspace && later.agent == a.call.agent && later.decision == a.call.decision
    requires TicketKey(later.workspace, later.key) !in t.budget.tickets && t.now <= now
    ensures var r := ReserveUnder(p, t.budget, later, fingerprint, units, now, day).result;
            var ends := a.now + p.decision(CycleId(later.workspace, later.agent, later.decision)).timeoutMs as real / 1000.0;
            && (r.Ok? <==> HasRoom(p, t, later, units, now, day) && later.version == a.call.version && now < ends)
            && (r.Ok? ==> r.value.ticket == Ticket(fingerprint, units, KeysOf(later, day), ends, None))
  {
    AdmissionLasts(p, capacity, before, s, a, after, t);
    AdmittedExactly(p, t, later, fingerprint, units, now, day);
    var ws, ag, id := WorkspaceId(later.workspace), AgentId(later.workspace, later.agent), CycleId(later.workspace, later.agent, later.decision);
    NewIsFirst(t.budget, later, fingerprint, units, p.daily(ws), p.daily(ag), p.decision(id), now, day);
    AdmissionIs(t.budget, later, fingerprint, units, p.daily(ws), p.daily(ag), p.decision(id), now, day);
    hide Run, Admits, SystemInv, Reserve, HasRoom;
  }

  /** Why a call was refused: each refusal names a limit that was reached. */
  lemma RefusalGrounds(p: Policies, s: System, c: CallScope, fingerprint: Digest, units: nat, now: real, day: int)
    requires SystemInv(p, s) && s.now <= now
    ensures var r := ReserveUnder(p, s.budget, c, fingerprint, units, now, day).result;
            var ws, ag, id := WorkspaceId(c.workspace), AgentId(c.workspace, c.agent), CycleId(c.workspace, c.agent, c.decision);
            r.Err? ==>
              match r.error
              case NoCapacity => |s.budget.tickets| >= s.budget.capacity
              case TimedOut => if id in s.budget.cycles then s.budget.cycles[id].deadline <= now else p.decision(id).timeoutMs == 0
              case CostBudget =>
                || SumMap(UnitCharges(s.budget.tickets, Daily(ws, day))) + units > p.daily(ws).dailyUnits
                || SumMap(UnitCharges(s.budget.tickets, Daily(ag, day))) + units > p.daily(ag).dailyUnits
                || SumMap(UnitCharges(s.budget.tickets, ForDecision(id))) + units > p.decision(id).maxUnits
              case CallBudget =>
                || SumMap(CallCharges(s.budget.tickets, Daily(ws, day))) >= p.daily(ws).callsPerDay
                || SumMap(CallCharges(s.budget.tickets, Daily(ag, day))) >= p.daily(ag).callsPerDay
                || SumMap(CallCharges(s.budget.tickets, ForDecision(id))) >= p.decision(id).maxCalls
              case RateBudget =>
                || CountIn(AdmittedTo(s, ws), now - 60.0, true) >= p.daily(ws).callsPerMinute
                || CountIn(AdmittedTo(s, ag), now - 60.0, true) >= p.daily(ag).callsPerMinute
              case InProgress => TicketKey(c.workspace, c.key) in s.budget.tickets
              case IdempotencyConflict =>
                TicketKey(c.workspace, c.key) in s.budget.tickets || (id in s.budget.cycles && s.budget.cycles[id].version != c.version)
              case _ => false
  {
    var ws, ag, id := WorkspaceId(c.workspace), AgentId(c.workspace, c.agent), CycleId(c.workspace, c.agent, c.decision);
    InvCounters(p, s);
    PrunedCounts(p, s, ws, now);
    PrunedCounts(p, s, ag, now);
    ReserveGrounds(s.budget, c, fingerprint, units, p.daily(ws), p.daily(ag), p.decision(id), now, day);
    hide CountIn, SumMap, UnitCharges, CallCharges, RateOk, CallsCapped, SystemInv, Reserve, Prune, RatesOf, CounterOf;
  }

  /** The grounds of one scope, in its counters and its pruned window. */
  ghost predicate ScopeGrounds(b: Budget, s: ScopeId, p: ScopeBudget, day: int, units: int, now: real, e: BudgetError) {
    || (e == CostBudget && CounterOf(b, Daily(s, day)).units + units > p.dailyUnits)
    || (e == CallBudget && CounterOf(b, Daily(s, day)).calls >= p.callsPerDay)
    || (e == RateBudget && |Prune(RatesOf(b, s), now)| >= p.callsPerMinute)
  }

  lemma ReserveGrounds(
      b: Budget, c: CallScope, fingerprint: Digest, units: int, workspace: ScopeBudget, agent: ScopeBudget,
      decision: DecisionBudget, now: real, day: int)
    ensures var r := Reserve(b, c, fingerprint, units, workspace, agent, decision, now, day).result;
            var ws, ag, id := WorkspaceId(c.workspace), AgentId(c.workspace, c.agent), CycleId(c.workspace, c.agent, c.decision);
            r.Err? ==>
              || (r.error == NoCapacity && |b.tickets| >= b.capacity)
              || (r.error == TimedOut && if id in b.cycles then b.cycles[id].deadline <= now else decision.timeoutMs == 0)
              || (r.error == InProgress && TicketKey(c.workspace, c.key) in b.tickets)
              || (r.error == IdempotencyConflict &&
                  (TicketKey(c.workspace, c.key) in b.tickets || (id in b.cycles && b.cycles[id].version != c.version)))
              || ScopeGrounds(b, ws, workspace, day, units, now, r.error)
              || ScopeGrounds(b, ag, agent, day, units, now, r.error)
              || (r.error == CostBudget && CounterOf(b, ForDecision(id)).units + units > decision.maxUnits)
              || (r.error == CallBudget && CounterOf(b, ForDecision(id)).calls >= decision.maxCalls)
  {
    hide CheckScope, Admit, Prune, CounterOf, ScopeGrounds;
    var ws, ag := WorkspaceId(c.workspace), AgentId(c.workspace, c.agent);
    var first := CheckScope(b, ws, workspace, day, units, now);
    GroundsOf(b, ws, workspace, day, units, now);
    CheckIs(b, ws, workspace, day, units, now);
    SameCounters(b, first.budget);
    var second := CheckScope(first.budget, ag, agent, day, units, now);
    GroundsOf(first.budget, ag, agent, day, units, now);
    CheckIs(first.budget, ag, agent, day, units, now);
    SameCounters(b, second.budget);
    if first.result.Ok? && second.result.Err? {
      SameGrounds(b, first.budget, ag, agent, day, units, now, second.result.error);
    }
  }

  lemma SameGrounds(b: Budget, r: Budget, s: ScopeId, p: ScopeBudget, day: int, units: int, now: real, e: BudgetError)
    requires ScopeGrounds(r, s, p, day, units, now, e) && r.counters == b.counters && RatesOf(r, s) == RatesOf(b, s)
    ensures ScopeGrounds(b, s, p, day, units, now, e)
  {
    hide Prune;
    SameCounters(b, r);
  }

  lemma GroundsOf(b: Budget, s: ScopeId, p: ScopeBudget, day: int, units: int, now: real)
    ensures var r := CheckScope(b, s, p, day, units, now).result; r.Err? ==> ScopeGrounds(b, s, p, day, units, now, r.error)
  {
  }
}

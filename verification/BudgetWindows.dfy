/** What a closed minute can hold: exact counts, their bound for every run, and runs that attain it. */
module BudgetWindows {
  import opened Outcomes
  import opened Sums
  import opened Domain
  import opened BudgetModel
  import opened BudgetSafety
  import opened BudgetHistory

  // ---- Counting admissions --------------------------------------------------------------------------

  function CountAt(xs: seq<real>, at: real): nat {
    if xs == [] then 0 else CountAt(xs[..|xs| - 1], at) + if xs[|xs| - 1] == at then 1 else 0
  }

  /** Admissions from `t` to `t` plus a minute, both ends included. */
  function CountClosed(xs: seq<real>, t: real): nat {
    if xs == [] then 0 else CountClosed(xs[..|xs| - 1], t) + if t <= xs[|xs| - 1] <= t + 60.0 then 1 else 0
  }

  /** A closed minute holds what either half-open one holds and what is exactly at its other end. */
  lemma {:induction false} ClosedIs(xs: seq<real>, t: real)
    ensures CountClosed(xs, t) == CountIn(xs, t, true) + CountAt(xs, t)
    ensures CountClosed(xs, t) == CountIn(xs, t, false) + CountAt(xs, t + 60.0)
    ensures CountAt(xs, t + 60.0) <= CountIn(xs, t, true)
    ensures CountAt(xs, t) <= CountIn(xs, t, false)
  {
    if xs != [] {
      ClosedIs(xs[..|xs| - 1], t);
    }
  }

  lemma {:induction false} CountAbove(xs: seq<real>, t: real, k: nat)
    requires k <= |xs| && (forall i :: 0 <= i < k ==> xs[i] <= t) && forall i :: k <= i < |xs| ==> t < xs[i] <= t + 60.0
    ensures CountIn(xs, t, true) == |xs| - k
  {
    if k < |xs| {
      CountAbove(xs[..|xs| - 1], t, k);
    } else if xs != [] {
      CountAbove(xs[..|xs| - 1], t, k - 1);
    }
  }

  lemma {:induction false} PrunedAreRecent(times: seq<real>, now: real)
    requires Ordered(times)
    ensures forall x :: x in Prune(times, now) ==> now - 60.0 < x
  {
    if times != [] && times[0] <= now - 60.0 {
      PrunedAreRecent(times[1..], now);
    }
  }

  /** The pruned window is exactly the half-open minute that ends now. */
  lemma PrunedCount(xs: seq<real>, window: seq<real>, before: real, now: real)
    requires Ordered(xs) && WindowIs(xs, window, before) && before <= now
    ensures CountIn(xs, now - 60.0, true) == |Prune(window, now)|
  {
    hide Prune;
    PrunedWindow(xs, window, before, now);
    var left := Prune(window, now);
    assert Ordered(window);
    PrunedAreRecent(window, now);
    var k := |xs| - |left|;
    forall i | k <= i < |xs|
      ensures now - 60.0 < xs[i]
    {
      assert xs[i] == left[i - k] && left[i - k] in left;
    }
    CountAbove(xs, now - 60.0, k);
  }

  // ---- Every run ---------------------------------------------------------------------------------------

  /**
   * After any run a closed minute holds what either half-open minute holds and what is exactly at its
   * other end: at most twice the limit, and within the limit whenever one end has no admission.
   */
  lemma ClosedMinuteIsBounded(p: Policies, capacity: nat, acts: seq<Act>, t: System, id: ScopeId, from: real)
    requires PoliciesOk(p) && Run(p, Empty(capacity), acts, false, t)
    ensures var xs, limit := AdmittedTo(t, id), p.daily(id).callsPerMinute;
            && CountClosed(xs, from) <= 2 * limit
            && CountClosed(xs, from) == CountIn(xs, from, true) + CountAt(xs, from) == CountIn(xs, from, false) + CountAt(xs, from + 60.0)
            && (CountAt(xs, from) == 0 || CountAt(xs, from + 60.0) == 0 ==> CountClosed(xs, from) <= limit)
  {
    var k := Daily(id, 0);
    BudgetsAreKept(p, capacity, acts, t, id, from, true, k);
    BudgetsAreKept(p, capacity, acts, t, id, from, false, k);
    ClosedIs(AdmittedTo(t, id), from);
    hide Run, Empty, CallsCapped;
  }

  /**
   * At an admission, the closed minute that ends with it stays within the limit exactly when what the
   * pruned window and the instant a minute ago hold together is below the limit.
   */
  lemma ClosedMinuteAtAdmission(p: Policies, capacity: nat, acts: seq<Act>, s: System, a: Act, id: ScopeId)
    requires PoliciesOk(p) && Run(p, Empty(capacity), acts, false, s)
    requires a.DoReserve? && Possible(s, a) && OwnScope(a.call, id)
    requires var r := ReserveUnder(p, s.budget, a.call, a.fingerprint, a.units, a.now, a.day).result; r.Ok? && r.value.first
    ensures var held := |Prune(RatesOf(s.budget, id), a.now)| + CountAt(AdmittedTo(s, id), a.now - 60.0);
            var closed := CountClosed(AdmittedTo(Next(p, s, a), id), a.now - 60.0);
            closed == held + 1 && (closed <= p.daily(id).callsPerMinute <==> held < p.daily(id).callsPerMinute)
  {
    hide Run, Empty, Reserve, SystemInv, Prune, WindowIs, Ordered, Spaced, CountersOk, CallsCapped;
    EmptyInv(p, capacity);
    RunKeeps(p, Empty(capacity), acts, false, s);
    InvRate(p, s, id);
    var xs := AdmittedTo(s, id);
    PrunedCount(xs, RatesOf(s.budget, id), s.now, a.now);
    ClosedIs(xs, a.now - 60.0);
    assert AdmittedTo(Next(p, s, a), id) == xs + [a.now];
    assert (xs + [a.now])[..|xs|] == xs;
  }

  lemma InvRate(p: Policies, s: System, id: ScopeId)
    requires SystemInv(p, s)
    ensures RateOk(p, s, id)
  {
    hide CountersOk, CallsCapped, Ordered, Spaced, WindowIs;
  }

  // ---- Runs that attain the bound ------------------------------------------------------------------------

  /** What an admission adds to the two windows and to the history. */
  lemma AdmissionStamps(p: Policies, s: System, a: Act)
    requires a.DoReserve? && Possible(s, a)
    requires var r := ReserveUnder(p, s.budget, a.call, a.fingerprint, a.units, a.now, a.day).result; r.Ok? && r.value.first
    ensures var t, c := Next(p, s, a), a.call;
            && t.now == a.now
            && (forall id :: OwnScope(c, id) ==>
                  && AdmittedTo(t, id) == AdmittedTo(s, id) + [a.now]
                  && RatesOf(t.budget, id) == Prune(RatesOf(s.budget, id), a.now) + [a.now])
  {
    hide Reserve, Prune, Passed, Admitted, RatesOf;
    var c := a.call;
    ReserveIs(s.budget, c, a.fingerprint, a.units, p.daily(WorkspaceId(c.workspace)), p.daily(AgentId(c.workspace, c.agent)),
              p.decision(CycleId(c.workspace, c.agent, c.decision)), a.now, a.day);
  }

  /** What an admission adds to tickets and counters. */
  lemma AdmissionCharges(p: Policies, s: System, a: Act)
    requires a.DoReserve? && Possible(s, a)
    requires var r := ReserveUnder(p, s.budget, a.call, a.fingerprint, a.units, a.now, a.day).result; r.Ok? && r.value.first
    ensures var t, c := Next(p, s, a), a.call;
            && TicketKey(c.workspace, c.key) !in s.budget.tickets
            && t.budget.tickets.Keys == s.budget.tickets.Keys + {TicketKey(c.workspace, c.key)}
            && t.budget.cycles.Keys == s.budget.cycles.Keys + {CycleId(c.workspace, c.agent, c.decision)}
            && t.budget.capacity == s.budget.capacity
            && forall k :: CounterOf(t.budget, k).units <= CounterOf(s.budget, k).units + a.units &&
                           CounterOf(t.budget, k).calls <= CounterOf(s.budget, k).calls + 1
  {
    hide Reserve, Prune, RatesOf, ChargeAll, KeysOf, CounterOf, WindowsMove;
    var c := a.call;
    ReserveIs(s.budget, c, a.fingerprint, a.units, p.daily(WorkspaceId(c.workspace)), p.daily(AgentId(c.workspace, c.agent)),
              p.decision(CycleId(c.workspace, c.agent, c.decision)), a.now, a.day);
    KeysDistinct(c, a.day);
    forall k
      ensures CounterOf(Next(p, s, a).budget, k).units <= CounterOf(s.budget, k).units + a.units
      ensures CounterOf(Next(p, s, a).budget, k).calls <= CounterOf(s.budget, k).calls + 1
    {
      ChargedCounters(s.budget, KeysOf(c, a.day), a.units, k);
      SameCounters(Next(p, s, a).budget, ChargeAll(s.budget, KeysOf(c, a.day), a.units));
    }
  }

  /** `n` calls a minute, and room for everything else. */
  function PerMinute(n: nat): Policies {
    Policies(s => ScopeBudget(2 * n, 2 * n, n), c => DecisionBudget(2 * n, 2 * n, 1000))
  }

  /** The `k`-th of two bursts of `n` calls, a minute apart. */
  function BurstTime(n: nat, k: nat): real {
    if k < n then 0.0 else 60.0
  }

  function BurstCall(n: nat, k: nat): Act {
    DoReserve(CallScope(1, 1, 1, k, k), 0, 1, BurstTime(n, k), 0)
  }

  function BurstTimes(n: nat, from: nat, to: nat): (times: seq<real>)
    requires from <= to
    ensures |times| == to - from && forall i :: 0 <= i < to - from ==> times[i] == BurstTime(n, from + i)
  {
    seq(to - from, i requires 0 <= i < to - from => BurstTime(n, from + i))
  }

  function BurstCalls(n: nat, k: nat): seq<Act> {
    seq(k, i requires 0 <= i < k => BurstCall(n, i))
  }

  /** The state after the first `k` calls of the bursts. */
  ghost predicate Bursting(s: System, n: nat, k: nat) {
    && (forall id :: id == WorkspaceId(1) || id == AgentId(1, 1) ==>
          && AdmittedTo(s, id) == BurstTimes(n, 0, k)
          && RatesOf(s.budget, id) == BurstTimes(n, if k <= n then 0 else n, k))
    && s.now <= BurstTime(n, k)
    && s.budget.capacity == 2 * n
    && s.budget.tickets.Keys == (set i | 0 <= i < k :: TicketKey(1, i))
    && (forall i: nat :: i >= k ==> CycleId(1, 1, i) !in s.budget.cycles)
    && forall c :: CounterOf(s.budget, c).units <= k && CounterOf(s.budget, c).calls <= k
  }

  lemma {:induction false} KeyCount(k: nat)
    ensures |set i | 0 <= i < k :: TicketKey(1, i)| == k
  {
    if k > 0 {
      KeyCount(k - 1);
      assert (set i | 0 <= i < k :: TicketKey(1, i)) == (set i | 0 <= i < k - 1 :: TicketKey(1, i)) + {TicketKey(1, k - 1)};
    }
  }

  lemma {:induction false} OldArePruned(times: seq<real>, now: real)
    requires forall i :: 0 <= i < |times| ==> times[i] <= now - 60.0
    ensures Prune(times, now) == []
  {
    if times != [] {
      OldArePruned(times[1..], now);
    }
  }

  lemma BurstWindow(n: nat, k: nat)
    requires n >= 1 && k < 2 * n
    ensures var from := if k <= n then 0 else n;
            Prune(BurstTimes(n, from, k), BurstTime(n, k)) == BurstTimes(n, if k < n then 0 else n, k)
  {
    if k == n {
      OldArePruned(BurstTimes(n, 0, n), 60.0);
      assert BurstTimes(n, n, n) == [];
    } else {
      var from := if k < n then 0 else n;
      assert |BurstTimes(n, from, k)| == k - from;
      assert k > from ==> BurstTimes(n, from, k)[0] == BurstTime(n, k);
    }
  }

  lemma BurstHasRoom(s: System, n: nat, k: nat)
    requires n >= 1 && k < 2 * n && Bursting(s, n, k)
    ensures Possible(s, BurstCall(n, k))
    ensures var a := BurstCall(n, k);
            var r := ReserveUnder(PerMinute(n), s.budget, a.call, 0, 1, a.now, 0).result; r.Ok? && r.value.first
  {
    hide Reserve, Prune, CounterOf, RatesOf;
    var a := BurstCall(n, k);
    BurstWindow(n, k);
    KeyCount(k);
    assert |s.budget.tickets| == |s.budget.tickets.Keys|;
    var p := PerMinute(n);
    AdmittedExactlyWithRoom(s.budget, a.call, 0, 1, p.daily(WorkspaceId(1)), p.daily(AgentId(1, 1)), p.decision(CycleId(1, 1, k)), a.now, 0);
  }

  lemma BurstStep(s: System, n: nat, k: nat)
    requires n >= 1 && k < 2 * n && Bursting(s, n, k) && Possible(s, BurstCall(n, k))
    ensures Bursting(Next(PerMinute(n), s, BurstCall(n, k)), n, k + 1)
  {
    hide Reserve, Next, Prune, CounterOf, RatesOf, AdmittedTo;
    var a := BurstCall(n, k);
    BurstHasRoom(s, n, k);
    BurstWindow(n, k);
    AdmissionStamps(PerMinute(n), s, a);
    AdmissionCharges(PerMinute(n), s, a);
    assert BurstTimes(n, 0, k + 1) == BurstTimes(n, 0, k) + [a.now];
    var from := if k < n then 0 else n;
    assert BurstTimes(n, from, k + 1) == BurstTimes(n, from, k) + [a.now];
    assert (set i | 0 <= i < k + 1 :: TicketKey(1, i)) == (set i | 0 <= i < k :: TicketKey(1, i)) + {TicketKey(1, k)};
    assert OwnScope(a.call, WorkspaceId(1)) && OwnScope(a.call, AgentId(1, 1));
  }

  /** The state after `k` calls, and the run that leads to it. */
  lemma {:induction false} BurstRun(n: nat, k: nat) returns (s: System)
    requires n >= 1 && k <= 2 * n
    ensures Run(PerMinute(n), Empty(2 * n), BurstCalls(n, k), true, s) && Bursting(s, n, k)
  {
    hide Next, Bursting, Reserve, Prune, CounterOf, RatesOf, AdmittedTo, BurstTimes;
    if k == 0 {
      s := Empty(2 * n);
      EmptyBurst(n);
    } else {
      var r := BurstRun(n, k - 1);
      BurstHasRoom(r, n, k - 1);
      BurstStep(r, n, k - 1);
      s := Next(PerMinute(n), r, BurstCall(n, k - 1));
      RunExtends(PerMinute(n), Empty(2 * n), BurstCalls(n, k - 1), r, BurstCall(n, k - 1));
      assert BurstCalls(n, k) == BurstCalls(n, k - 1) + [BurstCall(n, k - 1)];
    }
  }

  lemma EmptyBurst(n: nat)
    requires n >= 1
    ensures Bursting(Empty(2 * n), n, 0)
  {
  }

  lemma {:induction false} RunExtends(p: Policies, s: System, acts: seq<Act>, t: System, a: Act)
    requires Run(p, s, acts, true, t) && Possible(t, a) && Honest(t, a)
    ensures Run(p, s, acts + [a], true, Next(p, t, a))
    decreases |acts|
  {
    hide Next, Honest;
    if acts == [] {
      assert (acts + [a])[1..] == [];
      assert Run(p, Next(p, t, a), [], true, Next(p, t, a));
    } else {
      RunExtends(p, Next(p, s, acts[0]), acts[1..], t, a);
      assert (acts + [a])[1..] == acts[1..] + [a];
    }
  }

  lemma {:induction false} CountAll(xs: seq<real>)
    requires forall i :: 0 <= i < |xs| ==> 0.0 <= xs[i] <= 60.0
    ensures CountClosed(xs, 0.0) == |xs|
  {
    if xs != [] {
      CountAll(xs[..|xs| - 1]);
    }
  }

  /** Under every limit some run fills a closed minute with twice the limit. */
  lemma ClosedMinuteCanHoldTwice(n: nat) returns (acts: seq<Act>, t: System)
    requires n >= 1
    ensures PoliciesOk(PerMinute(n)) && PerMinute(n).daily(WorkspaceId(1)).callsPerMinute == n
    ensures Run(PerMinute(n), Empty(2 * n), acts, true, t)
    ensures CountClosed(AdmittedTo(t, WorkspaceId(1)), 0.0) == 2 * n
  {
    hide Run, Next;
    acts := BurstCalls(n, 2 * n);
    t := BurstRun(n, 2 * n);
    assert AdmittedTo(t, WorkspaceId(1)) == BurstTimes(n, 0, 2 * n);
    CountAll(BurstTimes(n, 0, 2 * n));
  }
}

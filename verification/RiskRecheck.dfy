/** Exactly when a handoff approves again what a session reserved. */
module RiskRecheck {
  import opened Outcomes
  import opened Sums
  import opened Domain
  import opened RiskAccount
  import opened RiskSizing
  import opened RiskTheorems
  import opened RiskEvaluator
  import opened RiskSession
  import opened RiskSafety
  import opened Fixed

  /** The account `a` with every reservation taken keeps the loss, drawdown and exposure limits of `p`. */
  ghost predicate WholeWithin(a: Account, p: Policy, startEquity: int) {
    && a.equity > 0
    && Within(a.losses, p.maxDailyLossPct, startEquity)
    && Within(a.peak - a.equity, p.maxDrawdownPct, a.peak)
    && CapsMet(a, p, a.equity)
  }

  predicate StrictlyInside(a: Account, p: Policy, startEquity: int) {
    && Below(a.losses, p.maxDailyLossPct, startEquity)
    && Below(a.peak - a.equity, p.maxDrawdownPct, a.peak)
  }

  lemma SharesAreWhole(v: map<Id, int>, own: Id, c: int, cap: int, e: int)
    ensures SharesWithin(v, own, c, cap, e) <==>
            forall k :: k in Bump(v, own, c) ==> Within(Get(Bump(v, own, c), k), cap, e)
  {
    hide Within, Get, Bump;
    BumpGet(v, own, c, own);
    forall k
      ensures Get(Bump(v, own, c), k) == Get(v, k) + if k == own then c else 0
    {
      BumpGet(v, own, c, k);
    }
  }

  /** The limits one buy is rechecked against are those of the account with every reservation taken. */
  lemma CapsOfWhole(q: Quote, a: Account, p: Policy, c: int, intent: Id)
    requires q.buying && WorstPrice(q) > 0
    ensures var whole := Reserve(a, Taking(q, intent, c));
            && (CapsAfter(q, a, p, c, 0) <==> WholeWithin(whole, p, q.startEquity))
            && (FeeCost(q, c) == 0 ==> (GatesAfter(q, a, p, 0) <==> StrictlyInside(whole, p, q.startEquity)))
            && (FeeCost(q, c) > 0 && CapsAfter(q, a, p, c, 0) ==> GatesAfter(q, a, p, 0))
  {
    hide WorstPrice, FeeCost, SharesWithin, Bump, Get;
    var e := a.equity - FeeCost(q, c);
    SharesAreWhole(a.assets, q.instrument.base, c, p.maxAssetPct, e);
    SharesAreWhole(a.networks, q.network, c, p.maxNetworkPct, e);
  }

  /** What decides the recheck of a reserved approval, beside its own context. */
  ghost predicate Holds(q: Quote, whole: Account, ps: seq<Policy>, cost: int) {
    q.buying ==>
      forall p :: p in ps ==>
        && WholeWithin(whole, p, q.startEquity)
        && (cost == 0 ==> StrictlyInside(whole, p, q.startEquity))
  }

  lemma FitsWhole(q: Quote, a: Account, ps: seq<Policy>, c: int, intent: Id)
    requires Usable(q) && c > 0 && PlainFits(q, a, ps, c)
    ensures Fits(q, a, ps, c) && GatesOpen(q, a, ps) <==> Holds(q, Reserve(a, Taking(q, intent, c)), ps, FeeCost(q, c))
  {
    hide Fits, GatesOpen, PlainFits, WorstPrice, FeeCost, QuantityFor, Reserve, CapsAfter, GatesAfter, WholeWithin, StrictlyInside;
    FitsSplit(q, a, ps, c);
    FeeCostNonNegative(q, c);
    if q.buying {
      forall p | p in ps
        ensures CapsAfter(q, a, p, c, 0) && GatesAfter(q, a, p, 0) <==>
                (var whole := Reserve(a, Taking(q, intent, c));
                 WholeWithin(whole, p, q.startEquity) && (FeeCost(q, c) == 0 ==> StrictlyInside(whole, p, q.startEquity)))
      {
        CapsOfWhole(q, a, p, c, intent);
      }
    }
  }

  lemma {:induction false} HolderIsListed(es: seq<Entry>, e: Entry)
    requires e in es && e.reservation.Some?
    ensures Reservations(es, None) != []
  {
    if es[0] != e {
      HolderIsListed(es[1..], e);
    }
  }

  /** The account the others leave, with this approval taken, is what all reservations leave. */
  lemma WholeIs(s: Session, base: Account, e: Entry)
    requires Sorted(s.entries) && e in s.entries && e.reservation.Some?
    ensures Reserve(Others(s, base, e), e.reservation.value) == ReserveAll(base, Reservations(s.entries, None))
  {
    hide Reserve, ReserveAll;
    var i :| 0 <= i < |s.entries| && s.entries[i] == e;
    var left, right := HeldSplit(s.entries, i);
    ReserveAnywhere(base, left, e.reservation.value, right);
  }

  /**
   * In any session the recheck approves a reserved sell again exactly when its context holds, and a
   * reserved buy exactly when moreover the account that all reservations leave keeps every loss,
   * drawdown and exposure limit, strictly where the buy pays no fee. All fee-paying buys stand or
   * fall together.
   */
  lemma RecheckIsExact(env: Environment, s: Session, ps: seq<Policy>, e: Entry, now: int)
    requires SessionInv(s, ps) && SessionOk(s) && e in s.entries && e.reservation.Some?
    ensures EntryOk(s, ps, e) && Base(s.portfolio, s.networks).Some?
    ensures var reg := s.registrations[e.request.intent.agentVersion];
            var whole := ReserveAll(Base(s.portfolio, s.networks).value, Reservations(s.entries, None));
            StillApproved(Recheck(env, s, e, now), e.record) <==>
              (ContextReasons(env, e.request, reg, s.portfolio, s.controls, now) == [] &&
               Holds(EntryQuote(s, e), whole, ps, e.reservation.value.cost))
  {
    hide Fits, GatesOpen, PlainFits, FeeCost, WorstPrice, QuantityFor, Bounds, Base, Reserve, ReserveAll, ContextReasons, Size, Distinct, Holds;
    HolderIsListed(s.entries, e);
    var i := e.request.intent;
    var base := Base(s.portfolio, s.networks).value;
    var q, c, o := EntryQuote(s, e), e.record.evaluation.approved, Others(s, base, e);
    assert Stands(s, ps, base, e);
    WholeIs(s, base, e);
    FitsWhole(q, o, ps, c, i.id);
    RecheckSize(env, s, ps, e, now, base);
  }

  /** The recheck approves no less exactly when the amount fits with open gates in an intact context. */
  lemma RecheckSize(env: Environment, s: Session, ps: seq<Policy>, e: Entry, now: int, base: Account)
    requires SessionOk(s) && SharedPolicies(s, ps) && EntryOk(s, ps, e) && e.reservation.Some?
    requires Base(s.portfolio, s.networks) == Some(base)
    ensures var reg := s.registrations[e.request.intent.agentVersion];
            var q, c, o := EntryQuote(s, e), e.record.evaluation.approved, Others(s, base, e);
            StillApproved(Recheck(env, s, e, now), e.record) <==>
              (ContextReasons(env, e.request, reg, s.portfolio, s.controls, now) == [] && Fits(q, o, ps, c) && GatesOpen(q, o, ps))
  {
    hide Fits, GatesOpen, FeeCost, WorstPrice, QuantityFor, Base, ReserveAll, ContextReasons, Size, Distinct;
    var i := e.request.intent;
    var q, c, o := EntryQuote(s, e), e.record.evaluation.approved, Others(s, base, e);
    var k: nat :| c == k * q.increment;
    SizingIsExact(q, o, ps, k);
    var d := Recheck(env, s, e, now).evaluation.approved;
    ApprovalGrounds(env, e.request, s.registrations[i.agentVersion], s.portfolio, s.controls, s.networks,
                    Reservations(s.entries, Some(i.id)), now);
    if StillApproved(Recheck(env, s, e, now), e.record) {
      TighterReflexive(o);
      FitsMonotone(q, o, o, ps, ps, c, d);
    }
  }

  /**
   * The same after any run of a session: an unexpired approval with the current token is handed off
   * exactly when its context is intact and, for a buy, what is reserved so far keeps the limits.
   */
  lemma HandoffIsExact(
      env: Environment, p: Portfolio, controls: Controls, rs: seq<Registration>, capacity: nat,
      ops: seq<Op>, t: Session, e: Entry, now: int)
    requires forall r :: r in rs ==> RegistrationOk(r)
    requires Open(p, controls, rs, capacity).Ok?
    requires Run(env, Open(p, controls, rs, capacity).value, ops, t)
    requires e in t.entries && IsApproved(e.record) && !e.terminal
    requires ClockOk(t, now) && now < e.record.expiresAt && !AuditFull(t) && e.fencingToken == t.controls.fencingToken
    ensures SessionOk(t) && EntriesOk(t) && Base(t.portfolio, t.networks).Some? && e.reservation.Some?
    ensures var i, reg := e.request.intent, t.registrations[e.request.intent.agentVersion];
            var whole := ReserveAll(Base(t.portfolio, t.networks).value, Reservations(t.entries, None));
            var handed := Handoff(env, t, t.portfolio.workspace, i.id, e.fencingToken, now).result;
            && handed.Ok?
            && (handed.value.Some? <==>
                (ContextReasons(env, e.request, reg, t.portfolio, t.controls, now) == [] &&
                 Holds(EntryQuote(t, e), whole, reg.policies, e.reservation.value.cost)))
  {
    hide Open, SessionInv, Run, Holds, Handoff, ContextReasons, Base, ReserveAll, Reservations, IsApproved, Recheck, EntryOk;
    OpenedInv(p, controls, rs, capacity);
    var s := Open(p, controls, rs, capacity).value;
    var ps :| SessionInv(s, ps);
    RunKeeps(env, s, ops, t, ps);
    SessionInvEntries(t, ps);
    ApprovedHolds(t, ps, e);
    RecheckIsExact(env, t, ps, e, now);
    InvPolicies(t, ps);
    HandoffIs(env, t, ps, e, now);
  }

  lemma ApprovedHolds(t: Session, ps: seq<Policy>, e: Entry)
    requires SessionInv(t, ps) && e in t.entries && IsApproved(e.record)
    ensures e.reservation.Some? && Sorted(t.entries)
  {
    hide Bounds, Stands, IsApproved;
    assert EntryOk(t, ps, e);
  }

  lemma HandoffIs(env: Environment, t: Session, ps: seq<Policy>, e: Entry, now: int)
    requires SessionOk(t) && EntriesOk(t) && Sorted(t.entries) && e in t.entries && IsApproved(e.record) && !e.terminal
    requires ClockOk(t, now) && now < e.record.expiresAt && !AuditFull(t) && e.fencingToken == t.controls.fencingToken
    ensures var handed := Handoff(env, t, t.portfolio.workspace, e.request.intent.id, e.fencingToken, now).result;
            handed.Ok? && (handed.value.Some? <==> StillApproved(Recheck(env, t, e, now), e.record))
  {
    hide Recheck, PermitFor, StillApproved, IsApproved, Sorted, Find;
    FindSorted(t.entries, e);
  }
}

/** The risk session as an object: entries, indexes, clock and audit trail updated in place. */
module RiskGate {
  import opened Outcomes
  import opened Domain
  import opened RiskAccount
  import opened RiskSizing
  import opened RiskEvaluator
  import RS = RiskSession

  class LocalRiskSession {
    const portfolio: Portfolio
    const registrations: map<Id, Registration>
    const networks: map<InstrumentId, Id>
    const capacity: nat
    var controls: Controls
    var entries: seq<RS.Entry>
    var keys: map<Id, Id>
    var decisions: map<Id, Id>
    var lastNow: Option<int>
    var audit: seq<RS.AuditEvent>

    /** The value the specification speaks about. */
    function State(): RS.Session
      reads this
    {
      RS.Session(portfolio, controls, registrations, networks, capacity, entries, keys, decisions, lastNow, audit)
    }

    constructor (s: RS.Session)
      ensures State() == s
    {
      portfolio, controls, registrations, networks, capacity := s.portfolio, s.controls, s.registrations, s.networks, s.capacity;
      entries, keys, decisions, lastNow, audit := s.entries, s.keys, s.decisions, s.lastNow, s.audit;
    }

    /** Merges the policies of one registration into the account's list. */
    static method Merge(all: seq<Policy>, added: seq<Policy>) returns (r: Result<seq<Policy>, RS.RiskError>)
      ensures r == RS.MergePolicies(all, added)
    {
      var merged, i := all, 0;
      while i < |added|
        invariant 0 <= i <= |added| && RS.MergePolicies(merged, added[i..]) == RS.MergePolicies(all, added)
      {
        var p := added[i];
        assert added[i..][0] == p && added[i..][1..] == added[i + 1..];
        if RS.ConflictingPolicy(merged, p) {
          return Err(RS.PolicyConflict);
        }
        if !RS.KnownPolicy(merged, p) {
          merged := RS.InsertPolicy(merged, p);
        }
        i := i + 1;
      }
      r := Ok(merged);
    }

    /** Registers every agent, then holds all of them to the union of their policies. */
    static method Open(p: Portfolio, controls: Controls, rs: seq<Registration>, capacity: nat)
      returns (r: Result<LocalRiskSession, RS.RiskError>)
      requires forall x :: x in rs ==> RegistrationOk(x)
      ensures match RS.Open(p, controls, rs, capacity)
              case Err(e) => r == Err(e)
              case Ok(s) => r.Ok? && fresh(r.value) && r.value.State() == s
    {
      hide RegistrationOk, RS.Register;
      if !(1 <= capacity <= 100_000) {
        return Err(RS.InvalidCapacity);
      }
      if controls.workspace != p.workspace {
        return Err(RS.WorkspaceMismatch);
      }
      if rs == [] {
        return Err(RS.NoRegistration);
      }
      var draft, i := RS.Draft(map[], map[], {}, None, []), 0;
      while i < |rs|
        invariant 0 <= i <= |rs|
        invariant RS.RegisterAll(draft, rs[i..], p.workspace) == RS.RegisterAll(RS.Draft(map[], map[], {}, None, []), rs, p.workspace)
      {
        assert rs[i..][0] == rs[i] && rs[i..][1..] == rs[i + 1..];
        var next := Register(draft, rs[i], p.workspace);
        if next.Err? {
          return Err(next.error);
        }
        draft := next.value;
        i := i + 1;
      }
      if |draft.policies| > 16 {
        return Err(RS.TooManyPolicies);
      }
      var shared := map k | k in draft.registrations :: draft.registrations[k].(policies := draft.policies);
      var session := new LocalRiskSession(RS.Session(
        p, controls, shared, draft.networks, capacity, [], map[], map[], None, []));
      r := Ok(session);
    }

    static method Register(d: RS.Draft, x: Registration, workspace: Id) returns (r: Result<RS.Draft, RS.RiskError>)
      requires RegistrationOk(x)
      ensures r == RS.Register(d, x, workspace)
    {
      hide RegistrationOk, RS.MergePolicies;
      if x.workspace != workspace {
        return Err(RS.WorkspaceMismatch);
      }
      if x.version in d.registrations {
        return Err(RS.DuplicateAgent);
      }
      var upper := RS.UpperPolicies(x);
      if d.upper.Some? && d.upper.value != upper {
        return Err(RS.UpperScopeMismatch);
      }
      var assets := d.assetNetworks + RS.AssetNetworks(x);
      if exists a, b :: a in assets && b in assets && a.0 == b.0 && a.1 != b.1 {
        return Err(RS.AssetNetworkConflict);
      }
      if exists k :: k in x.networks && k in d.networks && x.networks[k] != d.networks[k] {
        return Err(RS.NetworkConflict);
      }
      var merged := Merge(d.policies, x.policies);
      if merged.Err? {
        return Err(merged.error);
      }
      r := Ok(RS.Draft(d.registrations[x.version := x], d.networks + x.networks, assets, Some(upper), merged.value));
    }

    /** Reads the clock; time never goes back. */
    method Now(now: int) returns (ok: bool)
      modifies this`lastNow
      ensures ok == old(RS.ClockOk(State(), now))
      ensures State() == if ok then old(State()).(lastNow := Some(now)) else old(State())
    {
      ok := lastNow.None? || lastNow.value <= now;
      if ok {
        lastNow := Some(now);
      }
    }

    method Record(at: int, kind: RS.AuditKind) returns (ok: bool)
      modifies this`audit
      ensures ok == !old(RS.AuditFull(State()))
      ensures State() == if ok then RS.Audit(old(State()), at, kind) else old(State())
    {
      ok := |audit| < capacity * 4;
      if ok {
        audit := audit + [RS.AuditEvent(|audit| + 1, at, kind)];
      }
    }

    /** The reservations held, in intent order, leaving out one intent. */
    method Reservations(excluding: Option<Id>) returns (rs: seq<Reservation>)
      ensures rs == RS.Reservations(State().entries, excluding)
    {
      hide RS.Reservations;
      rs := [];
      var i := 0;
      ReservationsEnds(entries, excluding);
      while i < |entries|
        invariant 0 <= i <= |entries|
        invariant rs + RS.Reservations(entries[i..], excluding) == RS.Reservations(entries, excluding)
      {
        ReservationsFrom(entries, i, excluding, rs);
        if entries[i].reservation.Some? && Some(entries[i].request.intent.id) != excluding {
          rs := rs + [entries[i].reservation.value];
        }
        i := i + 1;
      }
    }

    method UpdateControls(renewed: Controls, now: int) returns (r: Result<(), RS.RiskError>)
      modifies this
      ensures var s := old(RS.UpdateControls(State(), renewed, now)); r == s.result && State() == s.state
    {
      hide RS.ClockOk, RS.AuditFull, RS.Audit;
      if renewed.workspace != controls.workspace || renewed.account != controls.account || renewed.version <= controls.version
         || renewed.fencingToken < controls.fencingToken || renewed.asOf < controls.asOf
      {
        return Err(RS.InvalidControlRefresh);
      }
      var timely := Now(now);
      if !timely {
        return Err(RS.ClockMovedBackwards);
      }
      if renewed.asOf > now {
        return Err(RS.InvalidControlRefresh);
      }
      var recorded := Record(now, RS.ControlsUpdated);
      if !recorded {
        return Err(RS.AuditExhausted);
      }
      controls := renewed;
      AuditIgnoresControls(old(State()).(lastNow := Some(now)), now, renewed);
      r := Ok(());
    }

    method Evaluate(env: Environment, req: Request, now: int) returns (r: Result<Record, RS.RiskError>)
      requires RequestOk(req) && RS.SessionOk(State())
      modifies this
      ensures var s := old(RS.EvaluateIn(env, State(), req, now)); r == s.result && State() == s.state
    {
      hide RiskEvaluator.Evaluate, RS.ClockOk, RS.AuditFull, RequestOk, RegistrationOk;
      var i := req.intent;
      RS.FindIs(entries, i.id);
      RS.FindIs(entries, if i.key in keys then keys[i.key] else i.id);
      if i.workspace != portfolio.workspace {
        return Err(RS.WorkspaceMismatch);
      }
      if i.agentVersion !in registrations {
        return Err(RS.Unregistered);
      }
      var existing := RS.Existing(State(), i);
      if existing.Some? {
        if env.requestHash(req) != entries[existing.value].record.requestHash {
          return Err(RS.IdempotencyConflict);
        }
        return Ok(entries[existing.value].record);
      }
      if i.decision in decisions {
        return Err(RS.DecisionAlreadyEvaluated);
      }
      if |entries| >= capacity {
        return Err(RS.CapacityExhausted);
      }
      var timely := Now(now);
      if !timely {
        return Err(RS.ClockMovedBackwards);
      }
      var held := Reservations(None);
      var o := EvaluateRequest(env, req, registrations[i.agentVersion], portfolio, controls, networks, held, now);
      var recorded := Record(now, RS.Evaluated(o.record.evaluation.verdict));
      if !recorded {
        return Err(RS.AuditExhausted);
      }
      entries := RS.InsertEntry(entries, RS.Entry(req, o.record, o.reservation, controls.fencingToken, false, None));
      keys := keys[i.key := i.id];
      decisions := decisions[i.decision := i.id];
      r := Ok(o.record);
    }

    /** The evaluator's verdict on an entry already held, against every other reservation. */
    method Recheck(env: Environment, e: RS.Entry, now: int) returns (record: Record)
      requires RS.SessionOk(State()) && RequestOk(e.request) && e.request.intent.agentVersion in registrations
      ensures record == RS.Recheck(env, State(), e, now)
    {
      hide RiskEvaluator.Evaluate, RequestOk, RegistrationOk;
      var held := Reservations(Some(e.request.intent.id));
      var o := EvaluateRequest(
        env, e.request, registrations[e.request.intent.agentVersion], portfolio, controls, networks, held, now);
      record := o.record;
    }

    /** Marks an entry consumed before anything is returned. */
    method Consume(i: nat, at: int, kind: RS.AuditKind, issued: Option<Permit>) returns (ok: bool)
      requires i < |entries|
      modifies this
      ensures ok == !old(RS.AuditFull(State()))
      ensures State() == if ok
                         then RS.Audit(old(State()), at, kind).(
                                entries := old(entries)[i := old(entries)[i].(terminal := true, issued := issued)])
                         else old(State())
    {
      ok := Record(at, kind);
      if ok {
        entries := entries[i := entries[i].(terminal := true, issued := issued)];
      }
    }

    method Handoff(env: Environment, workspace: Id, intent: Id, token: int, now: int) returns (r: Result<Option<Permit>, RS.RiskError>)
      requires RS.SessionOk(State()) && RS.EntriesOk(State())
      modifies this
      ensures var s := old(RS.Handoff(env, State(), workspace, intent, token, now)); r == s.result && State() == s.state
    {
      hide RS.Recheck, RS.ClockOk, RS.AuditFull, RS.StillApproved, RequestOk, RegistrationOk, RS.PermitFor, IsApproved, RS.Find;
      RS.FindIs(entries, intent);
      if workspace != portfolio.workspace {
        return Err(RS.WorkspaceMismatch);
      }
      var found := RS.Find(entries, intent);
      if found.None? {
        return Err(RS.UnknownIntent);
      }
      var e := entries[found.value];
      EntryMarks(State(), found.value);
      if !IsApproved(e.record) || e.terminal {
        return Ok(None);
      }
      var before := State();
      var timely := Now(now);
      if !timely {
        return Err(RS.ClockMovedBackwards);
      }
      RecheckIgnoresClock(env, before, State(), e, now);
      if token != controls.fencingToken || token != e.fencingToken {
        return Ok(None);
      }
      if now >= e.record.expiresAt {
        var recorded := Consume(found.value, now, RS.HandoffExpired, e.issued);
        return if recorded then Ok(None) else Err(RS.AuditExhausted);
      }
      var checked := Recheck(env, e, now);
      if !RS.StillApproved(checked, e.record) {
        var recorded := Consume(found.value, now, RS.HandoffRefused, e.issued);
        return if recorded then Ok(None) else Err(RS.AuditExhausted);
      }
      var permit := RS.PermitFor(State(), e, token, now);
      PermitIgnoresClock(before, State(), e, token, now);
      var recorded := Consume(found.value, now, RS.HandedOff, Some(permit));
      r := if recorded then Ok(Some(permit)) else Err(RS.AuditExhausted);
    }

    method ExecutionAllowed(env: Environment, workspace: Id, intent: Id, token: int, now: int) returns (r: Result<bool, RS.RiskError>)
      requires RS.SessionOk(State()) && RS.EntriesOk(State())
      modifies this`lastNow
      ensures var s := old(RS.ExecutionAllowed(env, State(), workspace, intent, token, now)); r == s.result && State() == s.state
    {
      hide RS.Recheck, RS.ClockOk, RS.StillApproved, RequestOk, RegistrationOk, RS.Find;
      RS.FindIs(entries, intent);
      if workspace != portfolio.workspace {
        return Err(RS.WorkspaceMismatch);
      }
      var found := RS.Find(entries, intent);
      if found.None? || entries[found.value].issued.None? {
        return Ok(false);
      }
      var e, before := entries[found.value], State();
      var timely := Now(now);
      if !timely {
        return Err(RS.ClockMovedBackwards);
      }
      RecheckIgnoresClock(env, before, State(), e, now);
      if token != controls.fencingToken || token != e.fencingToken || now >= e.record.expiresAt {
        return Ok(false);
      }
      var checked := Recheck(env, e, now);
      r := Ok(RS.StillApproved(checked, e.record));
    }

    /** The intents that may not execute any more, in the order asked. */
    method ExecutionGuard(env: Environment, workspace: Id, commands: seq<(Id, int)>, now: int) returns (r: Result<seq<Id>, RS.RiskError>)
      requires RS.SessionOk(State()) && RS.EntriesOk(State())
      modifies this`lastNow
      ensures var s := old(RS.Guard(env, State(), workspace, commands, now)); r == s.result && State() == s.state
    {
      hide RS.ExecutionAllowed, RequestOk, RegistrationOk;
      if workspace != portfolio.workspace {
        return Err(RS.WorkspaceMismatch);
      }
      ghost var whole := RS.Guard(env, State(), workspace, commands, now);
      var blocked, i := [], 0;
      assert commands[0..] == commands;
      ExtendedNone(whole);
      while i < |commands|
        invariant 0 <= i <= |commands| && RS.SessionOk(State()) && RS.EntriesOk(State())
        invariant Extended(blocked, RS.Guard(env, State(), workspace, commands[i..], now)) == whole
      {
        assert commands[i..][0] == commands[i] && commands[i..][1..] == commands[i + 1..];
        RS.AllowedScope(env, State(), workspace, commands[i].0, commands[i].1, now);
        ghost var rest := RS.Guard(env, State(), workspace, commands[i..], now);
        var allowed := ExecutionAllowed(env, workspace, commands[i].0, commands[i].1, now);
        if allowed.Err? {
          return Err(allowed.error);
        }
        var own := if allowed.value then [] else [commands[i].0];
        ExtendedTwice(blocked, own, RS.Guard(env, State(), workspace, commands[i + 1..], now));
        blocked := blocked + own;
        i := i + 1;
      }
      assert blocked + [] == blocked;
      r := Ok(blocked);
    }
  }

  lemma ReservationsFrom(es: seq<RS.Entry>, i: nat, excluding: Option<Id>, front: seq<Reservation>)
    requires i < |es|
    ensures front + RS.Reservations(es[i..], excluding) ==
            (if es[i].reservation.Some? && Some(es[i].request.intent.id) != excluding
             then front + [es[i].reservation.value] else front) + RS.Reservations(es[i + 1..], excluding)
  {
    assert es[i..][0] == es[i] && es[i..][1..] == es[i + 1..];
    var rest := RS.Reservations(es[i + 1..], excluding);
    assert RS.Reservations(es[i..], excluding) == RS.HeldBy(es[i], excluding) + rest;
    assert [] + rest == rest;
    assert front + (RS.HeldBy(es[i], excluding) + rest) == front + RS.HeldBy(es[i], excluding) + rest;
  }

  lemma ReservationsEnds(es: seq<RS.Entry>, excluding: Option<Id>)
    ensures [] + RS.Reservations(es[0..], excluding) == RS.Reservations(es, excluding)
    ensures forall rs :: rs + RS.Reservations(es[|es|..], excluding) == rs
  {
    assert es[0..] == es && es[|es|..] == [];
  }

  /** A guard result with intents put in front. */
  function Extended(front: seq<Id>, s: RS.Step<seq<Id>>): RS.Step<seq<Id>> {
    match s.result
    case Err(_) => s
    case Ok(rest) => RS.Step(s.state, Ok(front + rest))
  }

  lemma ExtendedNone(s: RS.Step<seq<Id>>)
    ensures Extended([], s) == s
  {
    if s.result.Ok? {
      assert [] + s.result.value == s.result.value;
    }
  }

  lemma ExtendedTwice(a: seq<Id>, b: seq<Id>, s: RS.Step<seq<Id>>)
    ensures Extended(a, Extended(b, s)) == Extended(a + b, s)
  {
    if s.result.Ok? {
      assert a + (b + s.result.value) == a + b + s.result.value;
    }
  }

  lemma AuditIgnoresControls(s: RS.Session, now: int, renewed: Controls)
    ensures RS.Audit(s, now, RS.ControlsUpdated).(controls := renewed) == RS.Audit(s.(controls := renewed), now, RS.ControlsUpdated)
  {
  }

  lemma EntryMarks(s: RS.Session, i: nat)
    requires RS.EntriesOk(s) && i < |s.entries|
    ensures RequestOk(s.entries[i].request) && s.entries[i].request.intent.agentVersion in s.registrations
  {
  }

  lemma RecheckIgnoresClock(env: Environment, s: RS.Session, t: RS.Session, e: RS.Entry, now: int)
    requires RS.SessionOk(s) && RequestOk(e.request) && e.request.intent.agentVersion in s.registrations
    requires t == s.(lastNow := t.lastNow)
    ensures RS.SessionOk(t) && RS.Recheck(env, t, e, now) == RS.Recheck(env, s, e, now)
  {
    hide RiskEvaluator.Evaluate;
  }

  lemma PermitIgnoresClock(s: RS.Session, t: RS.Session, e: RS.Entry, token: int, now: int)
    requires e.request.intent.agentVersion in s.registrations && t == s.(lastNow := t.lastNow)
    ensures RS.PermitFor(t, e, token, now) == RS.PermitFor(s, e, token, now)
  {
  }
}

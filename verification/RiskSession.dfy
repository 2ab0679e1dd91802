/** The local risk session: approvals reserve resources once and are handed off at most once. */
module RiskSession {
  import opened Outcomes
  import opened Sums
  import opened Domain
  import opened RiskAccount
  import opened RiskSizing
  import opened RiskEvaluator

  datatype RiskError =
    | InvalidCapacity | WorkspaceMismatch | NoRegistration | DuplicateAgent | UpperScopeMismatch
    | AssetNetworkConflict | NetworkConflict | PolicyConflict | TooManyPolicies
    | ClockMovedBackwards | InvalidControlRefresh | AuditExhausted
    | Unregistered | IdempotencyConflict | DecisionAlreadyEvaluated | CapacityExhausted | UnknownIntent

  datatype Entry = Entry(
    request: Request,
    record: Record,
    reservation: Option<Reservation>,
    fencingToken: int,
    terminal: bool,
    issued: Option<Permit>)

  datatype AuditKind = Evaluated(verdict: Verdict) | ControlsUpdated | HandoffExpired | HandoffRefused | HandedOff

  datatype AuditEvent = AuditEvent(sequence: nat, at: int, kind: AuditKind)

  /** `entries` is kept sorted by intent, the order in which the session lists reservations. */
  datatype Session = Session(
    portfolio: Portfolio,
    controls: Controls,
    registrations: map<Id, Registration>,
    networks: map<InstrumentId, Id>,
    capacity: nat,
    entries: seq<Entry>,
    keys: map<Id, Id>,
    decisions: map<Id, Id>,
    lastNow: Option<int>,
    audit: seq<AuditEvent>)

  /** What an operation leaves behind, also when it raises. */
  datatype Step<+T> = Step(state: Session, result: Result<T, RiskError>)

  // ---- Construction: the union of every registered policy --------------------------------------

  function ScopeRank(s: Scope): nat {
    match s
    case GlobalScope => 0
    case WorkspaceScope => 1
    case PortfolioScope => 2
    case NetworkScope => 3
    case AgentScope => 4
    case AssetScope => 5
    case OrderScope => 6
  }

  predicate ListedBefore(p: Policy, q: Policy) {
    ScopeRank(p.scope) < ScopeRank(q.scope) || (p.scope == q.scope && p.id < q.id)
  }

  function InsertPolicy(ps: seq<Policy>, p: Policy): seq<Policy> {
    if ps == [] || ListedBefore(p, ps[0]) then [p] + ps else [ps[0]] + InsertPolicy(ps[1..], p)
  }

  predicate KnownPolicy(ps: seq<Policy>, p: Policy) {
    exists q :: q in ps && q.id == p.id
  }

  predicate ConflictingPolicy(ps: seq<Policy>, p: Policy) {
    exists q :: q in ps && q.id == p.id && q != p
  }

  /** Adds the policies not seen yet, refusing one id with two contents. */
  function MergePolicies(all: seq<Policy>, added: seq<Policy>): Result<seq<Policy>, RiskError>
    decreases |added|
  {
    if added == [] then Ok(all)
    else if ConflictingPolicy(all, added[0]) then Err(PolicyConflict)
    else MergePolicies(if KnownPolicy(all, added[0]) then all else InsertPolicy(all, added[0]), added[1..])
  }

  function UpperPolicies(r: Registration): set<Policy> {
    set p | p in r.policies && (p.scope.GlobalScope? || p.scope.WorkspaceScope? || p.scope.PortfolioScope?)
  }

  function AssetNetworks(r: Registration): set<(Id, Id)>
    requires RegistrationOk(r)
  {
    set i | i in r.universe :: (i.base, r.networks[i])
  }

  datatype Draft = Draft(
    registrations: map<Id, Registration>,
    networks: map<InstrumentId, Id>,
    assetNetworks: set<(Id, Id)>,
    upper: Option<set<Policy>>,
    policies: seq<Policy>)

  function Register(d: Draft, r: Registration, workspace: Id): Result<Draft, RiskError>
    requires RegistrationOk(r)
  {
    var assets := d.assetNetworks + AssetNetworks(r);
    if r.workspace != workspace then Err(WorkspaceMismatch)
    else if r.version in d.registrations then Err(DuplicateAgent)
    else if d.upper.Some? && d.upper.value != UpperPolicies(r) then Err(UpperScopeMismatch)
    else if exists x, y :: x in assets && y in assets && x.0 == y.0 && x.1 != y.1 then Err(AssetNetworkConflict)
    else if exists k :: k in r.networks && k in d.networks && r.networks[k] != d.networks[k] then Err(NetworkConflict)
    else
      match MergePolicies(d.policies, r.policies)
      case Err(e) => Err(e)
      case Ok(all) =>
        Ok(Draft(d.registrations[r.version := r], d.networks + r.networks, assets, Some(UpperPolicies(r)), all))
  }

  function RegisterAll(d: Draft, rs: seq<Registration>, workspace: Id): Result<Draft, RiskError>
    requires forall r :: r in rs ==> RegistrationOk(r)
    decreases |rs|
  {
    if rs == [] then Ok(d)
    else
      match Register(d, rs[0], workspace)
      case Err(e) => Err(e)
      case Ok(next) => RegisterAll(next, rs[1..], workspace)
  }

  function Open(p: Portfolio, controls: Controls, rs: seq<Registration>, capacity: nat): Result<Session, RiskError>
    requires forall r :: r in rs ==> RegistrationOk(r)
  {
    if !(1 <= capacity <= 100_000) then Err(InvalidCapacity)
    else if controls.workspace != p.workspace then Err(WorkspaceMismatch)
    else if rs == [] then Err(NoRegistration)
    else
      match RegisterAll(Draft(map[], map[], {}, None, []), rs, p.workspace)
      case Err(e) => Err(e)
      case Ok(d) =>
        if |d.policies| > 16 then Err(TooManyPolicies)
        else
          Ok(Session(
            p, controls, map k | k in d.registrations :: d.registrations[k].(policies := d.policies),
            d.networks, capacity, [], map[], map[], None, []))
  }

  // ---- Operations -----------------------------------------------------------------------------------

  function InsertEntry(es: seq<Entry>, e: Entry): seq<Entry> {
    if es == [] || e.request.intent.id < es[0].request.intent.id then [e] + es
    else [es[0]] + InsertEntry(es[1..], e)
  }

  function Find(es: seq<Entry>, intent: Id): Option<nat> {
    if es == [] then None
    else if es[0].request.intent.id == intent then Some(0)
    else
      match Find(es[1..], intent)
      case None => None
      case Some(i) => Some(i + 1)
  }

  lemma {:induction false} FindIs(es: seq<Entry>, intent: Id)
    ensures Find(es, intent).Some? ==>
              Find(es, intent).value < |es| && es[Find(es, intent).value].request.intent.id == intent
    ensures Find(es, intent).None? ==> forall e :: e in es ==> e.request.intent.id != intent
  {
    if es != [] {
      FindIs(es[1..], intent);
    }
  }

  function HeldBy(e: Entry, excluding: Option<Id>): seq<Reservation> {
    if e.reservation.Some? && Some(e.request.intent.id) != excluding then [e.reservation.value] else []
  }

  /** The reservations held, in intent order, leaving out one intent. */
  function Reservations(es: seq<Entry>, excluding: Option<Id>): seq<Reservation> {
    if es == [] then [] else HeldBy(es[0], excluding) + Reservations(es[1..], excluding)
  }

  predicate ClockOk(s: Session, now: int) {
    s.lastNow.None? || s.lastNow.value <= now
  }

  predicate AuditFull(s: Session) {
    |s.audit| >= s.capacity * 4
  }

  function Audit(s: Session, at: int, kind: AuditKind): Session {
    s.(audit := s.audit + [AuditEvent(|s.audit| + 1, at, kind)])
  }

  function UpdateControls(s: Session, renewed: Controls, now: int): Step<()> {
    var previous := s.controls;
    if renewed.workspace != previous.workspace || renewed.account != previous.account
       || renewed.version <= previous.version || renewed.fencingToken < previous.fencingToken
       || renewed.asOf < previous.asOf
    then Step(s, Err(InvalidControlRefresh))
    else if !ClockOk(s, now) then Step(s, Err(ClockMovedBackwards))
    else
      var t := s.(lastNow := Some(now));
      if renewed.asOf > now then Step(t, Err(InvalidControlRefresh))
      else if AuditFull(t) then Step(t, Err(AuditExhausted))
      else Step(Audit(t, now, ControlsUpdated).(controls := renewed), Ok(()))
  }

  /** The entry a repeated key or intent refers to. */
  function Existing(s: Session, i: Intent): Option<nat> {
    if i.key in s.keys then Find(s.entries, s.keys[i.key]) else Find(s.entries, i.id)
  }

  predicate SessionOk(s: Session) {
    && forall k :: k in s.registrations ==> RegistrationOk(s.registrations[k])
  }

  function EvaluateIn(env: Environment, s: Session, req: Request, now: int): Step<Record>
    requires RequestOk(req) && SessionOk(s)
  {
    var i := req.intent;
    FindIs(s.entries, i.id);
    FindIs(s.entries, if i.key in s.keys then s.keys[i.key] else i.id);
    if i.workspace != s.portfolio.workspace then Step(s, Err(WorkspaceMismatch))
    else if i.agentVersion !in s.registrations then Step(s, Err(Unregistered))
    else if Existing(s, i).Some? then
      var existing := s.entries[Existing(s, i).value];
      if env.requestHash(req) != existing.record.requestHash then Step(s, Err(IdempotencyConflict))
      else Step(s, Ok(existing.record))
    else if i.decision in s.decisions then Step(s, Err(DecisionAlreadyEvaluated))
    else if |s.entries| >= s.capacity then Step(s, Err(CapacityExhausted))
    else if !ClockOk(s, now) then Step(s, Err(ClockMovedBackwards))
    else
      var t := s.(lastNow := Some(now));
      var o := Evaluate(env, req, s.registrations[i.agentVersion], s.portfolio, s.controls, s.networks,
                        Reservations(s.entries, None), now);
      if AuditFull(t) then Step(t, Err(AuditExhausted))
      else
        Step(Audit(t, now, Evaluated(o.record.evaluation.verdict)).(
               entries := InsertEntry(s.entries, Entry(req, o.record, o.reservation, s.controls.fencingToken, false, None)),
               keys := s.keys[i.key := i.id],
               decisions := s.decisions[i.decision := i.id]),
             Ok(o.record))
  }

  /** The evaluator's verdict on an entry already held, against every other reservation. */
  function Recheck(env: Environment, s: Session, e: Entry, now: int): Record
    requires SessionOk(s) && RequestOk(e.request) && e.request.intent.agentVersion in s.registrations
  {
    Evaluate(env, e.request, s.registrations[e.request.intent.agentVersion], s.portfolio, s.controls, s.networks,
             Reservations(s.entries, Some(e.request.intent.id)), now).record
  }

  predicate StillApproved(checked: Record, record: Record) {
    IsApproved(checked) && checked.evaluation.approved >= record.evaluation.approved
  }

  function PermitFor(s: Session, e: Entry, token: int, now: int): Permit
    requires e.request.intent.agentVersion in s.registrations
  {
    var i, r := e.request.intent, e.record;
    Permit(
      r.account,
      Approval(
        i.id, r.evaluation.id, i.workspace, i.instrument, i.mode, i.side, i.orderType, r.evaluation.approved,
        i.currency, None, i.timeInForce, ClientOrderId(s.portfolio.workspace, r.account, i.id), token, now, r.expiresAt),
      r, s.registrations[i.agentVersion].execution)
  }

  predicate EntriesOk(s: Session) {
    forall e :: e in s.entries ==> RequestOk(e.request) && e.request.intent.agentVersion in s.registrations
  }

  function Handoff(env: Environment, s: Session, workspace: Id, intent: Id, token: int, now: int): Step<Option<Permit>>
    requires SessionOk(s) && EntriesOk(s)
  {
    FindIs(s.entries, intent);
    var found := Find(s.entries, intent);
    if workspace != s.portfolio.workspace then Step(s, Err(WorkspaceMismatch))
    else if found.None? then Step(s, Err(UnknownIntent))
    else
      var e := s.entries[found.value];
      if !IsApproved(e.record) || e.terminal then Step(s, Ok(None))
      else if !ClockOk(s, now) then Step(s, Err(ClockMovedBackwards))
      else
        var t := s.(lastNow := Some(now));
        if token != s.controls.fencingToken || token != e.fencingToken then Step(t, Ok(None))
        else if now >= e.record.expiresAt then
          if AuditFull(t) then Step(t, Err(AuditExhausted))
          else
            Step(Audit(t, now, HandoffExpired).(entries := s.entries[found.value := e.(terminal := true)]), Ok(None))
        else if !StillApproved(Recheck(env, s, e, now), e.record) then
          if AuditFull(t) then Step(t, Err(AuditExhausted))
          else
            Step(Audit(t, now, HandoffRefused).(entries := s.entries[found.value := e.(terminal := true)]), Ok(None))
        else if AuditFull(t) then Step(t, Err(AuditExhausted))
        else
          var permit := PermitFor(s, e, token, now);
          Step(Audit(t, now, HandedOff).(
                 entries := s.entries[found.value := e.(terminal := true, issued := Some(permit))]),
               Ok(Some(permit)))
  }

  function ExecutionAllowed(env: Environment, s: Session, workspace: Id, intent: Id, token: int, now: int): Step<bool>
    requires SessionOk(s) && EntriesOk(s)
  {
    FindIs(s.entries, intent);
    var found := Find(s.entries, intent);
    if workspace != s.portfolio.workspace then Step(s, Err(WorkspaceMismatch))
    else if found.None? || s.entries[found.value].issued.None? then Step(s, Ok(false))
    else if !ClockOk(s, now) then Step(s, Err(ClockMovedBackwards))
    else
      var e, t := s.entries[found.value], s.(lastNow := Some(now));
      if token != s.controls.fencingToken || token != e.fencingToken || now >= e.record.expiresAt then Step(t, Ok(false))
      else Step(t, Ok(StillApproved(Recheck(env, s, e, now), e.record)))
  }

  /** The intents of `commands` whose execution is not allowed any more. */
  function Guard(env: Environment, s: Session, workspace: Id, commands: seq<(Id, int)>, now: int): Step<seq<Id>>
    requires SessionOk(s) && EntriesOk(s)
    decreases |commands|
  {
    if workspace != s.portfolio.workspace then Step(s, Err(WorkspaceMismatch))
    else if commands == [] then Step(s, Ok([]))
    else
      var first := ExecutionAllowed(env, s, workspace, commands[0].0, commands[0].1, now);
      match first.result
      case Err(e) => Step(first.state, Err(e))
      case Ok(allowed) =>
        var rest := Guard(env, first.state, workspace, commands[1..], now);
        match rest.result
        case Err(e) => rest
        case Ok(blocked) => Step(rest.state, Ok((if allowed then [] else [commands[0].0]) + blocked))
  }

  // ---- What every operation leaves callable ----------------------------------------------------------

  lemma {:induction false} MergedPoliciesOk(all: seq<Policy>, added: seq<Policy>)
    requires (forall p :: p in all ==> PolicyOk(p)) && (forall p :: p in added ==> PolicyOk(p))
    ensures MergePolicies(all, added).Ok? ==>
              |MergePolicies(all, added).value| >= |all| && forall p :: p in MergePolicies(all, added).value ==> PolicyOk(p)
    ensures MergePolicies(all, added).Ok? && added != [] ==> MergePolicies(all, added).value != []
    decreases |added|
  {
    hide PolicyOk;
    if added != [] {
      InsertedPolicies(all, added[0]);
      MergedPoliciesOk(if KnownPolicy(all, added[0]) then all else InsertPolicy(all, added[0]), added[1..]);
    }
  }

  lemma {:induction false} InsertedPolicies(ps: seq<Policy>, p: Policy)
    ensures |InsertPolicy(ps, p)| == |ps| + 1
    ensures forall q :: q in InsertPolicy(ps, p) <==> q == p || q in ps
  {
    if !(ps == [] || ListedBefore(p, ps[0])) {
      InsertedPolicies(ps[1..], p);
    }
  }

  ghost predicate DraftOk(d: Draft) {
    && (forall p :: p in d.policies ==> PolicyOk(p))
    && (d.registrations != map[] ==> d.policies != [])
    && (forall k :: k in d.registrations ==> RegistrationOk(d.registrations[k]))
  }

  lemma {:induction false} RegisteredOk(d: Draft, rs: seq<Registration>, workspace: Id)
    requires DraftOk(d) && forall r :: r in rs ==> RegistrationOk(r)
    ensures RegisterAll(d, rs, workspace).Ok? ==> DraftOk(RegisterAll(d, rs, workspace).value)
    decreases |rs|
  {
    if rs != [] && Register(d, rs[0], workspace).Ok? {
      MergedPoliciesOk(d.policies, rs[0].policies);
      RegisteredOk(Register(d, rs[0], workspace).value, rs[1..], workspace);
    }
  }

  lemma OpenedOk(p: Portfolio, controls: Controls, rs: seq<Registration>, capacity: nat)
    requires forall r :: r in rs ==> RegistrationOk(r)
    ensures Open(p, controls, rs, capacity).Ok? ==>
              SessionOk(Open(p, controls, rs, capacity).value) && EntriesOk(Open(p, controls, rs, capacity).value)
  {
    hide PolicyOk;
    RegisteredOk(Draft(map[], map[], {}, None, []), rs, p.workspace);
  }

  lemma {:induction false} InsertedMembers(es: seq<Entry>, n: Entry)
    ensures forall e :: e in InsertEntry(es, n) ==> e == n || e in es
  {
    if es != [] {
      InsertedMembers(es[1..], n);
    }
  }

  lemma EvaluateScope(env: Environment, s: Session, req: Request, now: int)
    requires RequestOk(req) && SessionOk(s)
    ensures var t := EvaluateIn(env, s, req, now).state; SessionOk(t) && (EntriesOk(s) ==> EntriesOk(t))
  {
    hide Evaluate, Reservations, ClockOk, AuditFull, Find;
    if req.intent.agentVersion in s.registrations {
      var o := Evaluate(env, req, s.registrations[req.intent.agentVersion], s.portfolio, s.controls, s.networks,
                        Reservations(s.entries, None), now);
      InsertedMembers(s.entries, Entry(req, o.record, o.reservation, s.controls.fencingToken, false, None));
    }
  }

  lemma HandoffScope(env: Environment, s: Session, workspace: Id, intent: Id, token: int, now: int)
    requires SessionOk(s) && EntriesOk(s)
    ensures var t := Handoff(env, s, workspace, intent, token, now).state; SessionOk(t) && EntriesOk(t)
  {
    hide Recheck, PermitFor, StillApproved, IsApproved, ClockOk, AuditFull, Find;
    FindIs(s.entries, intent);
  }

  lemma AllowedScope(env: Environment, s: Session, workspace: Id, intent: Id, token: int, now: int)
    requires SessionOk(s) && EntriesOk(s)
    ensures var t := ExecutionAllowed(env, s, workspace, intent, token, now).state; t == s.(lastNow := t.lastNow)
  {
    hide Recheck, StillApproved, ClockOk;
  }

  /** The guard moves only the clock. */
  lemma {:induction false} GuardScope(env: Environment, s: Session, workspace: Id, commands: seq<(Id, int)>, now: int)
    requires SessionOk(s) && EntriesOk(s)
    ensures var t := Guard(env, s, workspace, commands, now).state;
            t == s.(lastNow := t.lastNow) && SessionOk(t) && EntriesOk(t)
    decreases |commands|
  {
    hide ExecutionAllowed;
    if workspace == s.portfolio.workspace && commands != [] {
      AllowedScope(env, s, workspace, commands[0].0, commands[0].1, now);
      var first := ExecutionAllowed(env, s, workspace, commands[0].0, commands[0].1, now);
      if first.result.Ok? {
        GuardScope(env, first.state, workspace, commands[1..], now);
      }
    }
  }
}

/** The session as a record: registrations that agree, one answer per request, controls and audit that only move on. */
module RiskTrail {
  import opened Outcomes
  import opened Sums
  import opened Domain
  import opened RiskAccount
  import opened RiskSizing
  import opened RiskEvaluator
  import opened RiskSession
  import opened RiskSafety

  // ---- Construction -----------------------------------------------------------------------------------

  predicate IsUpper(p: Policy) {
    p.scope == GlobalScope || p.scope == WorkspaceScope || p.scope == PortfolioScope
  }

  /** Agents that share an account share its upper policies, its instruments' networks and its policies' contents. */
  ghost predicate Agree(r: Registration, o: Registration) {
    && (forall p :: p in r.policies && IsUpper(p) ==> p in o.policies)
    && (forall p, q :: p in r.policies && q in o.policies && p.id == q.id ==> p == q)
    && (forall k :: k in r.networks && k in o.networks ==> r.networks[k] == o.networks[k])
    && (forall i, j :: i in r.universe && j in o.universe && i.base == j.base ==>
          i in r.networks && j in o.networks && r.networks[i] == o.networks[j])
  }

  /** Everything registered so far is in the draft, and agrees. */
  ghost predicate DraftAgrees(d: Draft, done: set<Registration>, workspace: Id) {
    && (forall r :: r in done ==>
          && RegistrationOk(r) && r.workspace == workspace
          && d.upper == Some(UpperPolicies(r))
          && AssetNetworks(r) <= d.assetNetworks
          && (forall p :: p in r.policies ==> p in d.policies)
          && (forall k :: k in r.networks ==> k in d.networks && d.networks[k] == r.networks[k]))
    && (forall x, y :: x in d.assetNetworks && y in d.assetNetworks && x.0 == y.0 ==> x.1 == y.1)
    && (forall p, q :: p in d.policies && q in d.policies && p.id == q.id ==> p == q)
  }

  lemma {:induction false} MergedUnique(all: seq<Policy>, added: seq<Policy>)
    requires MergePolicies(all, added).Ok? && forall p, q :: p in all && q in all && p.id == q.id ==> p == q
    ensures forall p, q :: p in MergePolicies(all, added).value && q in MergePolicies(all, added).value && p.id == q.id ==> p == q
    decreases |added|
  {
    if added != [] {
      InsertedPolicies(all, added[0]);
      MergedUnique(if KnownPolicy(all, added[0]) then all else InsertPolicy(all, added[0]), added[1..]);
    }
  }

  lemma RegisteredAgrees(d: Draft, r: Registration, workspace: Id, done: set<Registration>)
    requires RegistrationOk(r) && DraftAgrees(d, done, workspace) && Register(d, r, workspace).Ok?
    requires d.upper.Some? || done == {}
    ensures DraftAgrees(Register(d, r, workspace).value, done + {r}, workspace)
    ensures r.version !in d.registrations && Register(d, r, workspace).value.registrations == d.registrations[r.version := r]
  {
    hide RegistrationOk, UpperPolicies, AssetNetworks, MergePolicies;
    MergedMembers(d.policies, r.policies);
    MergedUnique(d.policies, r.policies);
  }

  lemma {:induction false} AllAgree(d: Draft, rs: seq<Registration>, workspace: Id, done: set<Registration>)
    requires (forall r :: r in rs ==> RegistrationOk(r)) && DraftAgrees(d, done, workspace) && RegisterAll(d, rs, workspace).Ok?
    requires d.upper.Some? || done == {}
    ensures DraftAgrees(RegisterAll(d, rs, workspace).value, done + (set r | r in rs), workspace)
    ensures forall i, j :: 0 <= i < j < |rs| ==> rs[i].version != rs[j].version
    ensures forall i :: 0 <= i < |rs| ==> rs[i].version !in d.registrations
    decreases |rs|
  {
    hide RegistrationOk, DraftAgrees, Register;
    if rs == [] {
      assert done + (set r | r in rs) == done;
    } else {
      var next := Register(d, rs[0], workspace).value;
      RegisteredAgrees(d, rs[0], workspace, done);
      RegisteredUpper(d, rs[0], workspace);
      AllAgree(next, rs[1..], workspace, done + {rs[0]});
      assert done + {rs[0]} + (set r | r in rs[1..]) == done + (set r | r in rs);
      forall i, j | 0 <= i < j < |rs|
        ensures rs[i].version != rs[j].version
      {
        if i > 0 {
          assert rs[1..][i - 1] == rs[i] && rs[1..][j - 1] == rs[j];
        } else {
          assert rs[1..][j - 1] == rs[j];
        }
      }
      forall i | 0 <= i < |rs|
        ensures rs[i].version !in d.registrations
      {
        if i > 0 {
          assert rs[1..][i - 1] == rs[i];
        }
      }
    }
  }

  lemma RegisteredUpper(d: Draft, r: Registration, workspace: Id)
    requires RegistrationOk(r) && Register(d, r, workspace).Ok?
    ensures Register(d, r, workspace).value.upper == Some(UpperPolicies(r))
  {
    hide RegistrationOk, MergePolicies, UpperPolicies, AssetNetworks;
  }

  lemma DraftsAgree(d: Draft, done: set<Registration>, workspace: Id, r: Registration, o: Registration)
    requires DraftAgrees(d, done, workspace) && r in done && o in done
    ensures Agree(r, o)
  {
    forall p | p in r.policies && IsUpper(p)
      ensures p in o.policies
    {
      assert p in UpperPolicies(r) && p in UpperPolicies(o);
    }
    forall i, j | i in r.universe && j in o.universe && i.base == j.base
      ensures i in r.networks && j in o.networks && r.networks[i] == o.networks[j]
    {
      assert (i.base, r.networks[i]) in AssetNetworks(r) && (j.base, o.networks[j]) in AssetNetworks(o);
    }
  }

  /**
   * A session opens only on registrations of its own workspace that agree with each other, with distinct
   * agents, at most sixteen policies in all and a capacity in range.
   */
  lemma OpenedRegistrationsAgree(p: Portfolio, controls: Controls, rs: seq<Registration>, capacity: nat, i: nat, j: nat)
    requires forall r :: r in rs ==> RegistrationOk(r)
    requires Open(p, controls, rs, capacity).Ok? && i < |rs| && j < |rs|
    ensures rs[i].workspace == controls.workspace == p.workspace && 1 <= capacity <= 100_000
    ensures Agree(rs[i], rs[j]) && (i != j ==> rs[i].version != rs[j].version)
    ensures rs[i].version in Open(p, controls, rs, capacity).value.registrations
    ensures |Open(p, controls, rs, capacity).value.registrations[rs[i].version].policies| <= 16
  {
    hide RegistrationOk, Agree, RegisterAll;
    var empty := Draft(map[], map[], {}, None, []);
    AllAgree(empty, rs, p.workspace, {});
    RegisteredMembers(empty, rs, p.workspace);
    var d := RegisterAll(empty, rs, p.workspace).value;
    var done := {} + (set r | r in rs);
    assert rs[i] in rs && rs[j] in rs && rs[i] in done && rs[j] in done;
    DraftsAgree(d, done, p.workspace, rs[i], rs[j]);
  }

  // ---- Controls and audit -----------------------------------------------------------------------------------

  /** Newer controls of the same account under no older token, observed by now. */
  predicate Renews(current: Controls, renewed: Controls, now: int) {
    && renewed.workspace == current.workspace && renewed.account == current.account
    && renewed.version > current.version && renewed.fencingToken >= current.fencingToken
    && current.asOf <= renewed.asOf <= now
  }

  /** Controls are replaced exactly by such a renewal, at a time that has come and while the trail has room. */
  lemma ControlsAreRenewed(s: Session, c: Controls, now: int)
    ensures var u := UpdateControls(s, c, now);
            && (u.result.Ok? <==> Renews(s.controls, c, now) && ClockOk(s, now) && !AuditFull(s))
            && u.state.controls == if u.result.Ok? then c else s.controls
  {
  }

  /** The trail counts its events from one and stays within four for each place of the session. */
  ghost predicate TrailOk(s: Session) {
    && (forall i :: 0 <= i < |s.audit| ==> s.audit[i].sequence == i + 1 && s.lastNow.Some? && s.audit[i].at <= s.lastNow.value)
    && (forall i, j :: 0 <= i <= j < |s.audit| ==> s.audit[i].at <= s.audit[j].at)
    && |s.audit| <= 4 * s.capacity
  }

  /** Every request the session answered is filed under its key, its intent and its decision. */
  ghost predicate Filed(s: Session) {
    && |s.entries| <= s.capacity
    && (forall e :: e in s.entries ==>
          && e.request.intent.key in s.keys && s.keys[e.request.intent.key] == e.request.intent.id
          && e.request.intent.decision in s.decisions && s.decisions[e.request.intent.decision] == e.request.intent.id)
  }

  /** Nothing is taken back: the trail is only extended, the clock and the controls only move forward. */
  ghost predicate MovesOn(s: Session, t: Session) {
    && s.audit <= t.audit && t.capacity == s.capacity
    && (s.lastNow.Some? ==> t.lastNow.Some? && s.lastNow.value <= t.lastNow.value)
    && (t.controls == s.controls ||
        (t.controls.version > s.controls.version && t.controls.fencingToken >= s.controls.fencingToken
         && t.controls.workspace == s.controls.workspace && t.controls.account == s.controls.account))
  }

  /** One more event on the trail. */
  predicate Logged(s: Session, t: Session, now: int, kind: AuditKind) {
    t.audit == s.audit + [AuditEvent(|s.audit| + 1, now, kind)]
  }

  /** A new answer: the entry it files, and the one event it leaves. */
  ghost predicate Answered(s: Session, t: Session, n: Entry, now: int) {
    var i := n.request.intent;
    && (forall e :: e in s.entries ==> e.request.intent.id != i.id)
    && i.key !in s.keys && i.decision !in s.decisions && |s.entries| < s.capacity
    && ClockOk(s, now) && !AuditFull(s)
    && Logged(s, t, now, Evaluated(n.record.evaluation.verdict))
    && t == s.(entries := InsertEntry(s.entries, n), keys := s.keys[i.key := i.id], decisions := s.decisions[i.decision := i.id],
               lastNow := Some(now), audit := t.audit)
  }

  /** An evaluation files one new answer or leaves everything but the clock. */
  lemma EvaluateCase(env: Environment, s: Session, req: Request, now: int) returns (n: Option<Entry>)
    requires SessionOk(s) && RequestOk(req) && forall k :: k in s.keys ==> Find(s.entries, s.keys[k]).Some?
    ensures var t := EvaluateIn(env, s, req, now).state;
            match n
            case None => t == s || (ClockOk(s, now) && t == s.(lastNow := Some(now)))
            case Some(e) => e.request == req && Answered(s, t, e, now)
  {
    hide Evaluate, Reservations, Find, RequestOk, InsertEntry;
    var i := req.intent;
    FindIs(s.entries, i.id);
    n := None;
    if i.agentVersion in s.registrations && EvaluateIn(env, s, req, now).state.audit != s.audit {
      var o := Evaluate(env, req, s.registrations[i.agentVersion], s.portfolio, s.controls, s.networks, Reservations(s.entries, None), now);
      n := Some(Entry(req, o.record, o.reservation, s.controls.fencingToken, false, None));
    }
  }

  /** One more event at a time that has come. */
  lemma TrailGrows(s: Session, t: Session, now: int, kind: AuditKind)
    requires TrailOk(s) && ClockOk(s, now) && !AuditFull(s)
    requires Logged(s, t, now, kind) && t.lastNow == Some(now) && t.capacity == s.capacity
    ensures TrailOk(t)
  {
  }

  lemma TrailStays(s: Session, t: Session, now: int)
    requires TrailOk(s) && t.audit == s.audit && t.capacity == s.capacity
    requires t.lastNow == s.lastNow || (ClockOk(s, now) && t.lastNow == Some(now))
    ensures TrailOk(t)
  {
  }

  lemma AnsweredFiles(s: Session, t: Session, n: Entry, now: int)
    requires Answered(s, t, n, now) && Filed(s) && Sorted(s.entries)
    ensures Filed(t) && MovesOn(s, t)
  {
    InsertKeepsSorted(s.entries, n);
    hide Sorted, InsertEntry;
  }

  lemma EvaluateFiles(env: Environment, s: Session, req: Request, now: int)
    requires SessionOk(s) && RequestOk(req) && TrailOk(s) && Filed(s) && Sorted(s.entries)
    requires forall k :: k in s.keys ==> Find(s.entries, s.keys[k]).Some?
    ensures var t := EvaluateIn(env, s, req, now).state; TrailOk(t) && Filed(t) && MovesOn(s, t)
  {
    hide EvaluateIn, SessionOk, TrailOk, Sorted, Find, InsertEntry;
    var t := EvaluateIn(env, s, req, now).state;
    var n := EvaluateCase(env, s, req, now);
    if n.Some? {
      AnsweredFiles(s, t, n.value, now);
      TrailGrows(s, t, now, Evaluated(n.value.record.evaluation.verdict));
    } else {
      TrailStays(s, t, now);
    }
  }

  /** A handoff leaves at most one event, at a time that has come. */
  lemma HandoffLogs(env: Environment, s: Session, workspace: Id, intent: Id, token: int, now: int)
    requires SessionOk(s) && EntriesOk(s)
    ensures var t := Handoff(env, s, workspace, intent, token, now).state;
            || (t.audit == s.audit && (t.lastNow == s.lastNow || (ClockOk(s, now) && t.lastNow == Some(now))))
            || (ClockOk(s, now) && !AuditFull(s) && t.lastNow == Some(now) && exists kind :: Logged(s, t, now, kind))
  {
    hide Recheck, PermitFor, StillApproved, IsApproved, Find;
    FindIs(s.entries, intent);
    var t := Handoff(env, s, workspace, intent, token, now).state;
    if t.audit != s.audit {
      assert Logged(s, t, now, t.audit[|s.audit|].kind);
    }
  }

  /** It files nothing. */
  lemma HandoffKeepsRequests(env: Environment, s: Session, workspace: Id, intent: Id, token: int, now: int)
    requires SessionOk(s) && EntriesOk(s)
    ensures var t := Handoff(env, s, workspace, intent, token, now).state;
            && |t.entries| == |s.entries| && (forall i :: 0 <= i < |s.entries| ==> t.entries[i].request == s.entries[i].request)
            && t == s.(entries := t.entries, audit := t.audit, lastNow := t.lastNow)
  {
    hide Handoff, Find;
    HandoffShape(env, s, workspace, intent, token, now);
  }

  lemma HandoffFiles(env: Environment, s: Session, workspace: Id, intent: Id, token: int, now: int)
    requires SessionOk(s) && EntriesOk(s) && TrailOk(s) && Filed(s)
    ensures var t := Handoff(env, s, workspace, intent, token, now).state; TrailOk(t) && Filed(t) && MovesOn(s, t)
  {
    hide Handoff, TrailOk, SessionOk, EntriesOk;
    HandoffLogs(env, s, workspace, intent, token, now);
    HandoffKeepsRequests(env, s, workspace, intent, token, now);
    var t := Handoff(env, s, workspace, intent, token, now).state;
    if t.audit == s.audit {
      TrailStays(s, t, now);
    } else {
      var kind :| Logged(s, t, now, kind);
      TrailGrows(s, t, now, kind);
    }
    forall e | e in t.entries
      ensures e.request.intent.key in t.keys && t.keys[e.request.intent.key] == e.request.intent.id
      ensures e.request.intent.decision in t.decisions && t.decisions[e.request.intent.decision] == e.request.intent.id
    {
      var i :| 0 <= i < |t.entries| && t.entries[i] == e;
      assert s.entries[i] in s.entries;
    }
  }

  lemma ScratchFiles(s: Session, t: Session)
    requires TrailOk(s) && Filed(s) && t == s.(lastNow := t.lastNow) && (s.lastNow.Some? ==> t.lastNow.Some? && s.lastNow.value <= t.lastNow.value)
    ensures TrailOk(t) && Filed(t) && MovesOn(s, t)
  {
  }

  lemma ControlsFiles(s: Session, c: Controls, now: int)
    requires TrailOk(s) && Filed(s)
    ensures var t := UpdateControls(s, c, now).state; TrailOk(t) && Filed(t) && MovesOn(s, t)
  {
    hide TrailOk;
    var t := UpdateControls(s, c, now).state;
    if t.audit == s.audit {
      TrailStays(s, t, now);
    } else {
      TrailGrows(s, t, now, ControlsUpdated);
    }
  }

  lemma {:induction false} GuardForward(env: Environment, s: Session, workspace: Id, commands: seq<(Id, int)>, now: int)
    requires SessionOk(s) && EntriesOk(s)
    ensures var t := Guard(env, s, workspace, commands, now).state; s.lastNow.Some? ==> t.lastNow.Some? && s.lastNow.value <= t.lastNow.value
    decreases |commands|
  {
    hide ExecutionAllowed;
    if workspace == s.portfolio.workspace && commands != [] {
      AllowedScope(env, s, workspace, commands[0].0, commands[0].1, now);
      AllowedForward(env, s, workspace, commands[0].0, commands[0].1, now);
      var first := ExecutionAllowed(env, s, workspace, commands[0].0, commands[0].1, now);
      if first.result.Ok? {
        GuardForward(env, first.state, workspace, commands[1..], now);
      }
    }
  }

  lemma AllowedForward(env: Environment, s: Session, workspace: Id, intent: Id, token: int, now: int)
    requires SessionOk(s) && EntriesOk(s)
    ensures var t := ExecutionAllowed(env, s, workspace, intent, token, now).state;
            s.lastNow.Some? ==> t.lastNow.Some? && s.lastNow.value <= t.lastNow.value
  {
    hide Recheck, StillApproved;
  }

  lemma MovesTransitive(s: Session, t: Session, u: Session)
    requires MovesOn(s, t) && MovesOn(t, u)
    ensures MovesOn(s, u)
  {
  }

  lemma OpFiles(env: Environment, s: Session, op: Op, ps: seq<Policy>)
    requires SessionInv(s, ps) && OpOk(op) && TrailOk(s) && Filed(s)
    ensures SessionOk(s) && EntriesOk(s) && TrailOk(After(env, s, op)) && Filed(After(env, s, op)) && MovesOn(s, After(env, s, op))
  {
    SessionInvEntries(s, ps);
    TrailSorted(s, ps);
    hide SessionInv, Find, EvaluateIn, Handoff, Guard, UpdateControls, TrailOk, Filed, MovesOn, Sorted;
    match op
    case DoEvaluate(req, now) => EvaluateFiles(env, s, req, now);
    case DoHandoff(w, i, token, now) => HandoffFiles(env, s, w, i, token, now);
    case DoControls(c, now) => ControlsFiles(s, c, now);
    case DoGuard(w, commands, now) =>
      GuardScope(env, s, w, commands, now);
      GuardForward(env, s, w, commands, now);
      ScratchFiles(s, Guard(env, s, w, commands, now).state);
  }

  lemma TrailSorted(s: Session, ps: seq<Policy>)
    requires SessionInv(s, ps)
    ensures Sorted(s.entries)
  {
  }

  lemma {:induction false} RunFiles(env: Environment, s: Session, ops: seq<Op>, t: Session, ps: seq<Policy>)
    requires SessionInv(s, ps) && TrailOk(s) && Filed(s) && Run(env, s, ops, t)
    ensures SessionInv(t, ps) && TrailOk(t) && Filed(t) && MovesOn(s, t)
    decreases |ops|
  {
    hide SessionInv, TrailOk, Filed, After;
    if ops != [] {
      OpFiles(env, s, ops[0], ps);
      OpKeeps(env, s, ops[0], ps);
      RunFiles(env, After(env, s, ops[0]), ops[1..], t, ps);
      MovesTransitive(s, After(env, s, ops[0]), t);
    }
  }

  /**
   * Between any two points of any run the trail, the clock and the controls only move forward, the trail is
   * numbered without a gap, and no two answered requests share a key, an intent or a decision.
   */
  lemma SessionMovesOn(
      env: Environment, p: Portfolio, controls: Controls, rs: seq<Registration>, capacity: nat,
      before: seq<Op>, s: Session, after: seq<Op>, t: Session, i: nat, j: nat)
    requires forall r :: r in rs ==> RegistrationOk(r)
    requires Open(p, controls, rs, capacity).Ok?
    requires Run(env, Open(p, controls, rs, capacity).value, before, s) && Run(env, s, after, t)
    requires i < j < |t.entries|
    ensures MovesOn(s, t) && TrailOk(t) && |t.entries| <= capacity
    ensures var x, y := t.entries[i].request.intent, t.entries[j].request.intent;
            x.id != y.id && x.key != y.key && x.decision != y.decision
  {
    OpenedFiled(p, controls, rs, capacity);
    OpenedInv(p, controls, rs, capacity);
    hide Open, SessionInv, Run, TrailOk, MovesOn;
    var o := Open(p, controls, rs, capacity).value;
    var ps :| SessionInv(o, ps);
    RunFiles(env, o, before, s, ps);
    RunFiles(env, s, after, t, ps);
    SameCapacity(o, s);
    SameCapacity(s, t);
    TrailSorted(t, ps);
    assert t.entries[i] in t.entries && t.entries[j] in t.entries;
  }

  lemma SameCapacity(s: Session, t: Session)
    requires MovesOn(s, t)
    ensures t.capacity == s.capacity
  {
  }

  lemma OpenedFiled(p: Portfolio, controls: Controls, rs: seq<Registration>, capacity: nat)
    requires forall r :: r in rs ==> RegistrationOk(r)
    requires Open(p, controls, rs, capacity).Ok?
    ensures var s := Open(p, controls, rs, capacity).value; TrailOk(s) && Filed(s) && s.capacity == capacity
  {
  }

  /**
   * A request the session has answered gets the same answer again and changes nothing; another request
   * under its key is refused, and so is another intent for a decided decision.
   */
  lemma AnsweredOnce(env: Environment, s: Session, ps: seq<Policy>, e: Entry, req: Request, now: int)
    requires SessionInv(s, ps) && SessionOk(s) && Filed(s) && e in s.entries && RequestOk(req)
    requires req.intent.workspace == s.portfolio.workspace && req.intent.agentVersion in s.registrations
    ensures var r := EvaluateIn(env, s, req, now);
            && (req.intent.key == e.request.intent.key ==>
                  r == Step(s, if env.requestHash(req) == e.record.requestHash then Ok(e.record) else Err(IdempotencyConflict)))
            && (req.intent.decision == e.request.intent.decision && req.intent.key !in s.keys && Find(s.entries, req.intent.id).None? ==>
                  r == Step(s, Err(DecisionAlreadyEvaluated)))
  {
    TrailSorted(s, ps);
    FindSorted(s.entries, e);
    hide SessionInv, Evaluate, Sorted, Find, Reservations, RequestOk;
  }

  // ---- Handoff -----------------------------------------------------------------------------------------

  /** The entry is as it was, except that it may have been closed, with or without a permit. */
  ghost predicate ClosedAs(s: Session, t: Session, e: Entry, issued: Option<Permit>) {
    exists i :: 0 <= i < |s.entries| && s.entries[i] == e && t.entries == s.entries[i := e.(terminal := true, issued := issued)]
  }

  /**
   * Handing off an open approval at a time that has come: a stale token leaves it open and unrecorded, a
   * full trail refuses, and otherwise it is closed for good under one event: expired, refused or handed off.
   */
  lemma HandoffCloses(env: Environment, s: Session, token: int, now: int, e: Entry)
    requires SessionOk(s) && EntriesOk(s) && Sorted(s.entries) && e in s.entries
    requires IsApproved(e.record) && !e.terminal && ClockOk(s, now)
    ensures var h := Handoff(env, s, s.portfolio.workspace, e.request.intent.id, token, now);
            var t := h.state;
            if token != s.controls.fencingToken || token != e.fencingToken then
              h.result == Ok(None) && t.entries == s.entries && t.audit == s.audit
            else if |s.audit| >= 4 * s.capacity then h.result == Err(AuditExhausted) && t.entries == s.entries && t.audit == s.audit
            else
              && h.result.Ok? && ClosedAs(s, t, e, if h.result.value.Some? then h.result.value else e.issued)
              && (e.record.expiresAt <= now ==> h.result.value.None? && Logged(s, t, now, HandoffExpired))
              && (now < e.record.expiresAt ==> Logged(s, t, now, if h.result.value.Some? then HandedOff else HandoffRefused))
  {
    hide Recheck, StillApproved, IsApproved, Sorted, Find, PermitFor;
    FindSorted(s.entries, e);
  }

  /** A permit carries its intent, its record and the execution terms of its agent, under a name of its own. */
  lemma PermitCarries(env: Environment, s: Session, token: int, now: int, e: Entry)
    requires SessionOk(s) && EntriesOk(s) && Sorted(s.entries) && e in s.entries
    ensures var r, i := Handoff(env, s, s.portfolio.workspace, e.request.intent.id, token, now).result, e.request.intent;
            r.Ok? && r.value.Some? ==>
              var p := r.value.value;
              var a := p.approval;
              && p.record == e.record && p.account == e.record.account && p.execution == s.registrations[i.agentVersion].execution
              && a.intent == i.id && a.evaluation == e.record.evaluation.id && a.workspace == i.workspace
              && a.instrument == i.instrument && a.mode == i.mode && a.side == i.side && a.orderType == i.orderType
              && a.timeInForce == i.timeInForce && a.currency == i.currency && a.limitPrice == None
              && a.notional == e.record.evaluation.approved && a.fencingToken == token == e.fencingToken
              && a.approvedAt == now < a.expiresAt == e.record.expiresAt
              && a.clientOrderId == ClientOrderId(s.portfolio.workspace, e.record.account, i.id)
  {
    hide Recheck, StillApproved, IsApproved, Sorted, Find;
    FindSorted(s.entries, e);
  }
}

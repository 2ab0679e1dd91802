/** When a session lets an issued approval execute, and what it issues over any run. */
module RiskGuard {
  import opened Outcomes
  import opened Sums
  import opened Domain
  import opened RiskAccount
  import opened RiskSizing
  import opened RiskTheorems
  import opened RiskEvaluator
  import opened RiskSession
  import opened RiskSafety
  import opened RiskRecheck
  import opened Fixed

  // ---- What an issued entry looks like --------------------------------------------------------------

  /** A permit names its intent, carries its record and was issued before it lapsed. */
  ghost predicate PermitSound(p: Permit, e: Entry) {
    && p.record == e.record && p.approval.intent == e.request.intent.id
    && p.approval.notional == e.record.evaluation.approved
    && p.approval.fencingToken == e.fencingToken
    && p.approval.approvedAt < p.approval.expiresAt == e.record.expiresAt
  }

  ghost predicate IssuedOk(s: Session) {
    forall e :: e in s.entries && e.issued.Some? ==> e.terminal && IsApproved(e.record) && PermitSound(e.issued.value, e)
  }

  /** The one permit an operation issues, if any. */
  function IssuedBy(env: Environment, s: Session, op: Op): seq<Permit>
    requires SessionOk(s) && EntriesOk(s)
  {
    match op
    case DoHandoff(w, i, token, now) =>
      (match Handoff(env, s, w, i, token, now).result
       case Err(_) => []
       case Ok(None) => []
       case Ok(Some(p)) => [p])
    case _ => []
  }

  /** What a handoff needs of an entry beside the recheck. */
  ghost predicate MayHandOff(s: Session, e: Entry, token: int, now: int) {
    && IsApproved(e.record) && !e.terminal
    && token == s.controls.fencingToken && token == e.fencingToken && now < e.record.expiresAt
    && ClockOk(s, now) && !AuditFull(s)
  }

  /** A handoff issues a permit exactly for a live approval the recheck stands by, and then marks its entry. */
  lemma HandoffIssues(env: Environment, s: Session, workspace: Id, token: int, now: int, e: Entry)
    requires SessionOk(s) && EntriesOk(s) && Sorted(s.entries) && e in s.entries
    ensures var h := Handoff(env, s, workspace, e.request.intent.id, token, now);
            var i := Find(s.entries, e.request.intent.id);
            && i.Some? && i.value < |s.entries| && s.entries[i.value] == e
            && (h.result.Ok? && h.result.value.Some? <==>
                workspace == s.portfolio.workspace && MayHandOff(s, e, token, now) && StillApproved(Recheck(env, s, e, now), e.record))
            && (if h.result.Ok? && h.result.value.Some?
                then h.state.entries == s.entries[i.value := e.(terminal := true, issued := h.result.value)] &&
                     PermitSound(h.result.value.value, e)
                else h.state.entries == s.entries || h.state.entries == s.entries[i.value := e.(terminal := true)])
  {
    hide Recheck, StillApproved, IsApproved, Sorted, Find;
    FindSorted(s.entries, e);
  }

  /** A handoff of an intent the session does not hold issues nothing and moves nothing. */
  lemma UnknownHandoff(env: Environment, s: Session, workspace: Id, intent: Id, token: int, now: int)
    requires SessionOk(s) && EntriesOk(s) && Find(s.entries, intent).None?
    ensures Handoff(env, s, workspace, intent, token, now).state == s && Handoff(env, s, workspace, intent, token, now).result.Err?
  {
    hide Recheck, Find;
    FindIs(s.entries, intent);
  }

  // ---- One operation ------------------------------------------------------------------------------------

  /** How the entries move: a closed one stays, and closes at most by one permit. */
  ghost predicate Advances(s: Session, t: Session) {
    forall e :: e in s.entries ==>
      exists f :: f in t.entries && f.request == e.request && f.record == e.record && f.reservation == e.reservation
                  && f.fencingToken == e.fencingToken && (e.terminal ==> f == e)
  }

  lemma AdvancesReflexive(s: Session, t: Session)
    requires t.entries == s.entries
    ensures Advances(s, t)
  {
    forall e | e in s.entries
      ensures exists f :: f in t.entries && f.request == e.request && f.record == e.record && f.reservation == e.reservation
                          && f.fencingToken == e.fencingToken && (e.terminal ==> f == e)
    {
      assert e in t.entries;
    }
  }

  lemma AdvancesTransitive(s: Session, t: Session, u: Session)
    requires Advances(s, t) && Advances(t, u)
    ensures Advances(s, u)
  {
    forall e | e in s.entries
      ensures exists g :: g in u.entries && g.request == e.request && g.record == e.record && g.reservation == e.reservation
                          && g.fencingToken == e.fencingToken && (e.terminal ==> g == e)
    {
      var f :| f in t.entries && f.request == e.request && f.record == e.record && f.reservation == e.reservation
               && f.fencingToken == e.fencingToken && (e.terminal ==> f == e);
      var g :| g in u.entries && g.request == f.request && g.record == f.record && g.reservation == f.reservation
               && g.fencingToken == f.fencingToken && (f.terminal ==> g == f);
    }
  }

  lemma ReplacedAdvances(s: Session, t: Session, i: nat, e: Entry)
    requires i < |s.entries| && !s.entries[i].terminal && t.entries == s.entries[i := e]
    requires e == s.entries[i].(terminal := e.terminal, issued := e.issued)
    ensures Advances(s, t)
  {
    forall x | x in s.entries
      ensures exists f :: f in t.entries && f.request == x.request && f.record == x.record && f.reservation == x.reservation
                          && f.fencingToken == x.fencingToken && (x.terminal ==> f == x)
    {
      var j :| 0 <= j < |s.entries| && s.entries[j] == x;
      assert t.entries[j] in t.entries;
    }
  }

  ghost predicate StepOk(env: Environment, s: Session, op: Op)
    requires SessionOk(s) && EntriesOk(s) && OpOk(op)
  {
    var t := After(env, s, op);
    && IssuedOk(t) && Advances(s, t)
    && (forall p :: p in IssuedBy(env, s, op) ==>
          && (exists e :: e in s.entries && e.request.intent.id == p.approval.intent && !e.terminal)
          && (exists e :: e in t.entries && e.request.intent.id == p.approval.intent && e.issued == Some(p)))
    && |IssuedBy(env, s, op)| <= 1
  }

  lemma HandoffStep(env: Environment, s: Session, workspace: Id, intent: Id, token: int, now: int)
    requires SessionOk(s) && EntriesOk(s) && Sorted(s.entries) && IssuedOk(s)
    ensures StepOk(env, s, DoHandoff(workspace, intent, token, now))
  {
    hide Handoff, Sorted, Find, IsApproved, Recheck, MayHandOff, StillApproved;
    FindIs(s.entries, intent);
    var h := Handoff(env, s, workspace, intent, token, now);
    if Find(s.entries, intent).None? {
      UnknownHandoff(env, s, workspace, intent, token, now);
      AdvancesReflexive(s, h.state);
    } else {
      var i := Find(s.entries, intent).value;
      var e := s.entries[i];
      HandoffIssues(env, s, workspace, token, now, e);
      ClosedStays(env, s, workspace, token, now, e);
      if h.state.entries == s.entries {
        AdvancesReflexive(s, h.state);
      } else {
        assert e in s.entries && !e.terminal && e.issued.None?;
        ReplacedAdvances(s, h.state, i, h.state.entries[i]);
        assert h.state.entries[i] in h.state.entries;
        ReplacedIssued(s, h.state, i, h.state.entries[i]);
      }
    }
  }

  /** A closed entry is never touched again. */
  lemma ClosedStays(env: Environment, s: Session, workspace: Id, token: int, now: int, e: Entry)
    requires SessionOk(s) && EntriesOk(s) && Sorted(s.entries) && e in s.entries
    ensures var h := Handoff(env, s, workspace, e.request.intent.id, token, now);
            && (e.terminal || !IsApproved(e.record) ==> h.state.entries == s.entries)
            && (h.result.Ok? && h.result.value.Some? ==> h.state.entries != s.entries && !e.terminal && IsApproved(e.record))
  {
    hide Recheck, StillApproved, IsApproved, Sorted, Find, PermitFor;
    FindSorted(s.entries, e);
  }

  lemma ReplacedIssued(s: Session, t: Session, i: nat, e: Entry)
    requires IssuedOk(s) && i < |s.entries| && t.entries == s.entries[i := e]
    requires e.issued.Some? ==> e.terminal && IsApproved(e.record) && PermitSound(e.issued.value, e)
    ensures IssuedOk(t)
  {
    hide PermitSound, IsApproved;
    forall x | x in t.entries && x.issued.Some?
      ensures x.terminal && IsApproved(x.record) && PermitSound(x.issued.value, x)
    {
      var j :| 0 <= j < |t.entries| && t.entries[j] == x;
      assert j != i ==> s.entries[j] in s.entries;
    }
  }

  lemma EvaluateStep(env: Environment, s: Session, req: Request, now: int, ps: seq<Policy>)
    requires SessionInv(s, ps) && SessionOk(s) && EntriesOk(s) && RequestOk(req) && IssuedOk(s)
    ensures StepOk(env, s, DoEvaluate(req, now))
  {
    SessionInvEntries(s, ps);
    hide EvaluateIn, Evaluate, SessionInv, IsApproved, PermitSound, InsertEntry, Advances, IssuedOk, Bounds, Stands;
    var t := EvaluateIn(env, s, req, now).state;
    var n := EvaluateShape(env, s, req, now, ps);
    if n.None? {
      AdvancesReflexive(s, t);
    } else {
      InsertedAdvances(s, t, n.value);
      InsertedIssued(s, t, n.value);
    }
  }

  lemma InsertedAdvances(s: Session, t: Session, n: Entry)
    requires t.entries == InsertEntry(s.entries, n)
    ensures Advances(s, t)
  {
    hide InsertEntry;
    InsertedAll(s.entries, n);
    forall e | e in s.entries
      ensures exists f :: f in t.entries && f.request == e.request && f.record == e.record && f.reservation == e.reservation
                          && f.fencingToken == e.fencingToken && (e.terminal ==> f == e)
    {
      assert e in t.entries;
    }
  }

  lemma InsertedIssued(s: Session, t: Session, n: Entry)
    requires t.entries == InsertEntry(s.entries, n) && n.issued.None? && IssuedOk(s)
    ensures IssuedOk(t)
  {
    hide InsertEntry, IsApproved, PermitSound;
    InsertedMembers(s.entries, n);
  }

  lemma {:induction false} InsertedAll(es: seq<Entry>, n: Entry)
    ensures forall e :: e in es || e == n ==> e in InsertEntry(es, n)
  {
    if es != [] && !(n.request.intent.id < es[0].request.intent.id) {
      InsertedAll(es[1..], n);
      assert forall e :: e in es <==> e == es[0] || e in es[1..];
    }
  }

  /** Every operation keeps what issued entries look like and moves entries only forward. */
  lemma OpSteps(env: Environment, s: Session, op: Op, ps: seq<Policy>)
    requires SessionInv(s, ps) && OpOk(op) && IssuedOk(s)
    ensures SessionOk(s) && EntriesOk(s) && StepOk(env, s, op)
  {
    SessionInvEntries(s, ps);
    InvSorted(s, ps);
    hide SessionInv, EvaluateIn, Handoff, Guard, UpdateControls, Sorted, IsApproved, PermitSound;
    match op
    case DoEvaluate(req, now) => EvaluateStep(env, s, req, now, ps);
    case DoHandoff(w, i, token, now) => HandoffStep(env, s, w, i, token, now);
    case DoControls(c, now) =>
      ControlsScratch(s, c, now);
      AdvancesReflexive(s, UpdateControls(s, c, now).state);
    case DoGuard(w, commands, now) =>
      GuardScope(env, s, w, commands, now);
      AdvancesReflexive(s, Guard(env, s, w, commands, now).state);
  }

  lemma InvSorted(s: Session, ps: seq<Policy>)
    requires SessionInv(s, ps)
    ensures Sorted(s.entries)
  {
  }

  // ---- Runs -----------------------------------------------------------------------------------------------

  /** A run, with every permit it issued, in order. */
  ghost predicate RunIssues(env: Environment, s: Session, ops: seq<Op>, t: Session, issued: seq<Permit>)
    decreases |ops|
  {
    if ops == [] then t == s && issued == []
    else
      && SessionOk(s) && EntriesOk(s) && OpOk(ops[0]) && IssuedBy(env, s, ops[0]) <= issued
      && RunIssues(env, After(env, s, ops[0]), ops[1..], t, issued[|IssuedBy(env, s, ops[0])|..])
  }

  lemma {:induction false} RunAdvances(env: Environment, s: Session, ops: seq<Op>, t: Session, issued: seq<Permit>, ps: seq<Policy>)
    requires SessionInv(s, ps) && IssuedOk(s) && RunIssues(env, s, ops, t, issued)
    ensures SessionInv(t, ps) && IssuedOk(t) && Advances(s, t)
    ensures forall p :: p in issued ==>
              && (forall e :: e in s.entries && e.request.intent.id == p.approval.intent ==> !e.terminal)
              && (exists e :: e in t.entries && e.request.intent.id == p.approval.intent && e.issued == Some(p))
    ensures forall i, j :: 0 <= i < j < |issued| ==> issued[i].approval.intent != issued[j].approval.intent
    decreases |ops|
  {
    hide SessionInv, IssuedOk, After, IssuedBy;
    if ops == [] {
      AdvancesReflexive(s, t);
    } else {
      var op := ops[0];
      var u, first := After(env, s, op), IssuedBy(env, s, op);
      var rest := issued[|first|..];
      OpSteps(env, s, op, ps);
      OpKeeps(env, s, op, ps);
      RunAdvances(env, u, ops[1..], t, rest, ps);
      AdvancesTransitive(s, u, t);
      assert issued == first + rest;
      RestIsNew(s, u, rest);
      FirstStays(env, s, op, u, t, first, rest, ps);
    }
  }

  /** What is issued later was not closed before. */
  lemma RestIsNew(s: Session, u: Session, rest: seq<Permit>)
    requires Advances(s, u)
    requires forall p :: p in rest ==> forall e :: e in u.entries && e.request.intent.id == p.approval.intent ==> !e.terminal
    ensures forall p :: p in rest ==> forall e :: e in s.entries && e.request.intent.id == p.approval.intent ==> !e.terminal
  {
    forall p, e | p in rest && e in s.entries && e.request.intent.id == p.approval.intent
      ensures !e.terminal
    {
      var f :| f in u.entries && f.request == e.request && f.record == e.record && f.reservation == e.reservation
               && f.fencingToken == e.fencingToken && (e.terminal ==> f == e);
    }
  }

  /** What is issued first stays in its entry, and is issued to no other permit later. */
  lemma FirstStays(
      env: Environment, s: Session, op: Op, u: Session, t: Session, first: seq<Permit>, rest: seq<Permit>, ps: seq<Policy>)
    requires SessionInv(s, ps) && SessionOk(s) && EntriesOk(s) && OpOk(op) && StepOk(env, s, op)
    requires u == After(env, s, op) && first == IssuedBy(env, s, op) && IssuedOk(u) && Advances(u, t)
    requires forall p :: p in rest ==> forall e :: e in u.entries && e.request.intent.id == p.approval.intent ==> !e.terminal
    ensures forall p :: p in first ==>
              && (forall e :: e in s.entries && e.request.intent.id == p.approval.intent ==> !e.terminal)
              && (exists e :: e in t.entries && e.request.intent.id == p.approval.intent && e.issued == Some(p))
    ensures forall p, q :: p in first && q in rest ==> p.approval.intent != q.approval.intent
  {
    InvSorted(s, ps);
    hide SessionInv, After, IssuedBy, PermitSound, IsApproved;
    forall p | p in first
      ensures forall e :: e in s.entries && e.request.intent.id == p.approval.intent ==> !e.terminal
      ensures exists e :: e in t.entries && e.request.intent.id == p.approval.intent && e.issued == Some(p)
      ensures forall q :: q in rest ==> p.approval.intent != q.approval.intent
    {
      var e :| e in s.entries && e.request.intent.id == p.approval.intent && !e.terminal;
      OneEntryPerIntent(s.entries, e);
      var f :| f in u.entries && f.request.intent.id == p.approval.intent && f.issued == Some(p);
      var g :| g in t.entries && g.request == f.request && g.record == f.record && g.reservation == f.reservation
               && g.fencingToken == f.fencingToken && (f.terminal ==> g == f);
    }
  }

  lemma OneEntryPerIntent(es: seq<Entry>, e: Entry)
    requires Sorted(es) && e in es
    ensures forall f :: f in es && f.request.intent.id == e.request.intent.id ==> f == e
  {
    forall f | f in es && f.request.intent.id == e.request.intent.id
      ensures f == e
    {
      var i :| 0 <= i < |es| && es[i] == e;
      var j :| 0 <= j < |es| && es[j] == f;
      SortedDiffer(es, i, j);
    }
  }

  /**
   * Over any run of a session each intent is issued at most one permit. Every permit was issued under its
   * entry's token before it lapsed, and its entry still holds exactly it.
   */
  lemma IssuedAtMostOnce(
      env: Environment, p: Portfolio, controls: Controls, rs: seq<Registration>, capacity: nat,
      ops: seq<Op>, t: Session, issued: seq<Permit>, i: nat, j: nat)
    requires forall r :: r in rs ==> RegistrationOk(r)
    requires Open(p, controls, rs, capacity).Ok?
    requires RunIssues(env, Open(p, controls, rs, capacity).value, ops, t, issued)
    requires i < j < |issued|
    ensures issued[i].approval.intent != issued[j].approval.intent
    ensures exists e :: e in t.entries && e.issued == Some(issued[i]) && PermitSound(issued[i], e) && IsApproved(e.record)
    ensures issued[i].approval.approvedAt < issued[i].record.expiresAt
  {
    OpenedInv(p, controls, rs, capacity);
    OpenedEmpty(p, controls, rs, capacity);
    hide Open, SessionInv, RunIssues, IsApproved;
    var s := Open(p, controls, rs, capacity).value;
    var ps :| SessionInv(s, ps);
    RunAdvances(env, s, ops, t, issued, ps);
    assert issued[i] in issued;
    var e :| e in t.entries && e.request.intent.id == issued[i].approval.intent && e.issued == Some(issued[i]);
    assert PermitSound(issued[i], e);
  }

  lemma OpenedEmpty(p: Portfolio, controls: Controls, rs: seq<Registration>, capacity: nat)
    requires forall r :: r in rs ==> RegistrationOk(r)
    requires Open(p, controls, rs, capacity).Ok?
    ensures var s := Open(p, controls, rs, capacity).value;
            s.entries == [] && s.audit == [] && s.lastNow == None && s.controls == controls && IssuedOk(s)
  {
  }

  lemma {:induction false} RunHasIssues(env: Environment, s: Session, ops: seq<Op>, t: Session) returns (issued: seq<Permit>)
    requires Run(env, s, ops, t)
    ensures RunIssues(env, s, ops, t, issued)
    decreases |ops|
  {
    hide After, IssuedBy;
    if ops == [] {
      issued := [];
    } else {
      var rest := RunHasIssues(env, After(env, s, ops[0]), ops[1..], t);
      var first := IssuedBy(env, s, ops[0]);
      issued := first + rest;
      assert issued[|first|..] == rest;
    }
  }

  // ---- The guard ---------------------------------------------------------------------------------------------

  /** The entry of an intent may execute: issued, current, unexpired, and still within everything reserved. */
  ghost predicate Executable(env: Environment, s: Session, ps: seq<Policy>, e: Entry, token: int, now: int)
    requires SessionOk(s) && EntriesOk(s) && e in s.entries
  {
    var reg := s.registrations[e.request.intent.agentVersion];
    && e.issued.Some?
    && token == s.controls.fencingToken && token == e.fencingToken && now < e.record.expiresAt
    && ContextReasons(env, e.request, reg, s.portfolio, s.controls, now) == []
    && e.reservation.Some? && Base(s.portfolio, s.networks).Some?
    && var whole := ReserveAll(Base(s.portfolio, s.networks).value, Reservations(s.entries, None));
       Holds(EntryQuote(s, e), whole, ps, e.reservation.value.cost)
  }

  ghost predicate MayExecute(env: Environment, s: Session, ps: seq<Policy>, intent: Id, token: int, now: int)
    requires SessionOk(s) && EntriesOk(s)
  {
    exists e :: e in s.entries && e.request.intent.id == intent && Executable(env, s, ps, e, token, now)
  }

  /**
   * An intent is allowed to execute exactly when it was issued, its token is the current one and its
   * own, its record is unexpired, and its context and the limits of everything reserved still hold.
   */
  lemma AllowedIsExact(env: Environment, s: Session, ps: seq<Policy>, intent: Id, token: int, now: int)
    requires SessionInv(s, ps) && IssuedOk(s)
    ensures SessionOk(s) && EntriesOk(s)
    ensures var r := ExecutionAllowed(env, s, s.portfolio.workspace, intent, token, now).result;
            && (r.Ok? ==> (r.value <==> MayExecute(env, s, ps, intent, token, now)))
            && (r.Err? ==> r.error == ClockMovedBackwards && !ClockOk(s, now))
  {
    SessionInvEntries(s, ps);
    InvSorted(s, ps);
    hide SessionInv, Executable, Sorted, Find, IssuedOk, ClockOk, Recheck, StillApproved;
    AllowedShape(env, s, intent, token, now);
    FindIs(s.entries, intent);
    if Find(s.entries, intent).Some? {
      var e := s.entries[Find(s.entries, intent).value];
      OneEntryPerIntent(s.entries, e);
      ExecutableIs(env, s, ps, e, token, now);
    }
  }

  /** What execution is decided by, before the recheck is looked into. */
  lemma AllowedShape(env: Environment, s: Session, intent: Id, token: int, now: int)
    requires SessionOk(s) && EntriesOk(s)
    ensures var r, i := ExecutionAllowed(env, s, s.portfolio.workspace, intent, token, now).result, Find(s.entries, intent);
            && (i.Some? ==> i.value < |s.entries| && s.entries[i.value] in s.entries)
            && if i.None? || s.entries[i.value].issued.None? then r == Ok(false)
               else if !ClockOk(s, now) then r == Err(ClockMovedBackwards)
               else
                 var e := s.entries[i.value];
                 r == Ok(token == s.controls.fencingToken && token == e.fencingToken && now < e.record.expiresAt &&
                         StillApproved(Recheck(env, s, e, now), e.record))
  {
    hide Recheck, StillApproved, Find, ClockOk;
    FindIs(s.entries, intent);
  }

  lemma ExecutableIs(env: Environment, s: Session, ps: seq<Policy>, e: Entry, token: int, now: int)
    requires SessionInv(s, ps) && IssuedOk(s) && SessionOk(s) && EntriesOk(s) && e in s.entries
    ensures Executable(env, s, ps, e, token, now) <==>
            (e.issued.Some? && token == s.controls.fencingToken && token == e.fencingToken && now < e.record.expiresAt &&
             StillApproved(Recheck(env, s, e, now), e.record))
  {
    hide SessionInv, Recheck, StillApproved, ContextReasons, Holds, Base, ReserveAll, Reservations, IsApproved, EntryOk, PermitSound;
    if e.issued.Some? {
      ApprovedHolds(s, ps, e);
      RecheckIsExact(env, s, ps, e, now);
    }
  }

  /** The clock is not part of what may execute. */
  lemma SameExecutable(env: Environment, s: Session, t: Session, ps: seq<Policy>, intent: Id, token: int, now: int)
    requires SessionOk(s) && EntriesOk(s) && t == s.(lastNow := t.lastNow) && SessionOk(t) && EntriesOk(t)
    ensures MayExecute(env, s, ps, intent, token, now) <==> MayExecute(env, t, ps, intent, token, now)
  {
    hide ContextReasons, Holds, Base, ReserveAll, Reservations;
    forall e | e in s.entries
      ensures Executable(env, s, ps, e, token, now) <==> Executable(env, t, ps, e, token, now)
    {
      assert e in t.entries;
    }
  }

  /** The intents of the commands that may not execute, in order. */
  ghost function Refused(env: Environment, s: Session, ps: seq<Policy>, commands: seq<(Id, int)>, now: int): seq<Id>
    requires SessionOk(s) && EntriesOk(s)
    decreases |commands|
  {
    if commands == [] then []
    else
      (if MayExecute(env, s, ps, commands[0].0, commands[0].1, now) then [] else [commands[0].0]) +
      Refused(env, s, ps, commands[1..], now)
  }

  lemma {:induction false} SameRefused(env: Environment, s: Session, t: Session, ps: seq<Policy>, commands: seq<(Id, int)>, now: int)
    requires SessionOk(s) && EntriesOk(s) && t == s.(lastNow := t.lastNow) && SessionOk(t) && EntriesOk(t)
    ensures Refused(env, s, ps, commands, now) == Refused(env, t, ps, commands, now)
    decreases |commands|
  {
    hide MayExecute;
    if commands != [] {
      SameExecutable(env, s, t, ps, commands[0].0, commands[0].1, now);
      SameRefused(env, s, t, ps, commands[1..], now);
    }
  }

  /** The guard lists exactly the intents that may not execute, and fails only for a clock that went back. */
  lemma {:induction false} GuardIsExact(env: Environment, s: Session, ps: seq<Policy>, commands: seq<(Id, int)>, now: int)
    requires SessionInv(s, ps) && IssuedOk(s)
    ensures SessionOk(s) && EntriesOk(s)
    ensures match Guard(env, s, s.portfolio.workspace, commands, now).result
            case Err(e) => e == ClockMovedBackwards && !ClockOk(s, now)
            case Ok(blocked) => blocked == Refused(env, s, ps, commands, now)
    decreases |commands|
  {
    SessionInvEntries(s, ps);
    hide SessionInv, IssuedOk, ExecutionAllowed, MayExecute, ClockOk;
    if commands != [] {
      var first := ExecutionAllowed(env, s, s.portfolio.workspace, commands[0].0, commands[0].1, now);
      AllowedIsExact(env, s, ps, commands[0].0, commands[0].1, now);
      AllowedScope(env, s, s.portfolio.workspace, commands[0].0, commands[0].1, now);
      if first.result.Ok? {
        AllowedClockOk(env, s, s.portfolio.workspace, commands[0].0, commands[0].1, now);
        ScratchKeeps(s, first.state, ps);
        SameIssued(s, first.state);
        GuardIsExact(env, first.state, ps, commands[1..], now);
        SameRefused(env, s, first.state, ps, commands[1..], now);
      }
    }
  }

  lemma SameIssued(s: Session, t: Session)
    requires IssuedOk(s) && t.entries == s.entries
    ensures IssuedOk(t)
  {
    hide PermitSound, IsApproved;
  }

  lemma AllowedClockOk(env: Environment, s: Session, workspace: Id, intent: Id, token: int, now: int)
    requires SessionOk(s) && EntriesOk(s)
    ensures var t := ExecutionAllowed(env, s, workspace, intent, token, now).state; ClockOk(s, now) ==> ClockOk(t, now)
  {
    hide Recheck, StillApproved;
  }

  /** The same for a session reached by any run from its registrations. */
  lemma ReachableGuardIsExact(
      env: Environment, p: Portfolio, controls: Controls, rs: seq<Registration>, capacity: nat,
      ops: seq<Op>, t: Session, commands: seq<(Id, int)>, now: int) returns (ps: seq<Policy>)
    requires forall r :: r in rs ==> RegistrationOk(r)
    requires Open(p, controls, rs, capacity).Ok?
    requires Run(env, Open(p, controls, rs, capacity).value, ops, t)
    ensures SharedPolicies(t, ps) && SessionOk(t) && EntriesOk(t)
    ensures match Guard(env, t, t.portfolio.workspace, commands, now).result
            case Err(e) => e == ClockMovedBackwards && !ClockOk(t, now)
            case Ok(blocked) => blocked == Refused(env, t, ps, commands, now)
  {
    OpenedInv(p, controls, rs, capacity);
    OpenedEmpty(p, controls, rs, capacity);
    hide Open, SessionInv, Run, RunIssues, SharedPolicies, Guard, Refused, ClockOk;
    var s := Open(p, controls, rs, capacity).value;
    ps :| SessionInv(s, ps);
    var issued := RunHasIssues(env, s, ops, t);
    RunAdvances(env, s, ops, t, issued, ps);
    InvPolicies(t, ps);
    GuardIsExact(env, t, ps, commands, now);
  }
}

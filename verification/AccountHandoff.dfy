/** The two bookkeepers agree: what risk approves is always handed off and accepted by the ledger. */
module AccountHandoff {
  import opened Outcomes
  import opened Sums
  import opened Domain
  import opened Fixed
  import LM = LedgerModel
  import LS = LedgerSafety
  import LR = LedgerRuns
  import LG = LedgerGenerations
  import LH = LedgerHistory
  import RA = RiskAccount
  import RT = RiskTheorems
  import RiskSizing
  import RE = RiskEvaluator
  import RS = RiskSession
  import RF = RiskSafety
  import opened AccountModel

  // ---- The invariant of a machine ----------------------------------------------------------------

  ghost predicate Injective(h: RE.Request -> Digest) {
    forall x, y :: h(x) == h(y) ==> x == y
  }

  /** What the account definition contract validates. */
  ghost predicate DefinitionOk(d: Definition) {
    && LM.ConfigOk(d.config) && RegistrationsOk(d.registrations) && LG.InitialOk(d.portfolio)
    && d.portfolio.mode.Paper?
    && d.controls.account == d.config.account && d.controls.workspace == d.portfolio.workspace
    && (forall r, k :: r in d.registrations && k in r.networks ==>
          k in d.config.instruments && d.config.instruments[k].network == r.networks[k])
  }

  function Held(s: RS.Session): seq<RA.Reservation> {
    RS.Reservations(s.entries, None)
  }

  /** Until the batch is sealed the ledger reserves no more cash or stock than risk does. */
  ghost predicate Coupled(ledger: LM.Ledger, risk: RS.Session) {
    !ledger.isSealed ==>
      && LM.ReservedCash(ledger) <= Sum(RA.Debits(Held(risk)))
      && forall k :: Sum(LS.SellsLeft(ledger.orders, k)) <= Sum(RA.Sells(Held(risk), k))
  }

  /** Risk and ledger look at the same portfolio, account and instruments. */
  ghost predicate Linked(m: Machine) {
    && m.risk.portfolio == m.ledger.initial
    && m.risk.controls == m.controls
    && m.controls.account == m.ledger.config.account
    && m.controls.workspace == m.ledger.initial.workspace == m.definition.portfolio.workspace
    && (forall k :: k in m.risk.registrations ==> m.risk.registrations[k].networks.Keys <= m.ledger.config.instruments.Keys)
    && (m.risk.lastNow.Some? ==> m.risk.lastNow.value <= m.now)
    && m.ledger.asOf <= m.now
  }

  /** Nothing the machine ever processed is unknown to it. */
  ghost predicate Known(w: World, m: Machine) {
    && (forall o :: o in m.ledger.orders ==>
          o.order.intent in m.intentIds && o.order.clientOrderId.intent == o.order.intent)
    && (forall e :: e in m.risk.entries ==>
          && e.request.intent.id in m.intentIds
          && e.record.requestHash == w.risk.requestHash(e.request))
    && (forall k :: k in m.risk.keys ==> m.risk.keys[k] in m.intentIds)
    && (forall k :: k in m.risk.decisions ==> k in m.decisionIds)
  }

  ghost predicate LedgerOk(s: LM.Ledger) {
    LH.Sound(s) && Abs(s.peak) <= MAX_UNITS
  }

  ghost predicate MachineInv(w: World, m: Machine) {
    && MachineOk(m) && LedgerOk(m.ledger) && RF.RiskOk(m.risk)
    && Linked(m) && Known(w, m) && Coupled(m.ledger, m.risk) && Scoped(m)
  }

  ghost predicate Scoped(m: Machine) {
    DefinitionOk(m.definition) && m.ledger.config == m.definition.config
  }

  // ---- A fresh evaluation --------------------------------------------------------------------------

  function Outcome(w: World, s: RS.Session, req: RE.Request, at: int): RE.Outcome
    requires RE.RequestOk(req) && RS.SessionOk(s) && req.intent.agentVersion in s.registrations
  {
    RE.Evaluate(w.risk, req, s.registrations[req.intent.agentVersion], s.portfolio, s.controls, s.networks, Held(s), at)
  }

  function NewEntry(w: World, s: RS.Session, req: RE.Request, at: int): RS.Entry
    requires RE.RequestOk(req) && RS.SessionOk(s) && req.intent.agentVersion in s.registrations
  {
    var o := Outcome(w, s, req, at);
    RS.Entry(req, o.record, o.reservation, s.controls.fencingToken, false, None)
  }

  /** The session after evaluating a request it has not seen. */
  ghost predicate Evaluated(w: World, s: RS.Session, t: RS.Session, req: RE.Request, at: int)
    requires RE.RequestOk(req) && RS.SessionOk(s)
  {
    && req.intent.agentVersion in s.registrations
    && req.intent.workspace == s.portfolio.workspace
    && t == s.(entries := RS.InsertEntry(s.entries, NewEntry(w, s, req, at)), keys := s.keys[req.intent.key := req.intent.id],
               decisions := s.decisions[req.intent.decision := req.intent.id], lastNow := Some(at), audit := t.audit)
  }

  /** What a machine that has not processed the request knows about it. */
  lemma Unprocessed(w: World, m: Machine, req: RE.Request)
    requires MachineInv(w, m) && req.intent.id !in m.intentIds && req.intent.decision !in m.decisionIds
    ensures forall e :: e in m.risk.entries ==> e.request.intent.id != req.intent.id
    ensures req.intent.decision !in m.risk.decisions
    ensures forall k :: k in m.risk.keys ==> RS.Find(m.risk.entries, m.risk.keys[k]).Some?
  {
    hide RS.SessionOk, LH.Sound, Coupled, RF.Bounds, RF.Stands, RF.EntryOk;
    var ps :| RF.SessionInv(m.risk, ps);
    RF.SessionInvEntries(m.risk, ps);
  }

  /** With distinct requests hashing apart, a successful evaluation is a fresh one. */
  lemma EvaluationIsFresh(w: World, m: Machine, req: RE.Request, at: int)
    requires MachineInv(w, m) && RE.RequestOk(req) && Injective(w.risk.requestHash)
    requires req.intent.id !in m.intentIds && req.intent.decision !in m.decisionIds
    ensures var r := RS.EvaluateIn(w.risk, m.risk, req, at);
            r.result.Ok? ==>
              && Evaluated(w, m.risk, r.state, req, at)
              && r.result.value == Outcome(w, m.risk, req, at).record
              && (forall e :: e in m.risk.entries ==> e.request.intent.id != req.intent.id)
  {
    hide RE.Evaluate, RS.InsertEntry, RF.RiskOk, LH.Sound, Coupled, Linked, RS.Find, RS.AuditFull, RS.ClockOk;
    Unprocessed(w, m, req);
    var s, i := m.risk, req.intent;
    RS.FindIs(s.entries, i.id);
    if i.key in s.keys {
      RS.FindIs(s.entries, s.keys[i.key]);
      var existing := s.entries[RS.Find(s.entries, s.keys[i.key]).value];
      assert existing in s.entries && existing.request.intent.id != i.id;
      assert w.risk.requestHash(req) != existing.record.requestHash;
    }
  }

  // ---- The handoff ------------------------------------------------------------------------------------

  lemma ExpiryAhead(req: RE.Request, exec: Execution, controls: RE.Controls, env: RE.Environment, reg: RE.Registration, p: Portfolio, now: int)
    requires RE.ContextReasons(env, req, reg, p, controls, now) == [] && ExecutionOk(exec)
    ensures now < RE.Expiry(req, exec, controls, now)
  {
  }

  /** The recheck at handoff sees exactly what the evaluation saw. */
  lemma RecheckIsIdentical(w: World, s: RS.Session, t: RS.Session, req: RE.Request, at: int)
    requires RE.RequestOk(req) && RS.SessionOk(s) && RS.SessionOk(t) && Evaluated(w, s, t, req, at)
    requires forall e :: e in s.entries ==> e.request.intent.id != req.intent.id
    ensures RS.Recheck(w.risk, t, NewEntry(w, s, req, at), at) == Outcome(w, s, req, at).record
  {
    hide RE.Evaluate, RS.InsertEntry, RS.Reservations;
    RF.InsertedAndExcluded(s.entries, NewEntry(w, s, req, at));
  }

  /** An approval proves its context held, so it has not expired. */
  lemma ApprovalContext(w: World, s: RS.Session, req: RE.Request, at: int)
    requires RE.RequestOk(req) && RS.SessionOk(s) && req.intent.agentVersion in s.registrations
    requires RE.IsApproved(Outcome(w, s, req, at).record)
    ensures var o := Outcome(w, s, req, at);
            var reg := s.registrations[req.intent.agentVersion];
            && RE.Grounds(o, w.risk, req, reg, s.portfolio, s.controls, s.networks, Held(s), at)
            && at < o.record.expiresAt && o.record.evaluation.approved > 0
  {
    hide RE.Evaluate, RE.ContextReasons, RE.Grounds, RE.Expiry, RE.RequestOk;
    var reg := s.registrations[req.intent.agentVersion];
    RE.ApprovalGrounds(w.risk, req, reg, s.portfolio, s.controls, s.networks, Held(s), at);
    GroundsContext(Outcome(w, s, req, at), w, req, reg, s.portfolio, s.controls, s.networks, Held(s), at);
    ExpiryAhead(req, reg.execution, s.controls, w.risk, reg, s.portfolio, at);
    RecordFields(w, s, req, at);
  }

  lemma GroundsContext(
      o: RE.Outcome, w: World, req: RE.Request, reg: RE.Registration, p: Portfolio, controls: RE.Controls,
      networks: map<InstrumentId, Id>, reservations: seq<RA.Reservation>, at: int)
    requires RE.Grounds(o, w.risk, req, reg, p, controls, networks, reservations, at)
    ensures RE.ContextReasons(w.risk, req, reg, p, controls, at) == []
  {
  }

  /** The fields of a record that do not depend on sizing. */
  lemma RecordFields(w: World, s: RS.Session, req: RE.Request, at: int)
    requires RE.RequestOk(req) && RS.SessionOk(s) && req.intent.agentVersion in s.registrations
    ensures var r, i := Outcome(w, s, req, at).record, req.intent;
            && r.expiresAt == RE.Expiry(req, s.registrations[i.agentVersion].execution, s.controls, at)
            && r.account == s.controls.account && r.requestHash == w.risk.requestHash(req)
            && r.portfolioHash == w.risk.portfolioHash(s.portfolio)
            && r.evaluation.workspace == i.workspace && r.evaluation.intent == i.id
            && r.quantityAsset == i.instrument.base && r.debitCurrency == USD
  {
    hide RE.SizeRequest, RE.ContextReasons, RE.Expiry, RE.Distinct;
  }

  /** What risk approves it hands off, unless its audit trail is full. */
  lemma ApprovalIsHandedOff(w: World, s: RS.Session, t: RS.Session, req: RE.Request, at: int)
    requires RE.RequestOk(req) && RS.SessionOk(s) && RS.SessionOk(t) && RS.EntriesOk(t) && Evaluated(w, s, t, req, at)
    requires forall e :: e in s.entries ==> e.request.intent.id != req.intent.id
    requires RF.Sorted(s.entries) && RE.IsApproved(Outcome(w, s, req, at).record)
    ensures var r := RS.Handoff(w.risk, t, s.portfolio.workspace, req.intent.id, s.controls.fencingToken, at);
            || r.result == Err(RS.AuditExhausted)
            || r.result == Ok(Some(RS.PermitFor(t, NewEntry(w, s, req, at), s.controls.fencingToken, at)))
  {
    hide RE.Evaluate, RS.InsertEntry, RS.Recheck, RS.PermitFor, RE.Grounds, RF.Sorted, RS.Find, RS.AuditFull, RE.RequestOk,
         RE.IsApproved;
    var n := NewEntry(w, s, req, at);
    ApprovalContext(w, s, req, at);
    RF.InsertKeepsSorted(s.entries, n);
    RF.FindSorted(t.entries, n);
    RecheckIsIdentical(w, s, t, req, at);
  }

  // ---- The ledger's side ----------------------------------------------------------------------------

  /** All reservations of a session together are covered by the portfolio it was opened with. */
  lemma SessionCovers(s: RS.Session, ps: seq<RiskSizing.Policy>, key: InstrumentId)
    requires RF.SessionInv(s, ps) && RA.Base(s.portfolio, s.networks).Some?
    ensures Sum(RA.Debits(Held(s))) <= s.portfolio.cash
    ensures Sum(RA.Sells(Held(s), key)) <= LG.HeldIn(s.portfolio.positions, key)
  {
    hide RF.SessionInv, RA.ReserveAll, Sum, Get, RF.CapsMet, RF.SomeBuy, RF.NoSells, RA.Valued, LG.HeldIn, RA.Consistent;
    RF.InvBounds(s, ps);
    var base := RA.Base(s.portfolio, s.networks).value;
    RA.ReserveAllTotals(base, Held(s), 0, 0, key);
    RF.BaseFields(s.portfolio, s.networks);
    LG.ValuedQuantities(s.portfolio.positions, s.networks, key);
  }

  /** One more reservation anywhere in the list adds exactly its own debit and quantity. */
  lemma InsertedTotals(before: seq<RA.Reservation>, r: RA.Reservation, after: seq<RA.Reservation>, key: InstrumentId)
    ensures Sum(RA.Debits(before + [r] + after)) == Sum(RA.Debits(before + after)) + r.cashDebit
    ensures Sum(RA.Sells(before + [r] + after, key)) ==
            Sum(RA.Sells(before + after, key)) + if r.instrument == key then r.sellQuantity else 0
  {
    hide Sum;
    var x, y := [r.cashDebit], [if r.instrument == key then r.sellQuantity else 0];
    assert RA.Debits(before + [r] + after) == RA.Debits(before) + x + RA.Debits(after);
    assert RA.Debits(before + after) == RA.Debits(before) + RA.Debits(after);
    assert RA.Sells(before + [r] + after, key) == RA.Sells(before, key) + y + RA.Sells(after, key);
    assert RA.Sells(before + after, key) == RA.Sells(before, key) + RA.Sells(after, key);
    SumConcat(RA.Debits(before) + x, RA.Debits(after));
    SumConcat(RA.Debits(before), RA.Debits(after));
    SumAppend(RA.Debits(before), x[0]);
    SumConcat(RA.Sells(before, key) + y, RA.Sells(after, key));
    SumConcat(RA.Sells(before, key), RA.Sells(after, key));
    SumAppend(RA.Sells(before, key), y[0]);
  }

  /** What one fresh approval adds to the session's totals. */
  lemma ApprovalTotals(w: World, s: RS.Session, t: RS.Session, req: RE.Request, at: int, key: InstrumentId)
    requires RE.RequestOk(req) && RS.SessionOk(s) && Evaluated(w, s, t, req, at)
    ensures var r := NewEntry(w, s, req, at).reservation;
            && Sum(RA.Debits(Held(t))) == Sum(RA.Debits(Held(s))) + (if r.Some? then r.value.cashDebit else 0)
            && Sum(RA.Sells(Held(t), key)) ==
               Sum(RA.Sells(Held(s), key)) + if r.Some? && r.value.instrument == key then r.value.sellQuantity else 0
  {
    hide Sum, RE.Evaluate, RA.Debits, RA.Sells, RS.InsertEntry, RS.Reservations, RE.RequestOk;
    var n := NewEntry(w, s, req, at);
    var before, after := RF.InsertedReservation(s.entries, n, None);
    if n.reservation.Some? {
      InsertedTotals(before, n.reservation.value, after, key);
    }
  }

  function IssuedPermit(w: World, s: RS.Session, t: RS.Session, req: RE.Request, at: int): Permit
    requires RE.RequestOk(req) && RS.SessionOk(s) && Evaluated(w, s, t, req, at)
  {
    RS.PermitFor(t, NewEntry(w, s, req, at), s.controls.fencingToken, at)
  }

  lemma ContextFacts(env: RE.Environment, req: RE.Request, reg: RE.Registration, p: Portfolio, controls: RE.Controls, now: int)
    requires RE.ContextReasons(env, req, reg, p, controls, now) == [] && RE.RequestOk(req)
    ensures var i := req.intent;
            && i.orderType.MarketOrder? && i.timeInForce.Ioc? && i.mode == p.mode && i.instrument in reg.universe
            && i.instrument.quote == USD && i.currency == USD
  {
  }

  /** The ledger's identity, scope and time checks all hold of a permit issued in the same command. */
  lemma IssuanceHolds(w: World, m: Machine, t: RS.Session, req: RE.Request, at: int)
    requires MachineInv(w, m) && RE.RequestOk(req) && Evaluated(w, m.risk, t, req, at)
    requires req.intent.id !in m.intentIds && RE.IsApproved(Outcome(w, m.risk, req, at).record)
    ensures LM.IssuanceOk(m.ledger, w.risk.portfolioHash, IssuedPermit(w, m.risk, t, req, at), at)
  {
    hide RE.Evaluate, RS.InsertEntry, RE.Grounds, RF.SessionInv, LH.Sound, Coupled, RE.ContextReasons, RE.RequestOk, RF.RiskOk,
         RE.Expiry;
    var s, i := m.risk, req.intent;
    var reg := s.registrations[i.agentVersion];
    ApprovalContext(w, s, req, at);
    GroundsContext(Outcome(w, s, req, at), w, req, reg, s.portfolio, s.controls, s.networks, Held(s), at);
    ContextFacts(w.risk, req, reg, s.portfolio, s.controls, at);
    RecordFields(w, s, req, at);
    EvaluationIdIs(w, s, req, at);
    assert RE.RegistrationOk(reg);
  }

  lemma EvaluationIdIs(w: World, s: RS.Session, req: RE.Request, at: int)
    requires RE.RequestOk(req) && RS.SessionOk(s) && req.intent.agentVersion in s.registrations
    ensures Outcome(w, s, req, at).record.evaluation.id == EvaluationId(req.intent.id, at)
  {
    hide RE.SizeRequest, RE.ContextReasons, RE.Expiry, RE.Distinct;
  }

  /** The reservation behind an approval is the permit's own ceiling. */
  lemma ApprovalReserves(w: World, s: RS.Session, req: RE.Request, at: int)
    requires RE.RequestOk(req) && RS.SessionOk(s) && req.intent.agentVersion in s.registrations
    requires RE.IsApproved(Outcome(w, s, req, at).record)
    ensures var o := Outcome(w, s, req, at);
            && RA.Base(s.portfolio, s.networks).Some? && o.reservation.Some?
            && 0 <= o.record.maxCashDebit == o.reservation.value.cashDebit
            && 0 < o.record.maxQuantity && o.reservation.value.instrument == req.intent.instrument
            && o.reservation.value.sellQuantity == if req.intent.side.Buy? then 0 else o.record.maxQuantity
  {
    hide RE.Evaluate, RE.ContextReasons, RE.RequestOk, RE.Expiry, RA.Base, RA.ReserveAll, RiskSizing.WorstPrice,
         RiskSizing.GatesOpen, RT.Approvable, RiskSizing.QuantityFor, RiskSizing.FeeCost;
    ApprovalContext(w, s, req, at);
  }

  lemma LotTargetBelow(quantity: int, lot: int)
    requires lot > 0
    ensures LM.LotTarget(quantity, lot) <= quantity
  {
  }

  /** Risk's own bounds give the cash and the stock the ledger asks for. */
  lemma PermitIsCovered(w: World, m: Machine, t: RS.Session, req: RE.Request, at: int, ps: seq<RiskSizing.Policy>)
    requires MachineInv(w, m) && RE.RequestOk(req) && Evaluated(w, m.risk, t, req, at) && RF.SessionInv(t, ps)
    requires !m.ledger.isSealed && RE.IsApproved(Outcome(w, m.risk, req, at).record)
    ensures var r, key := Outcome(w, m.risk, req, at).record, req.intent.instrument;
            && 0 <= r.maxCashDebit <= m.ledger.cash - LM.ReservedCash(m.ledger)
            && (req.intent.side.Sell? ==>
                  key in m.ledger.holdings &&
                  r.maxQuantity <= m.ledger.holdings[key].quantity - Sum(LM.SellTargets(m.ledger.orders, key)))
  {
    hide RE.Evaluate, RS.InsertEntry, RF.SessionInv, RF.RiskOk, RE.RequestOk, RA.Base, Sum, RA.Debits, RA.Sells, LM.ReservedCash,
         LS.SellsLeft, LM.SellTargets, LR.DepthInv, LM.Snapshot, LG.HeldIn, Known, LS.MidInv;
    var key := req.intent.instrument;
    ApprovalReserves(w, m.risk, req, at);
    ApprovalTotals(w, m.risk, t, req, at, key);
    SessionCovers(t, ps, key);
    LR.RestingSells(m.ledger.orders, key);
    MidSums(m.ledger, key);
  }

  lemma MidSums(s: LM.Ledger, key: InstrumentId)
    requires LS.MidInv(s)
    ensures 0 <= Sum(LS.SellsLeft(s.orders, key)) && 0 <= LM.ReservedCash(s)
  {
    LS.HoldsNonNegative(s.config, s.orders);
    SumNonNegative(LS.SellsLeft(s.orders, key));
  }

  // ---- Submission succeeds --------------------------------------------------------------------------

  /** A submission that passes the ledger's checks leaves a state that can be shown. */
  lemma ShownAfterSubmission(s: LM.Ledger, t: LM.Ledger, at: int)
    requires LedgerOk(s) && LS.MidInv(t) && t == s.(orders := t.orders)
    ensures LM.Finish(t, at).Ok?
  {
    hide LM.Value, LS.MidInv, LM.ReservedCash, LR.DepthInv, LG.Untraded;
    var u := t.(asOf := at);
    LR.MidFrame(t, u);
    LR.SnapshotIs(s);
    LR.SnapshotIs(u);
    LR.ValueFrame(s, u, s.config.keys);
    ShowsUnlessValue(u);
  }

  lemma ShowsUnlessValue(u: LM.Ledger)
    requires LS.MidInv(u) && LM.Value(u, u.config.keys).Ok?
    ensures LM.Snapshot(u).Ok?
    ensures LM.Snapshot(u).value.portfolio.peakEquity == Max(u.cash + LM.Value(u, u.config.keys).value.exposure, u.peak)
  {
    hide LM.Value, LM.ReservedCash, LS.OrdersOk, LS.HoldingsOk;
    LR.ValueIs(u, u.config.keys);
  }

  lemma SubmissionSucceeds(s: LM.Ledger, portfolioHash: Portfolio -> Digest, p: Permit, at: int)
    requires LedgerOk(s) && s.asOf <= at && !s.isSealed
    requires ExecutionOk(p.execution) && p.approval.notional > 0
    requires LM.IssuanceOk(s, portfolioHash, p, at)
    requires 0 <= p.record.maxCashDebit <= s.cash - LM.ReservedCash(s)
    requires p.approval.side.Sell? ==>
               && p.approval.instrument in s.holdings
               && p.record.maxQuantity <=
                  s.holdings[p.approval.instrument].quantity - Sum(LM.SellTargets(s.orders, p.approval.instrument))
    ensures LM.ConfigOk(s.config)
    ensures LM.Apply(s, portfolioHash, LM.SubmitPermit(at, p)).Ok?
  {
    hide LM.IssuanceOk, Sum, LM.ReservedCash, LM.SellTargets, LS.MidInv, LR.DepthInv, LM.Snapshot, LM.Finish, LG.Untraded,
         LM.LotTarget, LM.ConfigOk;
    LH.InvConfig(s);
    LR.SubmitKeeps(s, portfolioHash, p, at);
    IssuanceInstrument(s, portfolioHash, p, at);
    LotTargetBelow(p.record.maxQuantity, s.config.instruments[p.approval.instrument].lot);
    var placed := LM.SubmitOrder(s, portfolioHash, p, at);
    assert placed.Ok?;
    SubmittedShape(s, portfolioHash, p, at);
    ShownAfterSubmission(s, placed.value, at);
  }

  lemma IssuanceInstrument(s: LM.Ledger, portfolioHash: Portfolio -> Digest, p: Permit, at: int)
    requires LM.IssuanceOk(s, portfolioHash, p, at) && LM.ConfigOk(s.config)
    ensures p.approval.instrument in s.config.instruments && LM.InstrumentOk(s.config.instruments[p.approval.instrument])
  {
  }

  lemma SubmittedShape(s: LM.Ledger, portfolioHash: Portfolio -> Digest, p: Permit, at: int)
    requires LM.ConfigOk(s.config)
    ensures var r := LM.SubmitOrder(s, portfolioHash, p, at); r.Ok? ==> r.value == s.(orders := r.value.orders)
  {
    var w := LR.SubmitShape(s, portfolioHash, p, at);
  }

  // ---- One request of a batch ------------------------------------------------------------------------

  /** A handoff frees and takes nothing. */
  lemma HandoffHolds(env: RE.Environment, t: RS.Session, workspace: Id, intent: Id, token: int, now: int)
    requires RS.SessionOk(t) && RS.EntriesOk(t)
    ensures var u := RS.Handoff(env, t, workspace, intent, token, now).state;
            && u == t.(audit := u.audit, lastNow := u.lastNow, entries := u.entries)
            && Held(u) == Held(t) && (u.lastNow == t.lastNow || u.lastNow == Some(now))
            && forall e :: e in u.entries ==> exists f :: f in t.entries && f.request == e.request && f.record == e.record
  {
    hide RS.Handoff, RS.Reservations, RS.Find;
    RF.HandoffShape(env, t, workspace, intent, token, now);
    HandoffClock(env, t, workspace, intent, token, now);
    var u := RS.Handoff(env, t, workspace, intent, token, now).state;
    if u.entries != t.entries {
      var i := RS.Find(t.entries, intent).value;
      RF.SameReservations(t.entries, i, u.entries[i], None);
      forall e | e in u.entries
        ensures exists f :: f in t.entries && f.request == e.request && f.record == e.record
      {
        var j :| 0 <= j < |u.entries| && u.entries[j] == e;
        assert t.entries[j] in t.entries && t.entries[j].request == e.request && t.entries[j].record == e.record;
      }
    }
  }

  lemma HandoffClock(env: RE.Environment, t: RS.Session, workspace: Id, intent: Id, token: int, now: int)
    requires RS.SessionOk(t) && RS.EntriesOk(t)
    ensures var u := RS.Handoff(env, t, workspace, intent, token, now).state;
            u.lastNow == t.lastNow || u.lastNow == Some(now)
  {
    hide RS.Recheck, RS.PermitFor, RS.StillApproved, RE.IsApproved, RS.ClockOk, RS.AuditFull, RS.Find;
    RS.FindIs(t.entries, intent);
  }

  /** The three stages of one request: nothing issued, or exactly one order added for the issued permit. */
  datatype Stage = Stage(evaluated: RS.Session, handed: RS.Session, permit: Option<Permit>)

  ghost predicate Processed(w: World, m: Machine, n: Machine, req: RE.Request, at: int, x: Stage)
    requires MachineOk(m) && RE.RequestOk(req)
  {
    var i := req.intent;
    && Evaluated(w, m.risk, x.evaluated, req, at)
    && x.evaluated == RS.EvaluateIn(w.risk, m.risk, req, at).state
    && n == m.(risk := x.handed, ledger := n.ledger, intentIds := m.intentIds + {i.id}, decisionIds := m.decisionIds + {i.decision})
    && RS.SessionOk(x.evaluated) && RS.EntriesOk(x.evaluated)
    && x.handed == RS.Handoff(w.risk, x.evaluated, m.definition.portfolio.workspace, i.id, m.controls.fencingToken, at).state
    && (x.permit.None? ==> n.ledger == m.ledger)
    && (x.permit.Some? ==>
          && RE.IsApproved(Outcome(w, m.risk, req, at).record)
          && x.permit.value == IssuedPermit(w, m.risk, x.evaluated, req, at)
          && LM.Apply(m.ledger, w.risk.portfolioHash, LM.SubmitPermit(at, x.permit.value)) == Ok(n.ledger))
  }

  lemma InvParts(w: World, m: Machine)
    requires MachineInv(w, m)
    ensures LM.ConfigOk(m.ledger.config) && LR.LedgerInv(m.ledger) && LG.Untraded(m.ledger) && Linked(m) && Coupled(m.ledger, m.risk)
    ensures MachineOk(m) && LM.Snapshot(m.ledger).Ok?
  {
    LH.InvConfig(m.ledger);
  }

  lemma HandoffIsApproved(env: RE.Environment, t: RS.Session, workspace: Id, e: RS.Entry, token: int, now: int)
    requires RS.SessionOk(t) && RS.EntriesOk(t) && e in t.entries && RF.Sorted(t.entries)
    ensures var r := RS.Handoff(env, t, workspace, e.request.intent.id, token, now).result;
            r.Ok? && r.value.Some? ==> RE.IsApproved(e.record)
  {
    hide RS.Recheck, RS.PermitFor, RS.StillApproved, RE.IsApproved, RS.ClockOk, RS.AuditFull, RS.Find, RF.Sorted;
    RF.FindSorted(t.entries, e);
  }

  lemma RiskSorted(s: RS.Session)
    requires RF.RiskOk(s)
    ensures RF.Sorted(s.entries)
  {
  }

  /** The shape of a successfully processed request. */
  lemma ProcessShape(w: World, m: Machine, req: RE.Request, at: int) returns (x: Stage)
    requires MachineInv(w, m) && RE.RequestOk(req) && Injective(w.risk.requestHash)
    ensures MachineOk(m)
    ensures var r := Process(w, m, req, at);
            r.Ok? ==>
              && req.intent.id !in m.intentIds && !m.ledger.isSealed
              && (forall e :: e in m.risk.entries ==> e.request.intent.id != req.intent.id)
              && Processed(w, m, r.value.0, req, at, x)
              && r.value.1 == Outcome(w, m.risk, req, at).record
  {
    hide RE.Evaluate, RS.EvaluateIn, RS.Handoff, LM.Apply, LM.Snapshot, LH.Sound, Coupled, RF.RiskOk, Known, RS.InsertEntry, RS.PermitFor,
         RE.IsApproved, RE.RequestOk, LM.ConfigOk, RS.EntriesOk, RF.Sorted;
    var r := Process(w, m, req, at);
    if r.Ok? {
      EvaluationIsFresh(w, m, req, at);
      var t := RS.EvaluateIn(w.risk, m.risk, req, at).state;
      RS.EvaluateScope(w.risk, m.risk, req, at);
      var handed := RS.Handoff(w.risk, t, m.definition.portfolio.workspace, req.intent.id, m.controls.fencingToken, at);
      x := Stage(t, handed.state, handed.result.value);
      if handed.result.value.Some? {
        RiskSorted(m.risk);
        RF.InsertKeepsSorted(m.risk.entries, NewEntry(w, m.risk, req, at));
        HandoffIsApproved(w.risk, t, m.definition.portfolio.workspace, NewEntry(w, m.risk, req, at), m.controls.fencingToken, at);
        ApprovalIsHandedOff(w, m.risk, t, req, at);
      }
    } else {
      x := Stage(m.risk, m.risk, None);
    }
  }
}

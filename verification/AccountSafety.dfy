/** The account machine keeps risk and ledger consistent over every command of every generation. */
module AccountSafety {
  import opened Outcomes
  import opened Sums
  import opened Domain
  import opened Fixed
  import LM = LedgerModel
  import LS = LedgerSafety
  import LC = LedgerConservation
  import LR = LedgerRuns
  import LG = LedgerGenerations
  import LH = LedgerHistory
  import RA = RiskAccount
  import RE = RiskEvaluator
  import RS = RiskSession
  import RF = RiskSafety
  import opened AccountModel
  import opened AccountHandoff

  // ---- One request ---------------------------------------------------------------------------------

  lemma RiskKeeps(w: World, m: Machine, n: Machine, req: RE.Request, at: int, x: Stage)
    requires MachineInv(w, m) && RE.RequestOk(req) && Processed(w, m, n, req, at, x)
    ensures RF.RiskOk(x.evaluated) && RF.RiskOk(x.handed)
  {
    hide RS.EvaluateIn, RS.Handoff, RF.SessionInv, Coupled, LH.Sound, Evaluated;
    var ps :| RF.SessionInv(m.risk, ps);
    RF.EvaluateInKeeps(w.risk, m.risk, req, at, ps);
    RF.HandoffKeeps(w.risk, x.evaluated, m.definition.portfolio.workspace, req.intent.id, m.controls.fencingToken, at, ps);
  }

  /** The reservation list of a session never holds a negative amount. */
  lemma ReservationNonNegative(w: World, s: RS.Session, req: RE.Request, at: int)
    requires RE.RequestOk(req) && RS.SessionOk(s) && req.intent.agentVersion in s.registrations
    ensures var r := NewEntry(w, s, req, at).reservation;
            r.Some? ==> r.value.cashDebit >= 0 && r.value.sellQuantity >= 0 && RE.IsApproved(Outcome(w, s, req, at).record)
  {
    hide RE.Evaluate, RE.Grounds, RE.RequestOk;
    RE.ApprovalGrounds(w.risk, req, s.registrations[req.intent.agentVersion], s.portfolio, s.controls, s.networks, Held(s), at);
    if NewEntry(w, s, req, at).reservation.Some? {
      ApprovalReserves(w, s, req, at);
    }
  }

  /** An order is placed with its lot target, submitted when it reaches the simulator's minimum and rejected when not. */
  ghost predicate PlacedFor(c: LM.Config, p: Permit, o: LM.WorkingOrder) {
    && LM.ConfigOk(c) && p.approval.instrument in c.instruments
    && var settings := c.instruments[p.approval.instrument];
       && settings.lot > 0
       && o.target == LM.LotTarget(p.record.maxQuantity, settings.lot)
       && (o.target > 0 && p.approval.notional >= settings.minimumNotional <==> o.order.status == Submitted)
       && (o.order.status != Submitted ==> o.order.status == Rejected && o.order.remark == Some(BelowSimulatorMinimum))
  }

  /** The orders of a ledger after a submission reserve at most the permit's ceilings more. */
  lemma SubmissionReserves(s: LM.Ledger, portfolioHash: Portfolio -> Digest, p: Permit, at: int, key: InstrumentId)
    requires LR.LedgerInv(s) && ExecutionOk(p.execution) && p.approval.notional > 0 && LM.ConfigOk(s.config)
    requires LM.Apply(s, portfolioHash, LM.SubmitPermit(at, p)).Ok?
    ensures var t := LM.Apply(s, portfolioHash, LM.SubmitPermit(at, p)).value;
            && LM.ReservedCash(t) <= LM.ReservedCash(s) + p.record.maxCashDebit
            && Sum(LS.SellsLeft(t.orders, key)) <= Sum(LS.SellsLeft(s.orders, key)) +
                 (if p.approval.side.Sell? && p.approval.instrument == key then Max(0, p.record.maxQuantity) else 0)
            && |t.orders| == |s.orders| + 1 && t.orders[..|s.orders|] == s.orders
            && var o := t.orders[|s.orders|];
               o.permit == p && o.order.intent == p.approval.intent && o.order.clientOrderId == p.approval.clientOrderId &&
               PlacedFor(s.config, p, o)
  {
    hide Sum, LM.IssuanceOk, LS.MidInv, LR.DepthInv, LM.Snapshot, LM.Finish, LM.LotTarget, LM.SellTargets, LM.CashHolds, LS.SellsLeft,
         LM.ConfigOk;
    var w := LR.SubmitShape(s, portfolioHash, p, at);
    IssuanceInstrument(s, portfolioHash, p, at);
    LotTargetBelow(p.record.maxQuantity, s.config.instruments[p.approval.instrument].lot);
    LR.AppendedTotals(s.orders, w, key);
    LG.FinishShape(LM.SubmitOrder(s, portfolioHash, p, at).value, at);
    NewOrderHolds(w, p, at, key);
  }

  lemma NewOrderHolds(w: LM.WorkingOrder, p: Permit, at: int, key: InstrumentId)
    requires w.permit == p && w.debit == 0 && p.record.maxCashDebit >= 0 && w.target <= p.record.maxQuantity
    requires w.order == LM.NewOrder(p, at) || w.order == LM.WithStatus(LM.NewOrder(p, at), Rejected, at, Some(BelowSimulatorMinimum))
    ensures 0 <= LM.CashHold(w) <= p.record.maxCashDebit
    ensures LS.SellLeft(w, key) <= if p.approval.side.Sell? && p.approval.instrument == key then Max(0, p.record.maxQuantity) else 0
  {
  }

  /** The permit of a machine's own session is well formed. */
  lemma PermitShape(w: World, m: Machine, t: RS.Session, req: RE.Request, at: int)
    requires MachineInv(w, m) && RE.RequestOk(req) && Evaluated(w, m.risk, t, req, at)
    requires RE.IsApproved(Outcome(w, m.risk, req, at).record)
    ensures var p := IssuedPermit(w, m.risk, t, req, at);
            && ExecutionOk(p.execution) && p.approval.notional > 0
            && p.record == Outcome(w, m.risk, req, at).record
            && p.approval.instrument == req.intent.instrument && p.approval.side == req.intent.side
            && p.approval.intent == req.intent.id && p.approval.clientOrderId.intent == req.intent.id
  {
    hide RE.Evaluate, RE.Grounds, RS.InsertEntry, RE.RequestOk, RF.RiskOk, Coupled, LH.Sound;
    ApprovalContext(w, m.risk, req, at);
    assert RE.RegistrationOk(m.risk.registrations[req.intent.agentVersion]);
  }

  lemma ProcessKeepsCoupling(w: World, m: Machine, n: Machine, req: RE.Request, at: int, x: Stage)
    requires MachineInv(w, m) && RE.RequestOk(req) && Processed(w, m, n, req, at, x) && !m.ledger.isSealed
    ensures Coupled(n.ledger, n.risk)
  {
    hide Sum, RA.Debits, RA.Sells, LM.ReservedCash, LS.SellsLeft, RS.Handoff, RS.EvaluateIn, RE.Evaluate, LM.Apply, RS.InsertEntry,
         RS.Reservations, LR.LedgerInv, RF.RiskOk, Known, RE.IsApproved, RE.RequestOk, RS.PermitFor;
    HandoffHolds(w.risk, x.evaluated, m.definition.portfolio.workspace, req.intent.id, m.controls.fencingToken, at);
    ReservationNonNegative(w, m.risk, req, at);
    assert Held(n.risk) == Held(x.evaluated);
    InvParts(w, m);
    forall k
      ensures Sum(LS.SellsLeft(n.ledger.orders, k)) <= Sum(RA.Sells(Held(n.risk), k))
      ensures LM.ReservedCash(n.ledger) <= Sum(RA.Debits(Held(n.risk)))
    {
      ApprovalTotals(w, m.risk, x.evaluated, req, at, k);
      if x.permit.Some? {
        PermitShape(w, m, x.evaluated, req, at);
        ApprovalReserves(w, m.risk, req, at);
        SubmissionReserves(m.ledger, w.risk.portfolioHash, x.permit.value, at, k);
      }
    }
    ApprovalTotals(w, m.risk, x.evaluated, req, at, req.intent.instrument);
    assert Sum(LS.SellsLeft(n.ledger.orders, req.intent.instrument)) <= Sum(RA.Sells(Held(n.risk), req.intent.instrument));
  }

  /** The ledger side of one command: sound again, same configuration and starting portfolio. */
  lemma LedgerKeeps(s: LM.Ledger, portfolioHash: Portfolio -> Digest, c: LM.Command)
    requires LedgerOk(s) && LM.CommandOk(c)
    ensures LM.ConfigOk(s.config)
    ensures var r := LM.Apply(s, portfolioHash, c);
            r.Ok? ==>
              && LedgerOk(r.value) && r.value.config == s.config && r.value.initial == s.initial && r.value.asOf == c.at
              && LR.Evolves(s, r.value)
  {
    hide LR.LedgerInv, LG.Untraded, LM.Finish, LM.Perform, LC.Conserves, LC.Grows, LG.LotAligned;
    LR.ApplyKeeps(s, portfolioHash, c);
    LG.ApplySteady(s, portfolioHash, c);
    if LM.Apply(s, portfolioHash, c).Ok? {
      FinishInRange(LM.Perform(s, portfolioHash, c).value, c.at);
    }
  }

  lemma FinishInRange(s: LM.Ledger, at: int)
    requires LM.Finish(s, at).Ok?
    ensures Abs(LM.Finish(s, at).value.peak) <= MAX_UNITS
  {
    hide LM.Snapshot;
  }

  lemma EntriesKnown(w: World, m: Machine, n: Machine, req: RE.Request, at: int, x: Stage)
    requires MachineOk(m) && Known(w, m) && RE.RequestOk(req) && Processed(w, m, n, req, at, x)
    ensures forall e :: e in n.risk.entries ==>
              e.request.intent.id in n.intentIds && e.record.requestHash == w.risk.requestHash(e.request)
    ensures n.risk.keys == m.risk.keys[req.intent.key := req.intent.id]
    ensures n.risk.decisions == m.risk.decisions[req.intent.decision := req.intent.id]
  {
    hide RE.Evaluate, RS.EvaluateIn, RS.Handoff, LM.Apply, RE.IsApproved, RE.RequestOk, RS.PermitFor, RS.Reservations, LM.ConfigOk;
    var e0 := NewEntry(w, m.risk, req, at);
    HandoffHolds(w.risk, x.evaluated, m.definition.portfolio.workspace, req.intent.id, m.controls.fencingToken, at);
    RecordFields(w, m.risk, req, at);
    RS.InsertedMembers(m.risk.entries, e0);
    forall e | e in n.risk.entries
      ensures e.request.intent.id in n.intentIds && e.record.requestHash == w.risk.requestHash(e.request)
    {
      var f :| f in x.evaluated.entries && f.request == e.request && f.record == e.record;
      assert f == e0 || f in m.risk.entries;
    }
  }

  lemma OrdersKnown(w: World, m: Machine, n: Machine, req: RE.Request, at: int, x: Stage)
    requires MachineInv(w, m) && RE.RequestOk(req) && Processed(w, m, n, req, at, x)
    ensures forall o :: o in n.ledger.orders ==>
              o.order.intent in n.intentIds && o.order.clientOrderId.intent == o.order.intent
  {
    hide RE.Evaluate, RS.EvaluateIn, RS.Handoff, LM.Apply, RF.RiskOk, Coupled, LR.LedgerInv, RE.IsApproved, RE.RequestOk, IssuedPermit,
         Linked, Evaluated, LM.ReservedCash, LS.SellsLeft, Sum, Scoped, LH.Sound, LM.ConfigOk, RS.SessionOk, RS.EntriesOk;
    if x.permit.Some? {
      InvParts(w, m);
      PermitShape(w, m, x.evaluated, req, at);
      SubmissionReserves(m.ledger, w.risk.portfolioHash, x.permit.value, at, req.intent.instrument);
      var k := |m.ledger.orders|;
      assert n.ledger.orders == m.ledger.orders + [n.ledger.orders[k]];
    }
  }

  lemma ProcessKeepsKnown(w: World, m: Machine, n: Machine, req: RE.Request, at: int, x: Stage)
    requires MachineInv(w, m) && RE.RequestOk(req) && Processed(w, m, n, req, at, x)
    ensures Known(w, n)
  {
    hide RE.Evaluate, RS.EvaluateIn, RS.Handoff, LM.Apply, RF.RiskOk, Coupled, LedgerOk, RE.IsApproved, RE.RequestOk, IssuedPermit,
         Linked, Evaluated;
    EntriesKnown(w, m, n, req, at, x);
    OrdersKnown(w, m, n, req, at, x);
  }

  lemma ProcessKeepsLinks(w: World, m: Machine, n: Machine, req: RE.Request, at: int, x: Stage)
    requires MachineInv(w, m) && RE.RequestOk(req) && Processed(w, m, n, req, at, x) && at == m.now
    ensures LedgerOk(n.ledger) && Linked(n) && Scoped(n)
  {
    hide RE.Evaluate, RS.EvaluateIn, RS.Handoff, LM.Apply, RF.RiskOk, Coupled, LR.LedgerInv, RE.IsApproved, RE.RequestOk, RS.PermitFor,
         LG.Untraded, LC.Grows, RS.InsertEntry, Known, LM.ConfigOk, RS.Reservations, DefinitionOk;
    HandoffHolds(w.risk, x.evaluated, m.definition.portfolio.workspace, req.intent.id, m.controls.fencingToken, at);
    if x.permit.Some? {
      PermitShape(w, m, x.evaluated, req, at);
      LedgerKeeps(m.ledger, w.risk.portfolioHash, LM.SubmitPermit(at, x.permit.value));
    }
  }

  /** A processed request keeps everything, and adds its ids to those processed. */
  lemma ProcessKeeps(w: World, m: Machine, req: RE.Request, at: int)
    requires MachineInv(w, m) && RE.RequestOk(req) && Injective(w.risk.requestHash) && at == m.now
    ensures MachineOk(m)
    ensures var r := Process(w, m, req, at);
            r.Ok? ==> MachineInv(w, r.value.0) && r.value.0.now == m.now && r.value.0.definition == m.definition &&
                      r.value.0.controls == m.controls
  {
    hide Process, RF.RiskOk, Coupled, Known, Linked, LedgerOk, Processed, Evaluated, Scoped;
    var x := ProcessShape(w, m, req, at);
    var r := Process(w, m, req, at);
    if r.Ok? {
      RiskKeeps(w, m, r.value.0, req, at, x);
      ProcessKeepsCoupling(w, m, r.value.0, req, at, x);
      ProcessKeepsKnown(w, m, r.value.0, req, at, x);
      ProcessKeepsLinks(w, m, r.value.0, req, at, x);
      ProcessedFrame(w, m, r.value.0, req, at, x);
    }
  }

  lemma ProcessedFrame(w: World, m: Machine, n: Machine, req: RE.Request, at: int, x: Stage)
    requires MachineOk(m) && RE.RequestOk(req) && Processed(w, m, n, req, at, x)
    ensures n.now == m.now && n.definition == m.definition && n.controls == m.controls && n.risk == x.handed
  {
    hide Evaluated, RS.Handoff, RS.EvaluateIn, LM.Apply, IssuedPermit, RE.IsApproved;
  }

  /**
   * Inside an `orders` command, whatever risk approves is handed off and accepted by the ledger: the
   * request adds exactly one order, carrying the permit issued for it. Only a full audit trail can
   * stand in the way.
   */
  lemma ApprovalReachesLedger(w: World, m: Machine, req: RE.Request, at: int)
    requires MachineInv(w, m) && RE.RequestOk(req) && Injective(w.risk.requestHash) && at == m.now
    requires req.intent.id !in m.intentIds && req.intent.decision !in m.decisionIds && !m.ledger.isSealed
    requires LM.Snapshot(m.ledger).Ok? && LM.Snapshot(m.ledger).value.portfolio.isReconciled
    requires var r := RS.EvaluateIn(w.risk, m.risk, req, at).result; r.Ok? && RE.IsApproved(r.value)
    ensures MachineOk(m)
    ensures var record := RS.EvaluateIn(w.risk, m.risk, req, at).result.value;
            match Process(w, m, req, at)
            case Err(e) => e == RiskRefused(RS.AuditExhausted)
            case Ok((n, issued)) =>
              && issued == record && |n.ledger.orders| == |m.ledger.orders| + 1
              && n.ledger.orders[..|m.ledger.orders|] == m.ledger.orders
              && var o := n.ledger.orders[|m.ledger.orders|];
                 o.permit.record == record && o.order.intent == req.intent.id && o.permit.approval.notional == record.evaluation.approved &&
                 PlacedFor(m.ledger.config, o.permit, o)
  {
    hide RS.EvaluateIn, RS.Handoff, RE.Evaluate, LM.Apply, LM.Snapshot, Coupled, Known, RF.RiskOk, LR.LedgerInv, LG.Untraded, RE.IsApproved,
         RE.RequestOk, Evaluated, RF.Sorted, LM.ConfigOk, IssuedPermit;
    EvaluationIsFresh(w, m, req, at);
    RS.EvaluateScope(w.risk, m.risk, req, at);
    var t := RS.EvaluateIn(w.risk, m.risk, req, at).state;
    RiskSorted(m.risk);
    ApprovalIsHandedOff(w, m.risk, t, req, at);
    HandoffOutcome(w, m, t, req, at);
  }

  /** The permit a session issues is accepted. */
  lemma HandoffOutcome(w: World, m: Machine, t: RS.Session, req: RE.Request, at: int)
    requires MachineInv(w, m) && RE.RequestOk(req) && at == m.now && !m.ledger.isSealed
    requires Evaluated(w, m.risk, t, req, at) && t == RS.EvaluateIn(w.risk, m.risk, req, at).state
    requires req.intent.id !in m.intentIds && RE.IsApproved(Outcome(w, m.risk, req, at).record)
    ensures var p := IssuedPermit(w, m.risk, t, req, at);
            && p.record == Outcome(w, m.risk, req, at).record && p.approval.intent == req.intent.id
            && p == RS.PermitFor(t, NewEntry(w, m.risk, req, at), m.controls.fencingToken, at)
            && LM.ConfigOk(m.ledger.config)
            && LM.Apply(m.ledger, w.risk.portfolioHash, LM.SubmitPermit(at, p)).Ok?
            && var n := LM.Apply(m.ledger, w.risk.portfolioHash, LM.SubmitPermit(at, p)).value;
               && |n.orders| == |m.ledger.orders| + 1 && n.orders[..|m.ledger.orders|] == m.ledger.orders
               && n.orders[|m.ledger.orders|].permit == p && n.orders[|m.ledger.orders|].order.intent == p.approval.intent
               && PlacedFor(m.ledger.config, p, n.orders[|m.ledger.orders|])
  {
    hide RS.EvaluateIn, RE.Evaluate, LM.Apply, Coupled, Known, LR.LedgerInv, LG.Untraded, RE.IsApproved, RE.RequestOk, RS.InsertEntry,
         RF.SessionInv, LM.IssuanceOk, LM.ReservedCash, LM.SellTargets, Sum;
    InvParts(w, m);
    var p := IssuedPermit(w, m.risk, t, req, at);
    var ps :| RF.SessionInv(m.risk, ps);
    RF.EvaluateInKeeps(w.risk, m.risk, req, at, ps);
    PermitShape(w, m, t, req, at);
    IssuanceHolds(w, m, t, req, at);
    PermitIsCovered(w, m, t, req, at, ps);
    SubmissionSucceeds(m.ledger, w.risk.portfolioHash, p, at);
    SubmissionReserves(m.ledger, w.risk.portfolioHash, p, at, p.approval.instrument);
  }

  lemma {:induction false} ProcessAllKeeps(w: World, m: Machine, requests: seq<RE.Request>, at: int)
    requires MachineInv(w, m) && Injective(w.risk.requestHash) && at == m.now
    requires forall i :: 0 <= i < |requests| ==> RE.RequestOk(requests[i])
    ensures MachineOk(m)
    ensures var r := ProcessAll(w, m, requests, at);
            r.Ok? ==> MachineInv(w, r.value.0) && r.value.0.now == m.now && r.value.0.definition == m.definition &&
                      r.value.0.controls == m.controls
    decreases |requests|
  {
    hide MachineInv, Process, RE.RequestOk, Injective;
    InvOk(w, m);
    if requests != [] {
      var n := |requests| - 1;
      ProcessAllKeeps(w, m, requests[..n], at);
      var front := ProcessAll(w, m, requests[..n], at);
      if front.Ok? {
        ProcessKeeps(w, front.value.0, requests[n], at);
      }
    }
  }

  lemma InvOk(w: World, m: Machine)
    requires MachineInv(w, m)
    ensures MachineOk(m)
  {
  }

  // ---- Market observations and cancellations -----------------------------------------------------------

  /** Orders that only close reserve no more than before. */
  lemma ClosingShrinks(s: LM.Ledger, t: LM.Ledger, key: InstrumentId)
    requires LR.LedgerInv(s) && LR.LedgerInv(t) && LR.Evolves(s, t) && |t.orders| == |s.orders|
    ensures LM.ReservedCash(t) <= LM.ReservedCash(s)
    ensures Sum(LS.SellsLeft(t.orders, key)) <= Sum(LS.SellsLeft(s.orders, key))
  {
    hide Sum, LR.DepthInv, LM.Snapshot, LS.HoldingsOk, LM.ConfigOk, LS.Totalled;
    forall i | 0 <= i < |s.orders|
      ensures LM.CashHold(t.orders[i]) <= LM.CashHold(s.orders[i])
      ensures LS.SellLeft(t.orders[i], key) <= LS.SellLeft(s.orders[i], key)
    {
      ClosingOrder(s.config, s.orders[i], t.orders[i], key);
    }
    SumMonotone(LM.CashHolds(t.orders), LM.CashHolds(s.orders));
    SumMonotone(LS.SellsLeft(t.orders, key), LS.SellsLeft(s.orders, key));
  }

  lemma ClosingOrder(c: LM.Config, u: LM.WorkingOrder, v: LM.WorkingOrder, key: InstrumentId)
    requires LS.OrderOk(c, u) && LS.Resting(u) && LS.Resting(v) && LC.Grows(u, v)
    ensures LM.CashHold(v) <= LM.CashHold(u) && LS.SellLeft(v, key) <= LS.SellLeft(u, key)
  {
    hide LS.Totalled;
  }

  lemma CouplingShrinks(s: LM.Ledger, t: LM.Ledger, risk: RS.Session, after: RS.Session)
    requires LR.LedgerInv(s) && LR.LedgerInv(t) && LR.Evolves(s, t) && |t.orders| == |s.orders|
    requires Coupled(s, risk) && after.entries == risk.entries
    ensures Coupled(t, after)
  {
    hide Sum, LR.LedgerInv, LM.ReservedCash, LS.SellsLeft, RA.Debits, RA.Sells, RS.Reservations, LC.Grows;
    forall k
      ensures Sum(LS.SellsLeft(t.orders, k)) <= Sum(LS.SellsLeft(s.orders, k))
      ensures LM.ReservedCash(t) <= LM.ReservedCash(s)
    {
      ClosingShrinks(s, t, k);
    }
    assert Sum(LS.SellsLeft(t.orders, InstrumentId(0, 0, 0, true))) <= Sum(LS.SellsLeft(s.orders, InstrumentId(0, 0, 0, true)));
  }

  lemma SameLength(s: LM.Ledger, portfolioHash: Portfolio -> Digest, c: LM.Command)
    requires LM.ConfigOk(s.config) && LM.MarketOk(c) && !c.SubmitPermit?
    ensures var r := LM.Apply(s, portfolioHash, c); r.Ok? ==> |r.value.orders| == |s.orders|
  {
    hide LM.Snapshot, LM.Finish, LM.Observe, LM.FindOrder, LM.WithStatus;
    if LM.Apply(s, portfolioHash, c).Ok? {
      LG.FinishShape(LM.Perform(s, portfolioHash, c).value, c.at);
      if c.ObserveBook? {
        SameLengthObserved(s, c.book, c.at, c.blocked);
      } else {
        LM.FindOrderIs(s.orders, c.clientOrderId);
      }
    }
  }

  lemma SameLengthObserved(s: LM.Ledger, book: Book, at: int, blocked: seq<Id>)
    requires LM.ConfigOk(s.config) && BookOk(book)
    ensures var r := LM.Observe(s, book, at, blocked); r.Ok? ==> |r.value.orders| == |s.orders|
  {
    hide LM.MatchFrom, LM.BookHealthy, LM.Aligned, LM.InstrumentOk;
  }

  lemma {:induction false} GuardClock(env: RE.Environment, s: RS.Session, workspace: Id, commands: seq<(Id, int)>, now: int)
    requires RS.SessionOk(s) && RS.EntriesOk(s)
    ensures var t := RS.Guard(env, s, workspace, commands, now).state; t.lastNow == s.lastNow || t.lastNow == Some(now)
    decreases |commands|
  {
    hide RS.ExecutionAllowed;
    if workspace == s.portfolio.workspace && commands != [] {
      RS.AllowedScope(env, s, workspace, commands[0].0, commands[0].1, now);
      AllowedClock(env, s, workspace, commands[0].0, commands[0].1, now);
      var first := RS.ExecutionAllowed(env, s, workspace, commands[0].0, commands[0].1, now);
      if first.result.Ok? {
        GuardClock(env, first.state, workspace, commands[1..], now);
      }
    }
  }

  lemma AllowedClock(env: RE.Environment, s: RS.Session, workspace: Id, intent: Id, token: int, now: int)
    requires RS.SessionOk(s) && RS.EntriesOk(s)
    ensures var t := RS.ExecutionAllowed(env, s, workspace, intent, token, now).state;
            t.lastNow == s.lastNow || t.lastNow == Some(now)
  {
    hide RS.Recheck, RS.StillApproved, RS.ClockOk;
  }

  /** A step that adds no order: the session moves only its clock, the ledger only evolves. */
  ghost predicate Quiet(w: World, m: Machine, n: Machine, c: LM.Command)
    requires LM.ConfigOk(m.ledger.config)
  {
    && LM.CommandOk(c) && !c.SubmitPermit? && c.at == m.now
    && LM.Apply(m.ledger, w.risk.portfolioHash, c) == Ok(n.ledger)
    && n == m.(ledger := n.ledger, risk := n.risk)
    && n.risk == m.risk.(lastNow := n.risk.lastNow) && (n.risk.lastNow == m.risk.lastNow || n.risk.lastNow == Some(m.now))
  }

  lemma QuietRisk(w: World, m: Machine, n: Machine, c: LM.Command)
    requires LM.ConfigOk(m.ledger.config) && RF.RiskOk(m.risk) && Quiet(w, m, n, c)
    ensures RF.RiskOk(n.risk) && RS.SessionOk(n.risk) && RS.EntriesOk(n.risk)
  {
    hide LM.Apply, RF.SessionInv, LM.ConfigOk, LM.CommandOk;
    var ps :| RF.SessionInv(m.risk, ps);
    RF.ScratchKeeps(m.risk, n.risk, ps);
    RF.SessionInvEntries(n.risk, ps);
  }

  lemma QuietLedger(w: World, m: Machine, n: Machine, c: LM.Command)
    requires MachineInv(w, m) && LM.ConfigOk(m.ledger.config) && Quiet(w, m, n, c)
    ensures LedgerOk(n.ledger) && n.ledger.config == m.ledger.config && n.ledger.initial == m.ledger.initial
    ensures n.ledger.asOf == m.now && LR.Evolves(m.ledger, n.ledger) && |n.ledger.orders| == |m.ledger.orders|
    ensures Coupled(n.ledger, n.risk)
  {
    hide LM.Apply, LR.Evolves, LR.LedgerInv, RF.RiskOk, Known, Linked, Scoped, LG.Untraded, Coupled, LM.ConfigOk;
    LedgerKeeps(m.ledger, w.risk.portfolioHash, c);
    SameLength(m.ledger, w.risk.portfolioHash, c);
    CouplingShrinks(m.ledger, n.ledger, m.risk, n.risk);
  }

  lemma QuietKnown(w: World, m: Machine, n: Machine, c: LM.Command)
    requires Known(w, m) && LM.ConfigOk(m.ledger.config) && Quiet(w, m, n, c)
    requires LR.Evolves(m.ledger, n.ledger) && |n.ledger.orders| == |m.ledger.orders|
    ensures Known(w, n)
  {
    hide LM.Apply, LR.Evolves, LM.ConfigOk, LM.CommandOk;
    SameOrderIds(m.ledger, n.ledger);
  }

  lemma QuietKeeps(w: World, m: Machine, n: Machine, c: LM.Command)
    requires MachineInv(w, m) && LM.ConfigOk(m.ledger.config) && Quiet(w, m, n, c)
    ensures MachineInv(w, n)
  {
    hide LM.Apply, LR.Evolves, LedgerOk, RF.RiskOk, Known, Coupled, DefinitionOk, LM.ConfigOk, LM.CommandOk, RS.SessionOk, RS.EntriesOk;
    QuietRisk(w, m, n, c);
    QuietLedger(w, m, n, c);
    QuietKnown(w, m, n, c);
  }

  lemma SameOrderIds(s: LM.Ledger, t: LM.Ledger)
    requires LR.Evolves(s, t) && |t.orders| == |s.orders|
    ensures forall o :: o in t.orders ==>
              exists p :: p in s.orders && p.order.intent == o.order.intent && p.order.clientOrderId == o.order.clientOrderId
  {
    forall o | o in t.orders
      ensures exists p :: p in s.orders && p.order.intent == o.order.intent && p.order.clientOrderId == o.order.clientOrderId
    {
      var i :| 0 <= i < |t.orders| && t.orders[i] == o;
      assert LC.Grows(s.orders[i], t.orders[i]) && s.orders[i] in s.orders;
    }
  }

  lemma MarketKeeps(w: World, m: Machine, book: Book, at: int)
    requires MachineInv(w, m) && BookOk(book) && at == m.now
    ensures MachineOk(m)
    ensures var r := Perform(w, m, ObserveMarket(book), at);
            r.Ok? ==> MachineInv(w, r.value.0) && r.value.0.now == m.now && r.value.0.definition == m.definition
  {
    hide MachineInv, LM.Apply, RS.Guard, LM.Exposed;
    InvOk(w, m);
    var ws, commands := m.definition.portfolio.workspace, LM.Exposed(m.ledger.orders, book.instrument);
    RS.GuardScope(w.risk, m.risk, ws, commands, at);
    GuardClock(w.risk, m.risk, ws, commands, at);
    var r := Perform(w, m, ObserveMarket(book), at);
    if r.Ok? {
      var blocked := RS.Guard(w.risk, m.risk, ws, commands, at).result.value;
      QuietKeeps(w, m, r.value.0, LM.ObserveBook(at, book, blocked));
    }
  }

  lemma CancelKeeps(w: World, m: Machine, id: ClientOrderId, at: int)
    requires MachineInv(w, m) && at == m.now
    ensures MachineOk(m)
    ensures var r := Perform(w, m, CancelClientOrder(id), at);
            r.Ok? ==> MachineInv(w, r.value.0) && r.value.0.now == m.now && r.value.0.definition == m.definition
  {
    hide MachineInv, LM.Apply;
    InvOk(w, m);
    var r := Perform(w, m, CancelClientOrder(id), at);
    if r.Ok? {
      QuietKeeps(w, m, r.value.0, LM.CancelOrder(at, id));
    }
  }

  // ---- Controls, generations and reconciliation ------------------------------------------------------------

  lemma RenewKeeps(w: World, m: Machine, controls: RE.Controls, at: int)
    requires MachineInv(w, m) && at == m.now
    ensures MachineOk(m)
    ensures var r := Perform(w, m, RenewControls(controls), at);
            r.Ok? ==> MachineInv(w, r.value.0) && r.value.0.now == m.now && r.value.0.definition == m.definition
  {
    hide LedgerOk, RF.RiskOk, Coupled, DefinitionOk, LM.ConfigOk, RS.UpdateControls, ProcessAll, LM.Exposed, RS.Guard, RS.Open, LM.Apply,
         LM.BeginGeneration, RS.SessionOk, RS.EntriesOk, Known;
    var r := Perform(w, m, RenewControls(controls), at);
    if r.Ok? {
      RenewedSession(m.risk, controls, at);
      RenewedKnown(w, m, r.value.0);
    }
  }

  lemma RenewedSession(s: RS.Session, controls: RE.Controls, at: int)
    requires RF.RiskOk(s) && RS.UpdateControls(s, controls, at).result.Ok?
    ensures var t := RS.UpdateControls(s, controls, at).state;
            && RF.RiskOk(t) && RS.SessionOk(t) && RS.EntriesOk(t)
            && t == s.(controls := controls, lastNow := Some(at), audit := t.audit)
            && controls.account == s.controls.account && controls.workspace == s.controls.workspace
            && forall ledger :: Coupled(ledger, s) ==> Coupled(ledger, t)
  {
    hide RF.SessionInv, RS.AuditFull, Sum, RS.Reservations, LM.ReservedCash, LS.SellsLeft;
    var ps :| RF.SessionInv(s, ps);
    var t := RS.UpdateControls(s, controls, at).state;
    RF.ScratchKeeps(s, t, ps);
    RF.SessionInvEntries(t, ps);
    assert RF.RiskOk(t);
  }

  lemma RenewedKnown(w: World, m: Machine, n: Machine)
    requires Known(w, m) && n.ledger == m.ledger && n.intentIds == m.intentIds && n.decisionIds == m.decisionIds
    requires n.risk == m.risk.(controls := n.risk.controls, lastNow := n.risk.lastNow, audit := n.risk.audit)
    ensures Known(w, n)
  {
  }

  lemma ReconcileKeeps(w: World, m: Machine)
    requires MachineInv(w, m)
    ensures MachineInv(w, m.(ledger := m.ledger.(asOf := m.now)))
  {
    hide LS.MidInv, LR.DepthInv, RF.SessionInv, RS.Reservations, LM.ReservedCash, LS.SellsLeft, Sum, DefinitionOk, LM.ConfigOk, LM.Value;
    var s, t := m.ledger, m.ledger.(asOf := m.now);
    LR.MidFrame(s, t);
    LR.DepthFrame(s, t);
    LR.SnapshotIs(s);
    LR.SnapshotIs(t);
    LR.ValueFrame(s, t, s.config.keys);
    ShowsUnlessValue(t);
    LG.SameStock(s, t);
    ReservedFrame(s, t);
  }

  lemma ReservedFrame(s: LM.Ledger, t: LM.Ledger)
    requires t.orders == s.orders
    ensures LM.ReservedCash(t) == LM.ReservedCash(s)
  {
  }

  /** The registrations of a session opened on a definition stay within the ledger's instruments. */
  lemma OpenedSession(p: Portfolio, controls: RE.Controls, d: Definition)
    requires DefinitionOk(d) && RS.Open(p, controls, d.registrations, RISK_CAPACITY).Ok?
    ensures var s := RS.Open(p, controls, d.registrations, RISK_CAPACITY).value;
            && RF.RiskOk(s) && s.portfolio == p && s.controls == controls && s.entries == [] && s.keys == map[] && s.decisions == map[]
            && s.lastNow == None && controls.workspace == p.workspace
            && forall k :: k in s.registrations ==> s.registrations[k].networks.Keys <= d.config.instruments.Keys
  {
    hide RF.SessionInv, RE.RegistrationOk, LG.InitialOk, LM.ConfigOk, RS.RegisterAll;
    var draft := RS.Draft(map[], map[], {}, None, []);
    RF.OpenedInv(p, controls, d.registrations, RISK_CAPACITY);
    RF.RegisteredMembers(draft, d.registrations, p.workspace);
    var s := RS.Open(p, controls, d.registrations, RISK_CAPACITY).value;
    var all := RS.RegisterAll(draft, d.registrations, p.workspace).value.registrations;
    forall k | k in s.registrations
      ensures s.registrations[k].networks.Keys <= d.config.instruments.Keys
    {
      assert all[k] in d.registrations;
    }
  }

  /** A machine that has just (re)started: nothing reserved anywhere. */
  lemma FreshStart(w: World, m: Machine)
    requires LedgerOk(m.ledger) && m.ledger.orders == [] && Scoped(m)
    requires m.ledger.asOf <= m.now && m.ledger.initial.workspace == m.definition.portfolio.workspace
    requires m.controls.account == m.ledger.config.account
    requires RS.Open(m.ledger.initial, m.controls, m.definition.registrations, RISK_CAPACITY) == Ok(m.risk)
    ensures MachineInv(w, m)
  {
    hide LR.LedgerInv, LG.Untraded, RF.SessionInv, RS.Open, LG.InitialOk, RE.RegistrationOk;
    OpenedSession(m.ledger.initial, m.controls, m.definition);
    RS.OpenedOk(m.ledger.initial, m.controls, m.definition.registrations, RISK_CAPACITY);
    LR.EmptyReserved(m.ledger);
    assert Held(m.risk) == [] && RA.Debits([]) == [];
    assert forall k :: RA.Sells([], k) == [];
    assert Sum([]) == 0;
    LH.InvConfig(m.ledger);
  }

  lemma AdvanceKeeps(w: World, m: Machine, at: int)
    requires MachineInv(w, m) && at == m.now
    ensures MachineOk(m)
    ensures var r := Perform(w, m, Advance, at);
            r.Ok? ==> MachineInv(w, r.value.0) && r.value.0.now == m.now && r.value.0.definition == m.definition
  {
    hide LR.LedgerInv, LG.Untraded, RF.RiskOk, Known, Coupled, RS.Open, DefinitionOk, LM.BeginGeneration, LM.ConfigOk, LM.Snapshot;
    InvOk(w, m);
    var r := Perform(w, m, Advance, at);
    if r.Ok? {
      LR.GenerationKeeps(m.ledger, at);
      LG.GenerationUntraded(m.ledger, at);
      FreshStart(w, r.value.0);
    }
  }
}

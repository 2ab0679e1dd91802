/** What an observed book does to the orders of an account, decided by the account's own risk session. */
module AccountMarket {
  import opened Outcomes
  import opened Sums
  import opened Domain
  import opened Fixed
  import LM = LedgerModel
  import LS = LedgerSafety
  import LR = LedgerRuns
  import LG = LedgerGenerations
  import LH = LedgerHistory
  import LO = LedgerOutcomes
  import RiskSizing
  import RE = RiskEvaluator
  import RS = RiskSession
  import RF = RiskSafety
  import RG = RiskGuard
  import opened AccountModel
  import opened AccountHandoff
  import opened AccountSafety
  import AH = AccountHistory

  // ---- What the session issued stays recorded in every machine ----------------------------------------

  lemma RiskStep(env: RE.Environment, s: RS.Session, op: RF.Op)
    requires RF.RiskOk(s) && RF.OpOk(op) && RG.IssuedOk(s)
    ensures RS.SessionOk(s) && RS.EntriesOk(s) && RF.RiskOk(RF.After(env, s, op)) && RG.IssuedOk(RF.After(env, s, op))
  {
    hide RF.SessionInv, RF.After, RG.IssuedOk, RG.Advances, RG.IssuedBy;
    var ps :| RF.SessionInv(s, ps);
    RG.OpSteps(env, s, op, ps);
    RF.OpKeeps(env, s, op, ps);
  }

  lemma ProcessIssued(w: World, m: Machine, req: RE.Request, at: int)
    requires MachineOk(m) && RF.RiskOk(m.risk) && RG.IssuedOk(m.risk) && RE.RequestOk(req)
    ensures var r := Process(w, m, req, at); r.Ok? ==> RF.RiskOk(r.value.0.risk) && RG.IssuedOk(r.value.0.risk)
  {
    hide RF.RiskOk, RG.IssuedOk, RS.EvaluateIn, RS.Handoff, LM.Apply, LM.Snapshot, RE.RequestOk, LM.ConfigOk, RS.SessionOk, RS.EntriesOk;
    RiskStep(w.risk, m.risk, RF.DoEvaluate(req, at));
    RS.EvaluateScope(w.risk, m.risk, req, at);
    var t := RS.EvaluateIn(w.risk, m.risk, req, at).state;
    RiskStep(w.risk, t, RF.DoHandoff(m.definition.portfolio.workspace, req.intent.id, m.controls.fencingToken, at));
  }

  lemma {:induction false} ProcessAllIssued(w: World, m: Machine, requests: seq<RE.Request>, at: int)
    requires MachineOk(m) && RF.RiskOk(m.risk) && RG.IssuedOk(m.risk) && forall i :: 0 <= i < |requests| ==> RE.RequestOk(requests[i])
    ensures var r := ProcessAll(w, m, requests, at); r.Ok? ==> RF.RiskOk(r.value.0.risk) && RG.IssuedOk(r.value.0.risk)
    decreases |requests|
  {
    hide RF.RiskOk, RG.IssuedOk, MachineOk, Process, RE.RequestOk;
    if requests != [] {
      var n := |requests| - 1;
      ProcessAllIssued(w, m, requests[..n], at);
      var front := ProcessAll(w, m, requests[..n], at);
      if front.Ok? {
        ProcessIssued(w, front.value.0, requests[n], at);
      }
    }
  }

  lemma OpenedIssued(p: Portfolio, controls: RE.Controls, rs: seq<RE.Registration>, capacity: nat)
    requires RegistrationsOk(rs) && RS.Open(p, controls, rs, capacity).Ok?
    ensures RG.IssuedOk(RS.Open(p, controls, rs, capacity).value)
  {
    hide RS.Open;
    RG.OpenedEmpty(p, controls, rs, capacity);
  }

  lemma PerformIssued(w: World, m: Machine, task: Task, at: int)
    requires MachineOk(m) && RF.RiskOk(m.risk) && RG.IssuedOk(m.risk) && TaskOk(task)
    ensures var r := Perform(w, m, task, at); r.Ok? ==> RG.IssuedOk(r.value.0.risk)
  {
    hide RF.RiskOk, RG.IssuedOk, ProcessAll, LM.Apply, RS.Guard, RS.UpdateControls, RS.Open, LM.BeginGeneration, RE.RequestOk, LM.ConfigOk,
         RS.SessionOk, RS.EntriesOk, RE.RegistrationOk, LM.MarketOk, BookOk;
    match task {
      case SubmitRequests(requests) => ProcessAllIssued(w, m, requests, at);
      case ObserveMarket(book) =>
        RiskStep(w.risk, m.risk, RF.DoGuard(m.definition.portfolio.workspace, LM.Exposed(m.ledger.orders, book.instrument), at));
      case CancelClientOrder(id) =>
      case RenewControls(controls) =>
        RiskStep(w.risk, m.risk, RF.DoControls(controls, at));
      case Advance =>
        var next := LM.BeginGeneration(m.ledger, at);
        if next.Ok? && RS.Open(next.value.initial, m.controls, m.definition.registrations, RISK_CAPACITY).Ok? {
          OpenedIssued(next.value.initial, m.controls, m.definition.registrations, RISK_CAPACITY);
        }
      case Reconcile =>
    }
  }

  /** A command performs its task at the time it is applied, and seals what the task left. */
  lemma ExecutePerforms(w: World, m: Machine, command: AccountCommand, at: int)
    requires MachineOk(m) && TaskOk(command.task) && Execute(w, m, command, at).Ok?
    ensures MachineOk(m.(now := at)) && m.now <= at
    ensures var r, n := Perform(w, m.(now := at), command.task, at), Execute(w, m, command, at).value.0;
            r.Ok? && n == r.value.0.(sequence := n.sequence, chain := n.chain)
  {
    hide Perform, TaskOk, LM.Snapshot, LM.ConfigOk, RS.SessionOk, RS.EntriesOk, RegistrationsOk;
  }

  lemma ExecuteIssued(w: World, m: Machine, command: AccountCommand, at: int)
    requires MachineOk(m) && RF.RiskOk(m.risk) && RG.IssuedOk(m.risk) && TaskOk(command.task)
    ensures var r := Execute(w, m, command, at); r.Ok? ==> RG.IssuedOk(r.value.0.risk)
  {
    hide MachineOk, RG.IssuedOk, RF.RiskOk, Perform, TaskOk, Execute;
    if Execute(w, m, command, at).Ok? {
      ExecutePerforms(w, m, command, at);
      PerformIssued(w, m.(now := at), command.task, at);
    }
  }

  lemma InvRisk(w: World, m: Machine)
    requires MachineInv(w, m)
    ensures RF.RiskOk(m.risk)
  {
  }

  lemma {:induction false} LiveIssued(w: World, d: Definition, calls: seq<AH.Call>)
    requires DefinitionOk(d) && Create(w, d).Ok? && AH.CallsOk(calls) && Injective(w.risk.requestHash)
    ensures var m := AH.Live(w, Create(w, d).value, calls); MachineInv(w, m) && MachineOk(m) && RG.IssuedOk(m.risk)
    decreases |calls|
  {
    hide MachineInv, MachineOk, RG.IssuedOk, RF.RiskOk, Injective, Execute, TaskOk, Create, DefinitionOk;
    AH.DefinitionScope(d);
    AH.CreateKeeps(w, d);
    AH.LiveKeeps(w, Create(w, d).value, calls);
    if calls == [] {
      CreatedIssued(w, d);
    } else {
      var n := |calls| - 1;
      LiveIssued(w, d, calls[..n]);
      InvRisk(w, AH.Live(w, Create(w, d).value, calls[..n]));
      ExecuteIssued(w, AH.Live(w, Create(w, d).value, calls[..n]), calls[n].command, calls[n].at);
    }
  }

  lemma CreatedIssued(w: World, d: Definition)
    requires DefinitionOk(d) && Create(w, d).Ok?
    ensures RG.IssuedOk(Create(w, d).value.risk)
  {
    hide LM.Create, RS.Open, RG.IssuedOk, LM.ConfigOk;
    var ledger := LM.Create(d.portfolio, d.config).value;
    OpenedIssued(ledger.initial, d.controls, d.registrations, RISK_CAPACITY);
  }

  // ---- Exposed orders and the guard ----------------------------------------------------------------------

  lemma {:induction false} ExposedIs(orders: seq<LM.WorkingOrder>, key: InstrumentId, x: (Id, int))
    ensures x in LM.Exposed(orders, key) <==>
            exists k :: 0 <= k < |orders| && IsOpen(orders[k].order.status) && orders[k].order.instrument == key
                        && x == (orders[k].order.intent, orders[k].permit.approval.fencingToken)
  {
    if orders != [] {
      var n := |orders| - 1;
      ExposedIs(orders[..n], key, x);
      if exists k :: 0 <= k < |orders| && IsOpen(orders[k].order.status) && orders[k].order.instrument == key
                     && x == (orders[k].order.intent, orders[k].permit.approval.fencingToken) {
        var k :| 0 <= k < |orders| && IsOpen(orders[k].order.status) && orders[k].order.instrument == key
                 && x == (orders[k].order.intent, orders[k].permit.approval.fencingToken);
        assert k < n ==> orders[..n][k] == orders[k];
      }
      if exists k :: 0 <= k < n && IsOpen(orders[..n][k].order.status) && orders[..n][k].order.instrument == key
                     && x == (orders[..n][k].order.intent, orders[..n][k].permit.approval.fencingToken) {
        var k :| 0 <= k < n && IsOpen(orders[..n][k].order.status) && orders[..n][k].order.instrument == key
                 && x == (orders[..n][k].order.intent, orders[..n][k].permit.approval.fencingToken);
        assert orders[..n][k] == orders[k];
      }
    }
  }

  lemma {:induction false} RefusedIs(
      env: RE.Environment, s: RS.Session, ps: seq<RiskSizing.Policy>, commands: seq<(Id, int)>, now: int, intent: Id)
    requires RS.SessionOk(s) && RS.EntriesOk(s)
    ensures intent in RG.Refused(env, s, ps, commands, now) <==>
            exists x :: x in commands && x.0 == intent && !RG.MayExecute(env, s, ps, intent, x.1, now)
    decreases |commands|
  {
    hide RG.MayExecute;
    if commands != [] {
      RefusedIs(env, s, ps, commands[1..], now, intent);
      assert forall x :: x in commands <==> x == commands[0] || x in commands[1..];
    }
  }

  /** An exposed order is blocked exactly when its own intent may not execute under its own token. */
  lemma BlockedIs(
      env: RE.Environment, s: RS.Session, ps: seq<RiskSizing.Policy>, ledger: LM.Ledger, key: InstrumentId, now: int, k: nat)
    requires RS.SessionOk(s) && RS.EntriesOk(s) && LS.OrdersOk(ledger.config, ledger.orders) && k < |ledger.orders|
    requires IsOpen(ledger.orders[k].order.status) && ledger.orders[k].order.instrument == key
    ensures var a := ledger.orders[k].permit.approval;
            a.intent in RG.Refused(env, s, ps, LM.Exposed(ledger.orders, key), now) <==>
              !RG.MayExecute(env, s, ps, a.intent, a.fencingToken, now)
  {
    hide RG.MayExecute, LS.Totalled, LM.Exposed, RG.Refused;
    var o := ledger.orders[k];
    var a := o.permit.approval;
    assert LS.OrderOk(ledger.config, o);
    RefusedIs(env, s, ps, LM.Exposed(ledger.orders, key), now, a.intent);
    ExposedIs(ledger.orders, key, (a.intent, a.fencingToken));
    forall x | x in LM.Exposed(ledger.orders, key) && x.0 == a.intent
      ensures x.1 == a.fencingToken
    {
      ExposedIs(ledger.orders, key, x);
      var j :| 0 <= j < |ledger.orders| && IsOpen(ledger.orders[j].order.status) && ledger.orders[j].order.instrument == key
               && x == (ledger.orders[j].order.intent, ledger.orders[j].permit.approval.fencingToken);
      assert j == k;
    }
  }

  // ---- The outcome of a book -------------------------------------------------------------------------------

  /** An open order of the book's instrument that its approval and the simulated latency let the book reach. */
  predicate Reached(o: LM.WorkingOrder, book: Book, latencyMs: nat, at: int) {
    && IsOpen(o.order.status) && o.order.instrument == book.instrument
    && at < o.permit.approval.expiresAt && LO.Ripe(o, book, latencyMs)
  }

  /** What the book makes of one order, with the session's verdict in place of a list. */
  ghost predicate GuardedOutcome(
      o: LM.WorkingOrder, v: LM.WorkingOrder, book: Book, settings: LM.PaperInstrument, latencyMs: nat, at: int,
      executable: bool, isHealthy: bool)
    requires settings.tick > 0 && settings.lot > 0
  {
    if !IsOpen(o.order.status) || o.order.instrument != book.instrument then v == o
    else if o.permit.approval.expiresAt <= at then LO.Closed(o, v, Expired, at, ApprovalExpired) && v.order.fills == []
    else if !Reached(o, book, latencyMs, at) then v == o
    else if !executable then LO.Closed(o, v, Cancelled, at, RiskRecheckRejected) && v.order.fills == []
    else if !isHealthy || at - book.eventTime > o.permit.execution.maxMarketAgeMs * 1000
    then LO.Closed(o, v, Cancelled, at, MarketUnhealthy) && v.order.fills == []
    else LO.Traded(o, v, book, settings, at)
  }

  lemma OutcomeGuarded(
      o: LM.WorkingOrder, v: LM.WorkingOrder, book: Book, settings: LM.PaperInstrument, latencyMs: nat, at: int,
      blocked: seq<Id>, executable: bool, isHealthy: bool)
    requires settings.tick > 0 && settings.lot > 0 && LS.Resting(o)
    requires LO.OutcomeIs(o, v, book, settings, latencyMs, at, blocked, isHealthy)
    requires IsOpen(o.order.status) && o.order.instrument == book.instrument ==> (o.permit.approval.intent in blocked <==> !executable)
    ensures GuardedOutcome(o, v, book, settings, latencyMs, at, executable, isHealthy)
  {
    hide LO.Traded;
  }

  /**
   * An observed book leaves every open order it reaches cancelled and without a fill when the session
   * does not let it execute, and otherwise trades it at the book's own prices; expired orders expire, and
   * all others stay.
   */
  lemma MarketOutcome(w: World, m: Machine, book: Book, at: int, k: nat) returns (ps: seq<RiskSizing.Policy>)
    requires MachineInv(w, m) && RG.IssuedOk(m.risk) && MachineOk(m) && TaskOk(ObserveMarket(book)) && at == m.now
    requires Perform(w, m, ObserveMarket(book), at).Ok? && k < |m.ledger.orders|
    ensures RF.SharedPolicies(m.risk, ps)
    ensures book.instrument in m.ledger.config.instruments && LM.InstrumentOk(m.ledger.config.instruments[book.instrument])
    ensures var n := Perform(w, m, ObserveMarket(book), at).value.0;
            var o := m.ledger.orders[k];
            && |n.ledger.orders| == |m.ledger.orders|
            && GuardedOutcome(
                 o, n.ledger.orders[k], book, m.ledger.config.instruments[book.instrument], m.ledger.config.latencyMs, at,
                 RG.MayExecute(w.risk, m.risk, ps, o.permit.approval.intent, o.permit.approval.fencingToken, at),
                 LO.IsHealthyBook(m.ledger, book, at))
  {
    InvRisk(w, m);
    InvParts(w, m);
    InvOrders(m.ledger);
    GuardPerformed(w, m, book, at);
    hide MachineInv, MachineOk, RF.RiskOk, RG.IssuedOk, RF.SessionInv, Perform, LM.Apply, RS.Guard, RG.Refused, RG.MayExecute, LM.Exposed, LS.Resting,
         LM.Observe, LO.OutcomeIs, GuardedOutcome, LO.IsHealthyBook, LM.InstrumentOk, LM.ConfigOk, BookOk, LR.LedgerInv, LS.OrdersOk,
         RF.SharedPolicies, LM.Snapshot, LG.Untraded, Coupled;
    ps :| RF.SessionInv(m.risk, ps);
    RF.InvPolicies(m.risk, ps);
    var commands := LM.Exposed(m.ledger.orders, book.instrument);
    RG.GuardIsExact(w.risk, m.risk, ps, commands, at);
    var blocked := RS.Guard(w.risk, m.risk, m.definition.portfolio.workspace, commands, at).result.value;
    LO.ObserveOutcomes(m.ledger, book, at, blocked, k);
    LO.KnownInstrument(m.ledger.config, book.instrument);
    var o := m.ledger.orders[k];
    if IsOpen(o.order.status) && o.order.instrument == book.instrument {
      BlockedIs(w.risk, m.risk, ps, m.ledger, book.instrument, at, k);
    }
    OutcomeGuarded(o, LM.Observe(m.ledger, book, at, blocked).value.orders[k], book, m.ledger.config.instruments[book.instrument],
                   m.ledger.config.latencyMs, at, blocked,
                   RG.MayExecute(w.risk, m.risk, ps, o.permit.approval.intent, o.permit.approval.fencingToken, at),
                   LO.IsHealthyBook(m.ledger, book, at));
  }

  lemma InvOrders(s: LM.Ledger)
    requires LR.LedgerInv(s)
    ensures LS.OrdersOk(s.config, s.orders) && forall k :: 0 <= k < |s.orders| ==> LS.Resting(s.orders[k])
  {
  }

  /** An accepted observation went through the guard and the ledger, and stamped what they left. */
  lemma GuardPerformed(w: World, m: Machine, book: Book, at: int)
    requires MachineOk(m) && TaskOk(ObserveMarket(book)) && Perform(w, m, ObserveMarket(book), at).Ok?
    requires Linked(m)
    ensures m.definition.portfolio.workspace == m.risk.portfolio.workspace && BookOk(book)
    ensures var g := RS.Guard(w.risk, m.risk, m.definition.portfolio.workspace, LM.Exposed(m.ledger.orders, book.instrument), at);
            && g.result.Ok?
            && LM.Observe(m.ledger, book, at, g.result.value).Ok?
            && Perform(w, m, ObserveMarket(book), at).value.0.ledger.orders == LM.Observe(m.ledger, book, at, g.result.value).value.orders
  {
    hide RS.Guard, LM.Observe, LM.Finish, LM.ConfigOk, BookOk, RS.SessionOk, RS.EntriesOk, RegistrationsOk;
    var g := RS.Guard(w.risk, m.risk, m.definition.portfolio.workspace, LM.Exposed(m.ledger.orders, book.instrument), at);
    LG.FinishShape(LM.Observe(m.ledger, book, at, g.result.value).value, at);
  }

  /** The same for the account as its commands made it, over any number of generations. */
  lemma MarketIsGuarded(
      w: World, d: Definition, calls: seq<AH.Call>, command: AccountCommand, at: int, k: nat) returns (ps: seq<RiskSizing.Policy>)
    requires DefinitionOk(d) && Create(w, d).Ok? && AH.CallsOk(calls) && Injective(w.risk.requestHash)
    requires command.task.ObserveMarket? && TaskOk(command.task)
    requires var m := AH.Live(w, Create(w, d).value, calls); Execute(w, m, command, at).Ok? && k < |m.ledger.orders|
    ensures var m, book := AH.Live(w, Create(w, d).value, calls), command.task.book;
            var n, o := Execute(w, m, command, at).value.0, m.ledger.orders[k];
            && RS.SessionOk(m.risk) && RS.EntriesOk(m.risk) && RF.SharedPolicies(m.risk, ps)
            && book.instrument in m.ledger.config.instruments && LM.InstrumentOk(m.ledger.config.instruments[book.instrument])
            && |n.ledger.orders| == |m.ledger.orders|
            && GuardedOutcome(
                 o, n.ledger.orders[k], book, m.ledger.config.instruments[book.instrument], m.ledger.config.latencyMs, at,
                 RG.MayExecute(w.risk, m.risk, ps, o.permit.approval.intent, o.permit.approval.fencingToken, at),
                 LO.IsHealthyBook(m.ledger, book, at))
  {
    hide MachineInv, MachineOk, RG.IssuedOk, Injective, Create, DefinitionOk, AH.Live, GuardedOutcome, RG.MayExecute, Perform, Execute,
         LM.InstrumentOk, RF.SharedPolicies, LO.IsHealthyBook, TaskOk;
    AH.DefinitionScope(d);
    LiveIssued(w, d, calls);
    var m := AH.Live(w, Create(w, d).value, calls);
    InvParts(w, m);
    ExecutePerforms(w, m, command, at);
    AH.TickKeeps(w, m, at);
    ps := MarketOutcome(w, m.(now := at), command.task.book, at, k);
    MachineScope(m);
  }

  lemma MachineScope(m: Machine)
    requires MachineOk(m)
    ensures RS.SessionOk(m.risk) && RS.EntriesOk(m.risk)
  {
  }
}

/** Theorems about every history of an account: live runs, batches in progress and replays. */
module AccountHistory {
  import opened Outcomes
  import opened Sums
  import opened Domain
  import Fixed
  import LM = LedgerModel
  import LS = LedgerSafety
  import LR = LedgerRuns
  import LG = LedgerGenerations
  import RA = RiskAccount
  import RiskSizing
  import RE = RiskEvaluator
  import RS = RiskSession
  import RF = RiskSafety
  import opened AccountModel
  import opened AccountHandoff
  import opened AccountSafety

  datatype Call = Call(command: AccountCommand, at: int)

  ghost predicate CallsOk(calls: seq<Call>) {
    forall i :: 0 <= i < |calls| ==> TaskOk(calls[i].command.task)
  }

  /** A refused command leaves the durable machine as it was. */
  function Live(w: World, m: Machine, calls: seq<Call>): (n: Machine)
    requires MachineOk(m) && CallsOk(calls)
    ensures MachineOk(n)
    decreases |calls|
  {
    if calls == [] then m
    else
      var k := |calls| - 1;
      var front := Live(w, m, calls[..k]);
      match Execute(w, front, calls[k].command, calls[k].at)
      case Err(_) => front
      case Ok((next, _)) => next
  }

  /** The journal of the accepted commands. */
  function Journal(w: World, m: Machine, calls: seq<Call>): (js: seq<Event>)
    requires MachineOk(m) && CallsOk(calls)
    ensures forall i :: 0 <= i < |js| ==> TaskOk(js[i].command.task)
    decreases |calls|
  {
    if calls == [] then []
    else
      var k := |calls| - 1;
      var front := Journal(w, m, calls[..k]);
      match Execute(w, Live(w, m, calls[..k]), calls[k].command, calls[k].at)
      case Err(_) => front
      case Ok((next, receipt)) => front + [Event(receipt.sequence, calls[k].command, calls[k].at, receipt.stateHash)]
  }

  // ---- Invariance ------------------------------------------------------------------------------------

  lemma TickKeeps(w: World, m: Machine, at: int)
    requires MachineInv(w, m) && m.now <= at
    ensures MachineInv(w, m.(now := at))
  {
    hide LedgerOk, RF.RiskOk, Coupled, DefinitionOk, LM.ConfigOk;
  }

  lemma SealKeeps(w: World, m: Machine, command: AccountCommand, records: seq<Record>, at: int)
    requires MachineInv(w, m)
    ensures MachineOk(m)
    ensures match Seal(w, m, command, records, at)
            case Err(_) => false
            case Ok((n, receipt)) =>
              && MachineInv(w, n) && n.sequence == m.sequence + 1 == receipt.sequence && receipt.stateHash == n.chain
              && n == m.(sequence := n.sequence, chain := n.chain)
  {
    hide LedgerOk, RF.RiskOk, Coupled, DefinitionOk, LM.ConfigOk, LM.Snapshot;
    InvParts(w, m);
  }

  lemma PerformKeeps(w: World, m: Machine, task: Task, at: int)
    requires MachineInv(w, m) && TaskOk(task) && Injective(w.risk.requestHash) && at == m.now
    ensures MachineOk(m)
    ensures var r := Perform(w, m, task, at);
            r.Ok? ==> MachineInv(w, r.value.0) && r.value.0.now == m.now && r.value.0.definition == m.definition
  {
    hide MachineInv, ProcessAll, Injective;
    match task {
      case SubmitRequests(requests) =>
        ProcessAllKeeps(w, m, requests, at);
      case ObserveMarket(book) =>
        MarketKeeps(w, m, book, at);
      case CancelClientOrder(id) =>
        CancelKeeps(w, m, id, at);
      case RenewControls(controls) =>
        RenewKeeps(w, m, controls, at);
      case Advance =>
        AdvanceKeeps(w, m, at);
      case Reconcile =>
        InvOk(w, m);
        ReconcileKeeps(w, m);
    }
  }

  /** Every accepted command keeps the machine consistent, advances its sequence by one and chains its receipt. */
  lemma ExecuteKeeps(w: World, m: Machine, command: AccountCommand, at: int)
    requires MachineInv(w, m) && TaskOk(command.task) && Injective(w.risk.requestHash)
    ensures MachineOk(m)
    ensures match Execute(w, m, command, at)
            case Err(_) => true
            case Ok((n, receipt)) =>
              && MachineInv(w, n) && m.now <= n.now == at && n.definition == m.definition
              && receipt.stateHash == n.chain && receipt.sequence == n.sequence
  {
    hide MachineInv, Perform, Injective, Seal, TaskOk;
    InvOk(w, m);
    if m.now <= at {
      TickKeeps(w, m, at);
      PerformKeeps(w, m.(now := at), command.task, at);
      var r := Perform(w, m.(now := at), command.task, at);
      if r.Ok? {
        SealKeeps(w, r.value.0, command, r.value.1, at);
      }
    }
  }

  lemma CreateKeeps(w: World, d: Definition)
    requires DefinitionOk(d)
    ensures Create(w, d).Ok? ==> MachineInv(w, Create(w, d).value)
  {
    hide LR.LedgerInv, LG.Untraded, RS.Open, LM.Create, LG.InitialOk;
    if Create(w, d).Ok? {
      LG.CreateKeeps(d.portfolio, d.config);
      CreatedPeak(d.portfolio, d.config);
      FreshStart(w, Create(w, d).value);
    }
  }

  lemma CreatedPeak(p: Portfolio, c: LM.Config)
    requires LM.Create(p, c).Ok? && LG.InitialOk(p)
    ensures Fixed.Abs(LM.Create(p, c).value.peak) <= Fixed.MAX_UNITS
  {
  }

  lemma DefinitionScope(d: Definition)
    requires DefinitionOk(d)
    ensures LM.ConfigOk(d.config) && RegistrationsOk(d.registrations)
  {
  }

  lemma {:induction false} LiveKeeps(w: World, m: Machine, calls: seq<Call>)
    requires MachineInv(w, m) && CallsOk(calls) && Injective(w.risk.requestHash)
    ensures MachineOk(m) && MachineInv(w, Live(w, m, calls))
    decreases |calls|
  {
    hide MachineInv, Injective, Execute, TaskOk;
    InvOk(w, m);
    if calls != [] {
      var k := |calls| - 1;
      LiveKeeps(w, m, calls[..k]);
      ExecuteKeeps(w, Live(w, m, calls[..k]), calls[k].command, calls[k].at);
    }
  }

  // ---- Theorems -----------------------------------------------------------------------------------------

  /**
   * The two bookkeepers never disagree. In any account, after any commands over any generations and at
   * any point inside a batch of orders: whatever risk approves next is handed off and accepted by the
   * ledger as one order under the issued permit, unless risk's audit trail is full. The order is
   * submitted exactly when its whole lots and its notional reach the simulator's minimum.
   */
  lemma BookkeepersAgree(
      w: World, d: Definition, calls: seq<Call>, at: int, batch: seq<RE.Request>, mid: Machine, records: seq<Record>, req: RE.Request)
    requires DefinitionOk(d) && Create(w, d).Ok? && CallsOk(calls) && Injective(w.risk.requestHash)
    requires var m := Live(w, Create(w, d).value, calls);
             && m.now <= at && (forall i :: 0 <= i < |batch| ==> RE.RequestOk(batch[i]))
             && ProcessAll(w, m.(now := at), batch, at) == Ok((mid, records))
    requires RE.RequestOk(req) && MachineOk(mid)
    requires req.intent.id !in mid.intentIds && req.intent.decision !in mid.decisionIds && !mid.ledger.isSealed
    requires LM.Snapshot(mid.ledger).Ok? && LM.Snapshot(mid.ledger).value.portfolio.isReconciled
    requires var r := RS.EvaluateIn(w.risk, mid.risk, req, at).result; r.Ok? && RE.IsApproved(r.value)
    ensures match Process(w, mid, req, at)
            case Err(e) => e == RiskRefused(RS.AuditExhausted)
            case Ok((n, issued)) =>
              && issued == RS.EvaluateIn(w.risk, mid.risk, req, at).result.value
              && |n.ledger.orders| == |mid.ledger.orders| + 1
              && n.ledger.orders[..|mid.ledger.orders|] == mid.ledger.orders
              && var o := n.ledger.orders[|mid.ledger.orders|];
                 && o.permit.record == issued && o.order.intent == req.intent.id && o.permit.approval.notional == issued.evaluation.approved
                 && PlacedFor(mid.ledger.config, o.permit, o)
  {
    hide MachineInv, Injective, ProcessAll, Process, RS.EvaluateIn, LM.Snapshot, DefinitionOk, RE.RequestOk, RE.IsApproved, Live, Create;
    DefinitionScope(d);
    CreateKeeps(w, d);
    LiveKeeps(w, Create(w, d).value, calls);
    var m := Live(w, Create(w, d).value, calls);
    TickKeeps(w, m, at);
    ProcessAllKeeps(w, m.(now := at), batch, at);
    ApprovalReachesLedger(w, mid, req, at);
  }

  /**
   * Until a batch is sealed, the ledger's open reservations stay within risk's, and those within the
   * cash and the stock the ledger still has.
   */
  lemma ReservationsAreOrdered(w: World, d: Definition, calls: seq<Call>, key: InstrumentId)
    requires DefinitionOk(d) && Create(w, d).Ok? && CallsOk(calls) && Injective(w.risk.requestHash)
    ensures var m := Live(w, Create(w, d).value, calls);
            !m.ledger.isSealed && RA.Base(m.risk.portfolio, m.risk.networks).Some? ==>
              && LM.ReservedCash(m.ledger) <= Sum(RA.Debits(Held(m.risk))) <= m.ledger.cash
              && Sum(LS.SellsLeft(m.ledger.orders, key)) <= Sum(RA.Sells(Held(m.risk), key)) <= LS.Held(m.ledger, key)
  {
    hide Injective, DefinitionOk, Live, Create, LR.LedgerInv, Known, RF.SessionInv, Sum, LM.ReservedCash, LS.SellsLeft, RA.Debits,
         RA.Sells, RA.Base, LG.HeldIn, LS.Held, RS.Reservations;
    DefinitionScope(d);
    CreateKeeps(w, d);
    LiveKeeps(w, Create(w, d).value, calls);
    var m := Live(w, Create(w, d).value, calls);
    var ps :| RF.SessionInv(m.risk, ps);
    if RA.Base(m.risk.portfolio, m.risk.networks).Some? {
      SessionCovers(m.risk, ps, key);
    }
  }

  /** The event of an accepted command replays to what the command left. */
  lemma AcceptedReplays(w: World, m: Machine, c: Call)
    requires MachineOk(m) && TaskOk(c.command.task) && Execute(w, m, c.command, c.at).Ok?
    ensures var (n, receipt) := Execute(w, m, c.command, c.at).value;
            ReplayEvent(w, m, Event(receipt.sequence, c.command, c.at, receipt.stateHash)) == Ok(n)
  {
    hide MachineOk, Execute, TaskOk;
    ReceiptIs(w, m, c.command, c.at);
  }

  /** Replaying the journal of a live run is accepted and ends in exactly the live machine. */
  lemma {:induction false} ReplayIsLive(w: World, m: Machine, calls: seq<Call>)
    requires MachineOk(m) && CallsOk(calls)
    ensures Replay(w, m, Journal(w, m, calls)) == Ok(Live(w, m, calls))
    decreases |calls|
  {
    hide MachineOk, Execute, TaskOk, ReplayEvent;
    if calls != [] {
      var k := |calls| - 1;
      ReplayIsLive(w, m, calls[..k]);
      var front, js := Live(w, m, calls[..k]), Journal(w, m, calls[..k]);
      var r := Execute(w, front, calls[k].command, calls[k].at);
      if r.Ok? {
        AcceptedReplays(w, front, calls[k]);
        var e := Event(r.value.1.sequence, calls[k].command, calls[k].at, r.value.1.stateHash);
        assert Journal(w, m, calls) == js + [e] && Live(w, m, calls) == r.value.0;
        assert (js + [e])[..|js|] == js;
      }
    }
  }

  // ---- The premises can be met -------------------------------------------------------------------------

  const Coin := InstrumentId(1, USD, 0, true)

  function WidePolicy(id: Id, scope: Scope): RiskSizing.Policy {
    RiskSizing.Policy(id, scope, 100 * Fixed.SCALE, 100 * Fixed.SCALE, 100 * Fixed.SCALE, 5, 100 * Fixed.SCALE, 100 * Fixed.SCALE,
                      0, 10_000, 0, 1000 * Fixed.SCALE, 0, 0)
  }

  /** One policy of each mandatory scope, in the order the session lists them. */
  function WidePolicies(): seq<RiskSizing.Policy> {
    [WidePolicy(1, GlobalScope), WidePolicy(2, WorkspaceScope), WidePolicy(3, AgentScope)]
  }

  function OneAgent(): RE.Registration {
    RE.Registration(1, 1, Paper, {Coin}, map[Coin := 7], WidePolicies(), Execution(0, 0, Fixed.SCALE, 1000, 1000))
  }

  function CashOnly(): Portfolio {
    Portfolio(1, Paper, 0, USD, 1000 * Fixed.SCALE, 0, [], 0, 0, 1000 * Fixed.SCALE, 0, 0, 1000 * Fixed.SCALE, 0, true, Some(0))
  }

  function SmallAccount(): Definition {
    Definition(
      CashOnly(), LM.Config(1, 0, 1000, [Coin], map[Coin := LM.PaperInstrument(Fixed.SCALE, Fixed.SCALE, 1, 7)]),
      RE.Controls(1, 1, 1, 0, 1_000_000, 1, 1_000_000, 0), [OneAgent()])
  }

  /** A cash-only account with one agent is a definition every theorem above applies to. */
  lemma SmallAccountIsValid(w: World)
    ensures DefinitionOk(SmallAccount()) && Create(w, SmallAccount()).Ok?
    ensures forall r :: r in SmallAccount().registrations ==> RE.Tiered(r.policies)
  {
    SmallTiers();
    SmallDefinition();
    SmallLedger();
    SmallSession();
    hide LM.Create, RS.Open, LM.ConfigOk;
  }

  lemma SmallTiers()
    ensures RE.Tiered(WidePolicies())
  {
    assert WidePolicies()[0] in WidePolicies() && WidePolicies()[1] in WidePolicies() && WidePolicies()[2] in WidePolicies();
  }

  lemma SmallDefinition()
    ensures DefinitionOk(SmallAccount())
  {
    assert LM.InstrumentOk(LM.PaperInstrument(Fixed.SCALE, Fixed.SCALE, 1, 7));
    assert RE.RegistrationOk(OneAgent());
  }

  lemma SmallLedger()
    ensures LM.Create(CashOnly(), SmallAccount().config).Ok?
    ensures LM.Create(CashOnly(), SmallAccount().config).value.initial == CashOnly()
  {
  }

  lemma SmallSession()
    ensures RegistrationsOk([OneAgent()])
    ensures RS.Open(CashOnly(), SmallAccount().controls, [OneAgent()], RISK_CAPACITY).Ok?
  {
    assert RE.RegistrationOk(OneAgent());
    var draft := RS.Draft(map[], map[], {}, None, []);
    assert [OneAgent()][1..] == [];
    assert RS.AssetNetworks(OneAgent()) == {(1, 7)};
    SmallMerge();
    assert RS.Register(draft, OneAgent(), 1).Ok?;
  }

  /** A policy with a new id is inserted, whatever else is to come. */
  lemma MergeOne(all: seq<RiskSizing.Policy>, added: seq<RiskSizing.Policy>)
    requires added != [] && forall p :: p in all ==> p.id != added[0].id
    ensures RS.MergePolicies(all, added) == RS.MergePolicies(RS.InsertPolicy(all, added[0]), added[1..])
  {
    assert !RS.KnownPolicy(all, added[0]) && !RS.ConflictingPolicy(all, added[0]);
  }

  lemma SmallMerge()
    ensures RS.MergePolicies([], WidePolicies()) == Ok(WidePolicies())
  {
    var p, q, r := WidePolicy(1, GlobalScope), WidePolicy(2, WorkspaceScope), WidePolicy(3, AgentScope);
    assert RS.InsertPolicy([], p) == [p] && RS.InsertPolicy([p], q) == [p, q];
    assert [p, q][1..] == [q] && RS.InsertPolicy([q], r) == [q, r];
    assert RS.InsertPolicy([p, q], r) == [p] + [q, r];
    var all := WidePolicies();
    assert all == [p, q, r] && all[1..] == [q, r] && all[1..][1..] == [r] && all[1..][1..][1..] == [];
    assert [p] + [q, r] == all && RS.MergePolicies(all, []) == Ok(all);
    MergeOne([p, q], all[1..][1..]);
    assert all[1..][1..][0] == r && RS.MergePolicies([p, q], all[1..][1..]) == Ok(all);
    MergeOne([p], all[1..]);
    MergeOne([], all);
  }
}

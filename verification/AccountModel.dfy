/** The account state machine: risk and the paper ledger behind one journal of commands. */
module AccountModel {
  import opened Outcomes
  import opened Domain
  import opened LedgerModel
  import RiskEvaluator
  import R = RiskSession

  const RISK_CAPACITY: nat := 1000

  datatype Definition = Definition(
    portfolio: Portfolio,
    config: Config,
    controls: RiskEvaluator.Controls,
    registrations: seq<RiskEvaluator.Registration>)

  predicate RegistrationsOk(rs: seq<RiskEvaluator.Registration>) {
    forall r :: r in rs ==> RiskEvaluator.RegistrationOk(r)
  }

  datatype Task =
    | SubmitRequests(requests: seq<RiskEvaluator.Request>)
    | ObserveMarket(book: Book)
    | CancelClientOrder(id: ClientOrderId)
    | RenewControls(controls: RiskEvaluator.Controls)
    | Advance
    | Reconcile

  datatype AccountCommand = AccountCommand(key: Id, generation: nat, task: Task)

  /** What the contracts of a command's parts validate. */
  predicate TaskOk(t: Task) {
    && (t.SubmitRequests? ==> forall i :: 0 <= i < |t.requests| ==> RiskEvaluator.RequestOk(t.requests[i]))
    && (t.ObserveMarket? ==> BookOk(t.book))
  }

  datatype AccountError =
    | GenerationConflict | AccountClockReversed | DayRolloverRequired
    | DecisionAlreadyProcessed | SealedBatch | ReconciliationRequired
    | RiskRefused(risk: R.RiskError)
    | LedgerRefused(ledger: LedgerError)

  /** Everything the chain hash covers. */
  datatype Link = Link(
    previous: Digest,
    sequence: nat,
    generation: nat,
    command: AccountCommand,
    at: int,
    state: AccountState,
    risk: seq<R.AuditEvent>)

  /** The hashes and the abstract context checks. */
  datatype World = World(
    risk: RiskEvaluator.Environment,
    definitionHash: Definition -> Digest,
    linkHash: Link -> Digest)

  datatype Machine = Machine(
    definition: Definition,
    now: int,
    controls: RiskEvaluator.Controls,
    ledger: Ledger,
    generation: nat,
    sequence: nat,
    chain: Digest,
    risk: R.Session,
    intentIds: set<Id>,
    decisionIds: set<Id>)

  datatype Receipt = Receipt(
    sequence: nat, generation: nat, stateHash: Digest, state: AccountState, records: seq<Record>, committedAt: int)

  /** What the parts of a machine need of each other to be called at all. */
  ghost predicate MachineOk(m: Machine) {
    && ConfigOk(m.ledger.config) && RegistrationsOk(m.definition.registrations)
    && R.SessionOk(m.risk) && R.EntriesOk(m.risk)
  }

  function Create(w: World, d: Definition): (r: Result<Machine, AccountError>)
    requires ConfigOk(d.config) && RegistrationsOk(d.registrations)
    ensures r.Ok? ==> MachineOk(r.value)
  {
    match LedgerModel.Create(d.portfolio, d.config)
    case Err(e) => Err(LedgerRefused(e))
    case Ok(ledger) =>
      match R.Open(ledger.initial, d.controls, d.registrations, RISK_CAPACITY)
      case Err(e) => Err(RiskRefused(e))
      case Ok(risk) =>
        R.OpenedOk(ledger.initial, d.controls, d.registrations, RISK_CAPACITY);
        Ok(Machine(d, d.portfolio.asOf, d.controls, ledger, 1, 0, w.definitionHash(d), risk, {}, {}))
  }

  /** One request of a batch: evaluated, handed off and submitted before the next one is looked at. */
  function Process(w: World, m: Machine, req: RiskEvaluator.Request, at: int): (r: Result<(Machine, Record), AccountError>)
    requires MachineOk(m) && RiskEvaluator.RequestOk(req)
    ensures r.Ok? ==> MachineOk(r.value.0)
  {
    var i := req.intent;
    if i.id in m.intentIds || i.decision in m.decisionIds then Err(DecisionAlreadyProcessed)
    else if m.ledger.isSealed then Err(SealedBatch)
    else
      match Snapshot(m.ledger)
      case Err(e) => Err(LedgerRefused(e))
      case Ok(shown) =>
        if !shown.portfolio.isReconciled then Err(ReconciliationRequired)
        else
          R.EvaluateScope(w.risk, m.risk, req, at);
          var evaluated := R.EvaluateIn(w.risk, m.risk, req, at);
          match evaluated.result
          case Err(e) => Err(RiskRefused(e))
          case Ok(record) =>
            R.HandoffScope(w.risk, evaluated.state, m.definition.portfolio.workspace, i.id, m.controls.fencingToken, at);
            var handed := R.Handoff(
              w.risk, evaluated.state, m.definition.portfolio.workspace, i.id, m.controls.fencingToken, at);
            match handed.result
            case Err(e) => Err(RiskRefused(e))
            case Ok(None) =>
              Ok((m.(risk := handed.state, intentIds := m.intentIds + {i.id}, decisionIds := m.decisionIds + {i.decision}), record))
            case Ok(Some(permit)) =>
              ApplyScope(m.ledger, w.risk.portfolioHash, SubmitPermit(at, permit));
              match Apply(m.ledger, w.risk.portfolioHash, SubmitPermit(at, permit))
              case Err(e) => Err(LedgerRefused(e))
              case Ok(ledger) =>
                Ok((m.(risk := handed.state, ledger := ledger, intentIds := m.intentIds + {i.id},
                       decisionIds := m.decisionIds + {i.decision}), record))
  }

  function ProcessAll(w: World, m: Machine, requests: seq<RiskEvaluator.Request>, at: int)
    : (r: Result<(Machine, seq<Record>), AccountError>)
    requires MachineOk(m) && forall i :: 0 <= i < |requests| ==> RiskEvaluator.RequestOk(requests[i])
    ensures r.Ok? ==> MachineOk(r.value.0)
    decreases |requests|
  {
    if requests == [] then Ok((m, []))
    else
      var n := |requests| - 1;
      match ProcessAll(w, m, requests[..n], at)
      case Err(e) => Err(e)
      case Ok((front, records)) =>
        match Process(w, front, requests[n], at)
        case Err(e) => Err(e)
        case Ok((next, record)) => Ok((next, records + [record]))
  }

  predicate NeedsSameDay(t: Task) {
    t.SubmitRequests? || t.ObserveMarket? || t.Advance?
  }

  function Perform(w: World, m: Machine, task: Task, at: int): (r: Result<(Machine, seq<Record>), AccountError>)
    requires MachineOk(m) && TaskOk(task)
    ensures r.Ok? ==> MachineOk(r.value.0)
  {
    match task
    case SubmitRequests(requests) => ProcessAll(w, m, requests, at)
    case ObserveMarket(book) =>
      R.GuardScope(w.risk, m.risk, m.definition.portfolio.workspace, Exposed(m.ledger.orders, book.instrument), at);
      var guard := R.Guard(
        w.risk, m.risk, m.definition.portfolio.workspace, Exposed(m.ledger.orders, book.instrument), at);
      (match guard.result
       case Err(e) => Err(RiskRefused(e))
       case Ok(blocked) =>
         ApplyScope(m.ledger, w.risk.portfolioHash, ObserveBook(at, book, blocked));
         match Apply(m.ledger, w.risk.portfolioHash, ObserveBook(at, book, blocked))
         case Err(e) => Err(LedgerRefused(e))
         case Ok(ledger) => Ok((m.(risk := guard.state, ledger := ledger), [])))
    case CancelClientOrder(id) =>
      ApplyScope(m.ledger, w.risk.portfolioHash, CancelOrder(at, id));
      (match Apply(m.ledger, w.risk.portfolioHash, CancelOrder(at, id))
       case Err(e) => Err(LedgerRefused(e))
       case Ok(ledger) => Ok((m.(ledger := ledger), [])))
    case RenewControls(controls) =>
      var renewed := R.UpdateControls(m.risk, controls, at);
      (match renewed.result
       case Err(e) => Err(RiskRefused(e))
       case Ok(_) => Ok((m.(risk := renewed.state, controls := controls), [])))
    case Advance =>
      (match BeginGeneration(m.ledger, at)
       case Err(e) => Err(LedgerRefused(e))
       case Ok(ledger) =>
         GenerationScope(m.ledger, at);
         match R.Open(ledger.initial, m.controls, m.definition.registrations, RISK_CAPACITY)
         case Err(e) => Err(RiskRefused(e))
         case Ok(risk) =>
           R.OpenedOk(ledger.initial, m.controls, m.definition.registrations, RISK_CAPACITY);
           Ok((m.(ledger := ledger, generation := m.generation + 1, risk := risk), [])))
    case Reconcile => Ok((m.(ledger := m.ledger.(asOf := at)), []))
  }

  function Seal(w: World, m: Machine, command: AccountCommand, records: seq<Record>, at: int)
    : (r: Result<(Machine, Receipt), AccountError>)
    requires MachineOk(m)
    ensures r.Ok? ==> MachineOk(r.value.0)
  {
    match Snapshot(m.ledger)
    case Err(e) => Err(LedgerRefused(e))
    case Ok(state) =>
      var chain := w.linkHash(Link(m.chain, m.sequence + 1, m.generation, command, at, state, m.risk.audit));
      Ok((m.(sequence := m.sequence + 1, chain := chain),
          Receipt(m.sequence + 1, m.generation, chain, state, records, at)))
  }

  /** One journal command. After a refusal the caller discards the machine. */
  function Execute(w: World, m: Machine, command: AccountCommand, at: int): (r: Result<(Machine, Receipt), AccountError>)
    requires MachineOk(m) && TaskOk(command.task)
    ensures r.Ok? ==> MachineOk(r.value.0)
  {
    if command.generation != m.generation then Err(GenerationConflict)
    else if at < m.now then Err(AccountClockReversed)
    else if NeedsSameDay(command.task) && Date(at) != Date(m.definition.portfolio.asOf) then Err(DayRolloverRequired)
    else
      match Perform(w, m.(now := at), command.task, at)
      case Err(e) => Err(e)
      case Ok((done, records)) => Seal(w, done, command, records, at)
  }

  datatype Event = Event(sequence: nat, command: AccountCommand, at: int, stateHash: Digest)

  datatype ReplayError = JournalGap | JournalMismatch | Unplayable(error: AccountError)

  /** One journal event, checked for its sequence number and chain hash. */
  function ReplayEvent(w: World, m: Machine, e: Event): (r: Result<Machine, ReplayError>)
    requires MachineOk(m) && TaskOk(e.command.task)
    ensures r.Ok? ==> MachineOk(r.value)
  {
    if e.sequence != m.sequence + 1 then Err(JournalGap)
    else
      match Execute(w, m, e.command, e.at)
      case Err(error) => Err(Unplayable(error))
      case Ok((next, receipt)) => if receipt.stateHash != e.stateHash then Err(JournalMismatch) else Ok(next)
  }

  /** Replays a journal from a machine. */
  function Replay(w: World, m: Machine, events: seq<Event>): (r: Result<Machine, ReplayError>)
    requires MachineOk(m) && forall i :: 0 <= i < |events| ==> TaskOk(events[i].command.task)
    ensures r.Ok? ==> MachineOk(r.value)
    decreases |events|
  {
    if events == [] then Ok(m)
    else
      var n := |events| - 1;
      match Replay(w, m, events[..n])
      case Err(e) => Err(e)
      case Ok(front) => ReplayEvent(w, front, events[n])
  }

  function Reconstruct(w: World, d: Definition, events: seq<Event>): (r: Result<Machine, ReplayError>)
    requires ConfigOk(d.config) && RegistrationsOk(d.registrations)
    requires forall i :: 0 <= i < |events| ==> TaskOk(events[i].command.task)
    ensures r.Ok? ==> MachineOk(r.value)
  {
    match Create(w, d)
    case Err(e) => Err(Unplayable(e))
    case Ok(m) => Replay(w, m, events)
  }

  /** A receipt names the machine it was taken from. */
  lemma ReceiptIs(w: World, m: Machine, command: AccountCommand, at: int)
    requires MachineOk(m) && TaskOk(command.task)
    ensures match Execute(w, m, command, at)
            case Err(_) => true
            case Ok((n, receipt)) =>
              && receipt.sequence == n.sequence == m.sequence + 1 && receipt.stateHash == n.chain
              && Snapshot(n.ledger) == Ok(receipt.state)
  {
    hide Perform, TaskOk, Snapshot, ConfigOk, R.SessionOk, R.EntriesOk;
    if Execute(w, m, command, at).Ok? {
      PerformSequence(w, m.(now := at), command.task, at);
    }
  }

  lemma {:induction false} BatchSequence(w: World, m: Machine, requests: seq<RiskEvaluator.Request>, at: int)
    requires MachineOk(m) && forall i :: 0 <= i < |requests| ==> RiskEvaluator.RequestOk(requests[i])
    ensures ProcessAll(w, m, requests, at).Ok? ==> ProcessAll(w, m, requests, at).value.0.sequence == m.sequence
    decreases |requests|
  {
    hide MachineOk, RiskEvaluator.RequestOk, Apply, R.EvaluateIn, R.Handoff, Snapshot;
    if requests != [] {
      BatchSequence(w, m, requests[..|requests| - 1], at);
    }
  }

  lemma PerformSequence(w: World, m: Machine, task: Task, at: int)
    requires MachineOk(m) && TaskOk(task)
    ensures Perform(w, m, task, at).Ok? ==> Perform(w, m, task, at).value.0.sequence == m.sequence
  {
    hide MachineOk, ProcessAll, Apply, R.Guard, R.UpdateControls, R.Open, BeginGeneration;
    if task.SubmitRequests? {
      BatchSequence(w, m, task.requests, at);
    }
  }
}

/** The local paper venue: a hash-chained journal over the ledger, and disposable broker views of it. */
module VenueModel {
  import opened Outcomes
  import opened Domain
  import opened LedgerModel
  import RiskEvaluator
  import R = RiskSession

  datatype JournalEntry = JournalEntry(
    sequence: nat, previousHash: Digest, command: Command, stateHash: Digest, entryHash: Digest)

  /** Everything the venue hashes. */
  datatype Preimage =
    | OfHeader(initial: Portfolio, config: Config)
    | OfEntry(sequence: nat, previousHash: Digest, command: Command, stateHash: Digest)
    | OfState(state: AccountState)
    | OfBook(book: Book)

  datatype World = World(risk: RiskEvaluator.Environment, hash: Preimage -> Digest)

  datatype Bundle = Bundle(initial: Portfolio, config: Config, entries: seq<JournalEntry>)

  datatype VenueError =
    | WorkspaceMismatch | ClockMovedBackwards | JournalFull | SealedBatch | ReconciliationRequired
    | MarketConflict | UnknownClientOrder | JournalIntegrity | StateMismatch | ReplayMismatch | DeliveryUnknown
    | InvalidCapacity
    | LedgerRefused(ledger: LedgerError)
    | RiskRefused(risk: R.RiskError)

  // ---- Replay ------------------------------------------------------------------------------------

  function EntryHash(w: World, e: JournalEntry): Digest {
    w.hash(OfEntry(e.sequence, e.previousHash, e.command, e.stateHash))
  }

  /** The hash the next entry must name. */
  function ChainHash(w: World, initial: Portfolio, config: Config, entries: seq<JournalEntry>): Digest {
    if entries == [] then w.hash(OfHeader(initial, config)) else entries[|entries| - 1].entryHash
  }

  predicate EntriesOk(entries: seq<JournalEntry>) {
    forall i :: 0 <= i < |entries| ==> MarketOk(entries[i].command)
  }

  predicate Linked(w: World, initial: Portfolio, config: Config, before: seq<JournalEntry>, e: JournalEntry) {
    e.sequence == |before| + 1 && e.previousHash == ChainHash(w, initial, config, before) && e.entryHash == EntryHash(w, e)
  }

  /** One entry, checked for its link and for the hash of the state it leaves. */
  function ReplayEntry(w: World, initial: Portfolio, config: Config, before: seq<JournalEntry>, ledger: Ledger, e: JournalEntry)
    : (r: Result<Ledger, VenueError>)
    requires ConfigOk(ledger.config) && MarketOk(e.command)
    ensures r.Ok? ==> ConfigOk(r.value.config)
  {
    if !Linked(w, initial, config, before, e) then Err(JournalIntegrity)
    else
      ApplyScope(ledger, w.risk.portfolioHash, e.command);
      match Apply(ledger, w.risk.portfolioHash, e.command)
      case Err(error) => Err(LedgerRefused(error))
      case Ok(next) =>
        match Snapshot(next)
        case Err(error) => Err(LedgerRefused(error))
        case Ok(state) => if w.hash(OfState(state)) != e.stateHash then Err(StateMismatch) else Ok(next)
  }

  /** Applies the entries to a fresh ledger. */
  function ReplayLedger(w: World, initial: Portfolio, config: Config, entries: seq<JournalEntry>): (r: Result<Ledger, VenueError>)
    requires ConfigOk(config) && EntriesOk(entries)
    ensures r.Ok? ==> ConfigOk(r.value.config)
    decreases |entries|
  {
    if entries == [] then
      match Create(initial, config)
      case Err(e) => Err(LedgerRefused(e))
      case Ok(ledger) => Ok(ledger)
    else
      var n := |entries| - 1;
      match ReplayLedger(w, initial, config, entries[..n])
      case Err(e) => Err(e)
      case Ok(ledger) => ReplayEntry(w, initial, config, entries[..n], ledger, entries[n])
  }

  function Replay(w: World, b: Bundle): Result<AccountState, VenueError>
    requires ConfigOk(b.config) && EntriesOk(b.entries)
  {
    match ReplayLedger(w, b.initial, b.config, b.entries)
    case Err(e) => Err(e)
    case Ok(ledger) =>
      match Snapshot(ledger)
      case Err(e) => Err(LedgerRefused(e))
      case Ok(state) => Ok(state)
  }

  // ---- The venue ------------------------------------------------------------------------------------

  datatype Venue = Venue(
    initial: Portfolio,
    config: Config,
    ledger: Ledger,
    risk: R.Session,
    entries: seq<JournalEntry>,
    intents: map<Id, ClientOrderId>,
    marketKeys: map<(InstrumentId, nat), Digest>,
    capacity: nat,
    lastNow: int)

  /** What an operation leaves behind, also when it raises. */
  datatype Step<+T> = Step(venue: Venue, result: Result<T, VenueError>)

  ghost predicate VenueOk(v: Venue) {
    ConfigOk(v.config) && ConfigOk(v.ledger.config) && EntriesOk(v.entries) && R.SessionOk(v.risk) && R.EntriesOk(v.risk)
  }

  function Open(w: World, initial: Portfolio, config: Config, risk: R.Session, capacity: nat): Result<Venue, VenueError>
    requires ConfigOk(config)
  {
    if !(1 <= capacity <= 1000) then Err(InvalidCapacity)
    else
      match Create(initial, config)
      case Err(e) => Err(LedgerRefused(e))
      case Ok(ledger) =>
        match Snapshot(ledger)
        case Err(e) => Err(LedgerRefused(e))
        case Ok(_) => Ok(Venue(initial, config, ledger, risk, [], map[], map[], capacity, initial.asOf))
  }

  function SealedEntry(w: World, v: Venue, command: Command, state: AccountState): JournalEntry {
    var e := JournalEntry(
      |v.entries| + 1, ChainHash(w, v.initial, v.config, v.entries), command, w.hash(OfState(state)), 0);
    e.(entryHash := EntryHash(w, e))
  }

  /** Applies a command and journals it; a refused command leaves the venue alone. */
  function Commit(w: World, v: Venue, command: Command): (r: Result<Venue, VenueError>)
    requires VenueOk(v) && MarketOk(command)
    ensures r.Ok? ==> VenueOk(r.value)
  {
    if |v.entries| >= v.capacity then Err(JournalFull)
    else
      ApplyScope(v.ledger, w.risk.portfolioHash, command);
      match Apply(v.ledger, w.risk.portfolioHash, command)
      case Err(e) => Err(LedgerRefused(e))
      case Ok(next) =>
        match Snapshot(next)
        case Err(e) => Err(LedgerRefused(e))
        case Ok(state) =>
          var a := if command.SubmitPermit? then Some(command.permit.approval) else None;
          Ok(v.(entries := v.entries + [SealedEntry(w, v, command, state)], ledger := next,
                intents := if a.Some? then v.intents[a.value.intent := a.value.clientOrderId] else v.intents,
                marketKeys := if command.ObserveBook?
                              then v.marketKeys[(command.book.instrument, command.book.sequence) := w.hash(OfBook(command.book))]
                              else v.marketKeys))
  }

  /** The order under a client id. */
  function OrderOf(v: Venue, id: ClientOrderId): Result<Order, VenueError> {
    FindOrderIs(v.ledger.orders, id);
    match FindOrder(v.ledger.orders, id)
    case None => Err(UnknownClientOrder)
    case Some(i) => Ok(v.ledger.orders[i].order)
  }

  /** Clock readings: the venue before and after risk, and risk itself in between. */
  datatype Readings = Readings(before: int, risk: int, after: int)

  function Submit(w: World, v: Venue, workspace: Id, intent: Id, token: int, c: Readings): (r: Step<Option<Order>>)
    requires VenueOk(v)
    ensures VenueOk(r.venue)
  {
    if workspace != v.initial.workspace then Step(v, Err(WorkspaceMismatch))
    else if intent in v.intents then
      match OrderOf(v, v.intents[intent])
      case Err(e) => Step(v, Err(e))
      case Ok(o) => Step(v, Ok(Some(o)))
    else if |v.entries| >= v.capacity then Step(v, Err(JournalFull))
    else if v.ledger.isSealed then Step(v, Err(SealedBatch))
    else
      match Snapshot(v.ledger)
      case Err(e) => Step(v, Err(LedgerRefused(e)))
      case Ok(shown) =>
        if !shown.portfolio.isReconciled then Step(v, Err(ReconciliationRequired))
        else if c.before < v.lastNow then Step(v, Err(ClockMovedBackwards))
        else
          R.HandoffScope(w.risk, v.risk, workspace, intent, token, c.risk);
          var handed := R.Handoff(w.risk, v.risk, workspace, intent, token, c.risk);
          var u := v.(risk := handed.state, lastNow := c.before);
          match handed.result
          case Err(e) => Step(u, Err(RiskRefused(e)))
          case Ok(None) => Step(u, Ok(None))
          case Ok(Some(permit)) =>
            if c.after < u.lastNow then Step(u, Err(ClockMovedBackwards))
            else
              var ready := u.(lastNow := c.after);
              match Commit(w, ready, SubmitPermit(c.after, permit))
              case Err(e) => Step(ready, Err(e))
              case Ok(done) =>
                match OrderOf(done, permit.approval.clientOrderId)
                case Err(e) => Step(done, Err(e))
                case Ok(o) => Step(done, Ok(Some(o)))
  }

  function ObserveBookAt(w: World, v: Venue, workspace: Id, book: Book, now: int, riskNow: int): (r: Step<()>)
    requires VenueOk(v) && BookOk(book)
    ensures VenueOk(r.venue)
  {
    var key := (book.instrument, book.sequence);
    if workspace != v.initial.workspace then Step(v, Err(WorkspaceMismatch))
    else if key in v.marketKeys then
      if v.marketKeys[key] != w.hash(OfBook(book)) then Step(v, Err(MarketConflict)) else Step(v, Ok(()))
    else if |v.entries| >= v.capacity then Step(v, Err(JournalFull))
    else if now < v.lastNow then Step(v, Err(ClockMovedBackwards))
    else
      R.GuardScope(w.risk, v.risk, workspace, Exposed(v.ledger.orders, book.instrument), riskNow);
      var guard := R.Guard(w.risk, v.risk, workspace, Exposed(v.ledger.orders, book.instrument), riskNow);
      var u := v.(risk := guard.state, lastNow := now);
      match guard.result
      case Err(e) => Step(u, Err(RiskRefused(e)))
      case Ok(blocked) =>
        match Commit(w, u, ObserveBook(now, book, blocked))
        case Err(e) => Step(u, Err(e))
        case Ok(done) => Step(done, Ok(()))
  }

  function CancelAt(w: World, v: Venue, workspace: Id, id: ClientOrderId, now: int): (r: Step<Order>)
    requires VenueOk(v)
    ensures VenueOk(r.venue)
  {
    if workspace != v.initial.workspace then Step(v, Err(WorkspaceMismatch))
    else
      match OrderOf(v, id)
      case Err(e) => Step(v, Err(e))
      case Ok(o) =>
        if !IsOpen(o.status) then Step(v, Ok(o))
        else if now < v.lastNow then Step(v, Err(ClockMovedBackwards))
        else
          var u := v.(lastNow := now);
          match Commit(w, u, CancelOrder(now, id))
          case Err(e) => Step(u, Err(e))
          case Ok(done) => Step(done, OrderOf(done, id))
  }

  function Export(v: Venue): Bundle {
    Bundle(v.initial, v.config, v.entries)
  }

  /** Replays the venue's own journal against its live state. */
  function Reconcile(w: World, v: Venue, now: int): (r: Step<AccountState>)
    requires VenueOk(v)
    ensures VenueOk(r.venue)
  {
    match Replay(w, Export(v))
    case Err(e) => Step(v, Err(e))
    case Ok(state) =>
      match Snapshot(v.ledger)
      case Err(e) => Step(v, Err(LedgerRefused(e)))
      case Ok(live) =>
        if w.hash(OfState(state)) != w.hash(OfState(live)) then Step(v, Err(ReplayMismatch))
        else if now < v.lastNow then Step(v, Err(ClockMovedBackwards))
        else Step(v.(lastNow := now), Ok(state))
  }

  // ---- Broker views ----------------------------------------------------------------------------------

  datatype Broker = Broker(sequence: nat, state: AccountState, connected: bool)

  function Doubted(state: AccountState): AccountState {
    state.(orders := seq(|state.orders|, i requires 0 <= i < |state.orders| =>
                           if IsOpen(state.orders[i].status) then state.orders[i].(status := Unknown) else state.orders[i]),
           portfolio := state.portfolio.(isReconciled := false))
  }

  /** What a broker reports: its copy while it is current, a doubted copy otherwise. */
  function View(b: Broker, v: Venue): AccountState {
    if b.connected && b.sequence == |v.entries| then b.state else Doubted(b.state)
  }

  function IdsOf(o: Order): seq<FillId> {
    seq(|o.fills|, i requires 0 <= i < |o.fills| => o.fills[i].id)
  }

  function FillIds(orders: seq<Order>): seq<FillId> {
    if orders == [] then [] else FillIds(orders[..|orders| - 1]) + IdsOf(orders[|orders| - 1])
  }

  function Without(ids: seq<FillId>, known: seq<FillId>): seq<FillId> {
    if ids == [] then []
    else
      var n := |ids| - 1;
      Without(ids[..n], known) + if ids[n] in known then [] else [ids[n]]
  }

  datatype BrokerStep<+T> = BrokerStep(venue: Venue, broker: Broker, result: Result<T, VenueError>)

  function Connect(v: Venue): Result<Broker, VenueError> {
    match Snapshot(v.ledger)
    case Err(e) => Err(LedgerRefused(e))
    case Ok(state) => Ok(Broker(|v.entries|, state, true))
  }

  /** Whatever the venue did, a broker that raises stops trusting its copy; an acknowledged one reads again. */
  function Settled<T>(s: Step<T>, b: Broker, acknowledge: bool): BrokerStep<T> {
    if s.result.Err? then BrokerStep(s.venue, b.(connected := false), s.result)
    else if !acknowledge || !b.connected then BrokerStep(s.venue, b.(connected := false), Err(DeliveryUnknown))
    else
      match Connect(s.venue)
      case Err(e) => BrokerStep(s.venue, b.(connected := false), Err(e))
      case Ok(copy) => BrokerStep(s.venue, copy, s.result)
  }

  function BrokerSubmit(w: World, v: Venue, b: Broker, intent: Id, token: int, acknowledge: bool, c: Readings)
    : BrokerStep<Option<Order>>
    requires VenueOk(v)
  {
    if !View(b, v).portfolio.isReconciled then BrokerStep(v, b, Err(ReconciliationRequired))
    else Settled(Submit(w, v, v.initial.workspace, intent, token, c), b, acknowledge)
  }

  function BrokerObserve(w: World, v: Venue, b: Broker, book: Book, acknowledge: bool, now: int, riskNow: int): BrokerStep<()>
    requires VenueOk(v) && BookOk(book)
  {
    Settled(ObserveBookAt(w, v, v.initial.workspace, book, now, riskNow), b, acknowledge)
  }

  function BrokerCancel(w: World, v: Venue, b: Broker, id: ClientOrderId, acknowledge: bool, now: int): BrokerStep<Order>
    requires VenueOk(v)
  {
    Settled(CancelAt(w, v, v.initial.workspace, id, now), b, acknowledge)
  }

  datatype Reconciliation = Reconciliation(sequence: nat, discovered: seq<FillId>, stateHash: Digest, at: int)

  function BrokerReconcile(w: World, v: Venue, b: Broker, now: int): BrokerStep<Reconciliation>
    requires VenueOk(v)
  {
    var s := Reconcile(w, v, now);
    match s.result
    case Err(e) => BrokerStep(s.venue, b, Err(e))
    case Ok(state) =>
      BrokerStep(
        s.venue, Broker(|v.entries|, state, true),
        Ok(Reconciliation(|v.entries|, Without(FillIds(state.orders), FillIds(b.state.orders)), w.hash(OfState(state)), now)))
  }
}

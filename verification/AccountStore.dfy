/** The durable account: one row and its command table, each transaction one atomic step. */
module AccountStore {
  import opened Outcomes
  import opened Domain
  import LM = LedgerModel
  import opened AccountModel

  const MAX_COMMANDS: nat := 1000
  const MICROS_PER_SECOND: int := 1_000_000

  datatype Lease = Lease(owner: Id, token: nat, expiresAt: int)

  /** A retained command with its receipt. */
  datatype Row = Row(sequence: nat, command: AccountCommand, receipt: Receipt, at: int, token: nat)

  datatype Account = Account(
    definition: Definition,
    headSequence: nat,
    headHash: Digest,
    headReceipt: Receipt,
    leaseOwner: Option<Id>,
    leaseToken: nat,
    leaseUntil: Option<int>,
    rows: seq<Row>)

  datatype StoreError =
    | DefinitionConflict | LeaseBusy | InvalidLeaseDuration
    | CommandConflict | MarketConflict | StaleLease | CapacityExhausted | OutlivedLease
    | CorruptJournal(replay: ReplayError) | HeadMismatch | ProjectionMismatch
    | Refused(error: AccountError)

  /** The hashes the store compares requests and books by. */
  datatype Hashes = Hashes(command: AccountCommand -> Digest, book: Book -> Digest)

  datatype Committed = Committed(receipt: Receipt, replayed: bool)

  // ---- Creation -----------------------------------------------------------------------------------

  function InitialReceipt(m: Machine): Result<Receipt, AccountError> {
    match LM.Snapshot(m.ledger)
    case Err(e) => Err(LedgerRefused(e))
    case Ok(state) => Ok(Receipt(m.sequence, m.generation, m.chain, state, [], m.now))
  }

  ghost predicate StoreOk(a: Account) {
    && LM.ConfigOk(a.definition.config) && RegistrationsOk(a.definition.registrations)
    && forall i :: 0 <= i < |a.rows| ==> TaskOk(a.rows[i].command.task)
  }

  /** Creation is idempotent for one definition and refuses another. */
  function Open(w: World, stored: Option<Account>, d: Definition): Result<Account, StoreError>
    requires LM.ConfigOk(d.config) && RegistrationsOk(d.registrations)
  {
    match Create(w, d)
    case Err(e) => Err(Refused(e))
    case Ok(m) =>
      match InitialReceipt(m)
      case Err(e) => Err(Refused(e))
      case Ok(receipt) =>
        if stored.None? then Ok(Account(d, 0, w.definitionHash(d), receipt, None, 0, None, []))
        else if w.definitionHash(stored.value.definition) != w.definitionHash(d) then Err(DefinitionConflict)
        else Ok(stored.value)
  }

  // ---- Leases ----------------------------------------------------------------------------------------

  predicate LeaseActive(a: Account, now: int) {
    a.leaseUntil.Some? && a.leaseUntil.value > now
  }

  function Acquire(a: Account, owner: Id, seconds: int, now: int): Result<(Account, Lease), StoreError> {
    if !(1 <= seconds <= 300) then Err(InvalidLeaseDuration)
    else if LeaseActive(a, now) && a.leaseOwner != Some(owner) then Err(LeaseBusy)
    else
      var token := if LeaseActive(a, now) then a.leaseToken else a.leaseToken + 1;
      var until := now + seconds * MICROS_PER_SECOND;
      Ok((a.(leaseOwner := Some(owner), leaseToken := token, leaseUntil := Some(until)), Lease(owner, token, until)))
  }

  function Release(a: Account, lease: Lease, now: int): Account {
    if a.leaseOwner == Some(lease.owner) && a.leaseToken == lease.token then a.(leaseUntil := Some(now)) else a
  }

  // ---- Commits ------------------------------------------------------------------------------------------

  function EventOf(r: Row): Event {
    Event(r.sequence, r.command, r.at, r.receipt.stateHash)
  }

  function Events(rows: seq<Row>): (es: seq<Event>)
    ensures |es| == |rows| && forall i :: 0 <= i < |rows| ==> es[i] == EventOf(rows[i])
  {
    seq(|rows|, i requires 0 <= i < |rows| => EventOf(rows[i]))
  }

  /** The machine the journal folds to, checked against the stored head. */
  function Restore(w: World, a: Account): (r: Result<Machine, StoreError>)
    requires StoreOk(a)
    ensures r.Ok? ==> MachineOk(r.value)
  {
    match Reconstruct(w, a.definition, Events(a.rows))
    case Err(e) => Err(CorruptJournal(e))
    case Ok(m) =>
      if m.sequence != a.headSequence || m.chain != a.headHash then Err(HeadMismatch)
      else if LM.Snapshot(m.ledger) != Ok(a.headReceipt.state) || a.headReceipt.stateHash != m.chain then
        Err(ProjectionMismatch)
      else Ok(m)
  }

  function FindKey(rows: seq<Row>, key: Id): (r: Option<nat>)
    ensures r.Some? ==> r.value < |rows| && rows[r.value].command.key == key
    ensures r.None? ==> forall i :: 0 <= i < |rows| ==> rows[i].command.key != key
  {
    if rows == [] then None
    else
      var n := |rows| - 1;
      if rows[n].command.key == key then Some(n) else FindKey(rows[..n], key)
  }

  predicate SameMarket(t: Task, book: Book) {
    t.ObserveMarket? && t.book.instrument == book.instrument && t.book.sequence == book.sequence
  }

  function FindMarket(rows: seq<Row>, book: Book): (r: Option<nat>)
    ensures r.Some? ==> r.value < |rows| && SameMarket(rows[r.value].command.task, book)
    ensures r.None? ==> forall i :: 0 <= i < |rows| ==> !SameMarket(rows[i].command.task, book)
  {
    if rows == [] then None
    else
      var n := |rows| - 1;
      if SameMarket(rows[n].command.task, book) then Some(n) else FindMarket(rows[..n], book)
  }

  predicate LeaseHolds(a: Account, lease: Lease, now: int) {
    && a.leaseToken == lease.token
    && a.leaseOwner == Some(lease.owner)
    && a.leaseUntil.Some?
    && now < a.leaseUntil.value && now < lease.expiresAt
  }

  /** The database clock, read four times while the row is locked. */
  datatype Clock = Clock(checked: int, applied: int, encoded: int, written: int)

  predicate ClockOk(c: Clock) {
    c.checked <= c.applied <= c.encoded <= c.written
  }

  /** A command that is new to the journal. */
  function Append(w: World, a: Account, lease: Lease, command: AccountCommand, c: Clock): Result<(Account, Committed), StoreError>
    requires StoreOk(a) && TaskOk(command.task)
  {
    if !LeaseHolds(a, lease, c.checked) then Err(StaleLease)
    else if a.headSequence >= MAX_COMMANDS then Err(CapacityExhausted)
    else
      match Restore(w, a)
      case Err(e) => Err(e)
      case Ok(m) =>
        match Execute(w, m, command, c.applied)
        case Err(e) => Err(Refused(e))
        case Ok((_, receipt)) =>
          if !LeaseHolds(a, lease, c.encoded) || !LeaseHolds(a, lease, c.written) then Err(OutlivedLease)
          else
            Ok((a.(headSequence := receipt.sequence, headHash := receipt.stateHash, headReceipt := receipt,
                   rows := a.rows + [Row(receipt.sequence, command, receipt, c.applied, lease.token)]),
                Committed(receipt, false)))
  }

  function Commit(w: World, h: Hashes, a: Account, lease: Lease, command: AccountCommand, c: Clock)
    : Result<(Account, Committed), StoreError>
    requires StoreOk(a) && TaskOk(command.task)
  {
    var known := FindKey(a.rows, command.key);
    if known.Some? then
      var row := a.rows[known.value];
      if h.command(row.command) != h.command(command) then Err(CommandConflict)
      else Ok((a, Committed(row.receipt, true)))
    else if command.task.ObserveMarket? && FindMarket(a.rows, command.task.book).Some? then
      var row := a.rows[FindMarket(a.rows, command.task.book).value];
      if h.book(row.command.task.book) != h.book(command.task.book) then Err(MarketConflict)
      else Ok((a, Committed(row.receipt, true)))
    else Append(w, a, lease, command, c)
  }

  // ---- The invariant ----------------------------------------------------------------------------------------

  /** Keys and market sequences name at most one row, and lease tokens never go back along the journal. */
  ghost predicate RowsOk(a: Account) {
    && (forall i, j :: 0 <= i < j < |a.rows| ==> a.rows[i].command.key != a.rows[j].command.key)
    && (forall i, j :: 0 <= i < j < |a.rows| && a.rows[i].command.task.ObserveMarket? && a.rows[j].command.task.ObserveMarket? ==>
          !SameMarket(a.rows[i].command.task, a.rows[j].command.task.book))
    && (forall i, j :: 0 <= i <= j < |a.rows| ==> a.rows[i].token <= a.rows[j].token)
    && (forall i :: 0 <= i < |a.rows| ==> a.rows[i].token <= a.leaseToken)
    && (forall i :: 0 <= i < |a.rows| ==> a.rows[i].sequence == i + 1)
  }

  ghost predicate StoreInv(w: World, a: Account) {
    && StoreOk(a) && RowsOk(a) && Restore(w, a).Ok?
    && a.headSequence == |a.rows|
  }

  lemma AppendKeepsRows(a: Account, r: Row, b: Account)
    requires RowsOk(a) && b == a.(headSequence := b.headSequence, headHash := b.headHash, headReceipt := b.headReceipt, rows := a.rows + [r])
    requires FindKey(a.rows, r.command.key).None? && r.token == a.leaseToken && r.sequence == |a.rows| + 1
    requires r.command.task.ObserveMarket? ==> FindMarket(a.rows, r.command.task.book).None?
    ensures RowsOk(b)
  {
  }

  /** The journal with one more accepted command folds to the machine that command left. */
  lemma AppendRestores(w: World, a: Account, m: Machine, command: AccountCommand, at: int, token: nat)
    requires StoreOk(a) && TaskOk(command.task) && Restore(w, a) == Ok(m)
    requires Execute(w, m, command, at).Ok?
    ensures var (n, receipt) := Execute(w, m, command, at).value;
            var b := a.(headSequence := receipt.sequence, headHash := receipt.stateHash, headReceipt := receipt,
                        rows := a.rows + [Row(receipt.sequence, command, receipt, at, token)]);
            StoreOk(b) && Restore(w, b) == Ok(n) && receipt.sequence == a.headSequence + 1
  {
    hide Create, Execute, MachineOk, LM.Snapshot, LM.ConfigOk;
    var (n, receipt) := Execute(w, m, command, at).value;
    var row := Row(receipt.sequence, command, receipt, at, token);
    var es := Events(a.rows);
    assert Events(a.rows + [row]) == es + [EventOf(row)];
    assert (es + [EventOf(row)])[..|es|] == es;
    ReceiptIs(w, m, command, at);
  }
}

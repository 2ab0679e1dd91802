/** Exactly-once commits and fencing, over any interleaving of transactions on one account. */
module AccountFencing {
  import opened Outcomes
  import opened Domain
  import LM = LedgerModel
  import opened AccountModel
  import opened AccountStore

  // ---- One transaction -----------------------------------------------------------------------------

  lemma OpenKeeps(w: World, stored: Option<Account>, d: Definition)
    requires LM.ConfigOk(d.config) && RegistrationsOk(d.registrations)
    requires stored.Some? ==> StoreInv(w, stored.value)
    ensures var r := Open(w, stored, d);
            r.Ok? ==> StoreInv(w, r.value) && w.definitionHash(r.value.definition) == w.definitionHash(d) &&
                      (stored.Some? ==> r.value == stored.value)
  {
    hide LM.ConfigOk, LM.Snapshot, LM.Create;
    if stored.None? && Open(w, stored, d).Ok? {
      CreatedHead(w, d);
    }
  }

  lemma CreatedHead(w: World, d: Definition)
    requires LM.ConfigOk(d.config) && RegistrationsOk(d.registrations)
    ensures Create(w, d).Ok? ==> Create(w, d).value.sequence == 0 && Create(w, d).value.chain == w.definitionHash(d)
  {
    hide LM.Create;
  }

  lemma AcquireKeeps(w: World, a: Account, owner: Id, seconds: int, now: int)
    requires StoreInv(w, a)
    ensures var r := Acquire(a, owner, seconds, now);
            r.Ok? ==>
              var (b, lease) := r.value;
              && StoreInv(w, b) && b == a.(leaseOwner := b.leaseOwner, leaseToken := b.leaseToken, leaseUntil := b.leaseUntil)
              && lease.token == b.leaseToken && lease.owner == owner && b.leaseOwner == Some(owner) && lease.expiresAt > now
              && (b.leaseToken == a.leaseToken + 1 || (b.leaseToken == a.leaseToken && a.leaseOwner == Some(owner)))
  {
    hide Reconstruct, LM.ConfigOk;
  }

  /** A release by the holder leaves no lease that holds from then on; any other release changes nothing. */
  lemma ReleaseKeeps(w: World, a: Account, lease: Lease, now: int)
    requires StoreInv(w, a)
    ensures var b := Release(a, lease, now);
            && StoreInv(w, b) && b == a.(leaseUntil := b.leaseUntil)
            && (if a.leaseOwner == Some(lease.owner) && a.leaseToken == lease.token
                then forall other, at :: now <= at ==> !LeaseHolds(b, other, at)
                else b == a)
  {
    hide Reconstruct, LM.ConfigOk;
  }

  /** The row a fresh commit adds. */
  function NewRow(a: Account, b: Account): Row
    requires |b.rows| == |a.rows| + 1
  {
    b.rows[|a.rows|]
  }

  ghost predicate Appended(a: Account, b: Account, lease: Lease, command: AccountCommand, c: Clock) {
    && |b.rows| == |a.rows| + 1 && b.rows == a.rows + [NewRow(a, b)]
    && b == a.(headSequence := b.headSequence, headHash := b.headHash, headReceipt := b.headReceipt, rows := b.rows)
    && NewRow(a, b) == Row(b.headSequence, command, b.headReceipt, c.applied, lease.token)
    && LeaseHolds(a, lease, c.checked) && LeaseHolds(a, lease, c.encoded) && LeaseHolds(a, lease, c.written)
  }

  lemma AppendIs(w: World, a: Account, lease: Lease, command: AccountCommand, c: Clock)
    requires StoreInv(w, a) && TaskOk(command.task)
    requires FindKey(a.rows, command.key).None?
    requires command.task.ObserveMarket? ==> FindMarket(a.rows, command.task.book).None?
    ensures match Append(w, a, lease, command, c)
            case Err(e) => !e.CorruptJournal? && !e.HeadMismatch? && !e.ProjectionMismatch?
            case Ok((b, done)) =>
              StoreInv(w, b) && Appended(a, b, lease, command, c) && done == Committed(b.headReceipt, false)
  {
    hide Restore, Execute, MachineOk, TaskOk, RowsOk, LM.ConfigOk;
    var r := Append(w, a, lease, command, c);
    if r.Ok? {
      var m := Restore(w, a).value;
      AppendRestores(w, a, m, command, c.applied, lease.token);
      AppendKeepsRows(a, NewRow(a, r.value.0), r.value.0);
    }
  }

  /**
   * A commit returns the receipt of a retained row for its key or its book sequence. It either changes
   * nothing or appends exactly that row under a lease that holds from the first check to the last. The
   * journal always folds to the stored head, so it is never reported corrupt.
   */
  lemma CommitIsExactlyOnce(w: World, h: Hashes, a: Account, lease: Lease, command: AccountCommand, c: Clock)
    requires StoreInv(w, a) && TaskOk(command.task)
    ensures match Commit(w, h, a, lease, command, c)
            case Err(e) => !e.CorruptJournal? && !e.HeadMismatch? && !e.ProjectionMismatch?
            case Ok((b, done)) =>
              && StoreInv(w, b) && a.rows <= b.rows
              && (if done.replayed then b == a else Appended(a, b, lease, command, c))
              && exists k :: 0 <= k < |b.rows| && b.rows[k].receipt == done.receipt &&
                   (b.rows[k].command.key == command.key ||
                    (command.task.ObserveMarket? && SameMarket(b.rows[k].command.task, command.task.book)))
  {
    hide Append, StoreInv, TaskOk, LM.ConfigOk;
    assert StoreOk(a) by {
      InvStore(w, a);
    }
    if FindKey(a.rows, command.key).None? &&
       !(command.task.ObserveMarket? && FindMarket(a.rows, command.task.book).Some?) {
      AppendIs(w, a, lease, command, c);
    }
  }

  lemma InvStore(w: World, a: Account)
    requires StoreInv(w, a)
    ensures StoreOk(a) && RowsOk(a)
  {
  }

  lemma {:induction false} FindKeyIs(rows: seq<Row>, k: nat)
    requires k < |rows| && forall i, j :: 0 <= i < j < |rows| ==> rows[i].command.key != rows[j].command.key
    ensures FindKey(rows, rows[k].command.key) == Some(k)
  {
    var n := |rows| - 1;
    if k < n {
      FindKeyIs(rows[..n], k);
    }
  }

  /** A command that is in the journal gets its own receipt back, whatever lease and time the retry has. */
  lemma RetryReturnsTheReceipt(
      w: World, h: Hashes, a: Account, k: nat, later: Account, lease: Lease, c: Clock)
    requires StoreInv(w, a) && k < |a.rows| && StoreInv(w, later) && a.rows <= later.rows
    ensures TaskOk(a.rows[k].command.task)
    ensures Commit(w, h, later, lease, a.rows[k].command, c) == Ok((later, Committed(a.rows[k].receipt, true)))
  {
    hide Restore, LM.ConfigOk, TaskOk;
    assert later.rows[k] == a.rows[k];
    FindKeyIs(later.rows, k);
  }

  // ---- Interleavings ---------------------------------------------------------------------------------------

  datatype Transaction =
    | DoOpen(definition: Definition, at: int)
    | DoAcquire(owner: Id, seconds: int, at: int)
    | DoRelease(lease: Lease, at: int)
    | DoCommit(holder: Lease, command: AccountCommand, clock: Clock)

  datatype Happening =
    | Granted(lease: Lease, at: int)
    | Retained(row: Row, lease: Lease, until: int, at: int)

  /** The account, everything that was granted on it, and the latest reading of the database clock. */
  datatype System = System(account: Account, log: seq<Happening>, now: int)

  /** The clock readings of a transaction start after the previous one released the row. */
  ghost predicate Possible(s: System, t: Transaction) {
    match t
    case DoOpen(d, at) => s.now <= at && LM.ConfigOk(d.config) && RegistrationsOk(d.registrations)
    case DoAcquire(_, _, at) => s.now <= at
    case DoRelease(_, at) => s.now <= at
    case DoCommit(_, command, c) => s.now <= c.checked && ClockOk(c) && TaskOk(command.task)
  }

  ghost function Next(w: World, h: Hashes, s: System, t: Transaction): System
    requires StoreOk(s.account) && Possible(s, t)
  {
    match t
    case DoOpen(d, at) =>
      (match Open(w, Some(s.account), d)
       case Err(_) => s.(now := at)
       case Ok(a) => s.(account := a, now := at))
    case DoAcquire(owner, seconds, at) =>
      (match Acquire(s.account, owner, seconds, at)
       case Err(_) => s.(now := at)
       case Ok((a, lease)) => System(a, s.log + [Granted(lease, at)], at))
    case DoRelease(lease, at) => s.(account := Release(s.account, lease, at), now := at)
    case DoCommit(lease, command, c) =>
      (match Commit(w, h, s.account, lease, command, c)
       case Err(_) => s.(now := c.written)
       case Ok((b, done)) =>
         if done.replayed || |b.rows| != |s.account.rows| + 1 || s.account.leaseUntil.None? then s.(account := b, now := c.written)
         else
           System(b, s.log + [Retained(NewRow(s.account, b), lease, s.account.leaseUntil.value, c.written)], c.written))
  }

  ghost predicate Run(w: World, h: Hashes, s: System, ts: seq<Transaction>, t: System)
    decreases |ts|
  {
    if ts == [] then t == s
    else StoreOk(s.account) && Possible(s, ts[0]) && Run(w, h, Next(w, h, s, ts[0]), ts[1..], t)
  }

  /** The rows a log accepted, in order. */
  ghost function RetainedRows(log: seq<Happening>): seq<Row> {
    if log == [] then []
    else
      RetainedRows(log[..|log| - 1]) + if log[|log| - 1].Retained? then [log[|log| - 1].row] else []
  }

  /** Tokens: one owner each, none beyond the current one, and the current one belongs to the current owner. */
  ghost predicate TokensOk(s: System) {
    && (forall i :: 0 <= i < |s.log| && s.log[i].Granted? ==>
          s.log[i].lease.token <= s.account.leaseToken &&
          (s.log[i].lease.token == s.account.leaseToken ==> s.account.leaseOwner == Some(s.log[i].lease.owner)))
    && (forall i, j :: 0 <= i < |s.log| && 0 <= j < |s.log| && s.log[i].Granted? && s.log[j].Granted? ==>
          s.log[i].lease.token == s.log[j].lease.token ==> s.log[i].lease.owner == s.log[j].lease.owner)
  }

  /** Every acceptance carries the newest token issued so far and ends before both expiries. */
  ghost predicate FencedOk(s: System) {
    && (forall i, j :: 0 <= i < j < |s.log| && s.log[i].Granted? && s.log[j].Retained? ==>
          s.log[i].lease.token <= s.log[j].row.token)
    && (forall j :: 0 <= j < |s.log| && s.log[j].Retained? ==>
          && s.log[j].row.token == s.log[j].lease.token
          && s.log[j].row.at <= s.log[j].at && s.log[j].at < s.log[j].until && s.log[j].at < s.log[j].lease.expiresAt)
    && (forall i, j :: 0 <= i <= j < |s.log| ==> s.log[i].at <= s.log[j].at)
    && (forall i :: 0 <= i < |s.log| ==> s.log[i].at <= s.now)
  }

  ghost predicate SystemInv(w: World, s: System) {
    StoreInv(w, s.account) && TokensOk(s) && FencedOk(s) && RetainedRows(s.log) == s.account.rows
  }

  lemma GrantTokens(s: System, a: Account, lease: Lease, at: int)
    requires TokensOk(s) && lease.token == a.leaseToken && a.leaseOwner == Some(lease.owner)
    requires a.leaseToken == s.account.leaseToken + 1 ||
             (a.leaseToken == s.account.leaseToken && s.account.leaseOwner == Some(lease.owner))
    ensures TokensOk(System(a, s.log + [Granted(lease, at)], at))
  {
  }

  lemma GrantFence(s: System, a: Account, lease: Lease, at: int)
    requires FencedOk(s) && s.now <= at
    ensures FencedOk(System(a, s.log + [Granted(lease, at)], at))
  {
  }

  lemma GrantKeeps(s: System, a: Account, lease: Lease, at: int)
    requires TokensOk(s) && FencedOk(s) && s.now <= at
    requires lease.token == a.leaseToken && a.leaseOwner == Some(lease.owner)
    requires a.leaseToken == s.account.leaseToken + 1 ||
             (a.leaseToken == s.account.leaseToken && s.account.leaseOwner == Some(lease.owner))
    ensures var t := System(a, s.log + [Granted(lease, at)], at);
            TokensOk(t) && FencedOk(t) && RetainedRows(t.log) == RetainedRows(s.log)
  {
    hide TokensOk, FencedOk;
    GrantTokens(s, a, lease, at);
    GrantFence(s, a, lease, at);
    assert (s.log + [Granted(lease, at)])[..|s.log|] == s.log;
  }

  lemma RetainTokens(s: System, b: Account, row: Row, lease: Lease, until: int, at: int)
    requires TokensOk(s) && b.leaseOwner == s.account.leaseOwner && b.leaseToken == s.account.leaseToken
    ensures TokensOk(System(b, s.log + [Retained(row, lease, until, at)], at))
  {
  }

  lemma RetainFence(s: System, b: Account, row: Row, lease: Lease, until: int, at: int)
    requires TokensOk(s) && FencedOk(s) && s.now <= row.at <= at < until && at < lease.expiresAt
    requires row.token == lease.token == s.account.leaseToken
    ensures FencedOk(System(b, s.log + [Retained(row, lease, until, at)], at))
  {
  }

  lemma RetainKeeps(s: System, b: Account, row: Row, lease: Lease, until: int, at: int)
    requires TokensOk(s) && FencedOk(s) && s.now <= row.at <= at < until && at < lease.expiresAt
    requires b.leaseOwner == s.account.leaseOwner && b.leaseToken == s.account.leaseToken
    requires row.token == lease.token == s.account.leaseToken
    ensures var t := System(b, s.log + [Retained(row, lease, until, at)], at);
            TokensOk(t) && FencedOk(t) && RetainedRows(t.log) == RetainedRows(s.log) + [row]
  {
    hide TokensOk, FencedOk;
    RetainTokens(s, b, row, lease, until, at);
    RetainFence(s, b, row, lease, until, at);
    assert (s.log + [Retained(row, lease, until, at)])[..|s.log|] == s.log;
  }

  lemma QuietKeeps(s: System, b: Account, at: int)
    requires TokensOk(s) && FencedOk(s) && s.now <= at
    requires b.leaseOwner == s.account.leaseOwner && b.leaseToken == s.account.leaseToken
    ensures TokensOk(System(b, s.log, at)) && FencedOk(System(b, s.log, at))
  {
  }

  lemma CommitStep(w: World, h: Hashes, s: System, lease: Lease, command: AccountCommand, c: Clock)
    requires SystemInv(w, s) && Possible(s, DoCommit(lease, command, c)) && StoreOk(s.account)
    ensures var t := Next(w, h, s, DoCommit(lease, command, c));
            SystemInv(w, t) && s.now <= t.now && s.account.rows <= t.account.rows && s.log <= t.log
  {
    hide StoreInv, StoreOk, Commit, TaskOk, TokensOk, FencedOk, RetainedRows;
    CommitIsExactlyOnce(w, h, s.account, lease, command, c);
    var r := Commit(w, h, s.account, lease, command, c);
    if r.Ok? && !r.value.1.replayed {
      RetainKeeps(s, r.value.0, NewRow(s.account, r.value.0), lease, s.account.leaseUntil.value, c.written);
    } else {
      QuietKeeps(s, s.account, c.written);
    }
  }

  lemma AcquireStep(w: World, s: System, owner: Id, seconds: int, at: int)
    requires SystemInv(w, s) && s.now <= at
    ensures match Acquire(s.account, owner, seconds, at)
            case Err(_) => SystemInv(w, s.(now := at))
            case Ok((a, lease)) => SystemInv(w, System(a, s.log + [Granted(lease, at)], at)) && a.rows == s.account.rows
  {
    hide StoreInv, Acquire, TokensOk, FencedOk, RetainedRows;
    AcquireKeeps(w, s.account, owner, seconds, at);
    var r := Acquire(s.account, owner, seconds, at);
    if r.Ok? {
      GrantKeeps(s, r.value.0, r.value.1, at);
    } else {
      QuietKeeps(s, s.account, at);
    }
  }

  lemma NextKeeps(w: World, h: Hashes, s: System, t: Transaction)
    requires SystemInv(w, s) && Possible(s, t)
    ensures StoreOk(s.account)
    ensures SystemInv(w, Next(w, h, s, t)) && s.now <= Next(w, h, s, t).now
    ensures s.account.rows <= Next(w, h, s, t).account.rows && s.log <= Next(w, h, s, t).log
  {
    hide StoreInv, StoreOk, Commit, Open, Acquire, Release, TaskOk, LM.ConfigOk, TokensOk, FencedOk, RetainedRows, RegistrationsOk;
    InvStore(w, s.account);
    match t {
      case DoOpen(d, at) =>
        OpenKeeps(w, Some(s.account), d);
        QuietKeeps(s, s.account, at);
      case DoAcquire(owner, seconds, at) =>
        AcquireStep(w, s, owner, seconds, at);
      case DoRelease(lease, at) =>
        ReleaseKeeps(w, s.account, lease, at);
        QuietKeeps(s, Release(s.account, lease, at), at);
      case DoCommit(lease, command, c) =>
        CommitStep(w, h, s, lease, command, c);
    }
  }

  lemma {:induction false} RunKeeps(w: World, h: Hashes, s: System, ts: seq<Transaction>, t: System)
    requires SystemInv(w, s) && Run(w, h, s, ts, t)
    ensures SystemInv(w, t) && s.account.rows <= t.account.rows && s.log <= t.log
    decreases |ts|
  {
    hide SystemInv, Next;
    if ts != [] {
      NextKeeps(w, h, s, ts[0]);
      RunKeeps(w, h, Next(w, h, s, ts[0]), ts[1..], t);
    }
  }

  /** A new account before anyone has leased it. */
  ghost predicate Starts(w: World, d: Definition, s: System)
    requires LM.ConfigOk(d.config) && RegistrationsOk(d.registrations)
  {
    Open(w, None, d) == Ok(s.account) && s.log == []
  }

  lemma StartInv(w: World, d: Definition, s: System)
    requires LM.ConfigOk(d.config) && RegistrationsOk(d.registrations) && Starts(w, d, s)
    ensures SystemInv(w, s)
  {
    hide StoreInv, LM.ConfigOk;
    OpenKeeps(w, None, d);
    OpenedRows(w, d, s.account);
  }

  lemma OpenedRows(w: World, d: Definition, a: Account)
    requires LM.ConfigOk(d.config) && RegistrationsOk(d.registrations) && Open(w, None, d) == Ok(a)
    ensures a.rows == []
  {
    hide LM.ConfigOk, Create, LM.Snapshot;
  }

  /**
   * Fencing: under any interleaving each token has one owner, journal tokens never decrease, nothing is
   * accepted under a token after a larger one was issued, and nothing at or after either expiry.
   */
  lemma Fencing(w: World, h: Hashes, d: Definition, s: System, ts: seq<Transaction>, t: System, i: nat, j: nat)
    requires LM.ConfigOk(d.config) && RegistrationsOk(d.registrations) && Starts(w, d, s) && Run(w, h, s, ts, t)
    requires i < j < |t.log|
    ensures t.log[i].Granted? && t.log[j].Granted? && t.log[i].lease.token == t.log[j].lease.token ==>
              t.log[i].lease.owner == t.log[j].lease.owner
    ensures t.log[i].Granted? && t.log[j].Retained? ==> t.log[i].lease.token <= t.log[j].row.token
    ensures t.log[j].Retained? ==> t.log[j].at < t.log[j].until && t.log[j].at < t.log[j].lease.expiresAt
    ensures RetainedRows(t.log) == t.account.rows
    ensures forall x, y :: 0 <= x <= y < |t.account.rows| ==> t.account.rows[x].token <= t.account.rows[y].token
  {
    hide StoreInv, Starts, Run;
    StartInv(w, d, s);
    RunKeeps(w, h, s, ts, t);
    InvStore(w, t.account);
  }

  /**
   * The journal is linear: at any point of any interleaving no key and no book sequence occurs twice,
   * nothing that was retained is lost, and reconstructing the journal gives exactly the stored head.
   */
  lemma JournalIsLinear(w: World, h: Hashes, d: Definition, s: System, before: seq<Transaction>, t: System, after: seq<Transaction>, u: System)
    requires LM.ConfigOk(d.config) && RegistrationsOk(d.registrations) && Starts(w, d, s)
    requires Run(w, h, s, before, t) && Run(w, h, t, after, u)
    ensures t.account.rows <= u.account.rows && RowsOk(u.account) && StoreOk(u.account)
    ensures Reconstruct(w, u.account.definition, Events(u.account.rows)).Ok?
    ensures var m := Reconstruct(w, u.account.definition, Events(u.account.rows)).value;
            && m.sequence == u.account.headSequence == |u.account.rows| && m.chain == u.account.headHash
            && LM.Snapshot(m.ledger) == Ok(u.account.headReceipt.state)
  {
    hide Starts, Run, RowsOk, Reconstruct, TokensOk, FencedOk, LM.Snapshot, LM.ConfigOk;
    StartInv(w, d, s);
    RunKeeps(w, h, s, before, t);
    RunKeeps(w, h, t, after, u);
  }
}

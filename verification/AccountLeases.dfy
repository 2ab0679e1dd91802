/** Leases are exclusive while they last, and a commit needs exactly the current one. */
module AccountLeases {
  import opened Outcomes
  import opened Domain
  import LM = LedgerModel
  import opened AccountModel
  import opened AccountStore
  import opened AccountFencing

  // ---- One acquisition ------------------------------------------------------------------------------

  /** Someone else's lease has not run out. */
  predicate HeldByOther(a: Account, owner: Id, now: int) {
    a.leaseUntil.Some? && now < a.leaseUntil.value && a.leaseOwner != Some(owner)
  }

  /**
   * An acquisition is refused for its duration or because another owner's lease is unexpired, and for
   * nothing else. A grant expires exactly its duration after the reading, under the same token for a
   * renewal in time and under the next one otherwise.
   */
  lemma AcquireIs(a: Account, owner: Id, seconds: int, now: int)
    ensures match Acquire(a, owner, seconds, now)
            case Err(e) =>
              || (e == InvalidLeaseDuration && !(1 <= seconds <= 300))
              || (e == LeaseBusy && 1 <= seconds <= 300 && HeldByOther(a, owner, now))
            case Ok((b, lease)) =>
              && 1 <= seconds <= 300 && !HeldByOther(a, owner, now)
              && lease.owner == owner && lease.expiresAt == now + seconds * 1_000_000
              && lease.token == (if a.leaseUntil.Some? && now < a.leaseUntil.value then a.leaseToken else a.leaseToken + 1)
              && b == a.(leaseOwner := Some(owner), leaseToken := lease.token, leaseUntil := Some(lease.expiresAt))
  {
  }

  // ---- Between two acquisitions ---------------------------------------------------------------------

  /** The account's lease belongs to `owner` under `token`, at least until `until`. */
  predicate LeasedTo(a: Account, owner: Id, token: nat, until: int) {
    a.leaseOwner == Some(owner) && a.leaseToken == token && a.leaseUntil.Some? && until <= a.leaseUntil.value
  }

  /** A transaction by which the owner gives up time: its own release, or a renewal that ends earlier. */
  predicate GivesUp(t: Transaction, owner: Id, token: nat, until: int) {
    match t
    case DoRelease(lease, _) => lease.owner == owner && lease.token == token
    case DoAcquire(who, seconds, at) => who == owner && at + seconds * 1_000_000 < until
    case _ => false
  }

  lemma StepKeepsLease(w: World, h: Hashes, s: System, t: Transaction, owner: Id, token: nat, until: int)
    requires SystemInv(w, s) && StoreOk(s.account) && Possible(s, t)
    requires LeasedTo(s.account, owner, token, until) && !GivesUp(t, owner, token, until) && Next(w, h, s, t).now < until
    ensures LeasedTo(Next(w, h, s, t).account, owner, token, until)
  {
    hide StoreInv, StoreOk, Commit, Open, TaskOk, LM.ConfigOk, TokensOk, FencedOk, RetainedRows, RegistrationsOk, LeaseHolds;
    match t {
      case DoOpen(d, at) => OpenKeeps(w, Some(s.account), d);
      case DoAcquire(who, seconds, at) => AcquireIs(s.account, who, seconds, at);
      case DoRelease(lease, at) =>
      case DoCommit(lease, command, c) => CommitIsExactlyOnce(w, h, s.account, lease, command, c);
    }
  }

  lemma {:induction false} RunClock(w: World, h: Hashes, s: System, ts: seq<Transaction>, t: System)
    requires SystemInv(w, s) && Run(w, h, s, ts, t)
    ensures s.now <= t.now
    decreases |ts|
  {
    hide SystemInv, Next;
    if ts != [] {
      NextKeeps(w, h, s, ts[0]);
      RunClock(w, h, Next(w, h, s, ts[0]), ts[1..], t);
    }
  }

  /**
   * A lease that has neither expired nor been released or shortened by its own holder still stands, under
   * any interleaving of other transactions.
   */
  lemma {:induction false} LeaseStands(
      w: World, h: Hashes, s: System, ts: seq<Transaction>, t: System, owner: Id, token: nat, until: int)
    requires SystemInv(w, s) && Run(w, h, s, ts, t)
    requires LeasedTo(s.account, owner, token, until) && t.now < until
    requires forall x :: x in ts ==> !GivesUp(x, owner, token, until)
    ensures LeasedTo(t.account, owner, token, until)
    decreases |ts|
  {
    hide SystemInv, Next, LeasedTo, GivesUp;
    if ts != [] {
      NextKeeps(w, h, s, ts[0]);
      RunClock(w, h, Next(w, h, s, ts[0]), ts[1..], t);
      StepKeepsLease(w, h, s, ts[0], owner, token, until);
      LeaseStands(w, h, Next(w, h, s, ts[0]), ts[1..], t, owner, token, until);
    }
  }

  /**
   * Between a grant and a grant to another owner the first one has run out or its holder gave it up: at
   * any two points of any history of an account.
   */
  lemma TakenOnlyWhenFree(
      w: World, h: Hashes, d: Definition, start: System, before: seq<Transaction>, s: System, ts: seq<Transaction>, t: System,
      owner: Id, token: nat, until: int)
    requires LM.ConfigOk(d.config) && RegistrationsOk(d.registrations) && Starts(w, d, start)
    requires Run(w, h, start, before, s) && Run(w, h, s, ts, t)
    requires LeasedTo(s.account, owner, token, until) && !LeasedTo(t.account, owner, token, until)
    ensures until <= t.now || exists x :: x in ts && GivesUp(x, owner, token, until)
  {
    hide SystemInv, Starts, Run, LeasedTo, GivesUp, LM.ConfigOk;
    StartInv(w, d, start);
    RunKeeps(w, h, start, before, s);
    if t.now < until && forall x :: x in ts ==> !GivesUp(x, owner, token, until) {
      LeaseStands(w, h, s, ts, t, owner, token, until);
    }
  }

  // ---- Who may write ------------------------------------------------------------------------------------

  /** The current owner's grant is on record, and every retained row was written under one. */
  ghost predicate GrantsRecorded(s: System) {
    && (s.account.leaseOwner.Some? ==>
          exists i :: 0 <= i < |s.log| && s.log[i].Granted? && s.log[i].lease.owner == s.account.leaseOwner.value
                      && s.log[i].lease.token == s.account.leaseToken)
    && (forall j :: 0 <= j < |s.log| && s.log[j].Retained? ==>
          exists i :: 0 <= i < j && s.log[i].Granted? && s.log[i].lease.owner == s.log[j].lease.owner
                      && s.log[i].lease.token == s.log[j].row.token)
  }

  lemma GrantRecorded(s: System, a: Account, lease: Lease, at: int)
    requires GrantsRecorded(s) && a.leaseOwner == Some(lease.owner) && a.leaseToken == lease.token
    ensures GrantsRecorded(System(a, s.log + [Granted(lease, at)], at))
  {
    var t := System(a, s.log + [Granted(lease, at)], at);
    assert t.log[|s.log|].Granted?;
    forall j | 0 <= j < |t.log| && t.log[j].Retained?
      ensures exists i :: 0 <= i < j && t.log[i].Granted? && t.log[i].lease.owner == t.log[j].lease.owner
                          && t.log[i].lease.token == t.log[j].row.token
    {
      var i :| 0 <= i < j && s.log[i].Granted? && s.log[i].lease.owner == s.log[j].lease.owner && s.log[i].lease.token == s.log[j].row.token;
      assert t.log[i] == s.log[i];
    }
  }

  lemma RowRecorded(s: System, b: Account, row: Row, lease: Lease, until: int, at: int)
    requires GrantsRecorded(s) && b.leaseOwner == s.account.leaseOwner == Some(lease.owner)
    requires b.leaseToken == s.account.leaseToken == row.token
    ensures GrantsRecorded(System(b, s.log + [Retained(row, lease, until, at)], at))
  {
    var t := System(b, s.log + [Retained(row, lease, until, at)], at);
    var g :| 0 <= g < |s.log| && s.log[g].Granted? && s.log[g].lease.owner == lease.owner && s.log[g].lease.token == row.token;
    assert t.log[g] == s.log[g];
    forall j | 0 <= j < |t.log| && t.log[j].Retained?
      ensures exists i :: 0 <= i < j && t.log[i].Granted? && t.log[i].lease.owner == t.log[j].lease.owner
                          && t.log[i].lease.token == t.log[j].row.token
    {
      if j < |s.log| {
        var i :| 0 <= i < j && s.log[i].Granted? && s.log[i].lease.owner == s.log[j].lease.owner && s.log[i].lease.token == s.log[j].row.token;
        assert t.log[i] == s.log[i];
      }
    }
  }

  lemma SameRecorded(s: System, b: Account, at: int)
    requires GrantsRecorded(s) && b.leaseOwner == s.account.leaseOwner && b.leaseToken == s.account.leaseToken
    ensures GrantsRecorded(System(b, s.log, at))
  {
  }

  lemma NextRecorded(w: World, h: Hashes, s: System, t: Transaction)
    requires SystemInv(w, s) && StoreOk(s.account) && Possible(s, t) && GrantsRecorded(s)
    ensures GrantsRecorded(Next(w, h, s, t))
  {
    hide StoreInv, StoreOk, Commit, Open, Acquire, Release, TaskOk, LM.ConfigOk, TokensOk, FencedOk, RetainedRows, RegistrationsOk, GrantsRecorded;
    match t {
      case DoOpen(d, at) =>
        OpenKeeps(w, Some(s.account), d);
        SameRecorded(s, s.account, at);
      case DoAcquire(owner, seconds, at) =>
        AcquireIs(s.account, owner, seconds, at);
        var r := Acquire(s.account, owner, seconds, at);
        if r.Ok? {
          GrantRecorded(s, r.value.0, r.value.1, at);
        } else {
          SameRecorded(s, s.account, at);
        }
      case DoRelease(lease, at) =>
        ReleaseKeeps(w, s.account, lease, at);
        SameRecorded(s, Release(s.account, lease, at), at);
      case DoCommit(lease, command, c) =>
        CommitIsExactlyOnce(w, h, s.account, lease, command, c);
        var r := Commit(w, h, s.account, lease, command, c);
        if r.Ok? && !r.value.1.replayed {
          RowRecorded(s, r.value.0, NewRow(s.account, r.value.0), lease, s.account.leaseUntil.value, c.written);
        } else {
          SameRecorded(s, s.account, c.written);
        }
    }
  }

  lemma {:induction false} RunRecorded(w: World, h: Hashes, s: System, ts: seq<Transaction>, t: System)
    requires SystemInv(w, s) && GrantsRecorded(s) && Run(w, h, s, ts, t)
    ensures GrantsRecorded(t)
    decreases |ts|
  {
    hide SystemInv, Next, GrantsRecorded;
    if ts != [] {
      NextRecorded(w, h, s, ts[0]);
      NextKeeps(w, h, s, ts[0]);
      RunRecorded(w, h, Next(w, h, s, ts[0]), ts[1..], t);
    }
  }

  /** Every row of the journal was written by an owner to whom its very token had been granted before. */
  lemma RowsHaveGrants(w: World, h: Hashes, d: Definition, s: System, ts: seq<Transaction>, t: System, j: nat)
    requires LM.ConfigOk(d.config) && RegistrationsOk(d.registrations) && Starts(w, d, s) && Run(w, h, s, ts, t)
    requires j < |t.log| && t.log[j].Retained?
    ensures exists i :: 0 <= i < j && t.log[i].Granted? && t.log[i].lease.owner == t.log[j].lease.owner
                        && t.log[i].lease.token == t.log[j].row.token
  {
    StartUnleased(w, d, s);
    hide SystemInv, Starts, Run, LM.ConfigOk;
    StartInv(w, d, s);
    RunRecorded(w, h, s, ts, t);
  }

  lemma StartUnleased(w: World, d: Definition, s: System)
    requires LM.ConfigOk(d.config) && RegistrationsOk(d.registrations) && Starts(w, d, s)
    ensures GrantsRecorded(s)
  {
    hide LM.ConfigOk, Create, InitialReceipt;
  }

  // ---- What a commit is refused for ----------------------------------------------------------------------

  /** The lease is the account's own, and neither it nor the account's has run out. */
  predicate Current(a: Account, lease: Lease, now: int) {
    && a.leaseOwner == Some(lease.owner) && a.leaseToken == lease.token
    && now < lease.expiresAt && a.leaseUntil.Some? && now < a.leaseUntil.value
  }

  lemma CurrentIs(a: Account, lease: Lease, now: int)
    ensures LeaseHolds(a, lease, now) <==> Current(a, lease, now)
  {
  }

  /**
   * A command whose key and book are new is written exactly when its lease is current at all three
   * readings, the journal has room and the restored machine accepts it; a known key or book gets its own
   * receipt exactly when it is the same command or book.
   */
  lemma CommitIsExact(w: World, h: Hashes, a: Account, lease: Lease, command: AccountCommand, c: Clock)
    requires StoreInv(w, a) && TaskOk(command.task)
    ensures StoreOk(a) && Restore(w, a).Ok? && MachineOk(Restore(w, a).value)
    ensures var known := FindKey(a.rows, command.key);
            var seen := if command.task.ObserveMarket? then FindMarket(a.rows, command.task.book) else None;
            var r := Commit(w, h, a, lease, command, c);
            if known.Some? then
              if h.command(a.rows[known.value].command) == h.command(command)
              then r == Ok((a, Committed(a.rows[known.value].receipt, true))) else r == Err(CommandConflict)
            else if seen.Some? then
              if h.book(a.rows[seen.value].command.task.book) == h.book(command.task.book)
              then r == Ok((a, Committed(a.rows[seen.value].receipt, true))) else r == Err(MarketConflict)
            else
              && (r.Ok? <==>
                  Current(a, lease, c.checked) && Current(a, lease, c.encoded) && Current(a, lease, c.written)
                  && |a.rows| < 1000 && Execute(w, Restore(w, a).value, command, c.applied).Ok?)
              && (r.Ok? ==> r.value.1 == Committed(Execute(w, Restore(w, a).value, command, c.applied).value.1, false))
  {
    hide Execute, MachineOk, RowsOk, Restore, LM.ConfigOk, TaskOk, RegistrationsOk;
    CurrentIs(a, lease, c.checked);
    CurrentIs(a, lease, c.encoded);
    CurrentIs(a, lease, c.written);
  }
}

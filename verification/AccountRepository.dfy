/** The repository of one account: its row and command table, updated by transactions under the row lock. */
module AccountRepository {
  import opened Outcomes
  import opened Domain
  import LM = LedgerModel
  import AM = AccountModel
  import AccountMachine
  import AS = AccountStore

  class AccountRepository {
    const definition: AM.Definition
    var headSequence: nat
    var headHash: Digest
    var headReceipt: AM.Receipt
    var leaseOwner: Option<Id>
    var leaseToken: nat
    var leaseUntil: Option<int>
    var rows: seq<AS.Row>

    /** The value the specification speaks about. */
    function State(): AS.Account
      reads this
    {
      AS.Account(definition, headSequence, headHash, headReceipt, leaseOwner, leaseToken, leaseUntil, rows)
    }

    constructor (a: AS.Account)
      ensures State() == a
    {
      definition, headSequence, headHash, headReceipt := a.definition, a.headSequence, a.headHash, a.headReceipt;
      leaseOwner, leaseToken, leaseUntil, rows := a.leaseOwner, a.leaseToken, a.leaseUntil, a.rows;
    }

    /** Inserts the account unless it exists, then compares definitions. */
    static method Create(w: AM.World, stored: AccountRepository?, d: AM.Definition) returns (r: Result<AccountRepository, AS.StoreError>)
      requires LM.ConfigOk(d.config) && AM.RegistrationsOk(d.registrations)
      ensures match AS.Open(w, if stored == null then None else Some(stored.State()), d)
              case Err(e) => r == Err(e)
              case Ok(a) => r.Ok? && r.value.State() == a && (if stored == null then fresh(r.value) else r.value == stored)
    {
      hide AM.Create, LM.Snapshot, LM.ConfigOk, AM.RegistrationsOk;
      var machine := AccountMachine.AccountMachine.Open(w, d);
      if machine.Err? {
        return Err(AS.Refused(machine.error));
      }
      var shown := machine.value.ledger.Snapshot();
      if shown.Err? {
        return Err(AS.Refused(AM.LedgerRefused(shown.error)));
      }
      var m := machine.value;
      var receipt := AM.Receipt(m.sequence, m.generation, m.chain, shown.value, [], m.now);
      if stored == null {
        var account := new AccountRepository(AS.Account(d, 0, w.definitionHash(d), receipt, None, 0, None, []));
        return Ok(account);
      }
      r := if w.definitionHash(stored.definition) != w.definitionHash(d) then Err(AS.DefinitionConflict) else Ok(stored);
    }

    method Acquire(owner: Id, seconds: int, now: int) returns (r: Result<AS.Lease, AS.StoreError>)
      modifies this
      ensures match old(AS.Acquire(State(), owner, seconds, now))
              case Err(e) => r == Err(e) && State() == old(State())
              case Ok((a, lease)) => r == Ok(lease) && State() == a
    {
      if !(1 <= seconds <= 300) {
        return Err(AS.InvalidLeaseDuration);
      }
      var active := leaseUntil.Some? && leaseUntil.value > now;
      if active && leaseOwner != Some(owner) {
        return Err(AS.LeaseBusy);
      }
      if !active {
        leaseToken := leaseToken + 1;
      }
      leaseOwner := Some(owner);
      leaseUntil := Some(now + seconds * AS.MICROS_PER_SECOND);
      r := Ok(AS.Lease(owner, leaseToken, leaseUntil.value));
    }

    method Release(lease: AS.Lease, now: int)
      modifies this`leaseUntil
      ensures State() == old(AS.Release(State(), lease, now))
    {
      if leaseOwner == Some(lease.owner) && leaseToken == lease.token {
        leaseUntil := Some(now);
      }
    }

    /** Rebuilds the machine from the command table and checks it against the stored head. */
    method Restore(w: AM.World) returns (r: Result<AccountMachine.AccountMachine, AS.StoreError>)
      requires AS.StoreOk(State())
      ensures match AS.Restore(w, State())
              case Err(e) => r == Err(e)
              case Ok(m) => r.Ok? && fresh(r.value) && fresh(r.value.ledger) && fresh(r.value.risk) && r.value.State() == m
    {
      hide AM.Reconstruct, LM.Snapshot, LM.ConfigOk, AM.RegistrationsOk, AM.TaskOk;
      var rebuilt := AccountMachine.AccountMachine.Reconstruct(w, definition, AS.Events(rows));
      if rebuilt.Err? {
        return Err(AS.CorruptJournal(rebuilt.error));
      }
      var machine := rebuilt.value;
      if machine.sequence != headSequence || machine.chain != headHash {
        return Err(AS.HeadMismatch);
      }
      var shown := machine.ledger.Snapshot();
      if shown != Ok(headReceipt.state) || headReceipt.stateHash != machine.chain {
        return Err(AS.ProjectionMismatch);
      }
      r := Ok(machine);
    }

    /** One transaction: replay a known command, or apply and append a new one under a lease that still holds. */
    method Commit(w: AM.World, h: AS.Hashes, lease: AS.Lease, command: AM.AccountCommand, c: AS.Clock)
      returns (r: Result<AS.Committed, AS.StoreError>)
      requires AS.StoreOk(State()) && AM.TaskOk(command.task)
      modifies this
      ensures match old(AS.Commit(w, h, State(), lease, command, c))
              case Err(e) => r == Err(e) && State() == old(State())
              case Ok((a, done)) => r == Ok(done) && State() == a
    {
      hide AS.StoreOk, AM.TaskOk, AS.Restore, AM.Execute, AM.MachineOk;
      var known := AS.FindKey(rows, command.key);
      if known.Some? {
        var row := rows[known.value];
        return if h.command(row.command) != h.command(command) then Err(AS.CommandConflict) else Ok(AS.Committed(row.receipt, true));
      }
      if command.task.ObserveMarket? {
        var seen := AS.FindMarket(rows, command.task.book);
        if seen.Some? {
          var row := rows[seen.value];
          return if h.book(row.command.task.book) != h.book(command.task.book) then Err(AS.MarketConflict)
                 else Ok(AS.Committed(row.receipt, true));
        }
      }
      if !AS.LeaseHolds(State(), lease, c.checked) {
        return Err(AS.StaleLease);
      }
      if headSequence >= AS.MAX_COMMANDS {
        return Err(AS.CapacityExhausted);
      }
      var restored := Restore(w);
      if restored.Err? {
        return Err(restored.error);
      }
      var applied := restored.value.Apply(w, command, c.applied);
      if applied.Err? {
        return Err(AS.Refused(applied.error));
      }
      if !AS.LeaseHolds(State(), lease, c.encoded) || !AS.LeaseHolds(State(), lease, c.written) {
        return Err(AS.OutlivedLease);
      }
      var receipt := applied.value;
      rows := rows + [AS.Row(receipt.sequence, command, receipt, c.applied, lease.token)];
      headSequence, headHash, headReceipt := receipt.sequence, receipt.stateHash, receipt;
      r := Ok(AS.Committed(receipt, false));
    }
  }
}

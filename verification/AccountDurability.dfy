/** What the durable account restores, under any interleaving, is a live machine of its definition. */
module AccountDurability {
  import opened Outcomes
  import opened Domain
  import LM = LedgerModel
  import opened AccountModel
  import opened AccountHandoff
  import opened AccountStore
  import opened AccountFencing
  import AH = AccountHistory

  function CallsOf(events: seq<Event>): (calls: seq<AH.Call>)
    ensures |calls| == |events| && forall i :: 0 <= i < |events| ==> calls[i] == AH.Call(events[i].command, events[i].at)
  {
    seq(|events|, i requires 0 <= i < |events| => AH.Call(events[i].command, events[i].at))
  }

  /** A journal that replays at all replays to what its commands make of the machine when they are run. */
  lemma {:induction false} ReplayIsRun(w: World, m: Machine, events: seq<Event>)
    requires MachineOk(m) && forall i :: 0 <= i < |events| ==> TaskOk(events[i].command.task)
    ensures AH.CallsOk(CallsOf(events))
    ensures Replay(w, m, events).Ok? ==> Replay(w, m, events).value == AH.Live(w, m, CallsOf(events))
    decreases |events|
  {
    hide MachineOk, Execute, TaskOk;
    if events != [] {
      var n := |events| - 1;
      ReplayIsRun(w, m, events[..n]);
      assert CallsOf(events)[..n] == CallsOf(events[..n]);
    }
  }

  /** No transaction touches the definition. */
  lemma NextDefinition(w: World, h: Hashes, s: System, t: Transaction)
    requires SystemInv(w, s) && Possible(s, t) && StoreOk(s.account)
    ensures Next(w, h, s, t).account.definition == s.account.definition
  {
    hide StoreInv, StoreOk, Commit, Open, Acquire, Release, TaskOk, LM.ConfigOk, TokensOk, FencedOk, RetainedRows, RegistrationsOk, LeaseHolds;
    match t {
      case DoOpen(d, at) =>
        OpenKeeps(w, Some(s.account), d);
      case DoAcquire(owner, seconds, at) =>
        AcquireKeeps(w, s.account, owner, seconds, at);
      case DoRelease(lease, at) =>
        ReleaseKeeps(w, s.account, lease, at);
      case DoCommit(lease, command, c) =>
        CommitIsExactlyOnce(w, h, s.account, lease, command, c);
    }
  }

  lemma {:induction false} RunDefinition(w: World, h: Hashes, s: System, ts: seq<Transaction>, t: System)
    requires SystemInv(w, s) && Run(w, h, s, ts, t)
    ensures t.account.definition == s.account.definition
    decreases |ts|
  {
    hide SystemInv, Next;
    if ts != [] {
      NextDefinition(w, h, s, ts[0]);
      NextKeeps(w, h, s, ts[0]);
      RunDefinition(w, h, Next(w, h, s, ts[0]), ts[1..], t);
    }
  }

  lemma StartDefinition(w: World, d: Definition, s: System)
    requires LM.ConfigOk(d.config) && RegistrationsOk(d.registrations) && Starts(w, d, s)
    ensures s.account.definition == d
  {
    hide LM.ConfigOk, Create, InitialReceipt;
  }

  /** What a stored account restores to, as a run of the commands in its journal. */
  lemma RestoredIsLive(w: World, a: Account)
    requires StoreInv(w, a)
    ensures Create(w, a.definition).Ok? && Restore(w, a).Ok? && AH.CallsOk(CallsOf(Events(a.rows)))
    ensures Restore(w, a).value == AH.Live(w, Create(w, a.definition).value, CallsOf(Events(a.rows)))
  {
    hide Create, Replay, LM.Snapshot, LM.ConfigOk, RowsOk, TaskOk;
    assert Create(w, a.definition).Ok?;
    ReplayIsRun(w, Create(w, a.definition).value, Events(a.rows));
  }

  /**
   * Under any interleaving of openings, leases and commits, the machine the store restores is the live
   * machine its retained commands make of a fresh one, and it keeps the account machine's invariant.
   * Every theorem about live accounts therefore holds of the durable one.
   */
  lemma RestoredMachineIsSound(w: World, h: Hashes, d: Definition, s: System, ts: seq<Transaction>, t: System)
    requires DefinitionOk(d) && Injective(w.risk.requestHash)
    requires LM.ConfigOk(d.config) && RegistrationsOk(d.registrations) && Starts(w, d, s) && Run(w, h, s, ts, t)
    ensures StoreOk(t.account) && Restore(w, t.account).Ok? && Create(w, d).Ok? && AH.CallsOk(CallsOf(Events(t.account.rows)))
    ensures Restore(w, t.account).value == AH.Live(w, Create(w, d).value, CallsOf(Events(t.account.rows)))
    ensures MachineInv(w, Restore(w, t.account).value)
  {
    hide DefinitionOk, Injective, LM.ConfigOk, Starts, Run, StoreInv, TokensOk, FencedOk, RetainedRows, MachineInv, Create, Restore;
    StartInv(w, d, s);
    StartDefinition(w, d, s);
    RunKeeps(w, h, s, ts, t);
    RunDefinition(w, h, s, ts, t);
    InvStore(w, t.account);
    RestoredIsLive(w, t.account);
    AH.CreateKeeps(w, d);
    AH.LiveKeeps(w, Create(w, d).value, CallsOf(Events(t.account.rows)));
  }
}

/** The local venue and its broker views as objects; the journal is the venue's authority. */
module PaperVenue {
  import opened Outcomes
  import opened Domain
  import LM = LedgerModel
  import RS = RiskSession
  import PaperLedger
  import RiskGate
  import VM = VenueModel
  import VV = VenueViews

  class LocalPaperVenue {
    const initial: Portfolio
    const config: LM.Config
    const capacity: nat
    const risk: RiskGate.LocalRiskSession
    var ledger: PaperLedger.Ledger
    var entries: seq<VM.JournalEntry>
    var intents: map<Id, ClientOrderId>
    var marketKeys: map<(InstrumentId, nat), Digest>
    var lastNow: int

    /** The value the specification speaks about. */
    function State(): VM.Venue
      reads this, ledger, risk
    {
      VM.Venue(initial, config, ledger.State(), risk.State(), entries, intents, marketKeys, capacity, lastNow)
    }

    constructor (v: VM.Venue, l: PaperLedger.Ledger, r: RiskGate.LocalRiskSession)
      requires l.State() == v.ledger && r.State() == v.risk
      ensures ledger == l && risk == r && State() == v
    {
      initial, config, capacity, risk, ledger := v.initial, v.config, v.capacity, r, l;
      entries, intents, marketKeys, lastNow := v.entries, v.intents, v.marketKeys, v.lastNow;
    }

    static method Open(w: VM.World, initial: Portfolio, c: LM.Config, r: RiskGate.LocalRiskSession, capacity: nat)
      returns (venue: Result<LocalPaperVenue, VM.VenueError>)
      requires LM.ConfigOk(c)
      ensures match VM.Open(w, initial, c, r.State(), capacity)
              case Err(e) => venue == Err(e)
              case Ok(v) => venue.Ok? && fresh(venue.value) && venue.value.risk == r && venue.value.State() == v
    {
      hide LM.Create, LM.Snapshot, LM.ConfigOk;
      if !(1 <= capacity <= 1000) {
        return Err(VM.InvalidCapacity);
      }
      var l := PaperLedger.Ledger.Open(initial, c);
      if l.Err? {
        return Err(VM.LedgerRefused(l.error));
      }
      var shown := l.value.Snapshot();
      if shown.Err? {
        return Err(VM.LedgerRefused(shown.error));
      }
      var made := new LocalPaperVenue(
        VM.Venue(initial, c, l.value.State(), r.State(), [], map[], map[], capacity, initial.asOf), l.value, r);
      venue := Ok(made);
    }

    /** Applies a command to a copy and journals it with the hash of the state it left. */
    method Commit(w: VM.World, command: LM.Command) returns (r: Result<(), VM.VenueError>)
      requires VM.VenueOk(State()) && LM.MarketOk(command)
      modifies this
      ensures ledger == old(ledger) || fresh(ledger)
      ensures match old(VM.Commit(w, State(), command))
              case Err(e) => r == Err(e) && State() == old(State())
              case Ok(v) => r == Ok(()) && State() == v
    {
      hide LM.Apply, LM.Snapshot, LM.ConfigOk, VM.EntriesOk, RS.SessionOk, RS.EntriesOk, LM.MarketOk, VM.SealedEntry;
      if |entries| >= capacity {
        return Err(VM.JournalFull);
      }
      var applied := ledger.Apply(w.risk.portfolioHash, command);
      if applied.Err? {
        return Err(VM.LedgerRefused(applied.error));
      }
      var shown := applied.value.Snapshot();
      if shown.Err? {
        return Err(VM.LedgerRefused(shown.error));
      }
      var entry := VM.SealedEntry(w, State(), command, shown.value);
      entries := entries + [entry];
      ledger := applied.value;
      if command.SubmitPermit? {
        intents := intents[command.permit.approval.intent := command.permit.approval.clientOrderId];
      }
      if command.ObserveBook? {
        marketKeys := marketKeys[(command.book.instrument, command.book.sequence) := w.hash(VM.OfBook(command.book))];
      }
      r := Ok(());
    }

    method Submit(w: VM.World, workspace: Id, intent: Id, token: int, c: VM.Readings) returns (r: Result<Option<Order>, VM.VenueError>)
      requires VM.VenueOk(State())
      modifies this, risk
      ensures ledger == old(ledger) || fresh(ledger)
      ensures var s := old(VM.Submit(w, State(), workspace, intent, token, c)); r == s.result && State() == s.venue
    {
      hide VM.Commit, RS.Handoff, LM.Snapshot, VM.OrderOf, LM.ConfigOk, VM.EntriesOk, RS.SessionOk, RS.EntriesOk;
      if workspace != initial.workspace {
        return Err(VM.WorkspaceMismatch);
      }
      if intent in intents {
        var known := VM.OrderOf(State(), intents[intent]);
        return if known.Ok? then Ok(Some(known.value)) else Err(known.error);
      }
      if |entries| >= capacity {
        return Err(VM.JournalFull);
      }
      if ledger.isSealed {
        return Err(VM.SealedBatch);
      }
      var shown := ledger.Snapshot();
      if shown.Err? {
        return Err(VM.LedgerRefused(shown.error));
      }
      if !shown.value.portfolio.isReconciled {
        return Err(VM.ReconciliationRequired);
      }
      if c.before < lastNow {
        return Err(VM.ClockMovedBackwards);
      }
      lastNow := c.before;
      RS.HandoffScope(w.risk, risk.State(), workspace, intent, token, c.risk);
      var handed := risk.Handoff(w.risk, workspace, intent, token, c.risk);
      if handed.Err? {
        return Err(VM.RiskRefused(handed.error));
      }
      if handed.value.None? {
        return Ok(None);
      }
      if c.after < lastNow {
        return Err(VM.ClockMovedBackwards);
      }
      lastNow := c.after;
      var committed := Commit(w, LM.SubmitPermit(c.after, handed.value.value));
      if committed.Err? {
        return Err(committed.error);
      }
      var placed := VM.OrderOf(State(), handed.value.value.approval.clientOrderId);
      r := if placed.Ok? then Ok(Some(placed.value)) else Err(placed.error);
    }

    method Observe(w: VM.World, workspace: Id, book: Book, now: int, riskNow: int) returns (r: Result<(), VM.VenueError>)
      requires VM.VenueOk(State()) && BookOk(book)
      modifies this, risk
      ensures ledger == old(ledger) || fresh(ledger)
      ensures var s := old(VM.ObserveBookAt(w, State(), workspace, book, now, riskNow)); r == s.result && State() == s.venue
    {
      hide VM.Commit, RS.Guard, LM.Exposed, LM.ConfigOk, VM.EntriesOk, RS.SessionOk, RS.EntriesOk, BookOk;
      var key := (book.instrument, book.sequence);
      if workspace != initial.workspace {
        return Err(VM.WorkspaceMismatch);
      }
      if key in marketKeys {
        return if marketKeys[key] != w.hash(VM.OfBook(book)) then Err(VM.MarketConflict) else Ok(());
      }
      if |entries| >= capacity {
        return Err(VM.JournalFull);
      }
      if now < lastNow {
        return Err(VM.ClockMovedBackwards);
      }
      lastNow := now;
      var commands := ledger.Exposed(book.instrument);
      RS.GuardScope(w.risk, risk.State(), workspace, commands, riskNow);
      var blocked := risk.ExecutionGuard(w.risk, workspace, commands, riskNow);
      if blocked.Err? {
        return Err(VM.RiskRefused(blocked.error));
      }
      r := Commit(w, LM.ObserveBook(now, book, blocked.value));
    }

    method Cancel(w: VM.World, workspace: Id, id: ClientOrderId, now: int) returns (r: Result<Order, VM.VenueError>)
      requires VM.VenueOk(State())
      modifies this
      ensures ledger == old(ledger) || fresh(ledger)
      ensures var s := old(VM.CancelAt(w, State(), workspace, id, now)); r == s.result && State() == s.venue
    {
      hide VM.Commit, VM.OrderOf, LM.ConfigOk, VM.EntriesOk, RS.SessionOk, RS.EntriesOk;
      if workspace != initial.workspace {
        return Err(VM.WorkspaceMismatch);
      }
      var known := VM.OrderOf(State(), id);
      if known.Err? || !IsOpen(known.value.status) {
        return known;
      }
      if now < lastNow {
        return Err(VM.ClockMovedBackwards);
      }
      lastNow := now;
      var committed := Commit(w, LM.CancelOrder(now, id));
      if committed.Err? {
        return Err(committed.error);
      }
      r := VM.OrderOf(State(), id);
    }

    /** Replays the venue's own journal and compares it with the live ledger. */
    method Reconcile(w: VM.World, now: int) returns (r: Result<LM.AccountState, VM.VenueError>)
      requires VM.VenueOk(State())
      modifies this`lastNow
      ensures var s := old(VM.Reconcile(w, State(), now)); r == s.result && State() == s.venue
    {
      hide VM.ReplayLedger, LM.Snapshot, LM.ConfigOk, VM.EntriesOk, RS.SessionOk, RS.EntriesOk;
      var replayed := Replay(w, VM.Export(State()));
      if replayed.Err? {
        return replayed;
      }
      var live := ledger.Snapshot();
      if live.Err? {
        return Err(VM.LedgerRefused(live.error));
      }
      if w.hash(VM.OfState(replayed.value)) != w.hash(VM.OfState(live.value)) {
        return Err(VM.ReplayMismatch);
      }
      if now < lastNow {
        return Err(VM.ClockMovedBackwards);
      }
      lastNow := now;
      r := replayed;
    }
  }

  /** One entry of an imported journal. */
  method ReplayEntry(
      w: VM.World, initial: Portfolio, c: LM.Config, before: seq<VM.JournalEntry>, ledger: PaperLedger.Ledger, e: VM.JournalEntry)
    returns (r: Result<PaperLedger.Ledger, VM.VenueError>)
    requires LM.ConfigOk(ledger.config) && LM.MarketOk(e.command)
    ensures match VM.ReplayEntry(w, initial, c, before, ledger.State(), e)
            case Err(error) => r == Err(error)
            case Ok(s) => r.Ok? && fresh(r.value) && r.value.State() == s
  {
    hide LM.Apply, LM.Snapshot, LM.ConfigOk, LM.MarketOk, VM.Linked;
    if !VM.Linked(w, initial, c, before, e) {
      return Err(VM.JournalIntegrity);
    }
    var applied := ledger.Apply(w.risk.portfolioHash, e.command);
    if applied.Err? {
      return Err(VM.LedgerRefused(applied.error));
    }
    var shown := applied.value.Snapshot();
    if shown.Err? {
      return Err(VM.LedgerRefused(shown.error));
    }
    r := if w.hash(VM.OfState(shown.value)) != e.stateHash then Err(VM.StateMismatch) else Ok(applied.value);
  }

  /** Pure historical reconstruction of an exported journal. */
  method Replay(w: VM.World, b: VM.Bundle) returns (r: Result<LM.AccountState, VM.VenueError>)
    requires LM.ConfigOk(b.config) && VM.EntriesOk(b.entries)
    ensures r == VM.Replay(w, b)
  {
    hide VM.ReplayEntry, LM.Snapshot, LM.Create, LM.ConfigOk, LM.MarketOk;
    var created := PaperLedger.Ledger.Open(b.initial, b.config);
    if created.Err? {
      ReplayFails(w, b.initial, b.config, b.entries, 0);
      return Err(VM.LedgerRefused(created.error));
    }
    var ledger := created.value;
    for i := 0 to |b.entries|
      invariant VM.ReplayLedger(w, b.initial, b.config, b.entries[..i]) == Ok(ledger.State())
    {
      assert b.entries[..i + 1][..i] == b.entries[..i];
      var next := ReplayEntry(w, b.initial, b.config, b.entries[..i], ledger, b.entries[i]);
      if next.Err? {
        ReplayFails(w, b.initial, b.config, b.entries, i + 1);
        return Err(next.error);
      }
      ledger := next.value;
    }
    assert b.entries[..|b.entries|] == b.entries;
    var shown := ledger.Snapshot();
    r := if shown.Ok? then Ok(shown.value) else Err(VM.LedgerRefused(shown.error));
  }

  lemma {:induction false} ReplayFails(w: VM.World, initial: Portfolio, c: LM.Config, entries: seq<VM.JournalEntry>, n: nat)
    requires LM.ConfigOk(c) && VM.EntriesOk(entries) && n <= |entries|
    requires VM.ReplayLedger(w, initial, c, entries[..n]).Err?
    ensures VM.ReplayLedger(w, initial, c, entries) == VM.ReplayLedger(w, initial, c, entries[..n])
    decreases |entries| - n
  {
    hide VM.ReplayEntry, LM.Create, LM.ConfigOk, LM.MarketOk;
    if n < |entries| {
      assert entries[..n + 1][..n] == entries[..n];
      ReplayFails(w, initial, c, entries, n + 1);
    } else {
      assert entries[..n] == entries;
    }
  }

  /** A disposable projection of a venue; recreate it over the same venue after a crash. */
  class LocalPaperBroker {
    const venue: LocalPaperVenue
    var sequence: nat
    var state: LM.AccountState
    var connected: bool

    function Copy(): VM.Broker
      reads this
    {
      VM.Broker(sequence, state, connected)
    }

    constructor (v: LocalPaperVenue, b: VM.Broker)
      ensures venue == v && Copy() == b
    {
      venue, sequence, state, connected := v, b.sequence, b.state, b.connected;
    }

    static method Connect(v: LocalPaperVenue) returns (r: Result<LocalPaperBroker, VM.VenueError>)
      ensures match VM.Connect(v.State())
              case Err(e) => r == Err(e)
              case Ok(b) => r.Ok? && fresh(r.value) && r.value.venue == v && r.value.Copy() == b
    {
      hide LM.Snapshot;
      var shown := v.ledger.Snapshot();
      if shown.Err? {
        return Err(VM.LedgerRefused(shown.error));
      }
      var broker := new LocalPaperBroker(v, VM.Broker(|v.entries|, shown.value, true));
      r := Ok(broker);
    }

    /** Its copy while current, a doubted one otherwise. */
    function View(): LM.AccountState
      reads this, venue, venue.ledger, venue.risk
    {
      VM.View(Copy(), venue.State())
    }

    /** After a venue operation: stop trusting the copy, or read a new one. */
    method Acknowledge<T(0)>(outcome: Result<T, VM.VenueError>, acknowledge: bool) returns (r: Result<T, VM.VenueError>)
      modifies this
      ensures var s := old(VM.Settled(VM.Step(venue.State(), outcome), Copy(), acknowledge));
              r == s.result && Copy() == s.broker
    {
      hide LM.Snapshot;
      if outcome.Err? {
        connected := false;
        return outcome;
      }
      if !acknowledge || !connected {
        connected := false;
        return Err(VM.DeliveryUnknown);
      }
      var shown := venue.ledger.Snapshot();
      if shown.Err? {
        connected := false;
        return Err(VM.LedgerRefused(shown.error));
      }
      sequence, state, connected := |venue.entries|, shown.value, true;
      r := outcome;
    }

    method Submit(w: VM.World, intent: Id, token: int, acknowledge: bool, c: VM.Readings) returns (r: Result<Option<Order>, VM.VenueError>)
      requires VM.VenueOk(venue.State())
      modifies this, venue, venue.risk
      ensures var s := old(VM.BrokerSubmit(w, venue.State(), Copy(), intent, token, acknowledge, c));
              r == s.result && venue.State() == s.venue && Copy() == s.broker
    {
      hide VM.Submit, VM.View, VM.VenueOk, VM.Settled;
      if !View().portfolio.isReconciled {
        return Err(VM.ReconciliationRequired);
      }
      var outcome := venue.Submit(w, venue.initial.workspace, intent, token, c);
      VV.SettledVenue(VM.Step(venue.State(), outcome), Copy(), acknowledge);
      r := Acknowledge(outcome, acknowledge);
    }

    method Observe(w: VM.World, book: Book, acknowledge: bool, now: int, riskNow: int) returns (r: Result<(), VM.VenueError>)
      requires VM.VenueOk(venue.State()) && BookOk(book)
      modifies this, venue, venue.risk
      ensures var s := old(VM.BrokerObserve(w, venue.State(), Copy(), book, acknowledge, now, riskNow));
              r == s.result && venue.State() == s.venue && Copy() == s.broker
    {
      hide VM.ObserveBookAt, VM.VenueOk, VM.Settled, BookOk;
      var outcome := venue.Observe(w, venue.initial.workspace, book, now, riskNow);
      VV.SettledVenue(VM.Step(venue.State(), outcome), Copy(), acknowledge);
      r := Acknowledge(outcome, acknowledge);
    }

    method Cancel(w: VM.World, id: ClientOrderId, acknowledge: bool, now: int) returns (r: Result<Order, VM.VenueError>)
      requires VM.VenueOk(venue.State())
      modifies this, venue
      ensures var s := old(VM.BrokerCancel(w, venue.State(), Copy(), id, acknowledge, now));
              r == s.result && venue.State() == s.venue && Copy() == s.broker
    {
      hide VM.CancelAt, VM.VenueOk, VM.Settled;
      var outcome := venue.Cancel(w, venue.initial.workspace, id, now);
      VV.SettledVenue(VM.Step(venue.State(), outcome), Copy(), acknowledge);
      r := Acknowledge(outcome, acknowledge);
    }

    /** Replaces the copy by a replayed one and names the fills it was missing. */
    method Reconcile(w: VM.World, now: int) returns (r: Result<VM.Reconciliation, VM.VenueError>)
      requires VM.VenueOk(venue.State())
      modifies this, venue`lastNow
      ensures var s := old(VM.BrokerReconcile(w, venue.State(), Copy(), now));
              r == s.result && venue.State() == s.venue && Copy() == s.broker
    {
      hide VM.Reconcile, VM.VenueOk, VM.FillIds, VM.Without;
      var previous := VM.FillIds(state.orders);
      var replayed := venue.Reconcile(w, now);
      if replayed.Err? {
        return Err(replayed.error);
      }
      var discovered := VM.Without(VM.FillIds(replayed.value.orders), previous);
      sequence, state, connected := |venue.entries|, replayed.value, true;
      r := Ok(VM.Reconciliation(sequence, discovered, w.hash(VM.OfState(state)), now));
    }
  }
}

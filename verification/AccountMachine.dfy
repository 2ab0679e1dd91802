/** The account machine as an object that owns a ledger and a risk session. */
module AccountMachine {
  import opened Outcomes
  import opened Domain
  import LM = LedgerModel
  import RE = RiskEvaluator
  import RS = RiskSession
  import PaperLedger
  import RiskGate
  import opened AccountModel

  class AccountMachine {
    const definition: Definition
    var now: int
    var controls: RE.Controls
    var ledger: PaperLedger.Ledger
    var generation: nat
    var sequence: nat
    var chain: Digest
    var risk: RiskGate.LocalRiskSession
    var intentIds: set<Id>
    var decisionIds: set<Id>

    /** The value the specification speaks about. */
    function State(): Machine
      reads this, ledger, risk
    {
      Machine(definition, now, controls, ledger.State(), generation, sequence, chain, risk.State(), intentIds, decisionIds)
    }

    constructor (d: Definition, w: World, l: PaperLedger.Ledger, r: RiskGate.LocalRiskSession)
      ensures ledger == l && risk == r
      ensures State() == Machine(d, d.portfolio.asOf, d.controls, l.State(), 1, 0, w.definitionHash(d), r.State(), {}, {})
    {
      definition, now, controls, ledger, risk := d, d.portfolio.asOf, d.controls, l, r;
      generation, sequence, chain, intentIds, decisionIds := 1, 0, w.definitionHash(d), {}, {};
    }

    static method Open(w: World, d: Definition) returns (r: Result<AccountMachine, AccountError>)
      requires LM.ConfigOk(d.config) && RegistrationsOk(d.registrations)
      ensures match Create(w, d)
              case Err(e) => r == Err(e)
              case Ok(m) => r.Ok? && fresh(r.value) && fresh(r.value.ledger) && fresh(r.value.risk) && r.value.State() == m
    {
      hide LM.Create, RS.Open, LM.ConfigOk;
      var l := PaperLedger.Ledger.Open(d.portfolio, d.config);
      if l.Err? {
        return Err(LedgerRefused(l.error));
      }
      var s := RiskGate.LocalRiskSession.Open(l.value.initial, d.controls, d.registrations, RISK_CAPACITY);
      if s.Err? {
        return Err(RiskRefused(s.error));
      }
      var machine := new AccountMachine(d, w, l.value, s.value);
      r := Ok(machine);
    }

    /** Evaluates, hands off and submits one request. */
    method Process(w: World, req: RE.Request, at: int) returns (r: Result<Record, AccountError>)
      requires MachineOk(State()) && RE.RequestOk(req)
      modifies this, risk
      ensures risk == old(risk) && (ledger == old(ledger) || fresh(ledger))
      ensures match old(AccountModel.Process(w, State(), req, at))
              case Err(e) => r == Err(e)
              case Ok((m, record)) => r == Ok(record) && State() == m
    {
      hide RS.EvaluateIn, RS.Handoff, LM.Apply, LM.Snapshot, RE.RequestOk, LM.ConfigOk;
      var i := req.intent;
      if i.id in intentIds || i.decision in decisionIds {
        return Err(DecisionAlreadyProcessed);
      }
      if ledger.isSealed {
        return Err(SealedBatch);
      }
      var shown := ledger.Snapshot();
      if shown.Err? {
        return Err(LedgerRefused(shown.error));
      }
      if !shown.value.portfolio.isReconciled {
        return Err(ReconciliationRequired);
      }
      RS.EvaluateScope(w.risk, risk.State(), req, at);
      var evaluated := risk.Evaluate(w.risk, req, at);
      if evaluated.Err? {
        return Err(RiskRefused(evaluated.error));
      }
      var handed := risk.Handoff(w.risk, definition.portfolio.workspace, i.id, controls.fencingToken, at);
      if handed.Err? {
        return Err(RiskRefused(handed.error));
      }
      if handed.value.Some? {
        var submitted := ledger.Apply(w.risk.portfolioHash, LM.SubmitPermit(at, handed.value.value));
        if submitted.Err? {
          return Err(LedgerRefused(submitted.error));
        }
        ledger := submitted.value;
      }
      intentIds := intentIds + {i.id};
      decisionIds := decisionIds + {i.decision};
      r := Ok(evaluated.value);
    }

    method ProcessAll(w: World, requests: seq<RE.Request>, at: int) returns (r: Result<seq<Record>, AccountError>)
      requires MachineOk(State()) && forall i :: 0 <= i < |requests| ==> RE.RequestOk(requests[i])
      modifies this, risk
      ensures risk == old(risk) && (ledger == old(ledger) || fresh(ledger))
      ensures match old(AccountModel.ProcessAll(w, State(), requests, at))
              case Err(e) => r == Err(e)
              case Ok((m, records)) => r == Ok(records) && State() == m
    {
      hide AccountModel.Process, RE.RequestOk, LM.ConfigOk, RS.SessionOk, RS.EntriesOk;
      ghost var start := State();
      var records := [];
      for i := 0 to |requests|
        invariant risk == old(risk) && (ledger == old(ledger) || fresh(ledger))
        invariant AccountModel.ProcessAll(w, start, requests[..i], at) == Ok((State(), records))
      {
        assert requests[..i + 1][..i] == requests[..i];
        var one := Process(w, requests[i], at);
        if one.Err? {
          BatchFails(w, start, requests, i + 1, at);
          return Err(one.error);
        }
        records := records + [one.value];
      }
      assert requests[..|requests|] == requests;
      r := Ok(records);
    }

    method Market(w: World, book: Book, at: int) returns (r: Result<(), AccountError>)
      requires MachineOk(State()) && BookOk(book)
      modifies this, risk
      ensures (ledger == old(ledger) || fresh(ledger)) && (risk == old(risk) || fresh(risk))
      ensures match old(AccountModel.Perform(w, State(), ObserveMarket(book), at))
              case Err(e) => r == Err(e)
              case Ok((m, _)) => r == Ok(()) && State() == m
    {
      hide LM.Apply, RS.Guard, BookOk, LM.ConfigOk, LM.Exposed, AccountModel.ProcessAll;
      var commands := ledger.Exposed(book.instrument);
      var blocked := risk.ExecutionGuard(w.risk, definition.portfolio.workspace, commands, at);
      if blocked.Err? {
        return Err(RiskRefused(blocked.error));
      }
      var observed := ledger.Apply(w.risk.portfolioHash, LM.ObserveBook(at, book, blocked.value));
      if observed.Err? {
        return Err(LedgerRefused(observed.error));
      }
      ledger := observed.value;
      r := Ok(());
    }

    /** Starts a new generation: exact accounting forward, fresh reservations. */
    method NextGeneration(w: World, at: int) returns (r: Result<(), AccountError>)
      requires MachineOk(State())
      modifies this
      ensures (ledger == old(ledger) || fresh(ledger)) && (risk == old(risk) || fresh(risk))
      ensures match old(AccountModel.Perform(w, State(), Advance, at))
              case Err(e) => r == Err(e)
              case Ok((m, _)) => r == Ok(()) && State() == m
    {
      hide LM.BeginGeneration, RS.Open, LM.ConfigOk, AccountModel.ProcessAll, LM.Exposed;
      var next := ledger.BeginGeneration(at);
      if next.Err? {
        return Err(LedgerRefused(next.error));
      }
      var renewed := RiskGate.LocalRiskSession.Open(next.value.initial, controls, definition.registrations, RISK_CAPACITY);
      if renewed.Err? {
        return Err(RiskRefused(renewed.error));
      }
      ledger, generation, risk := next.value, generation + 1, renewed.value;
      r := Ok(());
    }

    /** Dispatches a task; only `orders` produces risk records. */
    method Perform(w: World, task: Task, at: int) returns (r: Result<seq<Record>, AccountError>)
      requires MachineOk(State()) && TaskOk(task)
      modifies this, risk, ledger
      ensures (ledger == old(ledger) || fresh(ledger)) && (risk == old(risk) || fresh(risk))
      ensures match old(AccountModel.Perform(w, State(), task, at))
              case Err(e) => r == Err(e)
              case Ok((m, records)) => r == Ok(records) && State() == m
    {
      hide AccountModel.ProcessAll, LM.Apply, RS.Guard, RS.UpdateControls, RS.Open, LM.BeginGeneration, LM.Exposed, LM.ConfigOk,
           BookOk;
      r := Ok([]);
      match task {
        case SubmitRequests(requests) =>
          r := ProcessAll(w, requests, at);
        case ObserveMarket(book) =>
          var done := Market(w, book, at);
          if done.Err? {
            r := Err(done.error);
          }
        case CancelClientOrder(id) =>
          var cancelled := ledger.Apply(w.risk.portfolioHash, LM.CancelOrder(at, id));
          if cancelled.Err? {
            r := Err(LedgerRefused(cancelled.error));
          } else {
            ledger := cancelled.value;
          }
        case RenewControls(newer) =>
          var renewed := risk.UpdateControls(newer, at);
          if renewed.Err? {
            r := Err(RiskRefused(renewed.error));
          } else {
            controls := newer;
          }
        case Advance =>
          var done := NextGeneration(w, at);
          if done.Err? {
            r := Err(done.error);
          }
        case Reconcile =>
          ledger.asOf := at;
      }
    }

    /** One journal command: a receipt, or an error after which the caller discards this object. */
    method Apply(w: World, command: AccountCommand, at: int) returns (r: Result<Receipt, AccountError>)
      requires MachineOk(State()) && TaskOk(command.task)
      modifies this, risk, ledger
      ensures (ledger == old(ledger) || fresh(ledger)) && (risk == old(risk) || fresh(risk))
      ensures match old(AccountModel.Execute(w, State(), command, at))
              case Err(e) => r == Err(e)
              case Ok((m, receipt)) => r == Ok(receipt) && State() == m
    {
      hide AccountModel.Perform, LM.Snapshot, LM.ConfigOk, RS.SessionOk, RS.EntriesOk, TaskOk;
      if command.generation != generation {
        return Err(GenerationConflict);
      }
      if at < now {
        return Err(AccountClockReversed);
      }
      if NeedsSameDay(command.task) && Date(at) != Date(definition.portfolio.asOf) {
        return Err(DayRolloverRequired);
      }
      now := at;
      var performed := Perform(w, command.task, at);
      if performed.Err? {
        return Err(performed.error);
      }
      sequence := sequence + 1;
      var shown := ledger.Snapshot();
      if shown.Err? {
        return Err(LedgerRefused(shown.error));
      }
      chain := w.linkHash(Link(chain, sequence, generation, command, at, shown.value, risk.audit));
      r := Ok(Receipt(sequence, generation, chain, shown.value, performed.value, at));
    }

    /** One journal event: the next sequence number, and the hash it left. */
    method ReplayEvent(w: World, e: Event) returns (r: Result<(), ReplayError>)
      requires MachineOk(State()) && TaskOk(e.command.task)
      modifies this, risk, ledger
      ensures (ledger == old(ledger) || fresh(ledger)) && (risk == old(risk) || fresh(risk))
      ensures match old(AccountModel.ReplayEvent(w, State(), e))
              case Err(error) => r == Err(error)
              case Ok(m) => r == Ok(()) && State() == m
    {
      hide AccountModel.Execute, LM.ConfigOk, TaskOk, MachineOk;
      if e.sequence != sequence + 1 {
        return Err(JournalGap);
      }
      var applied := Apply(w, e.command, e.at);
      if applied.Err? {
        return Err(Unplayable(applied.error));
      }
      r := if applied.value.stateHash != e.stateHash then Err(JournalMismatch) else Ok(());
    }

    /** Replays a journal on a fresh machine. */
    static method Reconstruct(w: World, d: Definition, events: seq<Event>) returns (r: Result<AccountMachine, ReplayError>)
      requires LM.ConfigOk(d.config) && RegistrationsOk(d.registrations)
      requires forall i :: 0 <= i < |events| ==> TaskOk(events[i].command.task)
      ensures match AccountModel.Reconstruct(w, d, events)
              case Err(e) => r == Err(e)
              case Ok(m) => r.Ok? && fresh(r.value) && fresh(r.value.ledger) && fresh(r.value.risk) && r.value.State() == m
    {
      hide AccountModel.ReplayEvent, AccountModel.Create, LM.ConfigOk, RegistrationsOk, TaskOk, MachineOk;
      var created := Open(w, d);
      if created.Err? {
        return Err(Unplayable(created.error));
      }
      var machine := created.value;
      ghost var start := machine.State();
      for i := 0 to |events|
        invariant fresh(machine) && fresh(machine.ledger) && fresh(machine.risk)
        invariant Replay(w, start, events[..i]) == Ok(machine.State())
      {
        assert events[..i + 1][..i] == events[..i];
        var replayed := machine.ReplayEvent(w, events[i]);
        if replayed.Err? {
          ReplayFails(w, start, events, i + 1);
          return Err(replayed.error);
        }
      }
      assert events[..|events|] == events;
      r := Ok(machine);
    }
  }

  lemma {:induction false} BatchFails(w: World, m: Machine, requests: seq<RE.Request>, n: nat, at: int)
    requires MachineOk(m) && (forall i :: 0 <= i < |requests| ==> RE.RequestOk(requests[i]))
    requires n <= |requests| && AccountModel.ProcessAll(w, m, requests[..n], at).Err?
    ensures AccountModel.ProcessAll(w, m, requests, at) == AccountModel.ProcessAll(w, m, requests[..n], at)
    decreases |requests| - n
  {
    hide AccountModel.Process, MachineOk, RE.RequestOk;
    if n < |requests| {
      assert requests[..n + 1][..n] == requests[..n];
      BatchFails(w, m, requests, n + 1, at);
    } else {
      assert requests[..n] == requests;
    }
  }

  lemma {:induction false} ReplayFails(w: World, m: Machine, events: seq<Event>, n: nat)
    requires MachineOk(m) && (forall i :: 0 <= i < |events| ==> TaskOk(events[i].command.task))
    requires n <= |events| && Replay(w, m, events[..n]).Err?
    ensures Replay(w, m, events) == Replay(w, m, events[..n])
    decreases |events| - n
  {
    hide AccountModel.ReplayEvent, MachineOk, TaskOk;
    if n < |events| {
      assert events[..n + 1][..n] == events[..n];
      ReplayFails(w, m, events, n + 1);
    } else {
      assert events[..n] == events;
    }
  }
}

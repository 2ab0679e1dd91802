/** What the journal of an account looks like: order, generations, days and the requests it processed. */
module AccountJournal {
  import opened Outcomes
  import opened Domain
  import LM = LedgerModel
  import RE = RiskEvaluator
  import RS = RiskSession
  import opened AccountModel
  import AH = AccountHistory

  // ---- One batch ----------------------------------------------------------------------------------

  function IntentsOf(requests: seq<RE.Request>): seq<Id> {
    seq(|requests|, i requires 0 <= i < |requests| => requests[i].intent.id)
  }

  function DecisionsOf(requests: seq<RE.Request>): seq<Id> {
    seq(|requests|, i requires 0 <= i < |requests| => requests[i].intent.decision)
  }

  /** `ids` are new to `seen`, each of them once. */
  predicate NewIds(ids: seq<Id>, seen: set<Id>) {
    (forall i :: 0 <= i < |ids| ==> ids[i] !in seen) && (forall i, j :: 0 <= i < j < |ids| ==> ids[i] != ids[j])
  }

  function Members(ids: seq<Id>): set<Id> {
    set x | x in ids
  }

  lemma OneMoreId(ids: seq<Id>, seen: set<Id>, x: Id)
    requires NewIds(ids, seen) && x !in seen + Members(ids)
    ensures NewIds(ids + [x], seen) && seen + Members(ids + [x]) == seen + Members(ids) + {x}
  {
  }

  lemma ProcessedOne(w: World, m: Machine, req: RE.Request, at: int)
    requires MachineOk(m) && RE.RequestOk(req) && Process(w, m, req, at).Ok?
    ensures var n := Process(w, m, req, at).value.0;
            && req.intent.id !in m.intentIds && req.intent.decision !in m.decisionIds
            && n.intentIds == m.intentIds + {req.intent.id} && n.decisionIds == m.decisionIds + {req.intent.decision}
            && n == m.(risk := n.risk, ledger := n.ledger, intentIds := n.intentIds, decisionIds := n.decisionIds)
            && !m.ledger.isSealed && LM.Snapshot(m.ledger).Ok? && LM.Snapshot(m.ledger).value.portfolio.isReconciled
  {
    hide MachineOk, RS.EvaluateIn, RS.Handoff, LM.Apply, LM.Snapshot, RE.RequestOk;
  }

  /** A batch is accepted only if every intent and decision in it is new, and each occurs once. */
  lemma {:induction false} ProcessedBatch(w: World, m: Machine, requests: seq<RE.Request>, at: int)
    requires MachineOk(m) && (forall i :: 0 <= i < |requests| ==> RE.RequestOk(requests[i])) && ProcessAll(w, m, requests, at).Ok?
    ensures var (n, records) := ProcessAll(w, m, requests, at).value;
            && NewIds(IntentsOf(requests), m.intentIds) && NewIds(DecisionsOf(requests), m.decisionIds)
            && n.intentIds == m.intentIds + Members(IntentsOf(requests)) && n.decisionIds == m.decisionIds + Members(DecisionsOf(requests))
            && n == m.(risk := n.risk, ledger := n.ledger, intentIds := n.intentIds, decisionIds := n.decisionIds)
            && |records| == |requests|
    decreases |requests|
  {
    hide MachineOk, Process, RE.RequestOk, NewIds, Members;
    if requests == [] {
      NoIds(m);
    } else {
      var k := |requests| - 1;
      ProcessedBatch(w, m, requests[..k], at);
      var front := ProcessAll(w, m, requests[..k], at).value.0;
      ProcessedOne(w, front, requests[k], at);
      OneMoreId(IntentsOf(requests[..k]), m.intentIds, requests[k].intent.id);
      OneMoreId(DecisionsOf(requests[..k]), m.decisionIds, requests[k].intent.decision);
      assert IntentsOf(requests) == IntentsOf(requests[..k]) + [requests[k].intent.id];
      assert DecisionsOf(requests) == DecisionsOf(requests[..k]) + [requests[k].intent.decision];
    }
  }

  lemma NoIds(m: Machine)
    ensures NewIds([], m.intentIds) && NewIds([], m.decisionIds) && Members([]) == {}
    ensures IntentsOf([]) == [] && DecisionsOf([]) == []
    ensures m.intentIds + {} == m.intentIds && m.decisionIds + {} == m.decisionIds
  {
  }

  // ---- One command ----------------------------------------------------------------------------------

  function TaskIntents(t: Task): seq<Id> {
    if t.SubmitRequests? then IntentsOf(t.requests) else []
  }

  function TaskDecisions(t: Task): seq<Id> {
    if t.SubmitRequests? then DecisionsOf(t.requests) else []
  }

  /** Orders, books and generation changes belong to the UTC day the account was defined on. */
  predicate OnItsDay(d: Definition, t: Task, at: int) {
    t.SubmitRequests? || t.ObserveMarket? || t.Advance? ==> at / MICROS_PER_DAY == d.portfolio.asOf / MICROS_PER_DAY
  }

  /** What an accepted command needs and leaves, beside the state of risk and ledger. */
  lemma AcceptedCommand(w: World, m: Machine, command: AccountCommand, at: int)
    requires MachineOk(m) && TaskOk(command.task) && Execute(w, m, command, at).Ok?
    ensures var (n, receipt) := Execute(w, m, command, at).value;
            && command.generation == m.generation && m.now <= at == n.now && OnItsDay(m.definition, command.task, at)
            && n.generation == m.generation + (if command.task.Advance? then 1 else 0)
            && n.sequence == m.sequence + 1 == receipt.sequence && n.definition == m.definition
            && NewIds(TaskIntents(command.task), m.intentIds) && NewIds(TaskDecisions(command.task), m.decisionIds)
            && n.intentIds == m.intentIds + Members(TaskIntents(command.task))
            && n.decisionIds == m.decisionIds + Members(TaskDecisions(command.task))
            && receipt.committedAt == at && receipt.generation == n.generation
  {
    hide Perform, TaskOk, LM.Snapshot, LM.ConfigOk, RS.SessionOk, RS.EntriesOk, RegistrationsOk, NewIds, Members;
    Performed(w, m.(now := at), command.task, at);
    ReceiptIs(w, m, command, at);
  }

  lemma Performed(w: World, m: Machine, task: Task, at: int)
    requires MachineOk(m) && TaskOk(task)
    ensures var r := Perform(w, m, task, at);
            r.Ok? ==>
              var n := r.value.0;
              && n.now == m.now && n.definition == m.definition && n.sequence == m.sequence
              && n.generation == m.generation + (if task.Advance? then 1 else 0)
              && NewIds(TaskIntents(task), m.intentIds) && NewIds(TaskDecisions(task), m.decisionIds)
              && n.intentIds == m.intentIds + Members(TaskIntents(task)) && n.decisionIds == m.decisionIds + Members(TaskDecisions(task))
  {
    hide MachineOk, ProcessAll, LM.Apply, RS.Guard, RS.UpdateControls, RS.Open, LM.BeginGeneration, RE.RequestOk, NewIds, Members;
    NoIds(m);
    if task.SubmitRequests? && Perform(w, m, task, at).Ok? {
      ProcessedBatch(w, m, task.requests, at);
    }
  }

  // ---- The journal ------------------------------------------------------------------------------------

  function Generations(js: seq<Event>): nat {
    if js == [] then 0 else Generations(js[..|js| - 1]) + if js[|js| - 1].command.task.Advance? then 1 else 0
  }

  /** Every intent, and every decision, the journal's batches were about. */
  function AllIntents(js: seq<Event>): seq<Id> {
    if js == [] then [] else AllIntents(js[..|js| - 1]) + TaskIntents(js[|js| - 1].command.task)
  }

  function AllDecisions(js: seq<Event>): seq<Id> {
    if js == [] then [] else AllDecisions(js[..|js| - 1]) + TaskDecisions(js[|js| - 1].command.task)
  }

  /** The journal in order, and the machine as far as the journal tells. */
  ghost predicate Tells(js: seq<Event>, m: Machine) {
    TellsNames(js, m) && TellsOrder(js, m)
  }

  /** The machine knows the intents and decisions of the journal, which names each of them once. */
  ghost predicate TellsNames(js: seq<Event>, m: Machine) {
    && m.intentIds == Members(AllIntents(js)) && m.decisionIds == Members(AllDecisions(js))
    && NewIds(AllIntents(js), {}) && NewIds(AllDecisions(js), {})
  }

  /** Sequence, time, day and generation of every event. */
  ghost predicate TellsOrder(js: seq<Event>, m: Machine) {
    && m.sequence == |js| && m.generation == 1 + Generations(js)
    && (forall i :: 0 <= i < |js| ==>
          && js[i].sequence == i + 1 && js[i].at <= m.now && OnItsDay(m.definition, js[i].command.task, js[i].at)
          && js[i].command.generation == 1 + Generations(js[..i]))
    && (forall i, j :: 0 <= i <= j < |js| ==> js[i].at <= js[j].at)
  }

  lemma JoinedIds(a: seq<Id>, b: seq<Id>, seen: set<Id>)
    requires NewIds(a, {}) && seen == Members(a) && NewIds(b, seen)
    ensures NewIds(a + b, {}) && Members(a + b) == seen + Members(b)
  {
    forall i, j | 0 <= i < j < |a + b|
      ensures (a + b)[i] != (a + b)[j]
    {
      if i < |a| <= j {
        assert a[i] in Members(a) && b[j - |a|] !in seen;
      }
    }
  }

  lemma TellsMore(w: World, js: seq<Event>, m: Machine, command: AccountCommand, at: int)
    requires MachineOk(m) && TaskOk(command.task) && Tells(js, m) && Execute(w, m, command, at).Ok?
    ensures var (n, receipt) := Execute(w, m, command, at).value;
            Tells(js + [Event(receipt.sequence, command, at, receipt.stateHash)], n)
  {
    hide MachineOk, Execute, TaskOk, NewIds, Members, OnItsDay, TellsNames, TellsOrder, TaskIntents, TaskDecisions;
    AcceptedCommand(w, m, command, at);
    var (n, receipt) := Execute(w, m, command, at).value;
    var e := Event(receipt.sequence, command, at, receipt.stateHash);
    NamesMore(js, m, n, e);
    OrderMore(js, m, n, e);
  }

  lemma NamesMore(js: seq<Event>, m: Machine, n: Machine, e: Event)
    requires TellsNames(js, m)
    requires NewIds(TaskIntents(e.command.task), m.intentIds) && NewIds(TaskDecisions(e.command.task), m.decisionIds)
    requires n.intentIds == m.intentIds + Members(TaskIntents(e.command.task))
    requires n.decisionIds == m.decisionIds + Members(TaskDecisions(e.command.task))
    ensures TellsNames(js + [e], n)
  {
    hide NewIds, Members, TaskIntents, TaskDecisions;
    assert (js + [e])[..|js|] == js;
    JoinedIds(AllIntents(js), TaskIntents(e.command.task), m.intentIds);
    JoinedIds(AllDecisions(js), TaskDecisions(e.command.task), m.decisionIds);
  }

  lemma OrderMore(js: seq<Event>, m: Machine, n: Machine, e: Event)
    requires TellsOrder(js, m) && m.now <= e.at == n.now && n.definition == m.definition
    requires e.sequence == n.sequence == m.sequence + 1 && e.command.generation == m.generation
    requires n.generation == m.generation + (if e.command.task.Advance? then 1 else 0) && OnItsDay(m.definition, e.command.task, e.at)
    ensures TellsOrder(js + [e], n)
  {
    hide OnItsDay;
    var more := js + [e];
    assert more[..|js|] == js;
    forall i | 0 <= i < |more|
      ensures more[i].command.generation == 1 + Generations(more[..i])
    {
      if i < |js| {
        assert more[..i] == js[..i] && more[i] == js[i];
      }
    }
  }

  lemma CreatedTells(w: World, d: Definition)
    requires LM.ConfigOk(d.config) && RegistrationsOk(d.registrations) && Create(w, d).Ok?
    ensures Tells([], Create(w, d).value)
  {
    hide LM.Create, RS.Open, LM.ConfigOk;
  }

  /**
   * The journal of any account counts from one without a gap, never goes back in time, carries the
   * generation its commands were accepted in, trades on one day only, and names no intent and no
   * decision twice, over all generations.
   */
  lemma {:induction false} JournalIsOrdered(w: World, d: Definition, calls: seq<AH.Call>)
    requires LM.ConfigOk(d.config) && RegistrationsOk(d.registrations) && Create(w, d).Ok? && AH.CallsOk(calls)
    ensures Tells(AH.Journal(w, Create(w, d).value, calls), AH.Live(w, Create(w, d).value, calls))
    decreases |calls|
  {
    hide MachineOk, Execute, TaskOk, Tells, Create, LM.ConfigOk, RegistrationsOk;
    if calls == [] {
      CreatedTells(w, d);
    } else {
      var m, k := Create(w, d).value, |calls| - 1;
      JournalIsOrdered(w, d, calls[..k]);
      var front := AH.Live(w, m, calls[..k]);
      if Execute(w, front, calls[k].command, calls[k].at).Ok? {
        TellsMore(w, AH.Journal(w, m, calls[..k]), front, calls[k].command, calls[k].at);
      }
    }
  }
}

/** Any number of workers, retried or crashing, over one run. */
module RunWorkers {
  import opened Outcomes
  import Domain
  import opened RunModel
  import opened RunHistory

  /** Where a worker's attempt stands. */
  datatype Phase = Fresh | Claimed | Called | Answered(ref: StageRef) | Gone

  /** Worker `k` holds the attempt numbered `k`; `calls` counts runtime calls; `handed` is every reference given out. */
  datatype System = System(run: Run, workers: seq<Phase>, calls: nat, handed: seq<StageRef>)

  datatype Act =
    | Joins
    | Claims(worker: nat)
    | Calls(worker: nat)
    | Declines(worker: nat)
    | Reports(worker: nat, content: int, completed: bool)
    | Crashes(worker: nat)
    | Concludes(stage: Stage, content: int, status: Progress)
    | Closes

  predicate Possible(s: System, a: Act) {
    match a
    case Joins => true
    case Claims(k) => k < |s.workers| && s.workers[k].Fresh?
    case Calls(k) => k < |s.workers| && s.workers[k].Claimed?
    case Declines(k) => k < |s.workers| && s.workers[k].Claimed?
    case Reports(k, _, _) => k < |s.workers| && s.workers[k].Called?
    case Crashes(k) => k < |s.workers|
    case Concludes(_, _, status) => Terminal(status)
    case Closes => true
  }

  function Moved(s: System, k: nat, p: Phase): System
    requires k < |s.workers|
  {
    s.(workers := s.workers[k := p])
  }

  /** The transaction of a worker that has something to write. */
  function Reported(h: Hash, s: System, k: nat, output: Output, status: Progress): System
    requires k < |s.workers| && Terminal(status)
  {
    match ReportStage(h, s.run, s.run.inputHash, Evaluate, output, status, Worker(k))
    case Err(_) => Moved(s, k, Gone)
    case Ok((r, ref)) => Moved(s, k, Answered(ref)).(run := r, handed := s.handed + [ref])
  }

  function Next(h: Hash, s: System, a: Act): System
    requires Possible(s, a)
  {
    match a
    case Joins => s.(workers := s.workers + [Fresh])
    case Claims(k) =>
      (match ClaimDispatch(h, s.run, s.run.inputHash, Evaluate, Worker(k))
       case Err(_) => Moved(s, k, Gone)
       case Ok((r, None)) => Moved(s, k, Claimed).(run := r)
       case Ok((r, Some(ref))) => Moved(s, k, Answered(ref)).(run := r, handed := s.handed + [ref]))
    case Calls(k) => Moved(s, k, Called).(calls := s.calls + 1)
    case Declines(k) => Reported(h, s, k, Unconfigured, Refused)
    case Reports(k, content, completed) => Reported(h, s, k, Artifact(content), if completed then Completed else Refused)
    case Crashes(k) => Moved(s, k, Gone)
    case Concludes(stage, content, status) =>
      (match Conclude(h, s.run, s.run.inputHash, stage, Artifact(content), status)
       case Err(_) => s
       case Ok((r, ref)) => s.(run := r, handed := s.handed + [ref]))
    case Closes =>
      (match FinishRun(h, s.run, s.run.inputHash)
       case Err(_) => s
       case Ok((r, ref)) => s.(run := r, handed := s.handed + [ref]))
  }

  predicate Interleaving(h: Hash, s: System, acts: seq<Act>, t: System)
    decreases |acts|
  {
    if acts == [] then t == s else Possible(s, acts[0]) && Interleaving(h, Next(h, s, acts[0]), acts[1..], t)
  }

  // ---- The invariant -----------------------------------------------------------------------------

  predicate Active(p: Phase) {
    p.Claimed? || p.Called?
  }

  /** Only the worker that inserted the row can be between claim and report, and only it can have called. */
  ghost predicate ClaimOk(s: System) {
    && (Evaluate !in s.run.rows ==> s.calls == 0 && forall k :: 0 <= k < |s.workers| ==> !Active(s.workers[k]))
    && (Evaluate in s.run.rows ==>
          && s.run.rows[Evaluate].attempt.Worker? && s.run.rows[Evaluate].attempt.id < |s.workers|
          && (forall k :: 0 <= k < |s.workers| && k != s.run.rows[Evaluate].attempt.id ==> !Active(s.workers[k]))
          && !s.workers[s.run.rows[Evaluate].attempt.id].Fresh?
          && s.calls <= 1
          && (s.workers[s.run.rows[Evaluate].attempt.id].Claimed? ==> s.calls == 0))
  }

  /** Every reference ever handed out is the one its row gives now. */
  ghost predicate HandedOk(h: Hash, s: System) {
    forall i :: 0 <= i < |s.handed| ==>
      s.handed[i].stage in s.run.rows && RefOf(h, s.run.inputHash, s.handed[i].stage, s.run.rows[s.handed[i].stage]) == Ok(s.handed[i])
  }

  ghost predicate SystemInv(h: Hash, s: System) {
    RunInv(h, s.run) && ClaimOk(s) && HandedOk(h, s)
  }

  lemma HandedStays(h: Hash, s: System, t: System)
    requires HandedOk(h, s) && Keeps(s.run, t.run) && t.handed == s.handed
    ensures HandedOk(h, t)
  {
  }

  lemma HandedGrows(h: Hash, s: System, t: System, ref: StageRef)
    requires HandedOk(h, s) && Keeps(s.run, t.run) && t.handed == s.handed + [ref]
    requires ref.stage in t.run.rows && RefOf(h, t.run.inputHash, ref.stage, t.run.rows[ref.stage]) == Ok(ref)
    ensures HandedOk(h, t)
  {
    HandedStays(h, s, t.(handed := s.handed));
  }

  lemma ClaimKeeps(h: Hash, s: System, k: nat)
    requires SystemInv(h, s) && Possible(s, Claims(k))
    ensures SystemInv(h, Next(h, s, Claims(k))) && Keeps(s.run, Next(h, s, Claims(k)).run)
  {
    hide ClaimDispatch, RunInv, HandedOk, RefOf;
    ClaimIs(h, s.run, s.run.inputHash, Worker(k));
    var t := Next(h, s, Claims(k));
    match ClaimDispatch(h, s.run, s.run.inputHash, Evaluate, Worker(k))
    case Err(_) => SameRun(h, s, t);
    case Ok((r, None)) => HandedStays(h, s, t);
    case Ok((r, Some(ref))) =>
      RefStage(h, r.inputHash, Evaluate, r.rows[Evaluate]);
      HandedGrows(h, s, t, ref);
  }

  lemma RefStage(h: Hash, input: Domain.Digest, name: Stage, row: Row)
    ensures RefOf(h, input, name, row).Ok? ==> RefOf(h, input, name, row).value.stage == name
  {
  }

  lemma SameRun(h: Hash, s: System, t: System)
    requires HandedOk(h, s) && t.run == s.run && t.handed == s.handed
    ensures Keeps(s.run, t.run) && HandedOk(h, t)
  {
  }

  lemma ReportKeeps(h: Hash, s: System, k: nat, output: Output, status: Progress)
    requires SystemInv(h, s) && k < |s.workers| && Active(s.workers[k]) && Terminal(status)
    ensures SystemInv(h, Reported(h, s, k, output, status)) && Keeps(s.run, Reported(h, s, k, output, status).run)
  {
    hide FinishStage, RunInv, HandedOk, RefOf;
    FinishStageIs(h, s.run, Evaluate, output, status, Worker(k));
    var t := Reported(h, s, k, output, status);
    match ReportStage(h, s.run, s.run.inputHash, Evaluate, output, status, Worker(k))
    case Err(_) => SameRun(h, s, t);
    case Ok((r, ref)) =>
      RefStage(h, r.inputHash, Evaluate, r.rows[Evaluate]);
      HandedGrows(h, s, t, ref);
  }

  lemma OtherStageKeeps(h: Hash, s: System, r: Run, ref: StageRef)
    requires SystemInv(h, s) && RunInv(h, r) && Keeps(s.run, r)
    requires Evaluate in s.run.rows <==> Evaluate in r.rows
    requires ref.stage in r.rows && RefOf(h, r.inputHash, ref.stage, r.rows[ref.stage]) == Ok(ref)
    ensures SystemInv(h, s.(run := r, handed := s.handed + [ref]))
  {
    hide RunInv, RefOf, HandedOk;
    HandedGrows(h, s, s.(run := r, handed := s.handed + [ref]), ref);
  }

  /** Every step keeps the invariant and every receipt. */
  lemma NextKeeps(h: Hash, s: System, a: Act)
    requires SystemInv(h, s) && Possible(s, a)
    ensures SystemInv(h, Next(h, s, a)) && Keeps(s.run, Next(h, s, a).run)
  {
    hide RunInv, RefOf, HandedOk, Conclude, FinishRun, Reported, ClaimDispatch;
    SameRun(h, s, s);
    match a {
      case Joins => SameRun(h, s, Next(h, s, a));
      case Claims(k) => ClaimKeeps(h, s, k);
      case Calls(k) => SameRun(h, s, Next(h, s, a));
      case Declines(k) => ReportKeeps(h, s, k, Unconfigured, Refused);
      case Reports(k, content, completed) =>
        ReportKeeps(h, s, k, Artifact(content), if completed then Completed else Refused);
      case Crashes(k) => SameRun(h, s, Next(h, s, a));
      case Concludes(stage, content, status) =>
        ConcludeIs(h, s.run, s.run.inputHash, stage, Artifact(content), status);
        var result := Conclude(h, s.run, s.run.inputHash, stage, Artifact(content), status);
        if result.Ok? {
          RefStage(h, s.run.inputHash, stage, result.value.0.rows[stage]);
          OtherStageKeeps(h, s, result.value.0, result.value.1);
        }
      case Closes =>
        FinishRunIs(h, s.run, s.run.inputHash);
        var result := FinishRun(h, s.run, s.run.inputHash);
        if result.Ok? {
          FinishInRows(h, result.value.0);
          RefStage(h, s.run.inputHash, Finish, result.value.0.rows[Finish]);
          OtherStageKeeps(h, s, result.value.0, result.value.1);
        }
    }
  }

  lemma FinishInRows(h: Hash, r: Run)
    requires RunInv(h, r) && r.final.Some?
    ensures Finish in r.rows
  {
  }

  lemma {:induction false} RunKeeps(h: Hash, s: System, acts: seq<Act>, t: System)
    requires SystemInv(h, s) && Interleaving(h, s, acts, t)
    ensures SystemInv(h, t) && Keeps(s.run, t.run)
    decreases |acts|
  {
    hide SystemInv, Next, Possible, Keeps;
    if acts == [] {
      KeepsReflexive(s.run);
    } else {
      NextKeeps(h, s, acts[0]);
      RunKeeps(h, Next(h, s, acts[0]), acts[1..], t);
      KeepsTransitive(s.run, Next(h, s, acts[0]).run, t.run);
    }
  }

  lemma KeepsReflexive(r: Run)
    ensures Keeps(r, r)
  {
  }

  // ---- Theorems -------------------------------------------------------------------------------------

  function Queued(job: Job, input: Domain.Digest): System {
    System(RunModel.Run.Run(job, input, map[], None), [], 0, [])
  }

  /**
   * With any number of concurrent, retried or crashed workers: the runtime is called at most once, all
   * references handed out for a stage are the same, receipts that are terminal never change, the final
   * receipt is written once, and it says completed only if every required stage or cycle completed.
   */
  lemma DispatchIsAtMostOnce(
      h: Hash, job: Job, input: Domain.Digest, before: seq<Act>, s: System, after: seq<Act>, t: System, i: nat, j: nat, stage: Stage)
    requires Interleaving(h, Queued(job, input), before, s) && Interleaving(h, s, after, t)
    ensures t.calls <= 1
    ensures i < |t.handed| && j < |t.handed| && t.handed[i].stage == t.handed[j].stage ==> t.handed[i] == t.handed[j]
    ensures stage in s.run.rows && Terminal(s.run.rows[stage].status) ==>
              stage in t.run.rows && t.run.rows[stage] == s.run.rows[stage]
    ensures s.run.final.Some? ==> t.run.final == s.run.final
    ensures t.run.final.Some? && t.run.final.value.status.Completed? ==> NeedsMet(t.run)
  {
    hide Interleaving, RefOf, NeedsMet;
    assert SystemInv(h, Queued(job, input));
    RunKeeps(h, Queued(job, input), before, s);
    RunKeeps(h, s, after, t);
  }
}

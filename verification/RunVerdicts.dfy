/** Where the status of a stage comes from, for any number of workers in any interleaving. */
module RunVerdicts {
  import opened Outcomes
  import Domain
  import opened RunModel
  import opened RunHistory
  import opened RunWorkers

  // ---- The evaluate row ---------------------------------------------------------------------------

  predicate EvaluatedAs(r: Run, status: Progress) {
    Evaluate in r.rows && r.rows[Evaluate].status == status
  }

  /** The worker that holds the evaluate row. */
  predicate HeldBy(r: Run, k: nat) {
    Evaluate in r.rows && r.rows[Evaluate].attempt == Worker(k)
  }

  /**
   * The one way the row reaches each terminal status: completed by a completion report of the worker that
   * holds it after its call, refused by its refusal report or its declining, uncertain by another claim.
   */
  lemma StatusIsReached(h: Hash, s: System, a: Act, status: Progress)
    requires SystemInv(h, s) && Possible(s, a) && Terminal(status)
    requires !EvaluatedAs(s.run, status) && EvaluatedAs(Next(h, s, a).run, status)
    ensures EvaluatedAs(s.run, Started)
    ensures status.Completed? ==> a.Reports? && a.completed && HeldBy(s.run, a.worker) && s.workers[a.worker].Called?
    ensures status.Refused? ==> (a.Declines? || (a.Reports? && !a.completed)) && HeldBy(s.run, a.worker)
    ensures status.Uncertain? ==> a.Claims? && !HeldBy(s.run, a.worker)
    ensures exists k :: HeldBy(s.run, k) && HeldBy(Next(h, s, a).run, k)
  {
    hide RefOf, HandedOk, RunInv;
    match a {
      case Joins =>
      case Claims(k) => ClaimIs(h, s.run, s.run.inputHash, Worker(k));
      case Calls(k) =>
      case Declines(k) => FinishStageIs(h, s.run, Evaluate, Unconfigured, Refused, Worker(k));
      case Reports(k, content, completed) =>
        FinishStageIs(h, s.run, Evaluate, Artifact(content), if completed then Completed else Refused, Worker(k));
      case Crashes(k) =>
      case Concludes(stage, content, st) =>
        ConcludeIs(h, s.run, s.run.inputHash, stage, Artifact(content), st);
      case Closes =>
        FinishRunIs(h, s.run, s.run.inputHash);
    }
    NextKeeps(h, s, a);
    var id := s.run.rows[Evaluate].attempt.id;
    assert HeldBy(s.run, id) && HeldBy(Next(h, s, a).run, id);
  }

  // ---- Over any interleaving ------------------------------------------------------------------------

  /** A worker called the runtime, then or before. */
  predicate CalledIn(s: System, acts: seq<Act>, k: nat, before: nat)
    requires before <= |acts|
  {
    (k < |s.workers| && s.workers[k].Called?) || exists i :: 0 <= i < before && acts[i] == Calls(k)
  }

  /** Somewhere in the history the worker that holds the row reported completion, after its call. */
  ghost predicate ReportedCompletion(s: System, acts: seq<Act>, k: nat) {
    exists j :: 0 <= j < |acts| && acts[j].Reports? && acts[j].worker == k && acts[j].completed && CalledIn(s, acts, k, j)
  }

  /** What a later step did, seen from one step earlier. */
  lemma ReportedEarlier(h: Hash, s: System, acts: seq<Act>, k: nat)
    requires acts != [] && Possible(s, acts[0]) && ReportedCompletion(Next(h, s, acts[0]), acts[1..], k)
    ensures ReportedCompletion(s, acts, k)
  {
    hide ClaimDispatch, ReportStage, Conclude, FinishRun;
    var u, rest := Next(h, s, acts[0]), acts[1..];
    var j :| 0 <= j < |rest| && rest[j].Reports? && rest[j].worker == k && rest[j].completed && CalledIn(u, rest, k, j);
    assert acts[j + 1] == rest[j];
    if exists i :: 0 <= i < j && rest[i] == Calls(k) {
      var i :| 0 <= i < j && rest[i] == Calls(k);
      assert acts[i + 1] == Calls(k);
    } else if !(k < |s.workers| && s.workers[k].Called?) {
      assert acts[0] == Calls(k);
    }
    assert CalledIn(s, acts, k, j + 1);
  }

  /** A completed evaluate row was reported completed by the worker that holds it, after it called the runtime. */
  lemma {:induction false} CompletionWasReported(h: Hash, s: System, acts: seq<Act>, t: System)
    requires SystemInv(h, s) && Interleaving(h, s, acts, t)
    requires !EvaluatedAs(s.run, Completed) && EvaluatedAs(t.run, Completed)
    ensures exists k: nat :: HeldBy(t.run, k) && ReportedCompletion(s, acts, k)
    decreases |acts|
  {
    hide SystemInv, Next, Possible, RunInv;
    var u := Next(h, s, acts[0]);
    NextKeeps(h, s, acts[0]);
    if EvaluatedAs(u.run, Completed) {
      StatusIsReached(h, s, acts[0], Completed);
      RunKeeps(h, u, acts[1..], t);
      var k := acts[0].worker;
      HolderStays(h, s, u, t, k);
      assert CalledIn(s, acts, k, 0) by {
        PossibleReport(s, acts[0]);
      }
      assert ReportedCompletion(s, acts, k);
    } else {
      CompletionWasReported(h, u, acts[1..], t);
      var k: nat :| HeldBy(t.run, k) && ReportedCompletion(u, acts[1..], k);
      ReportedEarlier(h, s, acts, k);
    }
  }

  lemma PossibleReport(s: System, a: Act)
    requires Possible(s, a) && a.Reports?
    ensures a.worker < |s.workers| && s.workers[a.worker].Called?
  {
  }

  lemma HolderStays(h: Hash, s: System, u: System, t: System, k: nat)
    requires HeldBy(s.run, k) && Keeps(s.run, u.run) && Keeps(u.run, t.run)
    ensures HeldBy(t.run, k)
  {
  }

  /**
   * For any workers: an evaluation counts as completed only when the worker that claimed it called the
   * runtime and then reported completion, and an agent run closes as completed only on such a report.
   */
  lemma CompletedMeansReported(h: Hash, job: Job, input: Domain.Digest, acts: seq<Act>, t: System)
    requires Interleaving(h, Queued(job, input), acts, t)
    ensures EvaluatedAs(t.run, Completed) ==> exists k: nat :: HeldBy(t.run, k) && ReportedCompletion(Queued(job, input), acts, k)
    ensures job.AgentJob? && t.run.final.Some? && t.run.final.value.status.Completed? ==>
              exists k: nat :: HeldBy(t.run, k) && ReportedCompletion(Queued(job, input), acts, k)
  {
    hide Interleaving, RefOf, ReportedCompletion, HeldBy;
    var s := Queued(job, input);
    assert SystemInv(h, s);
    RunKeeps(h, s, acts, t);
    if EvaluatedAs(t.run, Completed) {
      CompletionWasReported(h, s, acts, t);
    }
  }

  // ---- Stages and kinds ---------------------------------------------------------------------------------

  /** Only stages of the job's kind are concluded, and execution only follows a completed evaluation. */
  ghost predicate StagesOk(r: Run) {
    && (forall name :: name in r.rows && !name.Evaluate? && !name.Finish? ==> KindAllows(r.job, name))
    && (Execute in r.rows ==> EvaluatedAs(r, Completed))
  }

  lemma ConcludedStages(h: Hash, r: Run, name: Stage, output: Output, status: Progress)
    requires RunInv(h, r) && StagesOk(r) && Terminal(status) && Conclude(h, r, r.inputHash, name, output, status).Ok?
    ensures StagesOk(Conclude(h, r, r.inputHash, name, output, status).value.0)
  {
    ConcludeIs(h, r, r.inputHash, name, output, status);
    hide FinishStage, RunInv;
  }

  lemma NextStages(h: Hash, s: System, a: Act)
    requires SystemInv(h, s) && Possible(s, a) && StagesOk(s.run)
    ensures StagesOk(Next(h, s, a).run)
  {
    NextKeeps(h, s, a);
    hide RefOf, HandedOk, RunInv, ClaimDispatch, ReportStage, FinishRun, Conclude;
    match a {
      case Joins =>
      case Claims(k) =>
        ClaimIs(h, s.run, s.run.inputHash, Worker(k));
        ClaimedRows(h, s.run, Worker(k));
      case Calls(k) =>
      case Declines(k) => ReportedRows(h, s.run, Unconfigured, Refused, Worker(k));
      case Reports(k, content, completed) =>
        ReportedRows(h, s.run, Artifact(content), if completed then Completed else Refused, Worker(k));
      case Crashes(k) =>
      case Concludes(stage, content, status) =>
        if Conclude(h, s.run, s.run.inputHash, stage, Artifact(content), status).Ok? {
          ConcludedStages(h, s.run, stage, Artifact(content), status);
        }
      case Closes =>
        FinishRunIs(h, s.run, s.run.inputHash);
    }
  }

  lemma ClaimedRows(h: Hash, r: Run, attempt: Attempt)
    ensures var c := ClaimDispatch(h, r, r.inputHash, Evaluate, attempt);
            c.Ok? ==> c.value.0.job == r.job && forall name :: name != Evaluate ==>
              (name in c.value.0.rows <==> name in r.rows) && (name in r.rows ==> c.value.0.rows[name] == r.rows[name])
  {
    hide RefOf;
  }

  lemma ReportedRows(h: Hash, r: Run, output: Output, status: Progress, attempt: Attempt)
    requires Terminal(status)
    ensures var c := ReportStage(h, r, r.inputHash, Evaluate, output, status, attempt);
            c.Ok? ==> c.value.0.job == r.job && forall name :: name != Evaluate ==>
              (name in c.value.0.rows <==> name in r.rows) && (name in r.rows ==> c.value.0.rows[name] == r.rows[name])
  {
    hide RefOf;
  }

  lemma {:induction false} RunStages(h: Hash, s: System, acts: seq<Act>, t: System)
    requires SystemInv(h, s) && StagesOk(s.run) && Interleaving(h, s, acts, t)
    ensures StagesOk(t.run)
    decreases |acts|
  {
    hide SystemInv, Next, Possible, StagesOk;
    if acts != [] {
      NextKeeps(h, s, acts[0]);
      NextStages(h, s, acts[0]);
      RunStages(h, Next(h, s, acts[0]), acts[1..], t);
    }
  }

  /** In any history execution was retained only after a completed evaluation, and no stage of another kind ever was. */
  lemma ExecutionFollowsEvaluation(h: Hash, job: Job, input: Domain.Digest, acts: seq<Act>, t: System, name: Stage)
    requires Interleaving(h, Queued(job, input), acts, t)
    ensures Execute in t.run.rows ==> EvaluatedAs(t.run, Completed)
    ensures name in t.run.rows && !name.Evaluate? && !name.Finish? ==> KindAllows(job, name)
  {
    hide Interleaving, RefOf;
    var s := Queued(job, input);
    assert SystemInv(h, s) && StagesOk(s.run);
    RunKeeps(h, s, acts, t);
    RunStages(h, s, acts, t);
  }

  // ---- Concluding and closing -----------------------------------------------------------------------------

  predicate CompletedIn(r: Run, name: Stage) {
    name in r.rows && r.rows[name].status.Completed?
  }

  /** A stage the job of the run is made of, and that may be concluded in one transaction now. */
  predicate MayConclude(r: Run, name: Stage) {
    match r.job
    case AgentJob => name == Execute && CompletedIn(r, Evaluate)
    case BacktestJob => name == Backtest
    case HealthJob => name == Health
    case SupervisionJob(cycles) => name.Supervise? && name.index < cycles
  }

  /**
   * A stage without a row is concluded exactly when the job has it and, for execution, its evaluation
   * completed; the row is the one given. A stage with a row stays as it is.
   */
  lemma ConcludesExactly(h: Hash, r: Run, name: Stage, output: Output, status: Progress)
    requires RunInv(h, r) && Terminal(status)
    ensures var c := Conclude(h, r, r.inputHash, name, output, status);
            if name in r.rows then c.Ok? ==> c.value.0 == r
            else
              && (c.Ok? <==> MayConclude(r, name))
              && (c.Ok? ==>
                    && c.value.0 == r.(rows := r.rows[name := Row(status, Transactional, r.inputHash, Some(output), Some(h(output)))])
                    && c.value.1 == StageRef(name, r.inputHash, h(output), status))
  {
    if Evaluate in r.rows {
      assert RowOk(h, r, Evaluate);
    }
  }

  /** The results a run of its kind needs before it can be closed at all. */
  ghost predicate HasResults(r: Run) {
    match r.job
    case AgentJob => Evaluate in r.rows && (r.rows[Evaluate].status.Completed? ==> Execute in r.rows)
    case BacktestJob => Backtest in r.rows
    case HealthJob => Health in r.rows
    case SupervisionJob(cycles) =>
      Supervise(0) in r.rows &&
      ((forall s :: s in r.rows ==> r.rows[s].status.Completed?) ==> forall i: nat :: i < cycles ==> Supervise(i) in r.rows)
  }

  /** A run is closed exactly when its results are there, and its receipt lists every stage with its status and output. */
  lemma ClosesExactly(h: Hash, r: Run)
    requires RunInv(h, r)
    ensures var c := FinishRun(h, r, r.inputHash);
            && (c.Ok? <==> r.final.Some? || HasResults(r))
            && (c.Ok? && r.final.None? ==>
                  var row := c.value.0.rows[Finish];
                  && Finish in c.value.0.rows && row.output.Some? && row.output.value.Summary?
                  && row.output.value.stages.Keys == r.rows.Keys
                  && forall s :: s in r.rows ==> row.output.value.stages[s] == (r.rows[s].status, r.rows[s].outputHash))
  {
    hide Verdict;
    VerdictTerminal(r.rows);
    if r.final.None? {
      FinishIsFree(h, r);
    }
  }

  lemma FinishIsFree(h: Hash, r: Run)
    requires RunInv(h, r) && r.final.None?
    ensures Finish !in r.rows
  {
  }

  /** A run that closed as completed has completed its own stages, each of them. */
  lemma CompletedRunHasEverything(h: Hash, job: Job, input: Domain.Digest, acts: seq<Act>, t: System)
    requires Interleaving(h, Queued(job, input), acts, t) && t.run.final.Some? && t.run.final.value.status.Completed?
    ensures match job
            case AgentJob => CompletedIn(t.run, Evaluate) && CompletedIn(t.run, Execute)
            case BacktestJob => CompletedIn(t.run, Backtest)
            case HealthJob => CompletedIn(t.run, Health)
            case SupervisionJob(cycles) => CompletedIn(t.run, Supervise(0)) && forall i: nat :: i < cycles ==> CompletedIn(t.run, Supervise(i))
  {
    assert SystemInv(h, Queued(job, input));
    assert Interleaving(h, t, [], t);
    DispatchIsAtMostOnce(h, job, input, acts, t, [], t, 0, 0, Finish);
    RunKeeps(h, Queued(job, input), acts, t);
    hide Interleaving;
  }
}

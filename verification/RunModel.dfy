/** Durable runs: stage receipts and dispatch claims, each transaction one atomic step under the run row. */
module RunModel {
  import opened Outcomes
  import Domain

  datatype Job = AgentJob | BacktestJob | HealthJob | SupervisionJob(cycles: nat)

  datatype Stage = Evaluate | Execute | Backtest | Health | Supervise(index: nat) | Finish

  datatype Progress = Started | Completed | Refused | Uncertain

  /** Who wrote a row: one dispatching worker, or a transaction that also finished it. */
  datatype Attempt = Worker(id: nat) | Transactional

  /** The persisted output of a stage; a run's own output lists its stages. */
  datatype Output =
    | Artifact(content: int)
    | DispatchUncertain
    | Unconfigured
    | Summary(stages: map<Stage, (Progress, Option<Domain.Digest>)>)

  datatype Row = Row(
    status: Progress, attempt: Attempt, inputHash: Domain.Digest, output: Option<Output>, outputHash: Option<Domain.Digest>)

  datatype StageRef = StageRef(stage: Stage, inputHash: Domain.Digest, outputHash: Domain.Digest, status: Progress)

  datatype Run = Run(job: Job, inputHash: Domain.Digest, rows: map<Stage, Row>, final: Option<StageRef>)

  datatype RunError =
    | InputConflict | DispatchPending | CorruptReceipt | CorruptOutput | AttemptFenced
    | NoResults | MissingStage | MissingExecution | MissingSupervision | EvaluationIncomplete | KindMismatch

  type Hash = Output -> Domain.Digest

  predicate Terminal(p: Progress) {
    !p.Started?
  }

  /** The reference a retained row gives, checked on every lookup. */
  function RefOf(h: Hash, input: Domain.Digest, name: Stage, row: Row): Result<StageRef, RunError> {
    if row.status.Started? then Err(DispatchPending)
    else if row.inputHash != input || row.output.None? then Err(CorruptReceipt)
    else if row.outputHash != Some(h(row.output.value)) then Err(CorruptOutput)
    else Ok(StageRef(name, input, row.outputHash.value, row.status))
  }

  /** Writes a terminal row once; only the attempt that started a row may finish it. */
  function FinishStage(h: Hash, r: Run, input: Domain.Digest, name: Stage, output: Output, status: Progress, attempt: Attempt)
    : Result<(Run, StageRef), RunError>
    requires Terminal(status)
  {
    var done := Row(status, attempt, input, Some(output), Some(h(output)));
    var ref := StageRef(name, input, h(output), status);
    if name in r.rows then
      var previous := r.rows[name];
      if Terminal(previous.status) then
        match RefOf(h, input, name, previous)
        case Err(e) => Err(e)
        case Ok(saved) => Ok((r, saved))
      else if previous.attempt != attempt then Err(AttemptFenced)
      else Ok((r.(rows := r.rows[name := done.(inputHash := previous.inputHash)]), ref))
    else Ok((r.(rows := r.rows[name := done]), ref))
  }

  /** The first claim starts the stage; a later one finds its receipt, or declares the dispatch uncertain. */
  function ClaimDispatch(h: Hash, r: Run, input: Domain.Digest, name: Stage, attempt: Attempt)
    : Result<(Run, Option<StageRef>), RunError>
  {
    if input != r.inputHash then Err(InputConflict)
    else if name !in r.rows then Ok((r.(rows := r.rows[name := Row(Started, attempt, input, None, None)]), None))
    else if r.rows[name].status.Started? then
      match FinishStage(h, r, input, name, DispatchUncertain, Uncertain, r.rows[name].attempt)
      case Err(e) => Err(e)
      case Ok((next, ref)) => Ok((next, Some(ref)))
    else
      match RefOf(h, input, name, r.rows[name])
      case Err(e) => Err(e)
      case Ok(ref) => Ok((r, Some(ref)))
  }

  /** A worker's report, in its own transaction. */
  function ReportStage(h: Hash, r: Run, input: Domain.Digest, name: Stage, output: Output, status: Progress, attempt: Attempt)
    : Result<(Run, StageRef), RunError>
    requires Terminal(status)
  {
    if input != r.inputHash then Err(InputConflict) else FinishStage(h, r, input, name, output, status, attempt)
  }

  predicate KindAllows(job: Job, name: Stage) {
    match name
    case Evaluate => job.AgentJob?
    case Execute => job.AgentJob?
    case Backtest => job.BacktestJob?
    case Health => job.HealthJob?
    case Supervise(i) => job.SupervisionJob? && i < job.cycles
    case Finish => false
  }

  /** A stage computed and retained in one transaction; execution needs a completed evaluation. */
  function Conclude(h: Hash, r: Run, input: Domain.Digest, name: Stage, output: Output, status: Progress)
    : Result<(Run, StageRef), RunError>
    requires Terminal(status)
  {
    if input != r.inputHash then Err(InputConflict)
    else if !KindAllows(r.job, name) || name.Evaluate? then Err(KindMismatch)
    else if name in r.rows then
      match RefOf(h, input, name, r.rows[name])
      case Err(e) => Err(e)
      case Ok(ref) => Ok((r, ref))
    else if name.Execute? && (Evaluate !in r.rows || RefOf(h, input, Evaluate, r.rows[Evaluate]).Err?
                              || !r.rows[Evaluate].status.Completed?)
    then Err(EvaluationIncomplete)
    else FinishStage(h, r, input, name, output, status, Transactional)
  }

  function Required(job: Job): Stage {
    match job
    case AgentJob => Evaluate
    case BacktestJob => Backtest
    case HealthJob => Health
    case SupervisionJob(_) => Supervise(0)
  }

  predicate AllCompleted(rows: map<Stage, Row>) {
    forall s :: s in rows ==> rows[s].status.Completed?
  }

  predicate SomeUncertain(rows: map<Stage, Row>) {
    exists s :: s in rows && (rows[s].status.Started? || rows[s].status.Uncertain?)
  }

  predicate SomeRefused(rows: map<Stage, Row>) {
    exists s :: s in rows && rows[s].status.Refused?
  }

  function Verdict(rows: map<Stage, Row>): Progress {
    if SomeUncertain(rows) then Uncertain else if SomeRefused(rows) then Refused else Completed
  }

  lemma VerdictTerminal(rows: map<Stage, Row>)
    ensures Terminal(Verdict(rows))
  {
  }

  function Listed(rows: map<Stage, Row>): Output {
    Summary(map s | s in rows :: (rows[s].status, rows[s].outputHash))
  }

  /** Closes a run once; later calls return the same receipt. */
  function FinishRun(h: Hash, r: Run, input: Domain.Digest): Result<(Run, StageRef), RunError> {
    if input != r.inputHash then Err(InputConflict)
    else if r.final.Some? then Ok((r, r.final.value))
    else if r.rows == map[] then Err(NoResults)
    else if Required(r.job) !in r.rows then Err(MissingStage)
    else if r.job.AgentJob? && r.rows[Evaluate].status.Completed? && Execute !in r.rows then Err(MissingExecution)
    else if r.job.SupervisionJob? && AllCompleted(r.rows) && exists i: nat :: i < r.job.cycles && Supervise(i) !in r.rows then
      Err(MissingSupervision)
    else
      match FinishStage(h, r, input, Finish, Listed(r.rows), Verdict(r.rows), Transactional)
      case Err(e) => Err(e)
      case Ok((closed, ref)) => Ok((closed.(final := Some(ref)), ref))
  }
}

/** The repository of one run: its stage rows and final receipt, written under the run row's lock. */
module RunRepository {
  import opened Outcomes
  import Domain
  import RM = RunModel

  class RunRepository {
    const job: RM.Job
    const inputHash: Domain.Digest
    var rows: map<RM.Stage, RM.Row>
    var final: Option<RM.StageRef>

    /** The value the specification speaks about. */
    function State(): RM.Run
      reads this
    {
      RM.Run(job, inputHash, rows, final)
    }

    constructor (j: RM.Job, input: Domain.Digest)
      ensures State() == RM.Run(j, input, map[], None)
    {
      job, inputHash, rows, final := j, input, map[], None;
    }

    /** Writes a terminal row once. */
    method FinishStage(h: RM.Hash, input: Domain.Digest, name: RM.Stage, output: RM.Output, status: RM.Progress, attempt: RM.Attempt)
      returns (r: Result<RM.StageRef, RM.RunError>)
      requires RM.Terminal(status)
      modifies this`rows
      ensures match old(RM.FinishStage(h, State(), input, name, output, status, attempt))
              case Err(e) => r == Err(e) && State() == old(State())
              case Ok((t, ref)) => r == Ok(ref) && State() == t
    {
      hide RM.RefOf;
      if name in rows {
        var previous := rows[name];
        if RM.Terminal(previous.status) {
          return RM.RefOf(h, input, name, previous);
        }
        if previous.attempt != attempt {
          return Err(RM.AttemptFenced);
        }
        rows := rows[name := RM.Row(status, attempt, previous.inputHash, Some(output), Some(h(output)))];
      } else {
        rows := rows[name := RM.Row(status, attempt, input, Some(output), Some(h(output)))];
      }
      r := Ok(RM.StageRef(name, input, h(output), status));
    }

    /** Claims a dispatch, or answers with what the stage already holds. */
    method ClaimDispatch(h: RM.Hash, input: Domain.Digest, name: RM.Stage, attempt: RM.Attempt)
      returns (r: Result<Option<RM.StageRef>, RM.RunError>)
      modifies this`rows
      ensures match old(RM.ClaimDispatch(h, State(), input, name, attempt))
              case Err(e) => r == Err(e) && State() == old(State())
              case Ok((t, claimed)) => r == Ok(claimed) && State() == t
    {
      hide RM.RefOf, RM.FinishStage;
      if input != inputHash {
        return Err(RM.InputConflict);
      }
      if name !in rows {
        rows := rows[name := RM.Row(RM.Started, attempt, input, None, None)];
        return Ok(None);
      }
      if rows[name].status.Started? {
        var doubted := FinishStage(h, input, name, RM.DispatchUncertain, RM.Uncertain, rows[name].attempt);
        return if doubted.Ok? then Ok(Some(doubted.value)) else Err(doubted.error);
      }
      var saved := RM.RefOf(h, input, name, rows[name]);
      r := if saved.Ok? then Ok(Some(saved.value)) else Err(saved.error);
    }

    /** Closes the run once. */
    method FinishRun(h: RM.Hash, input: Domain.Digest) returns (r: Result<RM.StageRef, RM.RunError>)
      modifies this
      ensures match old(RM.FinishRun(h, State(), input))
              case Err(e) => r == Err(e) && State() == old(State())
              case Ok((t, ref)) => r == Ok(ref) && State() == t
    {
      hide RM.FinishStage, RM.Verdict, RM.Listed, RM.AllCompleted;
      if input != inputHash {
        return Err(RM.InputConflict);
      }
      if final.Some? {
        return Ok(final.value);
      }
      if rows == map[] {
        return Err(RM.NoResults);
      }
      if RM.Required(job) !in rows {
        return Err(RM.MissingStage);
      }
      if job.AgentJob? && rows[RM.Evaluate].status.Completed? && RM.Execute !in rows {
        return Err(RM.MissingExecution);
      }
      if job.SupervisionJob? && RM.AllCompleted(rows) && exists i: nat :: i < job.cycles && RM.Supervise(i) !in rows {
        return Err(RM.MissingSupervision);
      }
      RM.VerdictTerminal(rows);
      var closed := FinishStage(h, input, RM.Finish, RM.Listed(rows), RM.Verdict(rows), RM.Transactional);
      if closed.Err? {
        return closed;
      }
      final := Some(closed.value);
      r := closed;
    }
  }
}

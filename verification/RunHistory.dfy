/** At-most-once dispatch and write-once receipts, for any number of workers in any interleaving. */
module RunHistory {
  import opened Outcomes
  import Domain
  import opened RunModel

  // ---- Rows ----------------------------------------------------------------------------------------

  /** Terminal rows carry a verifiable output. */
  ghost predicate RowOk(h: Hash, r: Run, name: Stage)
    requires name in r.rows
  {
    var row := r.rows[name];
    row.inputHash == r.inputHash &&
    (Terminal(row.status) ==> row.output.Some? && row.outputHash == Some(h(row.output.value)))
  }

  ghost predicate RowsOk(h: Hash, r: Run) {
    forall s :: s in r.rows ==> RowOk(h, r, s)
  }

  /** The stages a job of this kind needs before its run may count as completed. */
  ghost predicate NeedsMet(r: Run) {
    && Required(r.job) in r.rows && r.rows[Required(r.job)].status.Completed?
    && (r.job.AgentJob? ==> Execute in r.rows && r.rows[Execute].status.Completed?)
    && (r.job.SupervisionJob? ==>
          forall i: nat :: i < r.job.cycles ==> Supervise(i) in r.rows && r.rows[Supervise(i)].status.Completed?)
  }

  /** The final receipt is the receipt of the finish stage, and a completed one has everything it needs. */
  ghost predicate FinalOk(h: Hash, r: Run) {
    && (r.final.Some? <==> Finish in r.rows)
    && (r.final.Some? ==> RefOf(h, r.inputHash, Finish, r.rows[Finish]) == Ok(r.final.value))
    && (r.final.Some? && r.final.value.status.Completed? ==> NeedsMet(r))
  }

  ghost predicate RunInv(h: Hash, r: Run) {
    RowsOk(h, r) && FinalOk(h, r)
  }

  /** Rows are never removed, terminal rows never change, and the final receipt is written once. */
  ghost predicate Keeps(r: Run, t: Run) {
    && t.job == r.job && t.inputHash == r.inputHash
    && (forall s :: s in r.rows ==> s in t.rows && (Terminal(r.rows[s].status) ==> t.rows[s] == r.rows[s]))
    && (forall s :: s in r.rows ==> t.rows[s].attempt == r.rows[s].attempt)
    && (r.final.Some? ==> t.final == r.final)
  }

  lemma KeepsTransitive(r: Run, s: Run, t: Run)
    requires Keeps(r, s) && Keeps(s, t)
    ensures Keeps(r, t)
  {
  }

  lemma NeedsStay(r: Run, t: Run)
    requires NeedsMet(r) && Keeps(r, t)
    ensures NeedsMet(t)
  {
  }

  /** Writing a terminal row: the reference returned is the one the row gives from now on. */
  lemma FinishStageIs(h: Hash, r: Run, name: Stage, output: Output, status: Progress, attempt: Attempt)
    requires RunInv(h, r) && Terminal(status) && !name.Finish?
    ensures match FinishStage(h, r, r.inputHash, name, output, status, attempt)
            case Err(e) => e == AttemptFenced && name in r.rows && r.rows[name].status.Started? && r.rows[name].attempt != attempt
            case Ok((t, ref)) =>
              && RunInv(h, t) && Keeps(r, t) && name in t.rows && RefOf(h, t.inputHash, name, t.rows[name]) == Ok(ref)
              && t.rows.Keys == r.rows.Keys + {name} && t.final == r.final
              && (name in r.rows && Terminal(r.rows[name].status) ==> t == r)
              && (name !in r.rows ==> t.rows[name].attempt == attempt)
              && forall s :: s in r.rows && s != name ==> t.rows[s] == r.rows[s]
  {
    hide NeedsMet;
    var result := FinishStage(h, r, r.inputHash, name, output, status, attempt);
    if result.Ok? {
      var t := result.value.0;
      if r.final.Some? && r.final.value.status.Completed? {
        NeedsStay(r, t);
      }
    }
  }

  /**
   * A claim answers nothing exactly when the stage had no row; a terminal row answers its own reference, and
   * a started one is declared uncertain, whoever claims it.
   */
  lemma ClaimIs(h: Hash, r: Run, input: Domain.Digest, attempt: Attempt)
    requires RunInv(h, r)
    ensures match ClaimDispatch(h, r, input, Evaluate, attempt)
            case Err(e) => e == InputConflict
            case Ok((t, claimed)) =>
              && RunInv(h, t) && Keeps(r, t) && Evaluate in t.rows
              && (claimed.None? <==> Evaluate !in r.rows)
              && (claimed.None? ==> t.rows[Evaluate].attempt == attempt && !Terminal(t.rows[Evaluate].status))
              && (claimed.Some? ==> RefOf(h, t.inputHash, Evaluate, t.rows[Evaluate]) == Ok(claimed.value))
              && (Evaluate in r.rows && Terminal(r.rows[Evaluate].status) ==> t == r)
              && (Evaluate in r.rows && r.rows[Evaluate].status.Started? ==>
                    t.rows[Evaluate].status.Uncertain? && claimed.value.status.Uncertain?
                    && t.rows[Evaluate].attempt == r.rows[Evaluate].attempt && t.rows[Evaluate].output == Some(DispatchUncertain))
  {
    if input == r.inputHash && Evaluate in r.rows && r.rows[Evaluate].status.Started? {
      FinishStageIs(h, r, Evaluate, DispatchUncertain, Uncertain, r.rows[Evaluate].attempt);
    } else if input == r.inputHash && Evaluate !in r.rows {
      var t := ClaimDispatch(h, r, input, Evaluate, attempt).value.0;
      if r.final.Some? && r.final.value.status.Completed? {
        NeedsStay(r, t);
      }
    } else if input == r.inputHash {
      assert RowOk(h, r, Evaluate);
    }
  }

  lemma ConcludeIs(h: Hash, r: Run, input: Domain.Digest, name: Stage, output: Output, status: Progress)
    requires RunInv(h, r) && Terminal(status)
    ensures match Conclude(h, r, input, name, output, status)
            case Err(_) => true
            case Ok((t, ref)) =>
              && RunInv(h, t) && Keeps(r, t) && !name.Evaluate? && !name.Finish? && name in t.rows
              && RefOf(h, t.inputHash, name, t.rows[name]) == Ok(ref)
              && t.rows.Keys == r.rows.Keys + {name} && t.final == r.final
              && (Evaluate in r.rows ==> t.rows[Evaluate] == r.rows[Evaluate])
  {
    hide FinishStage;
    if !name.Finish? {
      FinishStageIs(h, r, name, output, status, Transactional);
    }
  }

  /** A verdict of completed means nothing listed is uncertain or refused. */
  lemma VerdictIs(rows: map<Stage, Row>)
    ensures Verdict(rows).Completed? <==> AllCompleted(rows)
    ensures Terminal(Verdict(rows))
  {
    if !AllCompleted(rows) {
      var s :| s in rows && !rows[s].status.Completed?;
      assert SomeUncertain(rows) || SomeRefused(rows);
    }
  }

  /**
   * A run finishes once, and as completed only when every required stage or cycle completed: completed when
   * everything listed completed, uncertain when anything is, and refused otherwise.
   */
  lemma FinishRunIs(h: Hash, r: Run, input: Domain.Digest)
    requires RunInv(h, r)
    ensures match FinishRun(h, r, input)
            case Err(_) => true
            case Ok((t, ref)) =>
              && RunInv(h, t) && Keeps(r, t) && t.final == Some(ref)
              && (ref.status.Completed? ==> NeedsMet(t))
              && (Evaluate in r.rows ==> Evaluate in t.rows && t.rows[Evaluate] == r.rows[Evaluate])
              && (Evaluate !in r.rows ==> Evaluate !in t.rows)
              && RefOf(h, t.inputHash, Finish, t.rows[Finish]) == Ok(ref)
              && (r.final.Some? ==> t == r)
              && (r.final.None? ==>
                    && (ref.status.Completed? <==> forall s :: s in r.rows ==> r.rows[s].status.Completed?)
                    && (ref.status.Uncertain? <==> exists s :: s in r.rows && (r.rows[s].status.Started? || r.rows[s].status.Uncertain?))
                    && t.rows == r.rows[Finish := t.rows[Finish]])
  {
    VerdictIs(r.rows);
    var result := FinishRun(h, r, input);
    if result.Ok? && r.final.None? {
      var t := result.value.0;
      assert Finish !in r.rows;
      assert t.rows == r.rows[Finish := t.rows[Finish]];
      if Verdict(r.rows).Completed? {
        assert NeedsMet(r);
        NeedsStay(r, t.(final := None));
      }
    }
  }
}

/** What each RunPod batch does to the rows it works on, told row by row; the execution shadows its attempt. */
module RunpodEffects {
  import opened ControllerTypes
  import opened JobTables
  import opened JobBatches
  import opened JobEffects
  import C = CloudRunBatches
  import R = RunpodBatches

  /** The execution of an attempt that has just been moved: a RunPod execution takes over everything it shares with the attempt,
      a Cloud Run execution only a cancellation. */
  predicate Shadows(before: AttemptRow, after: AttemptRow, e: Option<ExecRow>, e': Option<ExecRow>) {
    if e == None || after.provider != Some(e.value.provider) then e' == e
    else if e.value.provider == RunPod then
      && e'.Some?
      && e'.value == Next(e.value, after.updatedAt).(
           status := e'.value.status, createOutcome := after.submissionOutcome, handle := after.winner,
           terminalStatus := after.terminalStatus)
      && (after.status == SubmissionPending ==> e'.value.status == ExecWaiting)
      && (after.status == Submitting ==> e'.value.status == ExecCreating)
      && (after.status == AttemptRunning ==> e'.value.status == ExecActive)
      && (after.status == CancelRequested ==> e'.value.status == ExecCancelRequested)
      && (after.status in {AttemptCompleted, AttemptFailed, AttemptCancelled} ==> e'.value.status == ExecTerminal)
    else if before.status == SubmissionPending && after.status == AttemptCancelled then
      e' == Some(Next(e.value, after.updatedAt).(
        status := ExecTerminal, terminalStatus := Some(TermCancelled), cleanup := CleanupSucceeded))
    else if before.status in {Submitting, AttemptRunning} && after.status == CancelRequested then
      e' == Some(Next(e.value, after.updatedAt).(status := ExecCancelRequested))
    else e' == e
  }

  /** The attempt becomes this row and its execution follows, or nothing happens to either. */
  predicate AttemptBecomes(s: Slice, s': Slice, moved: bool, row: AttemptRow)
    requires moved ==> s.attempt.Some?
  {
    if moved then s'.attempt == Some(row) && Shadows(s.attempt.value, row, s.execution, s'.execution)
    else s'.attempt == s.attempt && s'.execution == s.execution
  }

  /** The facts the attempt shares with its execution agree, or it has neither provider nor execution. */
  predicate Fitting(s: Slice) {
    s.attempt.Some? &&
    match s.attempt.value.provider
    case None => s.execution == None
    case Some(provider) =>
      s.execution.Some? && s.execution.value.provider == provider && Mirrors(s.attempt.value, s.execution.value)
  }

  predicate BoundTo(a: AttemptRow, runpodId: int, unclaimed: bool) {
    a.winner == Some(runpodId) || (a.winner == None && unclaimed)
  }

  predicate Reached(t: Option<Time>, limit: Time) {
    t.Some? && t.value <= limit
  }

  // ---------------------------------------------------------------- sending

  lemma PrepareRunpodAttempt(c: Context, s: Slice, token: int, expiresAt: Time, optionsValid: bool)
    requires Ready(c, s)
    ensures
      var s' := R.ApplySubmission(c, s, R.PrepareSubmission(token, expiresAt, optionsValid)).0;
      var moved := optionsValid && c.othersIdle && LiveIn(c, s.job, {JobSubmissionPending})
                   && AttemptIn(s, {SubmissionPending}) && s.attempt.value.provider == Some(RunPod)
                   && s.attempt.value.claimToken == None && s.attempt.value.claimIssuedAt == None
                   && s.attempt.value.claimExpiresAt == None && s.attempt.value.claimConsumedAt == None;
      && s'.job == s.job
      && AttemptBecomes(s, s', moved, if s.attempt == None then AnyRow(c.now) else s.attempt.value.(
           status := Submitting, claimToken := Some(token), claimIssuedAt := Some(c.now), claimExpiresAt := Some(expiresAt),
           claimConsumedAt := None, submissionStartedAt := Some(c.now), submissionOutcome := None,
           submissionFinishedAt := None, updatedAt := c.now))
  {
  }

  /** Stands where there is no attempt to speak of. */
  function AnyRow(now: Time): AttemptRow {
    AttemptRow(0, 0, None, SubmissionPending, None, None, None, None, None, None, None, None, None, None, None, false, None, now, now)
  }

  function Row(s: Slice, now: Time): AttemptRow {
    if s.attempt.Some? then s.attempt.value else AnyRow(now)
  }

  /** A RunPod attempt that nobody else's activity blocks is SUBMITTING under a fresh claim token, and its live job with it. */
  lemma PrepareRunpodRows(c: Context, s: Slice, token: int, expiresAt: Time, optionsValid: bool)
    requires Ready(c, s)
    ensures
      var s' := ApplyAll(c, s, Statements(PrepareRunpod(token, expiresAt, optionsValid)));
      var moved := optionsValid && c.othersIdle && LiveIn(c, s.job, {JobSubmissionPending})
                   && AttemptIn(s, {SubmissionPending}) && s.attempt.value.provider == Some(RunPod)
                   && s.attempt.value.claimToken == None && s.attempt.value.claimIssuedAt == None
                   && s.attempt.value.claimExpiresAt == None && s.attempt.value.claimConsumedAt == None;
      && AttemptBecomes(s, s', moved, Row(s, c.now).(
           status := Submitting, claimToken := Some(token), claimIssuedAt := Some(c.now), claimExpiresAt := Some(expiresAt),
           claimConsumedAt := None, submissionStartedAt := Some(c.now), submissionOutcome := None,
           submissionFinishedAt := None, updatedAt := c.now))
      && (moved ==> JobMovedTo(c, s.job, s'.job, true, {JobSubmissionPending}, JobSubmitting))
  {
    TwoStatements(c, s, Pod(R.PrepareSubmission(token, expiresAt, optionsValid)), Pod(R.MarkJobSubmitting(token)));
    PrepareRunpodAttempt(c, s, token, expiresAt, optionsValid);
  }

  /** What the queue's answer leaves behind: outcome accepted if it was really sent, unknown if nothing else is known. */
  lemma RecordSubmissionRows(c: Context, s: Slice, submitted: bool)
    requires Ready(c, s)
    ensures
      var s' := ApplyAll(c, s, Statements(RecordSubmissionAccepted(submitted)));
      && s'.job == s.job
      && AttemptBecomes(s, s', AttemptIn(s, {Submitting}) && submitted, Row(s, c.now).(
           submissionOutcome := Some(CreateAccepted), submissionFinishedAt := Some(c.now), updatedAt := c.now))
    ensures
      var s' := ApplyAll(c, s, Statements(RecordSubmissionUnknown));
      && s'.job == s.job
      && AttemptBecomes(s, s', AttemptIn(s, {Submitting}) && s.attempt.value.submissionOutcome == None, Row(s, c.now).(
           submissionOutcome := Some(CreateUnknown), submissionFinishedAt := Some(c.now), updatedAt := c.now))
  {
    OneStatement(c, s, Pod(R.MarkSubmissionAccepted(submitted)));
    OneStatement(c, s, Pod(R.MarkSubmissionUnknown));
  }

  /** A submission refused before anything is known of it fails attempt and job, even a deleted one. */
  lemma RecordSubmissionRejectedRows(c: Context, s: Slice)
    requires Ready(c, s)
    ensures
      var s' := ApplyAll(c, s, Statements(RecordSubmissionRejected));
      var moved := AttemptIn(s, {Submitting}) && s.attempt.value.submissionOutcome == None;
      var late := AttemptIn(s, {AttemptFailed}) && s.attempt.value.submissionOutcome == Some(CreateRejected);
      && AttemptBecomes(s, s', moved, Row(s, c.now).(
           status := AttemptFailed, submissionOutcome := Some(CreateRejected), submissionFinishedAt := Some(c.now),
           failedAt := Some(c.now), updatedAt := c.now))
      && s'.job == (
           if (moved || late) && s.job.Some? && s.job.value.active == Some(c.attempt) && s.job.value.status == JobSubmitting
           then Some(s.job.value.(status := JobFailed, version := s.job.value.version + 1, updatedAt := c.now))
           else s.job)
  {
    TwoStatements(c, s, Pod(R.MarkAttemptRejected), Pod(R.MarkJobRejected));
  }

  // ---------------------------------------------------------------- the worker's claim

  /** The winner is the first worker that shows the claim token of a SUBMITTING attempt before it expires and before anybody
      consumed it; attempt and live job are then RUNNING. */
  lemma ClaimWinnerRows(c: Context, s: Slice, runpodId: int, token: int)
    requires Ready(c, s)
    ensures
      var s' := ApplyAll(c, s, Statements(ClaimWinner(runpodId, token)));
      var wins := AttemptIn(s, {Submitting}) && LiveIn(c, s.job, {JobSubmitting}) && s.attempt.value.winner == None
                  && s.attempt.value.claimToken == Some(token) && s.attempt.value.claimIssuedAt.Some?
                  && s.attempt.value.claimExpiresAt.Some? && c.now < s.attempt.value.claimExpiresAt.value
                  && s.attempt.value.claimConsumedAt == None;
      && AttemptBecomes(s, s', wins, Row(s, c.now).(
           status := AttemptRunning, winner := Some(runpodId), claimConsumedAt := Some(c.now), claimedAt := Some(c.now),
           updatedAt := c.now))
      && JobMovedTo(c, s.job, s'.job, wins || AttemptIn(s, {AttemptRunning}), {JobSubmitting}, JobRunning)
  {
    TwoStatements(c, s, Pod(R.ClaimWinner(runpodId, token)), Cloud(C.MarkJobRunning));
  }

  // ---------------------------------------------------------------- what nobody claimed

  predicate Open(a: AttemptRow) {
    a.submissionOutcome == None || a.submissionOutcome == Some(CreateUnknown)
  }

  /** A submission of open outcome whose claim has expired, that nobody won and that was never really sent, fails. */
  lemma FailExpiredUnknownRows(c: Context, s: Slice, submitted: bool)
    requires Ready(c, s) && (s.attempt.Some? ==> s.attempt.value.failedAt != Some(c.now))
    ensures
      var s' := ApplyAll(c, s, Statements(FailExpiredUnknown(submitted)));
      var moved := AttemptIn(s, {Submitting}) && Open(s.attempt.value) && Reached(s.attempt.value.claimExpiresAt, c.now)
                   && s.attempt.value.winner == None && !submitted && LiveIn(c, s.job, {JobSubmitting});
      && AttemptBecomes(s, s', moved, Row(s, c.now).(status := AttemptFailed, failedAt := Some(c.now), updatedAt := c.now))
      && JobMovedTo(c, s.job, s'.job, moved, {JobSubmitting}, JobFailed)
  {
    TwoStatements(c, s, Pod(R.FailExpiredUnknownAttempt(submitted)), Pod(R.FailExpiredUnknownJob(submitted)));
  }

  /** A submission accepted before `staleBefore` and really sent, that nobody won and that never ended, fails. */
  lemma FailStaleAcceptedRows(c: Context, s: Slice, submitted: bool, staleBefore: Time)
    requires Ready(c, s) && (s.attempt.Some? ==> s.attempt.value.failedAt != Some(c.now))
    ensures
      var s' := ApplyAll(c, s, Statements(FailStaleAccepted(submitted, staleBefore)));
      var moved := AttemptIn(s, {Submitting}) && s.attempt.value.submissionOutcome == Some(CreateAccepted)
                   && Reached(s.attempt.value.submissionFinishedAt, staleBefore) && s.attempt.value.winner == None
                   && s.attempt.value.terminalStatus == None && submitted && LiveIn(c, s.job, {JobSubmitting});
      && AttemptBecomes(s, s', moved, Row(s, c.now).(status := AttemptFailed, failedAt := Some(c.now), updatedAt := c.now))
      && JobMovedTo(c, s.job, s'.job, moved, {JobSubmitting}, JobFailed)
  {
    TwoStatements(c, s, Pod(R.FailStaleAcceptedAttempt(submitted, staleBefore)),
                  Pod(R.FailStaleAcceptedJob(submitted, staleBefore)));
  }

  /** A cancellation of a submission whose claim has expired, that nobody won and that was never really sent, is done. */
  lemma CancelExpiredUnboundRows(c: Context, s: Slice, submitted: bool)
    requires Ready(c, s)
    ensures
      var s' := ApplyAll(c, s, Statements(CancelExpiredUnbound(submitted)));
      var moved := AttemptIn(s, {CancelRequested}) && Reached(s.attempt.value.claimExpiresAt, c.now)
                   && s.attempt.value.winner == None && !submitted && LiveIn(c, s.job, {JobCancelRequested});
      && AttemptBecomes(s, s', moved, Row(s, c.now).(status := AttemptCancelled, updatedAt := c.now))
      && JobMovedTo(c, s.job, s'.job, moved, {JobCancelRequested}, JobCancelled)
  {
    TwoStatements(c, s, Pod(R.CancelExpiredUnboundAttempt(submitted)), Pod(R.CancelExpiredUnboundJob));
  }

  // ---------------------------------------------------------------- ends

  lemma FinalizedJob(c: Context, s: Slice, status: AttemptStatus)
    requires status in {AttemptCompleted, AttemptFailed, AttemptCancelled}
    requires s.attempt.Some? ==> s.attempt.value.jobId == c.job
    ensures
      var s' := Apply(c, s, Cloud(C.FinalizeJob(status))).0;
      && s'.attempt == s.attempt && s'.execution == s.execution
      && JobMovedTo(c, s.job, s'.job, AttemptIn(s, {status}) && s.attempt.value.updatedAt == c.now,
                    {JobSubmitting, JobRunning, JobCancelRequested},
                    if status == AttemptCompleted then JobCompleted else if status == AttemptFailed then JobFailed else JobCancelled)
  {
  }

  lemma FailUnobservableAttempt(c: Context, s: Slice, runpodId: int, cutoff: Time, deadline: R.Deadline, submitted: bool)
    requires Ready(c, s)
    ensures
      var s' := R.ApplyOutcome(c, s, R.FailUnobservableAttempt(runpodId, cutoff, deadline, submitted)).0;
      var moved := AttemptIn(s, {Submitting, AttemptRunning, CancelRequested}) && s.attempt.value.terminalStatus == None
                   && Fitting(s) && BoundTo(s.attempt.value, runpodId, submitted)
                   && LiveIn(c, s.job, {JobSubmitting, JobRunning, JobCancelRequested})
                   && (deadline == R.SubmissionDeadline ==> Reached(s.attempt.value.submissionStartedAt, cutoff))
                   && (deadline == R.ExecutionDeadline ==> Reached(s.attempt.value.claimedAt, cutoff));
      && AttemptBecomes(s, s', moved, Row(s, c.now).(status := AttemptFailed, failedAt := Some(c.now), updatedAt := c.now))
      && s'.job == s.job
  {
  }

  /** A job past its submission or execution deadline of which the queue knows nothing any more fails. */
  lemma FailUnobservableRows(c: Context, s: Slice, runpodId: int, cutoff: Time, deadline: R.Deadline, submitted: bool)
    requires Ready(c, s)
    ensures
      var s' := ApplyAll(c, s, Statements(FailUnobservable(runpodId, cutoff, deadline, submitted)));
      var moved := AttemptIn(s, {Submitting, AttemptRunning, CancelRequested}) && s.attempt.value.terminalStatus == None
                   && Fitting(s) && BoundTo(s.attempt.value, runpodId, submitted)
                   && LiveIn(c, s.job, {JobSubmitting, JobRunning, JobCancelRequested})
                   && (deadline == R.SubmissionDeadline ==> Reached(s.attempt.value.submissionStartedAt, cutoff))
                   && (deadline == R.ExecutionDeadline ==> Reached(s.attempt.value.claimedAt, cutoff));
      && AttemptBecomes(s, s', moved, Row(s, c.now).(status := AttemptFailed, failedAt := Some(c.now), updatedAt := c.now))
      && JobMovedTo(c, s.job, s'.job, moved, {JobSubmitting, JobRunning, JobCancelRequested}, JobFailed)
  {
    TwoStatements(c, s, Pod(R.FailUnobservableAttempt(runpodId, cutoff, deadline, submitted)), Cloud(C.FinalizeJob(AttemptFailed)));
    Placed(c, s);
    FailUnobservableAttempt(c, s, runpodId, cutoff, deadline, submitted);
    var s1 := Apply(c, s, Pod(R.FailUnobservableAttempt(runpodId, cutoff, deadline, submitted))).0;
    hide R.ApplyOutcome, C.Apply, ApplyAll, RowsOk, Fitting, BoundTo, Reached, Shadows, JobMovedTo;
    FinalizedJob(c, s1, AttemptFailed);
  }

  /** The end the queue reports is noted once, on the attempt it belongs to, and moves nothing yet. */
  lemma RecordTerminalStatusRows(c: Context, s: Slice, runpodId: int, terminal: TerminalStatus, outputCompleted: bool,
                                 allowUnclaimed: bool, submitted: bool)
    requires Ready(c, s)
    ensures
      var s' := ApplyAll(c, s, Statements(RecordTerminalStatus(runpodId, terminal, outputCompleted, allowUnclaimed, submitted)));
      var moved := AttemptIn(s, {Submitting, AttemptRunning, CancelRequested}) && s.attempt.value.terminalStatus == None
                   && Fitting(s) && BoundTo(s.attempt.value, runpodId, allowUnclaimed && submitted)
                   && LiveIn(c, s.job, {JobSubmitting, JobRunning, JobCancelRequested});
      && s'.job == s.job
      && AttemptBecomes(s, s', moved, Row(s, c.now).(
           terminalJobId := Some(runpodId), terminalStatus := Some(terminal), outputCompleted := outputCompleted,
           updatedAt := c.now))
  {
    OneStatement(c, s, Pod(R.RecordTerminalStatus(runpodId, terminal, outputCompleted, allowUnclaimed, submitted)));
  }

  lemma FinalizeTerminalAttempt(c: Context, s: Slice, runpodId: int, cancelled: bool)
    requires Ready(c, s)
    ensures
      var s' := R.ApplyOutcome(c, s, R.FinalizeTerminalAttempt(runpodId, if cancelled then AttemptCancelled else AttemptFailed)).0;
      var moved := AttemptIn(s, {Submitting, AttemptRunning, CancelRequested})
                   && s.attempt.value.terminalJobId == Some(runpodId) && s.attempt.value.terminalStatus.Some?
                   && Fitting(s) && BoundTo(s.attempt.value, runpodId, true)
                   && LiveIn(c, s.job, {JobSubmitting, JobRunning, JobCancelRequested});
      && AttemptBecomes(s, s', moved, Row(s, c.now).(
           status := if cancelled then AttemptCancelled else AttemptFailed, updatedAt := c.now,
           failedAt := if cancelled then Row(s, c.now).failedAt else Some(c.now)))
      && s'.job == s.job
  {
  }

  lemma TerminalIsTwo(c: Context, s: Slice, runpodId: int, status: AttemptStatus)
    requires status in {AttemptCancelled, AttemptFailed}
    ensures ApplyAll(c, s, Statements(FinalizeTerminal(runpodId, status == AttemptCancelled)))
         == C.ApplyFinal(c, R.ApplyOutcome(c, s, R.FinalizeTerminalAttempt(runpodId, status)).0, C.FinalizeJob(status)).0
  {
    hide R.ApplyOutcome, C.ApplyFinal;
    TwoStatements(c, s, Pod(R.FinalizeTerminalAttempt(runpodId, status)), Cloud(C.FinalizeJob(status)));
  }

  /** A noted end that is no success ends attempt and job as cancelled or failed. */
  lemma FinalizeTerminalRows(c: Context, s: Slice, runpodId: int, cancelled: bool)
    requires Ready(c, s)
    ensures
      var s' := ApplyAll(c, s, Statements(FinalizeTerminal(runpodId, cancelled)));
      var moved := AttemptIn(s, {Submitting, AttemptRunning, CancelRequested})
                   && s.attempt.value.terminalJobId == Some(runpodId) && s.attempt.value.terminalStatus.Some?
                   && Fitting(s) && BoundTo(s.attempt.value, runpodId, true)
                   && LiveIn(c, s.job, {JobSubmitting, JobRunning, JobCancelRequested});
      && AttemptBecomes(s, s', moved, Row(s, c.now).(
           status := if cancelled then AttemptCancelled else AttemptFailed, updatedAt := c.now,
           failedAt := if cancelled then Row(s, c.now).failedAt else Some(c.now)))
      && JobMovedTo(c, s.job, s'.job, moved, {JobSubmitting, JobRunning, JobCancelRequested},
                    if cancelled then JobCancelled else JobFailed)
  {
    hide R.ApplyOutcome, C.ApplyFinal, Statements, ApplyAll, RowsOk, FreshSlice, Fitting, BoundTo, Reached, Shadows, JobMovedTo, LiveIn;
    var status := if cancelled then AttemptCancelled else AttemptFailed;
    TerminalIsTwo(c, s, runpodId, status);
    Placed(c, s);
    FinalizeTerminalAttempt(c, s, runpodId, cancelled);
    var s1 := R.ApplyOutcome(c, s, R.FinalizeTerminalAttempt(runpodId, status)).0;
    FinalizedJob(c, s1, status);
  }

  lemma FinalizeCompletedAttempt(c: Context, s: Slice, runpodId: int, artifactsStored: bool)
    requires Ready(c, s)
    ensures
      var s' := R.ApplyOutcome(c, s, R.CompleteAttempt(runpodId, artifactsStored)).0;
      var moved := AttemptIn(s, {AttemptRunning, CancelRequested}) && s.attempt.value.winner == Some(runpodId)
                   && s.attempt.value.terminalJobId == Some(runpodId)
                   && s.attempt.value.terminalStatus == Some(TermCompleted) && s.attempt.value.outputCompleted
                   && artifactsStored && Fitting(s) && LiveIn(c, s.job, {JobRunning, JobCancelRequested});
      && AttemptBecomes(s, s', moved, Row(s, c.now).(status := AttemptCompleted, updatedAt := c.now))
      && s'.job == s.job
  {
  }

  /** A noted success of the winner completes attempt and job once the output is complete and stored. */
  lemma FinalizeCompletedRows(c: Context, s: Slice, runpodId: int, artifactsStored: bool)
    requires Ready(c, s)
    ensures
      var s' := ApplyAll(c, s, Statements(FinalizeCompleted(runpodId, artifactsStored)));
      var moved := AttemptIn(s, {AttemptRunning, CancelRequested}) && s.attempt.value.winner == Some(runpodId)
                   && s.attempt.value.terminalJobId == Some(runpodId)
                   && s.attempt.value.terminalStatus == Some(TermCompleted) && s.attempt.value.outputCompleted
                   && artifactsStored && Fitting(s) && LiveIn(c, s.job, {JobRunning, JobCancelRequested});
      && AttemptBecomes(s, s', moved, Row(s, c.now).(status := AttemptCompleted, updatedAt := c.now))
      && JobMovedTo(c, s.job, s'.job, moved, {JobRunning, JobCancelRequested}, JobCompleted)
  {
    TwoStatements(c, s, Pod(R.CompleteAttempt(runpodId, artifactsStored)), Cloud(C.FinalizeJob(AttemptCompleted)));
    Placed(c, s);
    FinalizeCompletedAttempt(c, s, runpodId, artifactsStored);
    var s1 := Apply(c, s, Pod(R.CompleteAttempt(runpodId, artifactsStored))).0;
    hide R.ApplyOutcome, C.Apply, ApplyAll, RowsOk, Fitting, BoundTo, Reached, Shadows, JobMovedTo;
    FinalizedJob(c, s1, AttemptCompleted);
  }
}

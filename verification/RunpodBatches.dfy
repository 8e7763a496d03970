/** The guarded UPDATE statements of the RunPod side that move an attempt or its job.  Rows of
    runpod_submissions and job_artifacts enter only as booleans: what the guard found there. */
module RunpodBatches {
  import opened ControllerTypes
  import opened JobTables
  import C = CloudRunBatches

  datatype Deadline = SubmissionDeadline | ExecutionDeadline

  datatype Statement =
    | PrepareSubmission(token: int, expiresAt: Time, optionsValid: bool)
    | MarkJobSubmitting(token: int)
    | MarkSubmissionAccepted(submitted: bool)
    | MarkSubmissionUnknown
    | MarkAttemptRejected
    | MarkJobRejected
    | ClaimWinner(runpodId: int, token: int)
    | FailExpiredUnknownAttempt(submitted: bool)
    | FailExpiredUnknownJob(submitted: bool)
    | FailStaleAcceptedAttempt(submitted: bool, staleBefore: Time)
    | FailStaleAcceptedJob(submitted: bool, staleBefore: Time)
    | CancelExpiredUnboundAttempt(submitted: bool)
    | CancelExpiredUnboundJob
    | FailUnobservableAttempt(runpodId: int, cutoff: Time, deadline: Deadline, submitted: bool)
    | RecordTerminalStatus(runpodId: int, terminal: TerminalStatus, outputCompleted: bool, allowUnclaimed: bool, submitted: bool)
    | FinalizeTerminalAttempt(runpodId: int, status: AttemptStatus)
    | CompleteAttempt(runpodId: int, artifactsStored: bool)

  /** `submission_outcome IS NULL OR submission_outcome = 'unknown'` */
  predicate OutcomeOpen(a: AttemptRow) {
    a.submissionOutcome == None || a.submissionOutcome == Some(CreateUnknown)
  }

  predicate NotAfter(t: Option<Time>, limit: Time) {
    t.Some? && t.value <= limit
  }

  /** The attempt and its execution carry the same facts, or there is neither provider nor execution. */
  predicate Compatible(s: Slice) {
    s.attempt.Some? &&
    match s.attempt.value.provider
    case None => s.execution == None
    case Some(provider) =>
      s.execution.Some? && s.execution.value.provider == provider && Mirrors(s.attempt.value, s.execution.value)
  }

  predicate JobIn(c: Context, s: Slice, statuses: set<JobStatus>) {
    C.LiveJob(c, s) && s.job.value.status in statuses
  }

  predicate Winner(a: AttemptRow, runpodId: int, unclaimed: bool) {
    a.winner == Some(runpodId) || (a.winner == None && unclaimed)
  }

  function ApplySubmission(c: Context, s: Slice, stmt: Statement): (Slice, bool) {
    match stmt
    case PrepareSubmission(token, expiresAt, optionsValid) =>
      if JobIn(c, s, {JobSubmissionPending}) && C.OwnAttempt(c, s)
         && s.attempt.value.status == SubmissionPending
         && s.attempt.value.claimToken == None && s.attempt.value.claimIssuedAt == None
         && s.attempt.value.claimExpiresAt == None && s.attempt.value.claimConsumedAt == None
         && s.attempt.value.provider == Some(RunPod) && optionsValid
         && Compatible(s) && s.execution.value.status == ExecWaiting
         && c.othersIdle
      then SetAttempt(s, s.attempt.value.(
             status := Submitting, claimToken := Some(token), claimIssuedAt := Some(c.now),
             claimExpiresAt := Some(expiresAt), claimConsumedAt := None, submissionStartedAt := Some(c.now),
             submissionOutcome := None, submissionFinishedAt := None, updatedAt := c.now))
      else (s, false)
    case MarkJobSubmitting(token) =>
      if JobIn(c, s, {JobSubmissionPending}) && C.OwnAttempt(c, s) && s.attempt.value.status == Submitting
         && s.attempt.value.claimToken == Some(token) && s.attempt.value.claimIssuedAt == Some(c.now)
         && s.execution.Some? && s.execution.value.status == ExecCreating
         && s.attempt.value.provider == Some(s.execution.value.provider)
      then SetJob(s, C.JobMoved(s.job.value, JobSubmitting, c.now))
      else (s, false)
    case MarkSubmissionAccepted(submitted) =>
      if s.attempt.Some? && s.attempt.value.status == Submitting && submitted
      then SetAttempt(s, s.attempt.value.(
             submissionOutcome := Some(CreateAccepted), submissionFinishedAt := Some(c.now), updatedAt := c.now))
      else (s, false)
    case MarkSubmissionUnknown =>
      if s.attempt.Some? && s.attempt.value.status == Submitting && s.attempt.value.submissionOutcome == None
      then SetAttempt(s, s.attempt.value.(
             submissionOutcome := Some(CreateUnknown), submissionFinishedAt := Some(c.now), updatedAt := c.now))
      else (s, false)
    case MarkAttemptRejected =>
      if s.attempt.Some? && s.attempt.value.status == Submitting && s.attempt.value.submissionOutcome == None
      then SetAttempt(s, s.attempt.value.(
             status := AttemptFailed, submissionOutcome := Some(CreateRejected), submissionFinishedAt := Some(c.now),
             failedAt := Some(c.now), updatedAt := c.now))
      else (s, false)
    case MarkJobRejected =>
      if s.job.Some? && s.job.value.active == Some(c.attempt) && s.job.value.status == JobSubmitting
         && C.OwnAttempt(c, s) && s.attempt.value.status == AttemptFailed
         && s.attempt.value.submissionOutcome == Some(CreateRejected)
      then SetJob(s, C.JobMoved(s.job.value, JobFailed, c.now))
      else (s, false)
    case ClaimWinner(runpodId, token) =>
      if C.OwnAttempt(c, s) && s.attempt.value.status == Submitting && s.attempt.value.winner == None
         && s.attempt.value.claimToken == Some(token) && s.attempt.value.claimIssuedAt.Some?
         && s.attempt.value.claimExpiresAt.Some? && s.attempt.value.claimExpiresAt.value > c.now
         && s.attempt.value.claimConsumedAt == None
         && JobIn(c, s, {JobSubmitting})
      then SetAttempt(s, s.attempt.value.(
             status := AttemptRunning, winner := Some(runpodId), claimConsumedAt := Some(c.now),
             claimedAt := Some(c.now), updatedAt := c.now))
      else (s, false)
    case _ => (s, false)
  }

  function ApplyExpiry(c: Context, s: Slice, stmt: Statement): (Slice, bool) {
    match stmt
    case FailExpiredUnknownAttempt(submitted) =>
      if C.OwnAttempt(c, s) && s.attempt.value.status == Submitting && OutcomeOpen(s.attempt.value)
         && NotAfter(s.attempt.value.claimExpiresAt, c.now) && s.attempt.value.winner == None && !submitted
         && JobIn(c, s, {JobSubmitting})
      then SetAttempt(s, s.attempt.value.(status := AttemptFailed, failedAt := Some(c.now), updatedAt := c.now))
      else (s, false)
    case FailExpiredUnknownJob(submitted) =>
      if JobIn(c, s, {JobSubmitting}) && C.OwnAttempt(c, s) && s.attempt.value.status == AttemptFailed
         && OutcomeOpen(s.attempt.value) && s.attempt.value.failedAt == Some(c.now)
         && s.attempt.value.winner == None && !submitted
      then SetJob(s, C.JobMoved(s.job.value, JobFailed, c.now))
      else (s, false)
    case FailStaleAcceptedAttempt(submitted, staleBefore) =>
      if C.OwnAttempt(c, s) && s.attempt.value.status == Submitting
         && s.attempt.value.submissionOutcome == Some(CreateAccepted)
         && NotAfter(s.attempt.value.submissionFinishedAt, staleBefore)
         && s.attempt.value.winner == None && s.attempt.value.terminalStatus == None && submitted
         && JobIn(c, s, {JobSubmitting})
      then SetAttempt(s, s.attempt.value.(status := AttemptFailed, failedAt := Some(c.now), updatedAt := c.now))
      else (s, false)
    case FailStaleAcceptedJob(submitted, staleBefore) =>
      if JobIn(c, s, {JobSubmitting}) && C.OwnAttempt(c, s) && s.attempt.value.status == AttemptFailed
         && s.attempt.value.submissionOutcome == Some(CreateAccepted)
         && NotAfter(s.attempt.value.submissionFinishedAt, staleBefore) && s.attempt.value.failedAt == Some(c.now)
         && s.attempt.value.winner == None && s.attempt.value.terminalStatus == None && submitted
      then SetJob(s, C.JobMoved(s.job.value, JobFailed, c.now))
      else (s, false)
    case CancelExpiredUnboundAttempt(submitted) =>
      if C.OwnAttempt(c, s) && s.attempt.value.status == CancelRequested
         && NotAfter(s.attempt.value.claimExpiresAt, c.now) && s.attempt.value.winner == None && !submitted
         && JobIn(c, s, {JobCancelRequested})
      then SetAttempt(s, s.attempt.value.(status := AttemptCancelled, updatedAt := c.now))
      else (s, false)
    case CancelExpiredUnboundJob =>
      if JobIn(c, s, {JobCancelRequested}) && C.JustUpdated(c, s, AttemptCancelled) && s.attempt.value.winner == None
      then SetJob(s, C.JobMoved(s.job.value, JobCancelled, c.now))
      else (s, false)
    case _ => (s, false)
  }

  function ApplyOutcome(c: Context, s: Slice, stmt: Statement): (Slice, bool) {
    match stmt
    case FailUnobservableAttempt(runpodId, cutoff, deadline, submitted) =>
      if C.OwnAttempt(c, s) && IsActive(s.attempt.value.status) && s.attempt.value.terminalStatus == None
         && Compatible(s)
         && NotAfter(if deadline == SubmissionDeadline then s.attempt.value.submissionStartedAt
                     else s.attempt.value.claimedAt, cutoff)
         && Winner(s.attempt.value, runpodId, submitted)
         && JobIn(c, s, {JobSubmitting, JobRunning, JobCancelRequested})
      then SetAttempt(s, s.attempt.value.(status := AttemptFailed, failedAt := Some(c.now), updatedAt := c.now))
      else (s, false)
    case RecordTerminalStatus(runpodId, terminal, outputCompleted, allowUnclaimed, submitted) =>
      if C.OwnAttempt(c, s) && IsActive(s.attempt.value.status) && s.attempt.value.terminalStatus == None
         && Compatible(s)
         && JobIn(c, s, {JobSubmitting, JobRunning, JobCancelRequested})
         && Winner(s.attempt.value, runpodId, allowUnclaimed && submitted)
      then SetAttempt(s, s.attempt.value.(
             terminalJobId := Some(runpodId), terminalStatus := Some(terminal), outputCompleted := outputCompleted,
             updatedAt := c.now))
      else (s, false)
    case FinalizeTerminalAttempt(runpodId, status) =>
      if C.OwnAttempt(c, s) && IsActive(s.attempt.value.status)
         && s.attempt.value.terminalJobId == Some(runpodId) && s.attempt.value.terminalStatus.Some?
         && Compatible(s)
         && Winner(s.attempt.value, runpodId, status in {AttemptFailed, AttemptCancelled})
         && JobIn(c, s, {JobSubmitting, JobRunning, JobCancelRequested})
      then SetAttempt(s, s.attempt.value.(
             status := status,
             failedAt := if status == AttemptFailed then Some(c.now) else s.attempt.value.failedAt,
             updatedAt := c.now))
      else (s, false)
    case CompleteAttempt(runpodId, artifactsStored) =>
      if C.OwnAttempt(c, s) && s.attempt.value.status in {AttemptRunning, CancelRequested}
         && s.attempt.value.winner == Some(runpodId) && s.attempt.value.terminalJobId == Some(runpodId)
         && s.attempt.value.terminalStatus == Some(TermCompleted) && s.attempt.value.outputCompleted
         && Compatible(s) && artifactsStored
         && JobIn(c, s, {JobRunning, JobCancelRequested})
      then SetAttempt(s, s.attempt.value.(status := AttemptCompleted, updatedAt := c.now))
      else (s, false)
    case _ => (s, false)
  }

  function Apply(c: Context, s: Slice, stmt: Statement): (Slice, bool) {
    match stmt
    case FailExpiredUnknownAttempt(_) => ApplyExpiry(c, s, stmt)
    case FailExpiredUnknownJob(_) => ApplyExpiry(c, s, stmt)
    case FailStaleAcceptedAttempt(_, _) => ApplyExpiry(c, s, stmt)
    case FailStaleAcceptedJob(_, _) => ApplyExpiry(c, s, stmt)
    case CancelExpiredUnboundAttempt(_) => ApplyExpiry(c, s, stmt)
    case CancelExpiredUnboundJob => ApplyExpiry(c, s, stmt)
    case FailUnobservableAttempt(_, _, _, _) => ApplyOutcome(c, s, stmt)
    case RecordTerminalStatus(_, _, _, _, _) => ApplyOutcome(c, s, stmt)
    case FinalizeTerminalAttempt(_, _) => ApplyOutcome(c, s, stmt)
    case CompleteAttempt(_, _) => ApplyOutcome(c, s, stmt)
    case _ => ApplySubmission(c, s, stmt)
  }
}

/** The guarded UPDATE statements of the Cloud Run side: claiming an attempt, recording what the controller
    answered, deferring, failing, and finalizing. */
module CloudRunBatches {
  import opened ControllerTypes
  import opened JobTables

  datatype Response =
    | RespAccepted | RespPending | RespRunning | RespSucceeded | RespFailed | RespCancelled | RespCleaned | RespUnknown | RespRejected

  datatype ControlAction = CancelAction | CleanupAction | ObserveAction | ReconcileAction

  datatype Statement =
    | ClaimExecution(handle: int)
    | ClaimAttempt
    | ClaimJob
    | RecordResponseExecution(handle: int, response: Response, providerVersion: int)
    | RecordResponseAttempt(handle: int, response: Response, providerVersion: int)
    | RecordResponseJob(response: Response)
    | RecordUnknownExecution(handle: int)
    | RecordUnknownAttempt
    | DeferExecution(handle: int)
    | DeferAttempt
    | DeferJob
    | RejectExecution(handle: int, providerVersion: int)
    | RejectAttempt(handle: int)
    | ApplyExecution(handle: int, expectedVersion: int, action: ControlAction, response: Response, providerVersion: int)
    | ApplyAttempt(handle: int, response: Response)
    | ApplyJob(response: Response)
    | FailMissingExecution(handle: int, expectedVersion: int)
    | FailMissingAttempt(handle: int)
    | CompleteExecution(handle: int, evidence: bool)
    | CompleteAttempt(handle: int)
    | TerminateExecution(handle: int, terminal: TerminalStatus, evidence: bool)
    | TerminateAttempt(handle: int, status: AttemptStatus, terminal: TerminalStatus)
    | FinalizeJob(status: AttemptStatus)
    | MarkExecutionRunning(handle: int, providerVersion: int)
    | MarkAttemptRunning
    | MarkJobRunning

  // ---------------------------------------------------------------- shared parts of the WHERE clauses

  predicate CloudExecution(s: Slice) {
    s.execution.Some? && s.execution.value.provider == CloudRun
  }

  predicate Holds(s: Slice, handle: int) {
    CloudExecution(s) && s.execution.value.handle == Some(handle)
  }

  predicate OwnAttempt(c: Context, s: Slice) {
    s.attempt.Some? && s.attempt.value.jobId == c.job
  }

  predicate OwnCloudAttempt(c: Context, s: Slice) {
    OwnAttempt(c, s) && s.attempt.value.provider == Some(CloudRun)
  }

  /** The job is undeleted and the attempt is its active one. */
  predicate LiveJob(c: Context, s: Slice) {
    s.job.Some? && s.job.value.active == Some(c.attempt) && s.job.value.deletedAt == None
  }

  /** The guard "updated by this batch". */
  predicate JustUpdated(c: Context, s: Slice, status: AttemptStatus) {
    OwnAttempt(c, s) && s.attempt.value.status == status && s.attempt.value.updatedAt == c.now
  }

  function Touched(e: ExecRow, now: Time): ExecRow {
    e.(version := e.version + 1, updatedAt := now)
  }

  function JobMoved(job: JobRow, status: JobStatus, now: Time): JobRow {
    job.(status := status, version := job.version + 1, updatedAt := now)
  }

  function Coalesce<T>(stored: Option<T>, value: T): Option<T> {
    if stored.Some? then stored else Some(value)
  }

  // ---------------------------------------------------------------- claiming

  function ApplyClaim(c: Context, s: Slice, stmt: Statement): (Slice, bool) {
    match stmt
    case ClaimExecution(handle) =>
      if CloudExecution(s) && s.execution.value.status == ExecWaiting && s.execution.value.handle == None
         && c.othersIdle
         && LiveJob(c, s) && s.job.value.status == JobSubmissionPending
         && OwnAttempt(c, s) && s.attempt.value.status == SubmissionPending
      then SetExecution(s, Touched(s.execution.value, c.now).(
             status := ExecCreating, createOutcome := None, handle := Some(handle), providerVersion := None))
      else (s, false)
    case ClaimAttempt =>
      if OwnCloudAttempt(c, s) && s.attempt.value.status == SubmissionPending
         && s.execution.Some? && s.execution.value.status == ExecCreating && s.execution.value.handle.Some?
         && s.execution.value.updatedAt == c.now
      then SetAttempt(s, s.attempt.value.(
             status := Submitting, submissionStartedAt := Some(c.now), submissionFinishedAt := None,
             submissionOutcome := None, updatedAt := c.now))
      else (s, false)
    case ClaimJob =>
      if LiveJob(c, s) && s.job.value.status == JobSubmissionPending && JustUpdated(c, s, Submitting)
      then SetJob(s, JobMoved(s.job.value, JobSubmitting, c.now))
      else (s, false)
    case _ => (s, false)
  }

  // ---------------------------------------------------------------- recording the create response

  function ResponseExec(response: Response): ExecStatus {
    if response == RespRunning then ExecActive else ExecCreating
  }

  function ResponseAttempt(response: Response): AttemptStatus {
    if response == RespRunning then AttemptRunning else Submitting
  }

  function ResponseOutcome(response: Response): CreateOutcome {
    if response in {RespUnknown, RespRejected} then CreateUnknown else CreateAccepted
  }

  function ApplyRecord(c: Context, s: Slice, stmt: Statement): (Slice, bool) {
    match stmt
    case RecordResponseExecution(handle, response, providerVersion) =>
      if Holds(s, handle) && s.execution.value.status == ExecCreating
      then SetExecution(s, Touched(s.execution.value, c.now).(
             status := ResponseExec(response), createOutcome := Some(ResponseOutcome(response)),
             providerVersion := Some(providerVersion)))
      else (s, false)
    case RecordResponseAttempt(handle, response, providerVersion) =>
      if OwnCloudAttempt(c, s) && s.attempt.value.status == Submitting
         && s.execution.Some? && s.execution.value.handle == Some(handle)
         && s.execution.value.status == ResponseExec(response)
         && s.execution.value.providerVersion == Some(providerVersion)
         && s.execution.value.updatedAt == c.now
      then SetAttempt(s, s.attempt.value.(
             status := ResponseAttempt(response), submissionOutcome := Some(ResponseOutcome(response)),
             submissionFinishedAt := Some(c.now),
             claimedAt := if response == RespRunning then Coalesce(s.attempt.value.claimedAt, c.now)
                          else s.attempt.value.claimedAt,
             updatedAt := c.now))
      else (s, false)
    case RecordResponseJob(response) =>
      if LiveJob(c, s) && s.job.value.status == JobSubmitting && JustUpdated(c, s, ResponseAttempt(response))
      then SetJob(s, JobMoved(s.job.value, JobStatusOf(ResponseAttempt(response)), c.now))
      else (s, false)
    case RecordUnknownExecution(handle) =>
      if Holds(s, handle) && s.execution.value.status == ExecCreating
      then SetExecution(s, Touched(s.execution.value, c.now).(createOutcome := Some(CreateUnknown)))
      else (s, false)
    case RecordUnknownAttempt =>
      if OwnCloudAttempt(c, s) && s.attempt.value.status == Submitting
         && s.execution.Some? && s.execution.value.createOutcome == Some(CreateUnknown)
         && s.execution.value.updatedAt == c.now
      then SetAttempt(s, s.attempt.value.(
             submissionOutcome := Some(CreateUnknown), submissionFinishedAt := Some(c.now), updatedAt := c.now))
      else (s, false)
    case _ => (s, false)
  }

  // ---------------------------------------------------------------- deferring and rejecting

  function ApplyDefer(c: Context, s: Slice, stmt: Statement): (Slice, bool) {
    match stmt
    case DeferExecution(handle) =>
      if Holds(s, handle) && s.execution.value.status == ExecCreating
         && OwnAttempt(c, s) && s.attempt.value.status == Submitting
      then SetExecution(s, Touched(s.execution.value, c.now).(
             status := ExecWaiting, createOutcome := None, handle := None, providerVersion := None))
      else (s, false)
    case DeferAttempt =>
      if OwnCloudAttempt(c, s) && s.attempt.value.status == Submitting
         && s.execution.Some? && s.execution.value.status == ExecWaiting && s.execution.value.handle == None
         && s.execution.value.updatedAt == c.now
      then SetAttempt(s, s.attempt.value.(
             status := SubmissionPending, submissionStartedAt := None, submissionOutcome := None,
             submissionFinishedAt := None, updatedAt := c.now))
      else (s, false)
    case DeferJob =>
      if LiveJob(c, s) && s.job.value.status == JobSubmitting && JustUpdated(c, s, SubmissionPending)
      then SetJob(s, JobMoved(s.job.value, JobSubmissionPending, c.now))
      else (s, false)
    case RejectExecution(handle, providerVersion) =>
      if Holds(s, handle) && s.execution.value.status == ExecCreating
      then SetExecution(s, Touched(s.execution.value, c.now).(
             status := ExecTerminal, createOutcome := Some(CreateRejected), terminalStatus := Some(TermFailed),
             cleanup := CleanupSucceeded, providerVersion := Some(providerVersion)))
      else (s, false)
    case RejectAttempt(handle) =>
      if OwnAttempt(c, s) && s.attempt.value.status == Submitting
         && s.execution.Some? && s.execution.value.handle == Some(handle)
         && s.execution.value.status == ExecTerminal && s.execution.value.createOutcome == Some(CreateRejected)
         && s.execution.value.updatedAt == c.now
      then SetAttempt(s, s.attempt.value.(
             status := AttemptFailed, submissionOutcome := Some(CreateRejected), submissionFinishedAt := Some(c.now),
             failedAt := Some(c.now), updatedAt := c.now))
      else (s, false)
    case _ => (s, false)
  }

  // ---------------------------------------------------------------- applying later responses

  function AppliedExec(e: ExecRow, action: ControlAction, response: Response): ExecStatus {
    if response in {RespFailed, RespCancelled, RespSucceeded, RespCleaned} then ExecTerminal
    else if response == RespRunning then ExecActive
    else if action == CancelAction && response in {RespAccepted, RespPending} then ExecCancelRequested
    else e.status
  }

  function AppliedOutcome(e: ExecRow, response: Response): Option<CreateOutcome> {
    if response in {RespAccepted, RespPending, RespRunning, RespSucceeded, RespFailed, RespCancelled, RespCleaned} then
      Coalesce(e.createOutcome, CreateAccepted)
    else if response == RespUnknown then Coalesce(e.createOutcome, CreateUnknown)
    else e.createOutcome
  }

  function AppliedTerminal(e: ExecRow, response: Response): Option<TerminalStatus> {
    match response
    case RespSucceeded => Some(TermCompleted)
    case RespFailed => Some(TermFailed)
    case RespCancelled => Some(TermCancelled)
    case RespCleaned => Coalesce(e.terminalStatus, TermCancelled)
    case _ => e.terminalStatus
  }

  function AppliedCleanup(e: ExecRow, action: ControlAction, response: Response): CleanupStatus {
    if response == RespCleaned then CleanupSucceeded
    else if response in {RespFailed, RespCancelled} then CleanupPending
    else if action == CleanupAction && e.cleanup in {NotRequested, CleanupPending} then CleanupInProgress
    else e.cleanup
  }

  predicate MovesAttempt(response: Response) {
    response in {RespRunning, RespFailed, RespCancelled, RespCleaned}
  }

  function AppliedAttempt(response: Response): AttemptStatus
    requires MovesAttempt(response)
  {
    match response case RespRunning => AttemptRunning case RespFailed => AttemptFailed case _ => AttemptCancelled
  }

  function ApplyResponse(c: Context, s: Slice, stmt: Statement): (Slice, bool) {
    match stmt
    case ApplyExecution(handle, expectedVersion, action, response, providerVersion) =>
      if Holds(s, handle) && s.execution.value.version == expectedVersion
      then
        var e := s.execution.value;
        SetExecution(s, Touched(e, c.now).(
          status := AppliedExec(e, action, response), createOutcome := AppliedOutcome(e, response),
          terminalStatus := AppliedTerminal(e, response), cleanup := AppliedCleanup(e, action, response),
          providerVersion := Some(providerVersion)))
      else (s, false)
    case ApplyAttempt(handle, response) =>
      if OwnAttempt(c, s) && IsActive(s.attempt.value.status) && MovesAttempt(response)
         && s.execution.Some? && s.execution.value.handle == Some(handle) && s.execution.value.updatedAt == c.now
      then SetAttempt(s, s.attempt.value.(
             status := AppliedAttempt(response),
             submissionOutcome := if response == RespRunning then Some(CreateAccepted) else s.attempt.value.submissionOutcome,
             submissionFinishedAt := if response == RespRunning then Coalesce(s.attempt.value.submissionFinishedAt, c.now)
                                     else s.attempt.value.submissionFinishedAt,
             claimedAt := if response == RespRunning then Coalesce(s.attempt.value.claimedAt, c.now)
                          else s.attempt.value.claimedAt,
             failedAt := if response == RespFailed then Some(c.now) else s.attempt.value.failedAt,
             updatedAt := c.now))
      else (s, false)
    case ApplyJob(response) =>
      if LiveJob(c, s) && IsActiveJob(s.job.value.status) && MovesAttempt(response)
         && OwnAttempt(c, s) && s.attempt.value.updatedAt == c.now
      then SetJob(s, JobMoved(s.job.value, JobStatusOf(AppliedAttempt(response)), c.now))
      else (s, false)
    case FailMissingExecution(handle, expectedVersion) =>
      if Holds(s, handle) && s.execution.value.status == ExecTerminal && s.execution.value.terminalStatus.Some?
         && s.execution.value.cleanup == NotRequested && s.execution.value.version == expectedVersion
      then SetExecution(s, Touched(s.execution.value, c.now).(cleanup := CleanupPending))
      else (s, false)
    case FailMissingAttempt(handle) =>
      if OwnAttempt(c, s) && IsActive(s.attempt.value.status)
         && s.execution.Some? && s.execution.value.handle == Some(handle)
         && s.execution.value.cleanup == CleanupPending && s.execution.value.updatedAt == c.now
      then SetAttempt(s, s.attempt.value.(
             status := AttemptFailed, failedAt := Some(c.now), updatedAt := c.now))
      else (s, false)
    case _ => (s, false)
  }

  // ---------------------------------------------------------------- the worker's terminal report, and its start

  predicate StillOpen(s: Slice, handle: int) {
    Holds(s, handle) && s.execution.value.status in {ExecCreating, ExecActive, ExecCancelRequested}
  }

  function ApplyFinal(c: Context, s: Slice, stmt: Statement): (Slice, bool) {
    match stmt
    case CompleteExecution(handle, evidence) =>
      if StillOpen(s, handle) && evidence
      then SetExecution(s, Touched(s.execution.value, c.now).(
             status := ExecTerminal, createOutcome := Some(CreateAccepted), terminalStatus := Some(TermCompleted),
             cleanup := if s.execution.value.cleanup == NotRequested then CleanupPending else s.execution.value.cleanup))
      else (s, false)
    case CompleteAttempt(handle) =>
      if OwnCloudAttempt(c, s) && IsActive(s.attempt.value.status)
         && s.attempt.value.claimedAt.Some? && s.attempt.value.claimedAt.value <= c.now
         && s.execution.Some? && s.execution.value.handle == Some(handle)
         && s.execution.value.status == ExecTerminal && s.execution.value.terminalStatus == Some(TermCompleted)
      then SetAttempt(s, s.attempt.value.(status := AttemptCompleted, updatedAt := c.now))
      else (s, false)
    case TerminateExecution(handle, terminal, evidence) =>
      if StillOpen(s, handle) && evidence
      then SetExecution(s, Touched(s.execution.value, c.now).(
             status := ExecTerminal, createOutcome := Coalesce(s.execution.value.createOutcome, CreateAccepted),
             terminalStatus := Some(terminal),
             cleanup := if s.execution.value.cleanup == NotRequested then CleanupPending else s.execution.value.cleanup))
      else (s, false)
    case TerminateAttempt(handle, status, terminal) =>
      if OwnCloudAttempt(c, s) && IsActive(s.attempt.value.status)
         && s.execution.Some? && s.execution.value.handle == Some(handle)
         && s.execution.value.status == ExecTerminal && s.execution.value.terminalStatus == Some(terminal)
      then SetAttempt(s, s.attempt.value.(
             status := status,
             failedAt := if status == AttemptFailed then Some(c.now) else s.attempt.value.failedAt,
             updatedAt := c.now))
      else (s, false)
    case FinalizeJob(status) =>
      if LiveJob(c, s) && IsActiveJob(s.job.value.status) && JustUpdated(c, s, status)
      then SetJob(s, JobMoved(s.job.value, JobStatusOf(status), c.now))
      else (s, false)
    case MarkExecutionRunning(handle, providerVersion) =>
      if Holds(s, handle) && s.execution.value.status == ExecCreating
         && OwnAttempt(c, s) && s.attempt.value.status == Submitting
      then SetExecution(s, Touched(s.execution.value, c.now).(
             status := ExecActive, createOutcome := Some(CreateAccepted), providerVersion := Some(providerVersion)))
      else (s, false)
    case MarkAttemptRunning =>
      if OwnCloudAttempt(c, s) && s.attempt.value.status == Submitting
         && s.execution.Some? && s.execution.value.status == ExecActive
      then SetAttempt(s, s.attempt.value.(
             status := AttemptRunning, submissionOutcome := Some(CreateAccepted),
             submissionFinishedAt := Coalesce(s.attempt.value.submissionFinishedAt, c.now),
             claimedAt := Coalesce(s.attempt.value.claimedAt, c.now), updatedAt := c.now))
      else (s, false)
    case MarkJobRunning =>
      if LiveJob(c, s) && s.job.value.status == JobSubmitting
         && OwnAttempt(c, s) && s.attempt.value.status == AttemptRunning
      then SetJob(s, JobMoved(s.job.value, JobRunning, c.now))
      else (s, false)
    case _ => (s, false)
  }

  function Apply(c: Context, s: Slice, stmt: Statement): (Slice, bool) {
    match stmt
    case ClaimExecution(_) => ApplyClaim(c, s, stmt)
    case ClaimAttempt => ApplyClaim(c, s, stmt)
    case ClaimJob => ApplyClaim(c, s, stmt)
    case RecordResponseExecution(_, _, _) => ApplyRecord(c, s, stmt)
    case RecordResponseAttempt(_, _, _) => ApplyRecord(c, s, stmt)
    case RecordResponseJob(_) => ApplyRecord(c, s, stmt)
    case RecordUnknownExecution(_) => ApplyRecord(c, s, stmt)
    case RecordUnknownAttempt => ApplyRecord(c, s, stmt)
    case DeferExecution(_) => ApplyDefer(c, s, stmt)
    case DeferAttempt => ApplyDefer(c, s, stmt)
    case DeferJob => ApplyDefer(c, s, stmt)
    case RejectExecution(_, _) => ApplyDefer(c, s, stmt)
    case RejectAttempt(_) => ApplyDefer(c, s, stmt)
    case ApplyExecution(_, _, _, _, _) => ApplyResponse(c, s, stmt)
    case ApplyAttempt(_, _) => ApplyResponse(c, s, stmt)
    case ApplyJob(_) => ApplyResponse(c, s, stmt)
    case FailMissingExecution(_, _) => ApplyResponse(c, s, stmt)
    case FailMissingAttempt(_) => ApplyResponse(c, s, stmt)
    case _ => ApplyFinal(c, s, stmt)
  }
}

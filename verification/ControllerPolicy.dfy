/** The decisions of the GPU controller that need neither the store nor the provider: which fields each
    answer changes, and what each record state calls for next. */
module ControllerPolicy {
  import opened ControllerTypes

  const PROVISIONING_WINDOW_MS := 5 * 60_000
  const CREATE_RECONCILIATION_DELAY_MS := 5_000
  const RECORD_TTL_MS := 31 * 24 * 60 * 60_000

  /** A job read says whether the job it found carries the fixed manifest of this record. */
  datatype JobRead = JobUnavailable | JobMissing | JobFound(job: ProviderJob, manifestMatches: bool)

  datatype ExecutionRead = ExecutionsUnavailable | ExecutionsFound(executions: seq<ProviderExecution>)

  datatype OperationRead = OperationNotFailed | OperationFailed(errorKind: ErrorKind)

  datatype Rejection =
    | RejectBudget | RejectEnvironment | RejectRate | RejectConflict | RejectStale(version: int)

  datatype Reply =
    | Rejected(request: Request, reason: Rejection)
    | Responded(request: Request, record: ControlRecord)
    | Reaped

  /** What `tryUpdate` writes: the changed fields under the next version. */
  function Touch(changed: ControlRecord, now: Time): ControlRecord {
    changed.(version := changed.version + 1, updatedAt := now)
  }

  function ProviderError(kind: ErrorKind): ErrorCode {
    match kind case Retryable => PROVIDER_RETRYABLE case Permanent => PROVIDER_PERMANENT
  }

  // ---------------------------------------------------------------- creating the job

  function CreateClaimed(r: ControlRecord): ControlRecord {
    r.(state := CREATE_INTENT, createAttempts := r.createAttempts + 1, errorCode := None)
  }

  /** A conflict changes nothing here: the caller reads the job back instead. */
  function CreateAnswered(r: ControlRecord, result: ProviderMutation): ControlRecord
    requires !result.MutationConflict?
  {
    match result
    case MutationAccepted(ref) => r.(state := JOB_PENDING, operationRef := Some(ref), errorCode := None)
    case MutationUnknown => r.(state := CREATE_UNKNOWN, errorCode := Some(UNKNOWN_OUTCOME))
    case MutationRejected(kind) => r.(state := FAILED, errorCode := Some(ProviderError(kind)))
  }

  /** The clock is read once for the delay and once for the deadline. */
  predicate MayCreateAgain(r: ControlRecord, elapsedAt: Time, deadlineAt: Time) {
    && r.createAttempts < 2
    && (r.createAttempts == 0 || elapsedAt - r.createdAt >= CREATE_RECONCILIATION_DELAY_MS)
    && deadlineAt < r.provisioningDeadline
  }

  function OutcomeUnknown(r: ControlRecord): ControlRecord {
    r.(errorCode := Some(UNKNOWN_OUTCOME))
  }

  function CreateUnknown(r: ControlRecord): ControlRecord {
    r.(state := CREATE_UNKNOWN, errorCode := Some(UNKNOWN_OUTCOME))
  }

  function CreateFailed(r: ControlRecord, kind: ErrorKind): ControlRecord {
    r.(state := FAILED, errorCode := Some(ProviderError(kind)))
  }

  function JobDrifted(r: ControlRecord, job: ProviderJob): ControlRecord {
    r.(state := FAILED, job := Some(job), cleanupIntent := true, errorCode := Some(RESOURCE_DRIFT))
  }

  function JobSeen(r: ControlRecord, job: ProviderJob): ControlRecord {
    r.(state := if job.ready then JOB_READY else JOB_PENDING, job := Some(job), errorCode := None)
  }

  // ---------------------------------------------------------------- running it

  function RunClaimed(r: ControlRecord): ControlRecord {
    r.(state := RUN_INTENT, runIntent := true)
  }

  function RunAnswered(r: ControlRecord, result: ProviderMutation): ControlRecord {
    match result
    case MutationAccepted(ref) => r.(state := EXECUTION_PENDING, operationRef := Some(ref), errorCode := None)
    case MutationUnknown => r.(state := EXECUTION_PENDING, errorCode := Some(UNKNOWN_OUTCOME))
    case MutationConflict => r.(state := FAILED, errorCode := Some(CONFLICT))
    case MutationRejected(kind) => r.(state := FAILED, errorCode := Some(ProviderError(kind)))
  }

  // ---------------------------------------------------------------- watching the execution

  function NoExecutionYet(r: ControlRecord): ControlRecord {
    r.(state := EXECUTION_PENDING, errorCode := None)
  }

  function TooManyExecutions(r: ControlRecord): ControlRecord {
    r.(state := FAILED, cleanupIntent := true, errorCode := Some(MULTIPLE_EXECUTIONS))
  }

  function ExecutionDrifted(r: ControlRecord): ControlRecord {
    r.(state := FAILED, cleanupIntent := true, errorCode := Some(RESOURCE_DRIFT))
  }

  predicate Drifted(r: ControlRecord, execution: ProviderExecution) {
    r.job == None || r.job.value.ref != execution.jobRef
  }

  function StateOf(status: ExecutionStatus): ControlState {
    match status
    case ExecPending => EXECUTION_PENDING
    case ExecRunning => RUNNING
    case ExecSucceeded => SUCCEEDED
    case ExecFailed => FAILED
    case ExecCancelled => CANCELLED
  }

  function ExecutionSeen(r: ControlRecord, execution: ProviderExecution): ControlRecord {
    r.(state := StateOf(execution.status),
       execution := Some(execution),
       errorCode := if execution.status == ExecFailed then Some(PROVIDER_PERMANENT) else None)
  }

  // ---------------------------------------------------------------- cancelling and cleaning up

  function CancelClaimed(r: ControlRecord): ControlRecord {
    r.(state := CANCEL_PENDING, cancelIntent := true)
  }

  function CancelAnswered(r: ControlRecord, result: ProviderMutation): ControlRecord {
    r.(errorCode :=
         if result == MutationRejected(Permanent) then Some(PROVIDER_PERMANENT)
         else if result == MutationUnknown then Some(UNKNOWN_OUTCOME)
         else None)
  }

  function CleanupMarked(r: ControlRecord): ControlRecord {
    r.(state := CLEANUP_PENDING, cleanupIntent := true)
  }

  function CleanupUnfinished(r: ControlRecord): ControlRecord {
    r.(state := CLEANUP_PENDING, errorCode := Some(UNKNOWN_OUTCOME))
  }

  function CleanedUp(r: ControlRecord): ControlRecord {
    r.(state := CLEANED, job := None, execution := None, operationRef := None, errorCode := None)
  }

  predicate NeedsReaping(r: ControlRecord, now: Time) {
    r.cleanupIntent || r.provisioningDeadline <= now
  }

  predicate StillActive(execution: ProviderExecution) {
    execution.status == ExecPending || execution.status == ExecRunning
  }

  // ---------------------------------------------------------------- the answer

  datatype Outcome =
    | OutcomeAccepted | OutcomeUnknownYet | OutcomePending | OutcomeRunning | OutcomeSucceeded
    | OutcomeFailed | OutcomeCancelled | OutcomeCleaned

  function OutcomeOf(r: ControlRecord): Outcome {
    if r.errorCode == Some(UNKNOWN_OUTCOME) then OutcomeUnknownYet
    else match r.state
      case CREATE_INTENT => OutcomeAccepted
      case CREATE_UNKNOWN => OutcomeUnknownYet
      case JOB_PENDING => OutcomePending
      case JOB_READY => OutcomePending
      case RUN_INTENT => OutcomePending
      case EXECUTION_PENDING => OutcomePending
      case RUNNING => OutcomeRunning
      case SUCCEEDED => OutcomeSucceeded
      case FAILED => OutcomeFailed
      case CANCEL_PENDING => OutcomePending
      case CANCELLED => OutcomeCancelled
      case CLEANUP_PENDING => OutcomePending
      case CLEANED => OutcomeCleaned
  }
}

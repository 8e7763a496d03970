/** Values shared by the GPU controller's stores and handlers.
    Identifiers, digests and resource names are only ever compared, so integers stand for them;
    timestamps are integer milliseconds. */
module ControllerTypes {
  datatype Option<+T> = None | Some(value: T)

  type RequestId = int
  type Handle = int
  type JobId = int
  type Uid = int
  type Time = int

  datatype Environment = Staging | Production

  datatype Action = Create | Observe | Reconcile | Cancel | Cleanup

  datatype ControlState =
    | CREATE_INTENT | CREATE_UNKNOWN | JOB_PENDING | JOB_READY | RUN_INTENT | EXECUTION_PENDING
    | RUNNING | SUCCEEDED | FAILED | CANCEL_PENDING | CANCELLED | CLEANUP_PENDING | CLEANED

  datatype ErrorCode =
    | BUDGET_EXHAUSTED | CONFLICT | ENVIRONMENT_MISMATCH | MULTIPLE_EXECUTIONS | PROVIDER_PERMANENT
    | PROVIDER_RETRYABLE | RATE_LIMITED | RESOURCE_DRIFT | STALE_VERSION | UNKNOWN_OUTCOME

  /** `ref` names the job; inside one project and region that name is the job id. */
  datatype ProviderJob = ProviderJob(ref: JobId, uid: Uid, etag: int, ready: bool)

  datatype ExecutionStatus = ExecCancelled | ExecFailed | ExecPending | ExecRunning | ExecSucceeded

  datatype ProviderExecution = ProviderExecution(
    uid: Uid, etag: int, jobRef: JobId, status: ExecutionStatus)

  datatype ErrorKind = Permanent | Retryable

  datatype ProviderMutation =
    | MutationAccepted(operationRef: int)
    | MutationConflict
    | MutationRejected(errorKind: ErrorKind)
    | MutationUnknown

  datatype ControlRecord = ControlRecord(
    bootstrapRequestId: RequestId,
    environment: Environment,
    executionHandle: Handle,
    jobId: JobId,
    state: ControlState,
    version: int,
    createAttempts: int,
    runIntent: bool,
    cancelIntent: bool,
    cleanupIntent: bool,
    job: Option<ProviderJob>,
    execution: Option<ProviderExecution>,
    operationRef: Option<int>,
    errorCode: Option<ErrorCode>,
    reservedWorstCaseJpy: int,
    createdAt: Time,
    updatedAt: Time,
    provisioningDeadline: Time,
    expiresAt: Time)

  datatype Authorization = Authorization(
    environment: Environment,
    epoch: int,
    validUntil: Time,
    maxExecutions: int,
    maxWorstCaseJpy: int,
    maxRequestsPerMinute: int,
    worstCaseJpyPerExecution: int)

  datatype Request = Request(
    requestId: RequestId, digest: int, environment: Environment, executionHandle: Handle, action: Action)

  datatype RememberedRequest = RememberedRequest(request: Request, acceptedAt: Time)

  datatype AdmitCreateInput = AdmitCreateInput(
    request: Request, jobId: JobId, now: Time, provisioningDeadline: Time, recordExpiresAt: Time)

  datatype ClaimRequestInput = ClaimRequestInput(request: Request, expectedVersion: int, now: Time)

  datatype StoreOutcome =
    | Accepted(record: ControlRecord)
    | Duplicate(record: ControlRecord)
    | BudgetExhausted
    | Conflict
    | EnvironmentMismatch
    | NotFound
    | RateLimited
    | Stale(record: ControlRecord)
    | Throws

  datatype CasOutcome = Applied | Lost | CasThrows

  /** The record every accepted create starts from. */
  function NewRecord(input: AdmitCreateInput, reservedWorstCaseJpy: int): ControlRecord {
    ControlRecord(
      input.request.requestId, input.request.environment, input.request.executionHandle, input.jobId,
      CREATE_INTENT, 1, 0, false, false, false, None, None, None, None, reservedWorstCaseJpy,
      input.now, input.now, input.provisioningDeadline, input.recordExpiresAt)
  }

  /** What both stores check before a compare-and-set may replace `current`. */
  predicate SameIdentity(current: ControlRecord, next: ControlRecord) {
    && next.environment == current.environment
    && next.bootstrapRequestId == current.bootstrapRequestId
    && next.jobId == current.jobId
    && next.createdAt == current.createdAt
    && next.reservedWorstCaseJpy == current.reservedWorstCaseJpy
  }

  const RATE_WINDOW_MS := 60_000
}

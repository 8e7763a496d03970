/** The three D1 tables that move together (jobs, job_attempts, provider_executions), the triggers on them,
    and what must hold of them.  `Provider` stands for the provider kind, its policy and its contract version,
    which are written together and never change. */
module JobTables {
  import opened ControllerTypes

  type AttemptId = int

  datatype Provider = RunPod | CloudRun

  datatype JobStatus =
    | JobCreated | JobUploading | JobUploaded | JobSubmissionPending | JobSubmitting | JobRunning
    | JobCancelRequested | JobCompleted | JobFailed | JobCancelled | JobExpired | JobSourceMutated

  datatype AttemptStatus =
    | SubmissionPending | Submitting | AttemptRunning | CancelRequested
    | AttemptCompleted | AttemptFailed | AttemptCancelled

  datatype ExecStatus = ExecWaiting | ExecCreating | ExecActive | ExecCancelRequested | ExecTerminal

  datatype CreateOutcome = CreateAccepted | CreateRejected | CreateUnknown

  datatype TerminalStatus = TermCompleted | TermFailed | TermCancelled | TermTimedOut

  datatype CleanupStatus = NotRequested | CleanupPending | CleanupInProgress | CleanupSucceeded | CleanupFailed

  datatype JobRow = JobRow(
    status: JobStatus, active: Option<AttemptId>, version: int, owner: int, sourceEtag: Option<int>,
    deletedAt: Option<Time>, sourceDeletedAt: Option<Time>, updatedAt: Time)

  datatype AttemptRow = AttemptRow(
    jobId: JobId, generation: int, provider: Option<Provider>, status: AttemptStatus,
    claimToken: Option<int>, claimIssuedAt: Option<Time>, claimExpiresAt: Option<Time>, claimConsumedAt: Option<Time>,
    submissionStartedAt: Option<Time>, submissionOutcome: Option<CreateOutcome>, submissionFinishedAt: Option<Time>,
    claimedAt: Option<Time>, winner: Option<int>, terminalJobId: Option<int>, terminalStatus: Option<TerminalStatus>,
    outputCompleted: bool, failedAt: Option<Time>, createdAt: Time, updatedAt: Time)

  datatype ExecRow = ExecRow(
    provider: Provider, status: ExecStatus, createOutcome: Option<CreateOutcome>, handle: Option<int>,
    providerVersion: Option<int>, terminalStatus: Option<TerminalStatus>, cleanup: CleanupStatus,
    version: int, updatedAt: Time)

  datatype Tables = Tables(
    jobs: map<JobId, JobRow>, attempts: map<AttemptId, AttemptRow>, executions: map<AttemptId, ExecRow>)

  predicate IsActive(status: AttemptStatus) {
    status in {Submitting, AttemptRunning, CancelRequested}
  }

  predicate IsActiveJob(status: JobStatus) {
    status in {JobSubmitting, JobRunning, JobCancelRequested}
  }

  predicate IsTerminal(status: AttemptStatus) {
    status in {AttemptCompleted, AttemptFailed, AttemptCancelled}
  }

  function JobStatusOf(status: AttemptStatus): JobStatus {
    match status
    case SubmissionPending => JobSubmissionPending
    case Submitting => JobSubmitting
    case AttemptRunning => JobRunning
    case CancelRequested => JobCancelRequested
    case AttemptCompleted => JobCompleted
    case AttemptFailed => JobFailed
    case AttemptCancelled => JobCancelled
  }

  function ExecStatusOf(status: AttemptStatus): ExecStatus {
    match status
    case SubmissionPending => ExecWaiting
    case Submitting => ExecCreating
    case AttemptRunning => ExecActive
    case CancelRequested => ExecCancelRequested
    case _ => ExecTerminal
  }

  // ---------------------------------------------------------------- the rows one batch works on

  /** The rows of one job, one attempt and that attempt's execution. */
  datatype Slice = Slice(job: Option<JobRow>, attempt: Option<AttemptRow>, execution: Option<ExecRow>)

  /** What a batch is bound to: its ids, its timestamp, and what its guards ask of the rest of the tables:
      that no other attempt is active, the row of the job's active attempt, and whether that attempt's
      generation (or generation one) already has a successor. */
  datatype Context = Context(
    job: JobId, attempt: AttemptId, now: Time,
    othersIdle: bool, current: Option<AttemptRow>, generationOneFree: bool, nextGenerationFree: bool)

  /** AFTER UPDATE on job_attempts: a RunPod execution mirrors its attempt; a Cloud Run execution follows a
      cancellation. */
  function AttemptTriggers(before: AttemptRow, after: AttemptRow, execution: Option<ExecRow>): Option<ExecRow> {
    if execution == None || after.provider != Some(execution.value.provider) then execution
    else match execution.value.provider
      case RunPod => Some(execution.value.(
          status := ExecStatusOf(after.status), createOutcome := after.submissionOutcome, handle := after.winner,
          terminalStatus := after.terminalStatus, updatedAt := after.updatedAt, version := execution.value.version + 1))
      case CloudRun =>
        if before.status == SubmissionPending && after.status == AttemptCancelled then
          Some(execution.value.(
            status := ExecTerminal, terminalStatus := Some(TermCancelled), cleanup := CleanupSucceeded,
            updatedAt := after.updatedAt, version := execution.value.version + 1))
        else if before.status in {Submitting, AttemptRunning} && after.status == CancelRequested then
          Some(execution.value.(
            status := ExecCancelRequested, updatedAt := after.updatedAt, version := execution.value.version + 1))
        else execution
  }

  /** AFTER INSERT on job_attempts: an attempt with a provider gets its execution. */
  function InsertTrigger(attempt: AttemptRow): Option<ExecRow> {
    match attempt.provider
    case None => None
    case Some(provider) => Some(ExecRow(
        provider, ExecStatusOf(attempt.status), attempt.submissionOutcome, attempt.winner, None,
        attempt.terminalStatus, NotRequested, 1, attempt.updatedAt))
  }

  /** An UPDATE or INSERT that matched its WHERE clause yields the rows after it; otherwise nothing changes. */
  function SetJob(s: Slice, row: JobRow): (Slice, bool) {
    (s.(job := Some(row)), true)
  }

  function SetAttempt(s: Slice, row: AttemptRow): (Slice, bool)
    requires s.attempt.Some?
  {
    (s.(attempt := Some(row), execution := AttemptTriggers(s.attempt.value, row, s.execution)), true)
  }

  function SetExecution(s: Slice, row: ExecRow): (Slice, bool) {
    (s.(execution := Some(row)), true)
  }

  function InsertAttempt(s: Slice, row: AttemptRow): (Slice, bool) {
    (s.(attempt := Some(row), execution := InsertTrigger(row)), true)
  }

  // ---------------------------------------------------------------- what must hold

  /** A RunPod execution mirrors its attempt. */
  predicate Mirrors(a: AttemptRow, e: ExecRow) {
    && e.status == ExecStatusOf(a.status)
    && e.createOutcome == a.submissionOutcome
    && e.handle == a.winner
    && e.terminalStatus == a.terminalStatus
  }

  /** The Cloud Run execution of a claimable attempt waits without a handle or any trace of a submission; an
      active attempt always has a handle to ask the controller about. */
  predicate Coupled(a: AttemptRow, e: ExecRow) {
    && (a.status == SubmissionPending ==>
          && e.status == ExecWaiting && e.handle == None && e.createOutcome == None && e.providerVersion == None
          && a.submissionStartedAt == None && a.submissionOutcome == None && a.submissionFinishedAt == None)
    && (IsActive(a.status) ==> e.status != ExecWaiting && e.handle.Some?)
    && (e.status in {ExecCreating, ExecActive, ExecCancelRequested} ==> e.handle.Some?)
  }

  predicate ExecutionFits(a: AttemptRow, execution: Option<ExecRow>) {
    match a.provider
    case None => execution == None && !IsActive(a.status)
    case Some(RunPod) => execution.Some? && execution.value.provider == RunPod && Mirrors(a, execution.value)
    case Some(CloudRun) => execution.Some? && execution.value.provider == CloudRun && Coupled(a, execution.value)
  }

  /** An undeleted job and its active attempt agree; a source mutation fails the attempt under its own job status. */
  predicate Agrees(job: JobRow, a: AttemptRow) {
    || job.deletedAt.Some?
    || job.status == JobStatusOf(a.status)
    || (job.status == JobSourceMutated && a.status == AttemptFailed)
  }

  predicate AttemptOk(job: JobRow, a: AttemptRow, execution: Option<ExecRow>) {
    && ExecutionFits(a, execution)
    && (job.active == None ==> a.status == SubmissionPending)
  }

  /** The rows of a batch fit together: its attempt belongs to its job, and the active attempt of the job exists. */
  predicate RowsOk(c: Context, s: Slice) {
    && (s.attempt.Some? ==>
          && s.job.Some? && s.attempt.value.jobId == c.job
          && AttemptOk(s.job.value, s.attempt.value, s.execution))
    && (s.attempt == None ==> s.execution == None)
    && (s.job.Some? && s.job.value.active == Some(c.attempt) ==> s.attempt.Some?)
    && (s.job.Some? && s.job.value.active.Some? && s.job.value.active != Some(c.attempt) ==>
          c.current.Some? && c.current.value.jobId == c.job)
  }

  /** The job agrees with its active attempt, be that the batch's own attempt or another one. */
  predicate JobOk(c: Context, s: Slice) {
    && (s.job.Some? && s.job.value.active == Some(c.attempt) && s.attempt.Some? ==> Agrees(s.job.value, s.attempt.value))
    && (s.job.Some? && s.job.value.active.Some? && s.job.value.active != Some(c.attempt) && c.current.Some? ==>
          Agrees(s.job.value, c.current.value))
  }

  predicate SliceOk(c: Context, s: Slice) {
    RowsOk(c, s) && JobOk(c, s)
  }

  /** Batches carry a timestamp that no row they look at carries yet. */
  predicate FreshSlice(s: Slice, now: Time) {
    && (s.job.Some? ==> s.job.value.updatedAt != now)
    && (s.attempt.Some? ==> s.attempt.value.updatedAt != now && s.attempt.value.createdAt != now)
    && (s.execution.Some? ==> s.execution.value.updatedAt != now)
  }

  predicate SliceActive(s: Slice) {
    s.attempt.Some? && IsActive(s.attempt.value.status)
  }

  /** What every statement keeps and how far it may go, whatever its caller read before. */
  predicate RowsStep(c: Context, s: Slice, s': Slice) {
    && RowsOk(c, s')
    && (s.job.Some? <==> s'.job.Some?)
    && (s.attempt.Some? ==>
          && s'.attempt.Some?
          && s'.attempt.value.provider == s.attempt.value.provider
          && (IsTerminal(s.attempt.value.status) ==> s'.attempt.value.status == s.attempt.value.status))
    && (s.job.Some? ==> s'.job.value.active in {s.job.value.active, Some(c.attempt)})
    && (SliceActive(s') && !SliceActive(s) ==> c.othersIdle)
  }

  /** What a batch keeps whose caller read the job it names just before. */
  predicate SliceStep(c: Context, s: Slice, s': Slice) {
    RowsStep(c, s, s') && JobOk(c, s')
  }
}

/** The statements the user and the upload queue cause: a new attempt, a retry, a cancellation, a deletion, and
    a source that changed under a running job. */
module WebBatches {
  import opened ControllerTypes
  import opened JobTables
  import C = CloudRunBatches

  /** `asker` is None for the queue consumer, which does not ask who owns the job. */
  datatype Statement =
    | InsertFirstAttempt(provider: Provider, version: int, etag: int)
    | ActivateAttempt(version: int, etag: int)
    | InsertRetryAttempt(owner: int)
    | ActivateRetryAttempt(owner: int)
    | RequestAttemptCancellation(expected: AttemptStatus)
    | RequestJobCancellation(owner: int, version: int, expected: AttemptStatus)
    | RequestAttemptDeletion(owner: int, version: int, expected: AttemptStatus)
    | MarkJobDeleted(owner: int, version: int, was: Option<AttemptStatus>)
    | FailSourceMutatedAttempt(asker: Option<int>, version: int, etag: int)
    | MarkSourceMutated(asker: Option<int>, version: int, etag: int)

  predicate InitialJob(status: JobStatus) {
    status in {JobCreated, JobUploading, JobUploaded}
  }

  function NewAttempt(c: Context, generation: int, provider: Option<Provider>): AttemptRow {
    AttemptRow(c.job, generation, provider, SubmissionPending, None, None, None, None, None, None, None, None, None,
               None, None, false, None, c.now, c.now)
  }

  predicate Ingestible(s: Slice, version: int, etag: int) {
    && s.job.Some? && s.job.value.version == version
    && (s.job.value.sourceEtag == None || s.job.value.sourceEtag == Some(etag))
    && s.job.value.active == None && InitialJob(s.job.value.status) && s.job.value.deletedAt == None
  }

  predicate Retryable(s: Slice, owner: int) {
    && s.job.Some? && s.job.value.owner == owner && s.job.value.status == JobFailed
    && s.job.value.deletedAt == None && s.job.value.sourceDeletedAt == None
  }

  function ApplyNew(c: Context, s: Slice, stmt: Statement): (Slice, bool) {
    match stmt
    case InsertFirstAttempt(provider, version, etag) =>
      if s.attempt == None && Ingestible(s, version, etag) && c.generationOneFree
      then InsertAttempt(s, NewAttempt(c, 1, Some(provider)))
      else (s, false)
    case ActivateAttempt(version, etag) =>
      if Ingestible(s, version, etag) && C.OwnAttempt(c, s) && s.attempt.value.generation == 1
      then SetJob(s, C.JobMoved(s.job.value, JobSubmissionPending, c.now).(
             active := Some(c.attempt), sourceEtag := Some(etag)))
      else (s, false)
    case InsertRetryAttempt(owner) =>
      if s.attempt == None && Retryable(s, owner) && c.current.Some? && c.current.value.jobId == c.job
         && c.current.value.status == AttemptFailed && c.nextGenerationFree
      then InsertAttempt(s, NewAttempt(c, c.current.value.generation + 1, None))
      else (s, false)
    case ActivateRetryAttempt(owner) =>
      if Retryable(s, owner) && C.OwnAttempt(c, s) && s.attempt.value.status == SubmissionPending
         && s.attempt.value.createdAt == c.now
      then SetJob(s, C.JobMoved(s.job.value, JobSubmissionPending, c.now).(active := Some(c.attempt)))
      else (s, false)
    case _ => (s, false)
  }

  predicate Cancellable(status: AttemptStatus) {
    status in {SubmissionPending, Submitting, AttemptRunning}
  }

  /** What a cancellation or a deletion makes of an attempt. */
  function Stopped(status: AttemptStatus): AttemptStatus {
    if status == SubmissionPending then AttemptCancelled else CancelRequested
  }

  predicate Unfinished(status: AttemptStatus) {
    status in {SubmissionPending, Submitting, AttemptRunning, CancelRequested}
  }

  predicate OwnedBy(job: JobRow, owner: Option<int>) {
    owner.Some? ==> job.owner == owner.value
  }

  predicate SourceChanged(job: JobRow, owner: Option<int>, version: int, etag: int) {
    && OwnedBy(job, owner) && job.version == version && job.deletedAt == None
    && job.sourceEtag.Some? && job.sourceEtag != Some(etag)
  }

  function ApplyStop(c: Context, s: Slice, stmt: Statement): (Slice, bool) {
    match stmt
    case RequestAttemptCancellation(expected) =>
      if C.OwnAttempt(c, s) && s.attempt.value.status == expected && Cancellable(expected)
         && C.LiveJob(c, s) && s.job.value.status == JobStatusOf(expected)
      then SetAttempt(s, s.attempt.value.(status := Stopped(expected), updatedAt := c.now))
      else (s, false)
    case RequestJobCancellation(owner, version, expected) =>
      if C.LiveJob(c, s) && s.job.value.owner == owner && s.job.value.version == version
         && s.job.value.status == JobStatusOf(expected) && Cancellable(expected)
         && C.JustUpdated(c, s, Stopped(expected))
      then SetJob(s, C.JobMoved(s.job.value, JobStatusOf(Stopped(expected)), c.now))
      else (s, false)
    case RequestAttemptDeletion(owner, version, expected) =>
      if C.OwnAttempt(c, s) && s.attempt.value.status == expected && Unfinished(expected)
         && C.LiveJob(c, s) && s.job.value.owner == owner && s.job.value.version == version
      then SetAttempt(s, s.attempt.value.(status := Stopped(expected), updatedAt := c.now))
      else (s, false)
    case MarkJobDeleted(owner, version, was) =>
      if s.job.Some? && s.job.value.owner == owner && s.job.value.version == version && s.job.value.deletedAt == None
         && (was.Some? && Unfinished(was.value) ==> C.JustUpdated(c, s, Stopped(was.value)))
      then SetJob(s, s.job.value.(deletedAt := Some(c.now), version := s.job.value.version + 1, updatedAt := c.now))
      else (s, false)
    case FailSourceMutatedAttempt(asker, version, etag) =>
      if C.OwnAttempt(c, s) && Unfinished(s.attempt.value.status)
         && s.job.Some? && s.job.value.active == Some(c.attempt) && SourceChanged(s.job.value, asker, version, etag)
         && s.job.value.status in {JobSubmissionPending, JobSubmitting, JobRunning, JobCancelRequested}
      then SetAttempt(s, s.attempt.value.(status := AttemptFailed, failedAt := Some(c.now), updatedAt := c.now))
      else (s, false)
    case MarkSourceMutated(asker, version, etag) =>
      if s.job.Some? && SourceChanged(s.job.value, asker, version, etag)
         && (InitialJob(s.job.value.status)
             || s.job.value.status in {JobSubmissionPending, JobSubmitting, JobRunning, JobCancelRequested})
      then SetJob(s, C.JobMoved(s.job.value, JobSourceMutated, c.now))
      else (s, false)
    case _ => (s, false)
  }

  function Apply(c: Context, s: Slice, stmt: Statement): (Slice, bool) {
    match stmt
    case InsertFirstAttempt(_, _, _) => ApplyNew(c, s, stmt)
    case ActivateAttempt(_, _) => ApplyNew(c, s, stmt)
    case InsertRetryAttempt(_) => ApplyNew(c, s, stmt)
    case ActivateRetryAttempt(_) => ApplyNew(c, s, stmt)
    case _ => ApplyStop(c, s, stmt)
  }
}

/** What the batches of the upload queue and the web server do to the rows they work on, told row by row. */
module WebEffects {
  import opened ControllerTypes
  import opened JobTables
  import opened JobBatches
  import opened JobEffects
  import opened RunpodEffects
  import W = WebBatches

  // ---------------------------------------------------------------- a first attempt, and a retry

  /** The job still waits for its source, in the version and with the etag the queue saw. */
  predicate Waits(s: Slice, version: int, etag: int) {
    && s.job.Some? && s.job.value.version == version && s.job.value.active == None && s.job.value.deletedAt == None
    && s.job.value.status in {JobCreated, JobUploading, JobUploaded}
    && (s.job.value.sourceEtag.Some? ==> s.job.value.sourceEtag.value == etag)
  }

  /** A new attempt that waits to be claimed, and the waiting execution it gets if it has a provider. */
  predicate Inserted(c: Context, s': Slice, generation: int, provider: Option<Provider>) {
    && s'.attempt.Some?
    && s'.attempt.value == Row(s', c.now).(
         jobId := c.job, generation := generation, provider := provider, status := SubmissionPending,
         claimToken := None, claimIssuedAt := None, claimExpiresAt := None, claimConsumedAt := None,
         submissionStartedAt := None, submissionOutcome := None, submissionFinishedAt := None, claimedAt := None,
         winner := None, terminalJobId := None, terminalStatus := None, outputCompleted := false, failedAt := None,
         createdAt := c.now, updatedAt := c.now)
    && s'.execution == (if provider == None then None else
         Some(ExecRow(provider.value, ExecWaiting, None, None, None, None, NotRequested, 1, c.now)))
  }

  /** An uploaded source gets its first attempt, of generation one, and the job waits for its submission under that attempt. */
  lemma IngestSourceRows(c: Context, s: Slice, provider: Provider, version: int, etag: int, insert: bool)
    requires Ready(c, s)
    ensures
      var s' := ApplyAll(c, s, Statements(IngestSource(provider, version, etag, insert)));
      var first := insert && s.attempt == None && c.generationOneFree && Waits(s, version, etag);
      var moved := Waits(s, version, etag) && (first || (s.attempt.Some? && s.attempt.value.generation == 1));
      && (first ==> Inserted(c, s', 1, Some(provider)))
      && (!first ==> s'.attempt == s.attempt && s'.execution == s.execution)
      && s'.job == (if !moved then s.job else
           Some(s.job.value.(status := JobSubmissionPending, active := Some(c.attempt), sourceEtag := Some(etag),
                             version := s.job.value.version + 1, updatedAt := c.now)))
  {
    if insert {
      assert Statements(IngestSource(provider, version, etag, insert))
          == [Web(W.InsertFirstAttempt(provider, version, etag)), Web(W.ActivateAttempt(version, etag))];
      TwoStatements(c, s, Web(W.InsertFirstAttempt(provider, version, etag)), Web(W.ActivateAttempt(version, etag)));
    } else {
      assert Statements(IngestSource(provider, version, etag, insert)) == [Web(W.ActivateAttempt(version, etag))];
      OneStatement(c, s, Web(W.ActivateAttempt(version, etag)));
    }
  }

  /** The owner's retry of a failed job whose source still exists gives it an attempt of the next generation, without a
      provider, and the job waits for its submission. */
  lemma RetryFailedJobRows(c: Context, s: Slice, owner: int)
    requires Ready(c, s)
    ensures
      var s' := ApplyAll(c, s, Statements(RetryFailedJob(owner)));
      var first := s.job.Some? && s.job.value.owner == owner && s.job.value.status == JobFailed
                   && s.job.value.deletedAt == None && s.job.value.sourceDeletedAt == None && s.attempt == None
                   && c.current.Some? && c.current.value.jobId == c.job && c.current.value.status == AttemptFailed
                   && c.nextGenerationFree;
      && (first ==>
            && Inserted(c, s', c.current.value.generation + 1, None)
            && s'.job == Some(s.job.value.(
                 status := JobSubmissionPending, active := Some(c.attempt), version := s.job.value.version + 1, updatedAt := c.now)))
      && (!first ==> s' == s)
  {
    TwoStatements(c, s, Web(W.InsertRetryAttempt(owner)), Web(W.ActivateRetryAttempt(owner)));
  }

  // ---------------------------------------------------------------- stopping

  function MatchingJob(status: AttemptStatus): JobStatus
    requires status in {SubmissionPending, Submitting, AttemptRunning}
  {
    if status == SubmissionPending then JobSubmissionPending else if status == Submitting then JobSubmitting else JobRunning
  }

  /** Which attempt a cancellation stops: one that still waits or runs as expected, under its live job. */
  predicate Stops(c: Context, s: Slice, expected: AttemptStatus) {
    && expected in {SubmissionPending, Submitting, AttemptRunning} && AttemptIn(s, {expected})
    && LiveIn(c, s.job, {MatchingJob(expected)})
  }

  lemma CancellationStopsAttempt(c: Context, s: Slice, expected: AttemptStatus)
    requires Ready(c, s)
    ensures
      var (s', matched) := W.ApplyStop(c, s, W.RequestAttemptCancellation(expected));
      && matched == Stops(c, s, expected) && s'.job == s.job
      && AttemptBecomes(s, s', matched, Row(s, c.now).(
           status := if expected == SubmissionPending then AttemptCancelled else CancelRequested, updatedAt := c.now))
  {
  }

  lemma CancellationStopsJob(c: Context, s: Slice, s1: Slice, owner: int, version: int, expected: AttemptStatus)
    requires Ready(c, s) && s1.job == s.job
    requires AttemptBecomes(s, s1, Stops(c, s, expected), Row(s, c.now).(
      status := if expected == SubmissionPending then AttemptCancelled else CancelRequested, updatedAt := c.now))
    ensures
      var s' := W.ApplyStop(c, s1, W.RequestJobCancellation(owner, version, expected)).0;
      && s'.attempt == s1.attempt && s'.execution == s1.execution
      && s'.job == (if !(Stops(c, s, expected) && s.job.value.owner == owner && s.job.value.version == version) then s.job else
           Some(s.job.value.(status := if expected == SubmissionPending then JobCancelled else JobCancelRequested,
                             version := s.job.value.version + 1, updatedAt := c.now)))
  {
  }

  lemma SameAttemptBecomes(s: Slice, s1: Slice, s2: Slice, moved: bool, row: AttemptRow)
    requires moved ==> s.attempt.Some?
    requires AttemptBecomes(s, s1, moved, row) && s2.attempt == s1.attempt && s2.execution == s1.execution
    ensures AttemptBecomes(s, s2, moved, row)
  {
  }

  lemma CancellationIsTwo(c: Context, s: Slice, owner: int, version: int, expected: AttemptStatus)
    ensures ApplyAll(c, s, Statements(RequestCancellation(owner, version, expected)))
         == W.ApplyStop(c, W.ApplyStop(c, s, W.RequestAttemptCancellation(expected)).0,
                        W.RequestJobCancellation(owner, version, expected)).0
  {
    hide W.ApplyStop;
    TwoStatements(c, s, Web(W.RequestAttemptCancellation(expected)), Web(W.RequestJobCancellation(owner, version, expected)));
  }

  /** A cancellation of what has not been sent is done at once; of what is under way it is a request.  The attempt follows the
      live job's status alone, the job only in the version and for the owner the request read. */
  lemma RequestCancellationRows(c: Context, s: Slice, owner: int, version: int, expected: AttemptStatus)
    requires Ready(c, s)
    ensures
      var s' := ApplyAll(c, s, Statements(RequestCancellation(owner, version, expected)));
      var done := expected == SubmissionPending;
      var moved := Stops(c, s, expected);
      && AttemptBecomes(s, s', moved, Row(s, c.now).(
           status := if done then AttemptCancelled else CancelRequested, updatedAt := c.now))
      && s'.job == (if !(moved && s.job.value.owner == owner && s.job.value.version == version) then s.job else
           Some(s.job.value.(status := if done then JobCancelled else JobCancelRequested,
                             version := s.job.value.version + 1, updatedAt := c.now)))
  {
    hide ApplyAll, Statements, W.ApplyStop, AttemptBecomes, LiveIn;
    CancellationIsTwo(c, s, owner, version, expected);
    CancellationStopsAttempt(c, s, expected);
    var s1 := W.ApplyStop(c, s, W.RequestAttemptCancellation(expected)).0;
    CancellationStopsJob(c, s, s1, owner, version, expected);
    SameAttemptBecomes(s, s1, W.ApplyStop(c, s1, W.RequestJobCancellation(owner, version, expected)).0, Stops(c, s, expected),
      Row(s, c.now).(status := if expected == SubmissionPending then AttemptCancelled else CancelRequested, updatedAt := c.now));
  }

  /** Nothing but the three statuses before an end can be cancelled. */
  lemma NothingToCancel(c: Context, s: Slice, owner: int, version: int, expected: AttemptStatus)
    requires Ready(c, s) && expected in {CancelRequested, AttemptCompleted, AttemptFailed, AttemptCancelled}
    ensures ApplyAll(c, s, Statements(RequestCancellation(owner, version, expected))) == s
  {
    TwoStatements(c, s, Web(W.RequestAttemptCancellation(expected)), Web(W.RequestJobCancellation(owner, version, expected)));
  }

  predicate Mine(s: Slice, owner: int, version: int) {
    s.job.Some? && s.job.value.owner == owner && s.job.value.version == version && s.job.value.deletedAt == None
  }

  function Deleted(job: JobRow, now: Time): JobRow {
    job.(deletedAt := Some(now), version := job.version + 1, updatedAt := now)
  }

  /** A job whose attempt has not ended is deleted together with stopping that attempt, or not at all. */
  lemma DeletionStopsAttempt(c: Context, s: Slice, owner: int, version: int, was: AttemptStatus)
    requires Ready(c, s) && was in {SubmissionPending, Submitting, AttemptRunning, CancelRequested}
    ensures
      var s' := ApplyAll(c, s, Statements(RequestDeletion(owner, version, Some(was))));
      var moved := Mine(s, owner, version) && s.job.value.active == Some(c.attempt) && AttemptIn(s, {was});
      && AttemptBecomes(s, s', moved, Row(s, c.now).(
           status := if was == SubmissionPending then AttemptCancelled else CancelRequested, updatedAt := c.now))
      && s'.job == (if moved then Some(Deleted(s.job.value, c.now)) else s.job)
  {
    assert Statements(RequestDeletion(owner, version, Some(was)))
        == [Web(W.RequestAttemptDeletion(owner, version, was)), Web(W.MarkJobDeleted(owner, version, Some(was)))];
    TwoStatements(c, s, Web(W.RequestAttemptDeletion(owner, version, was)), Web(W.MarkJobDeleted(owner, version, Some(was))));
  }

  /** Without an attempt, or with one that has ended, only the job is marked. */
  lemma DeletionMarksJob(c: Context, s: Slice, owner: int, version: int, was: Option<AttemptStatus>)
    requires Ready(c, s) && (was.Some? ==> was.value in {AttemptCompleted, AttemptFailed, AttemptCancelled})
    ensures ApplyAll(c, s, Statements(RequestDeletion(owner, version, was)))
         == if Mine(s, owner, version) then s.(job := Some(Deleted(s.job.value, c.now))) else s
  {
    if was.Some? {
      assert Statements(RequestDeletion(owner, version, was))
          == [Web(W.RequestAttemptDeletion(owner, version, was.value)), Web(W.MarkJobDeleted(owner, version, was))];
      TwoStatements(c, s, Web(W.RequestAttemptDeletion(owner, version, was.value)), Web(W.MarkJobDeleted(owner, version, was)));
    } else {
      assert Statements(RequestDeletion(owner, version, was)) == [Web(W.MarkJobDeleted(owner, version, was))];
      OneStatement(c, s, Web(W.MarkJobDeleted(owner, version, was)));
    }
  }

  /** A source that changed under a job fails the attempt that has not ended and marks the job. */
  lemma SourceMutatedRows(c: Context, s: Slice, asker: Option<int>, version: int, etag: int)
    requires Ready(c, s)
    ensures
      var s' := ApplyAll(c, s, Statements(SourceMutated(asker, version, etag)));
      var changed := s.job.Some? && (asker == None || asker.value == s.job.value.owner) && s.job.value.version == version
                     && s.job.value.deletedAt == None && s.job.value.sourceEtag.Some? && s.job.value.sourceEtag.value != etag;
      var moved := changed && LiveIn(c, s.job, {JobSubmissionPending, JobSubmitting, JobRunning, JobCancelRequested})
                   && AttemptIn(s, {SubmissionPending, Submitting, AttemptRunning, CancelRequested});
      && AttemptBecomes(s, s', moved, Row(s, c.now).(status := AttemptFailed, failedAt := Some(c.now), updatedAt := c.now))
      && s'.job == (
           if changed && s.job.value.status in {JobCreated, JobUploading, JobUploaded, JobSubmissionPending, JobSubmitting,
                                                JobRunning, JobCancelRequested}
           then Some(s.job.value.(status := JobSourceMutated, version := s.job.value.version + 1, updatedAt := c.now))
           else s.job)
  {
    TwoStatements(c, s, Web(W.FailSourceMutatedAttempt(asker, version, etag)), Web(W.MarkSourceMutated(asker, version, etag)));
  }
}

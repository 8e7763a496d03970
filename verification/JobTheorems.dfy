/** What whole runs of batches guarantee, from an empty database on, and the one batch that can break the
    agreement of a job with its attempt. */
module JobTheorems {
  import opened ControllerTypes
  import opened JobTables
  import opened JobBatches
  import opened JobRows
  import opened JobRuns
  import C = CloudRunBatches
  import W = WebBatches

  /** `NewJob` creates a job; `MoveIdleJob` stands for the upload, expiry and cancellation statements on jobs that
      have no attempt yet. */
  datatype Event =
    | NewJob(job: JobId, owner: int, now: Time)
    | MoveIdleJob(job: JobId, to: JobStatus, now: Time)
    | RunsBatch(job: JobId, attempt: AttemptId, now: Time, batch: Batch)

  function Step(t: Tables, e: Event): Tables {
    match e
    case NewJob(j, owner, now) =>
      if j in t.jobs then t
      else t.(jobs := t.jobs[j := JobRow(JobCreated, None, 1, owner, None, None, None, now)])
    case MoveIdleJob(j, to, now) =>
      if j in t.jobs && t.jobs[j].active == None && t.jobs[j].deletedAt == None && W.InitialJob(t.jobs[j].status)
         && to in {JobUploading, JobUploaded, JobExpired, JobFailed, JobCancelled}
      then t.(jobs := t.jobs[j := C.JobMoved(t.jobs[j], to, now)])
      else t
    case RunsBatch(j, a, now, b) => RunBatch(t, j, a, now, b)
  }

  /** What happens to a job that has no attempt: it is created once, and until it has one it may be uploaded, expire, fail or be
      cancelled. */
  lemma IdleEvents(t: Tables, j: JobId, owner: int, to: JobStatus, now: Time)
    ensures Step(t, NewJob(j, owner, now)) ==
      if j in t.jobs then t else t.(jobs := t.jobs[j := JobRow(JobCreated, None, 1, owner, None, None, None, now)])
    ensures
      var moves :=
        && j in t.jobs && t.jobs[j].active == None && t.jobs[j].deletedAt == None
        && t.jobs[j].status in {JobCreated, JobUploading, JobUploaded}
        && to in {JobUploading, JobUploaded, JobExpired, JobFailed, JobCancelled};
      Step(t, MoveIdleJob(j, to, now)) ==
        if moves then t.(jobs := t.jobs[j := t.jobs[j].(status := to, version := t.jobs[j].version + 1, updatedAt := now)]) else t
  {
  }

  /** A batch names an attempt together with its own job. */
  predicate Legal(t: Tables, e: Event) {
    e.RunsBatch? ==> Bound(t, e.job, e.attempt)
  }

  /** A batch carries a fresh timestamp and comes from a caller that just read what it passes on. */
  predicate UpToDate(t: Tables, e: Event) {
    e.RunsBatch? ==>
      && Fresh(t, e.now)
      && Snapshot(ContextOf(t, e.job, e.attempt, e.now), SliceOf(t, e.job, e.attempt), e.batch)
  }

  function Run(t: Tables, events: seq<Event>): Tables
    decreases events
  {
    if events == [] then t else Run(Step(t, events[0]), events[1..])
  }

  predicate LegalRun(t: Tables, events: seq<Event>)
    decreases events
  {
    events == [] || (Legal(t, events[0]) && LegalRun(Step(t, events[0]), events[1..]))
  }

  predicate UpToDateRun(t: Tables, events: seq<Event>)
    decreases events
  {
    events == [] || (UpToDate(t, events[0]) && UpToDateRun(Step(t, events[0]), events[1..]))
  }

  lemma IdleStepKeeps(t: Tables, e: Event)
    requires TablesOk(t) && !e.RunsBatch?
    ensures TablesOk(Step(t, e)) && Step(t, e).attempts == t.attempts
    ensures Inv(t) ==> Inv(Step(t, e))
  {
    var t' := Step(t, e);
    forall a | a in t'.attempts ensures Owned(t', a) { assert Owned(t, a); }
    forall j | j in t'.jobs ensures ActiveKnown(t', j) { assert j in t.jobs ==> ActiveKnown(t, j); }
    if Inv(t) {
      forall j | j in t'.jobs ensures JobAgrees(t', j) { assert j in t.jobs ==> JobAgrees(t, j); }
    }
  }

  lemma StepKeepsTables(t: Tables, e: Event)
    requires TablesOk(t) && Legal(t, e)
    ensures TablesOk(Step(t, e))
    ensures forall a :: a in t.attempts ==>
      && a in Step(t, e).attempts
      && Step(t, e).attempts[a].provider == t.attempts[a].provider
      && (IsTerminal(t.attempts[a].status) ==> Step(t, e).attempts[a].status == t.attempts[a].status)
  {
    if e.RunsBatch? {
      BatchKeepsTables(t, e.job, e.attempt, e.now, e.batch);
    } else {
      IdleStepKeeps(t, e);
    }
  }

  lemma {:induction false} RunKeepsTables(t: Tables, events: seq<Event>)
    requires TablesOk(t) && LegalRun(t, events)
    ensures TablesOk(Run(t, events))
    decreases events
  {
    if events != [] {
      StepKeepsTables(t, events[0]);
      RunKeepsTables(Step(t, events[0]), events[1..]);
    }
  }

  lemma {:induction false} RunKeepsInv(t: Tables, events: seq<Event>)
    requires Inv(t) && LegalRun(t, events) && UpToDateRun(t, events)
    ensures Inv(Run(t, events))
    decreases events
  {
    if events != [] {
      var e := events[0];
      if e.RunsBatch? { BatchKeepsInv(t, e.job, e.attempt, e.now, e.batch); } else { IdleStepKeeps(t, e); }
      RunKeepsInv(Step(t, e), events[1..]);
    }
  }

  const EMPTY := Tables(map[], map[], map[])

  /** In every reachable state at most one attempt of the whole table is SUBMITTING, RUNNING or
      CANCEL_REQUESTED, whichever batches of the two providers interleave and whatever their callers read. */
  lemma CrossProviderExclusion(events: seq<Event>)
    requires LegalRun(EMPTY, events)
    ensures AtMostOneActive(Run(EMPTY, events).attempts)
  {
    RunKeepsTables(EMPTY, events);
  }

  /** As long as callers pass on what they just read, an undeleted job has the status of its active attempt, whatever
      the provider; the one difference is a job SOURCE_MUTATED whose attempt FAILED. */
  lemma JobsAgreeWithAttempts(events: seq<Event>, j: JobId)
    requires LegalRun(EMPTY, events) && UpToDateRun(EMPTY, events)
    ensures
      var t := Run(EMPTY, events);
      j in t.jobs && t.jobs[j].deletedAt == None && t.jobs[j].active.Some? ==>
        && t.jobs[j].active.value in t.attempts
        && var a := t.attempts[t.jobs[j].active.value];
           t.jobs[j].status == JobStatusOf(a.status) || (t.jobs[j].status == JobSourceMutated && a.status == AttemptFailed)
  {
    RunKeepsInv(EMPTY, events);
    assert j in Run(EMPTY, events).jobs ==> ActiveKnown(Run(EMPTY, events), j) && JobAgrees(Run(EMPTY, events), j);
  }

  /** A RunPod execution always mirrors its attempt; a Cloud Run execution waits without a handle while its
      attempt is claimable and has one while it is active; an attempt without a provider never starts. */
  lemma ExecutionsFitAttempts(events: seq<Event>, a: AttemptId)
    requires LegalRun(EMPTY, events)
    ensures
      var t := Run(EMPTY, events);
      a in t.attempts ==> ExecutionFits(t.attempts[a], Get(t.executions, a))
  {
    RunKeepsTables(EMPTY, events);
    assert a in Run(EMPTY, events).attempts ==> Owned(Run(EMPTY, events), a);
  }

  /** COMPLETED, FAILED and CANCELLED attempts are never moved again. */
  lemma {:induction false} TerminalAttemptsStay(t: Tables, events: seq<Event>, a: AttemptId)
    requires TablesOk(t) && LegalRun(t, events)
    requires a in t.attempts && IsTerminal(t.attempts[a].status)
    ensures a in Run(t, events).attempts && Run(t, events).attempts[a].status == t.attempts[a].status
    decreases events
  {
    if events != [] {
      StepKeepsTables(t, events[0]);
      TerminalAttemptsStay(Step(t, events[0]), events[1..], a);
    }
  }

  /** The attempt a retry inserts carries no provider, so no batch of either provider ever starts it. */
  lemma {:induction false} RetriedAttemptNeverStarts(t: Tables, events: seq<Event>, a: AttemptId)
    requires TablesOk(t) && LegalRun(t, events)
    requires a in t.attempts && t.attempts[a].provider == None
    ensures a in Run(t, events).attempts && !IsActive(Run(t, events).attempts[a].status)
    decreases events
  {
    assert Owned(t, a);
    if events != [] {
      StepKeepsTables(t, events[0]);
      RetriedAttemptNeverStarts(Step(t, events[0]), events[1..], a);
    }
  }

  // ---------------------------------------------------------------- what a version says about a job read earlier

  lemma StepPins(t: Tables, e: Event, j: JobId)
    ensures Pinned(Get(t.jobs, j), Get(Step(t, e).jobs, j))
  {
    hide ApplyAll, Statements;
    if e.RunsBatch? {
      BatchPins(ContextOf(t, e.job, e.attempt, e.now), SliceOf(t, e.job, e.attempt), Statements(e.batch));
    }
  }

  /** Along every run a job's version pins its row: while the version is the same, so is everything else. */
  lemma {:induction false} VersionPinsJob(t: Tables, events: seq<Event>, j: JobId)
    ensures Pinned(Get(t.jobs, j), Get(Run(t, events).jobs, j))
    decreases events
  {
    hide Step;
    if events != [] {
      StepPins(t, events[0], j);
      VersionPinsJob(Step(t, events[0]), events[1..], j);
    }
  }

  /** So a source mutation is always up to date about the attempt it names: its caller read that attempt together with
      the version, and the batch asks for the version. */
  lemma MutationIsUpToDate(t: Tables, events: seq<Event>, j: JobId, a: AttemptId, now: Time, asker: Option<int>, etag: int)
    requires j in t.jobs && t.jobs[j].active in {None, Some(a)}
    ensures
      var t' := Run(t, events);
      Snapshot(ContextOf(t', j, a, now), SliceOf(t', j, a), SourceMutated(asker, t.jobs[j].version, etag))
  {
    VersionPinsJob(t, events, j);
  }

  // ---------------------------------------------------------------- claim and deferral

  predicate Claimable(c: Context, s: Slice) {
    && c.othersIdle
    && s.job.Some? && s.job.value.active == Some(c.attempt) && s.job.value.deletedAt == None
    && s.job.value.status == JobSubmissionPending
    && s.attempt.Some? && s.attempt.value.provider == Some(CloudRun) && s.attempt.value.status == SubmissionPending
  }

  function Claimed(s: Slice, handle: int, now: Time): Slice
    requires s.job.Some? && s.attempt.Some? && s.execution.Some?
  {
    Slice(
      Some(s.job.value.(status := JobSubmitting, version := s.job.value.version + 1, updatedAt := now)),
      Some(s.attempt.value.(status := Submitting, submissionStartedAt := Some(now), updatedAt := now)),
      Some(s.execution.value.(status := ExecCreating, handle := Some(handle),
                              version := s.execution.value.version + 1, updatedAt := now)))
  }

  /** A claim moves all three rows or none of them, and it does so exactly when the attempt is claimable. */
  lemma ClaimIsAllOrNothing(c: Context, s: Slice, handle: int)
    requires RowsOk(c, s) && FreshSlice(s, c.now)
    ensures AllMatch(c, s, Statements(PrepareCloudRun(handle))) <==> Claimable(c, s)
    ensures Claimable(c, s) ==> ApplyAll(c, s, Statements(PrepareCloudRun(handle))) == Claimed(s, handle, c.now)
    ensures !Claimable(c, s) ==> ApplyAll(c, s, Statements(PrepareCloudRun(handle))) == s
  {
    ThreeStatements(c, s, Cloud(C.ClaimExecution(handle)), Cloud(C.ClaimAttempt), Cloud(C.ClaimJob));
  }

  /** The rows of a claim after its deferral: what they were, but for versions and timestamps. */
  function Released(s: Slice, now: Time): Slice
    requires s.job.Some? && s.attempt.Some? && s.execution.Some?
  {
    Slice(
      Some(s.job.value.(version := s.job.value.version + 2, updatedAt := now)),
      Some(s.attempt.value.(updatedAt := now)),
      Some(s.execution.value.(version := s.execution.value.version + 2, updatedAt := now)))
  }

  lemma DeferringClaimed(c: Context, later: Context, s: Slice, handle: int)
    requires RowsOk(c, s) && Claimable(c, s)
    requires later.job == c.job && later.attempt == c.attempt && later.now != c.now
    ensures ApplyAll(later, Claimed(s, handle, c.now), Statements(RecordCreateDeferred(handle))) == Released(s, later.now)
  {
    ThreeStatements(later, Claimed(s, handle, c.now), Cloud(C.DeferExecution(handle)), Cloud(C.DeferAttempt),
                    Cloud(C.DeferJob));
  }

  /** Deferring an attempt just claimed takes all three rows back to what they were, but for versions and timestamps,
      whatever else the deferral finds in the tables. */
  lemma DeferralUndoesClaim(c: Context, later: Context, s: Slice, handle: int)
    requires RowsOk(c, s) && FreshSlice(s, c.now) && Claimable(c, s)
    requires later.job == c.job && later.attempt == c.attempt && later.now != c.now
    ensures
      var claimed := ApplyAll(c, s, Statements(PrepareCloudRun(handle)));
      ApplyAll(later, claimed, Statements(RecordCreateDeferred(handle))) == Released(s, later.now)
  {
    ClaimIsAllOrNothing(c, s, handle);
    DeferringClaimed(c, later, s, handle);
  }

  /** The attempt was sent to the controller under this handle, and nothing has come back yet that moved it. */
  predicate SentUnder(s: Slice, handle: int) {
    && s.execution.Some? && s.execution.value.provider == CloudRun && s.execution.value.handle == Some(handle)
    && s.execution.value.status == ExecCreating
    && s.attempt.Some? && s.attempt.value.status == Submitting
  }

  lemma DeferringRows(c: Context, s: Slice, handle: int)
    requires RowsOk(c, s) && FreshSlice(s, c.now)
    ensures
      var s' := ApplyAll(c, s, Statements(RecordCreateDeferred(handle)));
      if SentUnder(s, handle) then
        && s'.attempt == Some(s.attempt.value.(
             status := SubmissionPending, submissionStartedAt := None, submissionOutcome := None,
             submissionFinishedAt := None, updatedAt := c.now))
        && s'.execution == Some(s.execution.value.(
             status := ExecWaiting, createOutcome := None, handle := None, providerVersion := None,
             version := s.execution.value.version + 1, updatedAt := c.now))
        && s'.job == (
             if s.job.Some? && s.job.value.active == Some(c.attempt) && s.job.value.deletedAt == None
                && s.job.value.status == JobSubmitting
             then Some(s.job.value.(status := JobSubmissionPending, version := s.job.value.version + 1, updatedAt := c.now))
             else s.job)
      else s' == s
  {
    ThreeStatements(c, s, Cloud(C.DeferExecution(handle)), Cloud(C.DeferAttempt), Cloud(C.DeferJob));
  }

  // ---------------------------------------------------------------- a cancellation that read an older job

  /** A cancellation keeps the job and its attempt in agreement exactly when, if its attempt statement matches,
      the job still has the owner and the version the request read: only the job statement asks for them. */
  lemma CancellationAgreesExactly(c: Context, s: Slice, owner: int, version: int, expected: AttemptStatus)
    requires SliceOk(c, s) && FreshSlice(s, c.now)
    ensures SliceOk(c, ApplyAll(c, s, Statements(RequestCancellation(owner, version, expected))))
      <==> Snapshot(c, s, RequestCancellation(owner, version, expected))
  {
    if Snapshot(c, s, RequestCancellation(owner, version, expected)) {
      RequestCancellationKeeps(c, s, owner, version, expected);
    } else {
      TwoStatements(c, s, Web(W.RequestAttemptCancellation(expected)),
                    Web(W.RequestJobCancellation(owner, version, expected)));
    }
  }

  predicate AttemptOnly(s: Slice, s': Slice, expected: AttemptStatus) {
    && s'.job == s.job && s.job.Some? && s.job.value.status == JobStatusOf(expected)
    && s'.attempt.Some? && s'.attempt.value.status == W.Stopped(expected)
  }

  /** Whenever the attempt statement matches but owner or version do not, the attempt stops and the job does not. */
  lemma StaleCancellationSplits(c: Context, s: Slice, owner: int, version: int, expected: AttemptStatus)
    requires W.Apply(c, s, W.RequestAttemptCancellation(expected)).1
    requires s.job.value.owner != owner || s.job.value.version != version
    ensures AttemptOnly(s, ApplyAll(c, s, Statements(RequestCancellation(owner, version, expected))), expected)
  {
    TwoStatements(c, s, Web(W.RequestAttemptCancellation(expected)),
                  Web(W.RequestJobCancellation(owner, version, expected)));
  }
}

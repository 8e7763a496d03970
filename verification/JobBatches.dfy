/** Every batch of both providers and of the web server as its list of statements, and what one batch keeps of
    the rows it works on. */
module JobBatches {
  import opened ControllerTypes
  import opened JobTables
  import C = CloudRunBatches
  import R = RunpodBatches
  import W = WebBatches

  datatype Statement = Cloud(cloud: C.Statement) | Pod(pod: R.Statement) | Web(web: W.Statement)

  datatype Batch =
    // cloud-run-control-repository
    | PrepareCloudRun(handle: int)
    | RecordCreateResponse(handle: int, response: C.Response, providerVersion: int)
    | RecordCreateUnknown(handle: int)
    | RecordCreateDeferred(handle: int)
    | RecordCreateRejected(handle: int, providerVersion: int)
    | ApplyControllerResponse(handle: int, expectedVersion: int, action: C.ControlAction, response: C.Response,
                              providerVersion: int)
    | FailMissingTerminal(handle: int, expectedVersion: int)
    // cloud-run-terminal-repository and cloud-run-runtime-d1-store
    | FinalizeSuccess(handle: int, evidence: bool)
    | FinalizeFailure(handle: int, cancelled: bool, evidence: bool)
    | BeginBootstrap(handle: int, providerVersion: int)
    // runpod-control-repository
    | PrepareRunpod(token: int, expiresAt: Time, optionsValid: bool)
    | RecordSubmissionAccepted(submitted: bool)
    | RecordSubmissionUnknown
    | RecordSubmissionRejected
    | ClaimWinner(runpodId: int, token: int)
    | FailExpiredUnknown(submitted: bool)
    | FailStaleAccepted(submitted: bool, staleBefore: Time)
    | CancelExpiredUnbound(submitted: bool)
    // completion-repository
    | FailUnobservable(runpodId: int, cutoff: Time, deadline: R.Deadline, submitted: bool)
    | RecordTerminalStatus(runpodId: int, terminal: TerminalStatus, outputCompleted: bool, allowUnclaimed: bool,
                           submitted: bool)
    | FinalizeTerminal(runpodId: int, cancelled: bool)
    | FinalizeCompleted(runpodId: int, artifactsStored: bool)
    // upload-ingestion-repository and the web server's job-repository
    | IngestSource(provider: Provider, version: int, etag: int, insert: bool)
    | RetryFailedJob(owner: int)
    | RequestCancellation(owner: int, version: int, expected: AttemptStatus)
    | RequestDeletion(owner: int, version: int, was: Option<AttemptStatus>)
    | SourceMutated(asker: Option<int>, version: int, etag: int)

  function Statements(b: Batch): seq<Statement> {
    match b
    case PrepareCloudRun(handle) => [Cloud(C.ClaimExecution(handle)), Cloud(C.ClaimAttempt), Cloud(C.ClaimJob)]
    case RecordCreateResponse(handle, response, version) =>
      if response in {C.RespAccepted, C.RespPending, C.RespRunning, C.RespUnknown, C.RespRejected} then
        [Cloud(C.RecordResponseExecution(handle, response, version)),
         Cloud(C.RecordResponseAttempt(handle, response, version)),
         Cloud(C.RecordResponseJob(response))]
      else []
    case RecordCreateUnknown(handle) => [Cloud(C.RecordUnknownExecution(handle)), Cloud(C.RecordUnknownAttempt)]
    case RecordCreateDeferred(handle) => [Cloud(C.DeferExecution(handle)), Cloud(C.DeferAttempt), Cloud(C.DeferJob)]
    case RecordCreateRejected(handle, version) =>
      [Cloud(C.RejectExecution(handle, version)), Cloud(C.RejectAttempt(handle)), Cloud(C.ApplyJob(C.RespFailed))]
    case ApplyControllerResponse(handle, expected, action, response, version) =>
      [Cloud(C.ApplyExecution(handle, expected, action, response, version)),
       Cloud(C.ApplyAttempt(handle, response)), Cloud(C.ApplyJob(response))]
    case FailMissingTerminal(handle, expected) =>
      [Cloud(C.FailMissingExecution(handle, expected)), Cloud(C.FailMissingAttempt(handle)),
       Cloud(C.ApplyJob(C.RespFailed))]
    case FinalizeSuccess(handle, evidence) =>
      [Cloud(C.CompleteExecution(handle, evidence)), Cloud(C.CompleteAttempt(handle)),
       Cloud(C.FinalizeJob(AttemptCompleted))]
    case FinalizeFailure(handle, cancelled, evidence) =>
      var status := if cancelled then AttemptCancelled else AttemptFailed;
      var terminal := if cancelled then TermCancelled else TermFailed;
      [Cloud(C.TerminateExecution(handle, terminal, evidence)),
       Cloud(C.TerminateAttempt(handle, status, terminal)), Cloud(C.FinalizeJob(status))]
    case BeginBootstrap(handle, version) =>
      [Cloud(C.MarkExecutionRunning(handle, version)), Cloud(C.MarkAttemptRunning), Cloud(C.MarkJobRunning)]
    case PrepareRunpod(token, expiresAt, optionsValid) =>
      [Pod(R.PrepareSubmission(token, expiresAt, optionsValid)), Pod(R.MarkJobSubmitting(token))]
    case RecordSubmissionAccepted(submitted) => [Pod(R.MarkSubmissionAccepted(submitted))]
    case RecordSubmissionUnknown => [Pod(R.MarkSubmissionUnknown)]
    case RecordSubmissionRejected => [Pod(R.MarkAttemptRejected), Pod(R.MarkJobRejected)]
    case ClaimWinner(runpodId, token) => [Pod(R.ClaimWinner(runpodId, token)), Cloud(C.MarkJobRunning)]
    case FailExpiredUnknown(submitted) =>
      [Pod(R.FailExpiredUnknownAttempt(submitted)), Pod(R.FailExpiredUnknownJob(submitted))]
    case FailStaleAccepted(submitted, staleBefore) =>
      [Pod(R.FailStaleAcceptedAttempt(submitted, staleBefore)), Pod(R.FailStaleAcceptedJob(submitted, staleBefore))]
    case CancelExpiredUnbound(submitted) =>
      [Pod(R.CancelExpiredUnboundAttempt(submitted)), Pod(R.CancelExpiredUnboundJob)]
    case FailUnobservable(runpodId, cutoff, deadline, submitted) =>
      [Pod(R.FailUnobservableAttempt(runpodId, cutoff, deadline, submitted)), Cloud(C.FinalizeJob(AttemptFailed))]
    case RecordTerminalStatus(runpodId, terminal, outputCompleted, allowUnclaimed, submitted) =>
      [Pod(R.RecordTerminalStatus(runpodId, terminal, outputCompleted, allowUnclaimed, submitted))]
    case FinalizeTerminal(runpodId, cancelled) =>
      var status := if cancelled then AttemptCancelled else AttemptFailed;
      [Pod(R.FinalizeTerminalAttempt(runpodId, status)), Cloud(C.FinalizeJob(status))]
    case FinalizeCompleted(runpodId, artifactsStored) =>
      [Pod(R.CompleteAttempt(runpodId, artifactsStored)), Cloud(C.FinalizeJob(AttemptCompleted))]
    case IngestSource(provider, version, etag, insert) =>
      (if insert then [Web(W.InsertFirstAttempt(provider, version, etag))] else [])
      + [Web(W.ActivateAttempt(version, etag))]
    case RetryFailedJob(owner) => [Web(W.InsertRetryAttempt(owner)), Web(W.ActivateRetryAttempt(owner))]
    case RequestCancellation(owner, version, expected) =>
      [Web(W.RequestAttemptCancellation(expected)), Web(W.RequestJobCancellation(owner, version, expected))]
    case RequestDeletion(owner, version, was) =>
      (if was.Some? then [Web(W.RequestAttemptDeletion(owner, version, was.value))] else [])
      + [Web(W.MarkJobDeleted(owner, version, was))]
    case SourceMutated(asker, version, etag) =>
      [Web(W.FailSourceMutatedAttempt(asker, version, etag)), Web(W.MarkSourceMutated(asker, version, etag))]
  }

  function Apply(c: Context, s: Slice, stmt: Statement): (Slice, bool) {
    match stmt
    case Cloud(cloud) => C.Apply(c, s, cloud)
    case Pod(pod) => R.Apply(c, s, pod)
    case Web(web) => W.Apply(c, s, web)
  }

  /** A batch runs its statements in order; each one sees what the earlier ones did. */
  function ApplyAll(c: Context, s: Slice, statements: seq<Statement>): Slice
    decreases statements
  {
    if statements == [] then s else ApplyAll(c, Apply(c, s, statements[0]).0, statements[1..])
  }

  /** Did every statement of the batch match a row? */
  predicate AllMatch(c: Context, s: Slice, statements: seq<Statement>)
    decreases statements
  {
    statements == [] ||
    (Apply(c, s, statements[0]).1 && AllMatch(c, Apply(c, s, statements[0]).0, statements[1..]))
  }

  lemma OneStatement(c: Context, s: Slice, x: Statement)
    ensures ApplyAll(c, s, [x]) == Apply(c, s, x).0
    ensures AllMatch(c, s, [x]) == Apply(c, s, x).1
  {
    assert [x][1..] == [];
  }

  lemma TwoStatements(c: Context, s: Slice, x: Statement, y: Statement)
    ensures ApplyAll(c, s, [x, y]) == Apply(c, Apply(c, s, x).0, y).0
    ensures AllMatch(c, s, [x, y]) == (Apply(c, s, x).1 && Apply(c, Apply(c, s, x).0, y).1)
  {
    assert [x, y][1..] == [y];
    OneStatement(c, Apply(c, s, x).0, y);
  }

  lemma ThreeStatements(c: Context, s: Slice, x: Statement, y: Statement, z: Statement)
    ensures ApplyAll(c, s, [x, y, z]) == Apply(c, Apply(c, Apply(c, s, x).0, y).0, z).0
    ensures AllMatch(c, s, [x, y, z]) ==
      (Apply(c, s, x).1 && Apply(c, Apply(c, s, x).0, y).1 && Apply(c, Apply(c, Apply(c, s, x).0, y).0, z).1)
  {
    assert [x, y, z][1..] == [y, z];
    TwoStatements(c, Apply(c, s, x).0, y, z);
  }

  // ---------------------------------------------------------------- what each batch keeps

  /** The web server hands a batch what it read of the job just before: a cancellation's expected version must
      still be current if its attempt statement matches, and a source mutation names the active attempt of the
      version it names. */
  predicate Snapshot(c: Context, s: Slice, b: Batch) {
    match b
    case RequestCancellation(owner, version, expected) =>
      W.Apply(c, s, W.RequestAttemptCancellation(expected)).1 ==>
        s.job.value.owner == owner && s.job.value.version == version
    case SourceMutated(_, version, _) =>
      s.job.Some? && s.job.value.version == version ==> s.job.value.active in {None, Some(c.attempt)}
    case _ => true
  }

  lemma PrepareCloudRunKeeps(c: Context, s: Slice, handle: int)
    requires SliceOk(c, s) && FreshSlice(s, c.now)
    ensures SliceStep(c, s, ApplyAll(c, s, Statements(PrepareCloudRun(handle))))
  {
    ThreeStatements(c, s, Cloud(C.ClaimExecution(handle)), Cloud(C.ClaimAttempt), Cloud(C.ClaimJob));
  }

  lemma DeferKeeps(c: Context, s: Slice, handle: int)
    requires SliceOk(c, s) && FreshSlice(s, c.now)
    ensures SliceStep(c, s, C.ApplyDefer(c, C.ApplyDefer(c, C.ApplyDefer(c, s, C.DeferExecution(handle)).0, C.DeferAttempt).0,
                                         C.DeferJob).0)
  {
  }

  lemma RecordCreateDeferredKeeps(c: Context, s: Slice, handle: int)
    requires SliceOk(c, s) && FreshSlice(s, c.now)
    ensures SliceStep(c, s, ApplyAll(c, s, Statements(RecordCreateDeferred(handle))))
  {
    ThreeStatements(c, s, Cloud(C.DeferExecution(handle)), Cloud(C.DeferAttempt), Cloud(C.DeferJob));
    DeferKeeps(c, s, handle);
  }

  /** The first statement of the other Cloud Run batches only touches the execution, and leaves it fitting. */
  predicate OnlyExecution(c: Context, s: Slice, s1: Slice) {
    && SliceOk(c, s1) && s1.job == s.job && s1.attempt == s.attempt
    && (s1.execution.Some? && s1.execution.value.updatedAt == c.now ==>
          s1.execution.value.provider == CloudRun)
  }

  /** Neither the job nor the attempt carries the batch's timestamp yet. */
  predicate FreshRows(s: Slice, now: Time) {
    && (s.job.Some? ==> s.job.value.updatedAt != now)
    && (s.attempt.Some? ==> s.attempt.value.updatedAt != now && s.attempt.value.createdAt != now)
  }

  lemma ResponseExecutionKeeps(c: Context, s: Slice, handle: int, response: C.Response, version: int)
    requires SliceOk(c, s) && FreshSlice(s, c.now)
    ensures OnlyExecution(c, s, Apply(c, s, Cloud(C.RecordResponseExecution(handle, response, version))).0)
  {
  }

  lemma ResponseTailKeeps(c: Context, s: Slice, handle: int, response: C.Response, version: int)
    requires SliceOk(c, s) && FreshRows(s, c.now)
    ensures SliceStep(c, s, Apply(c, Apply(c, s, Cloud(C.RecordResponseAttempt(handle, response, version))).0,
                                  Cloud(C.RecordResponseJob(response))).0)
  {
  }

  lemma RecordCreateResponseKeeps(c: Context, s: Slice, handle: int, response: C.Response, version: int)
    requires SliceOk(c, s) && FreshSlice(s, c.now)
    ensures SliceStep(c, s, ApplyAll(c, s, Statements(RecordCreateResponse(handle, response, version))))
  {
    var first := Cloud(C.RecordResponseExecution(handle, response, version));
    ThreeStatements(c, s, first, Cloud(C.RecordResponseAttempt(handle, response, version)),
                    Cloud(C.RecordResponseJob(response)));
    ResponseExecutionKeeps(c, s, handle, response, version);
    ResponseTailKeeps(c, Apply(c, s, first).0, handle, response, version);
  }

  lemma RecordCreateUnknownKeeps(c: Context, s: Slice, handle: int)
    requires SliceOk(c, s) && FreshSlice(s, c.now)
    ensures SliceStep(c, s, ApplyAll(c, s, Statements(RecordCreateUnknown(handle))))
  {
    TwoStatements(c, s, Cloud(C.RecordUnknownExecution(handle)), Cloud(C.RecordUnknownAttempt));
  }

  lemma RejectExecutionKeeps(c: Context, s: Slice, handle: int, version: int)
    requires SliceOk(c, s) && FreshSlice(s, c.now)
    ensures OnlyExecution(c, s, Apply(c, s, Cloud(C.RejectExecution(handle, version))).0)
  {
  }

  lemma RejectTailKeeps(c: Context, s: Slice, handle: int)
    requires SliceOk(c, s) && FreshRows(s, c.now)
    requires s.execution.Some? && s.execution.value.updatedAt == c.now ==> s.execution.value.provider == CloudRun
    ensures SliceStep(c, s, Apply(c, Apply(c, s, Cloud(C.RejectAttempt(handle))).0, Cloud(C.ApplyJob(C.RespFailed))).0)
  {
  }

  lemma RecordCreateRejectedKeeps(c: Context, s: Slice, handle: int, version: int)
    requires SliceOk(c, s) && FreshSlice(s, c.now)
    ensures SliceStep(c, s, ApplyAll(c, s, Statements(RecordCreateRejected(handle, version))))
  {
    var first := Cloud(C.RejectExecution(handle, version));
    ThreeStatements(c, s, first, Cloud(C.RejectAttempt(handle)), Cloud(C.ApplyJob(C.RespFailed)));
    RejectExecutionKeeps(c, s, handle, version);
    RejectTailKeeps(c, Apply(c, s, first).0, handle);
  }

  lemma ApplyExecutionKeeps(c: Context, s: Slice, handle: int, expected: int, action: C.ControlAction,
                            response: C.Response, version: int)
    requires SliceOk(c, s) && FreshSlice(s, c.now)
    ensures OnlyExecution(c, s, Apply(c, s, Cloud(C.ApplyExecution(handle, expected, action, response, version))).0)
  {
  }

  lemma ApplyTailKeeps(c: Context, s: Slice, handle: int, response: C.Response)
    requires SliceOk(c, s) && FreshRows(s, c.now)
    requires s.execution.Some? && s.execution.value.updatedAt == c.now ==> s.execution.value.provider == CloudRun
    ensures SliceStep(c, s, Apply(c, Apply(c, s, Cloud(C.ApplyAttempt(handle, response))).0,
                                  Cloud(C.ApplyJob(response))).0)
  {
  }

  lemma ApplyControllerResponseKeeps(c: Context, s: Slice, handle: int, expected: int, action: C.ControlAction,
                                     response: C.Response, version: int)
    requires SliceOk(c, s) && FreshSlice(s, c.now)
    ensures SliceStep(c, s, ApplyAll(c, s, Statements(ApplyControllerResponse(handle, expected, action, response, version))))
  {
    var first := Cloud(C.ApplyExecution(handle, expected, action, response, version));
    ThreeStatements(c, s, first, Cloud(C.ApplyAttempt(handle, response)), Cloud(C.ApplyJob(response)));
    ApplyExecutionKeeps(c, s, handle, expected, action, response, version);
    ApplyTailKeeps(c, Apply(c, s, first).0, handle, response);
  }

  lemma FailMissingExecutionKeeps(c: Context, s: Slice, handle: int, expected: int)
    requires SliceOk(c, s) && FreshSlice(s, c.now)
    ensures OnlyExecution(c, s, Apply(c, s, Cloud(C.FailMissingExecution(handle, expected))).0)
  {
  }

  lemma FailMissingTailKeeps(c: Context, s: Slice, handle: int)
    requires SliceOk(c, s) && FreshRows(s, c.now)
    requires s.execution.Some? && s.execution.value.updatedAt == c.now ==> s.execution.value.provider == CloudRun
    ensures SliceStep(c, s, Apply(c, Apply(c, s, Cloud(C.FailMissingAttempt(handle))).0, Cloud(C.ApplyJob(C.RespFailed))).0)
  {
  }

  lemma FailMissingTerminalKeeps(c: Context, s: Slice, handle: int, expected: int)
    requires SliceOk(c, s) && FreshSlice(s, c.now)
    ensures SliceStep(c, s, ApplyAll(c, s, Statements(FailMissingTerminal(handle, expected))))
  {
    var first := Cloud(C.FailMissingExecution(handle, expected));
    ThreeStatements(c, s, first, Cloud(C.FailMissingAttempt(handle)), Cloud(C.ApplyJob(C.RespFailed)));
    FailMissingExecutionKeeps(c, s, handle, expected);
    FailMissingTailKeeps(c, Apply(c, s, first).0, handle);
  }

  lemma CompleteExecutionKeeps(c: Context, s: Slice, handle: int, evidence: bool)
    requires SliceOk(c, s) && FreshSlice(s, c.now)
    ensures OnlyExecution(c, s, Apply(c, s, Cloud(C.CompleteExecution(handle, evidence))).0)
  {
  }

  lemma CompleteTailKeeps(c: Context, s: Slice, handle: int)
    requires SliceOk(c, s) && FreshRows(s, c.now)
    ensures SliceStep(c, s, Apply(c, Apply(c, s, Cloud(C.CompleteAttempt(handle))).0,
                                  Cloud(C.FinalizeJob(AttemptCompleted))).0)
  {
  }

  lemma FinalizeSuccessKeeps(c: Context, s: Slice, handle: int, evidence: bool)
    requires SliceOk(c, s) && FreshSlice(s, c.now)
    ensures SliceStep(c, s, ApplyAll(c, s, Statements(FinalizeSuccess(handle, evidence))))
  {
    var first := Cloud(C.CompleteExecution(handle, evidence));
    ThreeStatements(c, s, first, Cloud(C.CompleteAttempt(handle)), Cloud(C.FinalizeJob(AttemptCompleted)));
    CompleteExecutionKeeps(c, s, handle, evidence);
    CompleteTailKeeps(c, Apply(c, s, first).0, handle);
  }

  lemma TerminateExecutionKeeps(c: Context, s: Slice, handle: int, terminal: TerminalStatus, evidence: bool)
    requires SliceOk(c, s) && FreshSlice(s, c.now)
    ensures OnlyExecution(c, s, Apply(c, s, Cloud(C.TerminateExecution(handle, terminal, evidence))).0)
  {
  }

  lemma TerminateTailKeeps(c: Context, s: Slice, handle: int, status: AttemptStatus, terminal: TerminalStatus)
    requires SliceOk(c, s) && FreshRows(s, c.now) && status in {AttemptFailed, AttemptCancelled}
    ensures SliceStep(c, s, Apply(c, Apply(c, s, Cloud(C.TerminateAttempt(handle, status, terminal))).0,
                                  Cloud(C.FinalizeJob(status))).0)
  {
  }

  lemma FinalizeFailureKeeps(c: Context, s: Slice, handle: int, cancelled: bool, evidence: bool)
    requires SliceOk(c, s) && FreshSlice(s, c.now)
    ensures SliceStep(c, s, ApplyAll(c, s, Statements(FinalizeFailure(handle, cancelled, evidence))))
  {
    var status := if cancelled then AttemptCancelled else AttemptFailed;
    var terminal := if cancelled then TermCancelled else TermFailed;
    var first := Cloud(C.TerminateExecution(handle, terminal, evidence));
    ThreeStatements(c, s, first, Cloud(C.TerminateAttempt(handle, status, terminal)), Cloud(C.FinalizeJob(status)));
    TerminateExecutionKeeps(c, s, handle, terminal, evidence);
    TerminateTailKeeps(c, Apply(c, s, first).0, handle, status, terminal);
  }

  lemma MarkExecutionRunningKeeps(c: Context, s: Slice, handle: int, version: int)
    requires SliceOk(c, s) && FreshSlice(s, c.now)
    ensures OnlyExecution(c, s, Apply(c, s, Cloud(C.MarkExecutionRunning(handle, version))).0)
  {
  }

  lemma MarkRunningTailKeeps(c: Context, s: Slice)
    requires SliceOk(c, s) && FreshRows(s, c.now)
    ensures SliceStep(c, s, Apply(c, Apply(c, s, Cloud(C.MarkAttemptRunning)).0, Cloud(C.MarkJobRunning)).0)
  {
  }

  lemma BeginBootstrapKeeps(c: Context, s: Slice, handle: int, version: int)
    requires SliceOk(c, s) && FreshSlice(s, c.now)
    ensures SliceStep(c, s, ApplyAll(c, s, Statements(BeginBootstrap(handle, version))))
  {
    var first := Cloud(C.MarkExecutionRunning(handle, version));
    ThreeStatements(c, s, first, Cloud(C.MarkAttemptRunning), Cloud(C.MarkJobRunning));
    MarkExecutionRunningKeeps(c, s, handle, version);
    MarkRunningTailKeeps(c, Apply(c, s, first).0);
  }

  // ---------------------------------------------------------------- RunPod and completion

  lemma PrepareRunpodKeeps(c: Context, s: Slice, token: int, expiresAt: Time, optionsValid: bool)
    requires SliceOk(c, s) && FreshSlice(s, c.now)
    ensures SliceStep(c, s, ApplyAll(c, s, Statements(PrepareRunpod(token, expiresAt, optionsValid))))
  {
    TwoStatements(c, s, Pod(R.PrepareSubmission(token, expiresAt, optionsValid)), Pod(R.MarkJobSubmitting(token)));
  }

  lemma SubmissionNoteKeeps(c: Context, s: Slice, note: R.Statement)
    requires SliceOk(c, s) && (note.MarkSubmissionAccepted? || note.MarkSubmissionUnknown? || note.RecordTerminalStatus?)
    ensures SliceStep(c, s, ApplyAll(c, s, [Pod(note)]))
  {
    OneStatement(c, s, Pod(note));
  }

  /** One statement moved the attempt, its triggers ran, and the job has not followed yet. */
  predicate AttemptMoved(c: Context, s: Slice, s1: Slice, status: AttemptStatus) {
    && s.attempt.Some? && s1.attempt.Some? && s1.job == s.job
    && IsActive(s.attempt.value.status)
    && s1.attempt.value.jobId == s.attempt.value.jobId && s1.attempt.value.provider == s.attempt.value.provider
    && s1.attempt.value.status == status && s1.attempt.value.updatedAt == c.now
    && ExecutionFits(s1.attempt.value, s1.execution)
  }

  /** The job follows: it took over the attempt's status if the attempt is its active one. */
  predicate JobFollowed(c: Context, s: Slice, s1: Slice, s2: Slice, status: AttemptStatus) {
    && s2.attempt == s1.attempt && s2.execution == s1.execution
    && s.job.Some? && s2.job.Some?
    && s2.job.value.active == s.job.value.active && s2.job.value.deletedAt == s.job.value.deletedAt
    && (C.LiveJob(c, s) ==> s2.job.value.status == JobStatusOf(status))
    && (s.job.value.active != Some(c.attempt) ==> s2.job == s.job)
  }

  lemma FollowingKeeps(c: Context, s: Slice, s1: Slice, s2: Slice, status: AttemptStatus)
    requires SliceOk(c, s) && AttemptMoved(c, s, s1, status) && JobFollowed(c, s, s1, s2, status)
    ensures SliceStep(c, s, s2)
  {
  }

  /** The status a RunPod statement moves an attempt to. */
  function Target(stmt: R.Statement): Option<AttemptStatus> {
    match stmt
    case MarkAttemptRejected => Some(AttemptFailed)
    case ClaimWinner(_, _) => Some(AttemptRunning)
    case FailExpiredUnknownAttempt(_) => Some(AttemptFailed)
    case FailStaleAcceptedAttempt(_, _) => Some(AttemptFailed)
    case CancelExpiredUnboundAttempt(_) => Some(AttemptCancelled)
    case FailUnobservableAttempt(_, _, _, _) => Some(AttemptFailed)
    case FinalizeTerminalAttempt(_, status) => Some(status)
    case CompleteAttempt(_, _) => Some(AttemptCompleted)
    case _ => None
  }

  predicate Moves(c: Context, s: Slice, stmt: R.Statement, result: (Slice, bool)) {
    && (result.1 ==> Target(stmt).Some? && AttemptMoved(c, s, result.0, Target(stmt).value))
    && (!result.1 ==> result.0 == s)
  }

  lemma SubmissionMoves(c: Context, s: Slice, stmt: R.Statement)
    requires SliceOk(c, s) && (stmt.MarkAttemptRejected? || stmt.ClaimWinner?)
    ensures Moves(c, s, stmt, Apply(c, s, Pod(stmt)))
  {
  }

  lemma ExpiryMoves(c: Context, s: Slice, stmt: R.Statement)
    requires SliceOk(c, s)
    requires stmt.FailExpiredUnknownAttempt? || stmt.FailStaleAcceptedAttempt? || stmt.CancelExpiredUnboundAttempt?
    ensures Moves(c, s, stmt, Apply(c, s, Pod(stmt)))
  {
  }

  lemma OutcomeMoves(c: Context, s: Slice, stmt: R.Statement)
    requires SliceOk(c, s)
    requires stmt.FailUnobservableAttempt? || stmt.CompleteAttempt? || stmt.FinalizeTerminalAttempt?
    requires stmt.FinalizeTerminalAttempt? ==> IsTerminal(stmt.status)
    ensures Moves(c, s, stmt, Apply(c, s, Pod(stmt)))
  {
  }

  lemma FinalizeFollows(c: Context, s: Slice, s1: Slice, status: AttemptStatus)
    requires SliceOk(c, s) && AttemptMoved(c, s, s1, status)
    ensures JobFollowed(c, s, s1, Apply(c, s1, Cloud(C.FinalizeJob(status))).0, status)
  {
  }

  lemma FinalizeIdles(c: Context, s: Slice, status: AttemptStatus)
    requires SliceOk(c, s) && FreshSlice(s, c.now)
    ensures Apply(c, s, Cloud(C.FinalizeJob(status))).0 == s
  {
  }

  /** A RunPod statement that ends the attempt, followed by the job's own finalization. */
  lemma PodFinalizeKeeps(c: Context, s: Slice, stmt: R.Statement)
    requires SliceOk(c, s) && FreshSlice(s, c.now) && Target(stmt).Some?
    requires Moves(c, s, stmt, Apply(c, s, Pod(stmt)))
    ensures SliceStep(c, s, ApplyAll(c, s, [Pod(stmt), Cloud(C.FinalizeJob(Target(stmt).value))]))
  {
    var status := Target(stmt).value;
    TwoStatements(c, s, Pod(stmt), Cloud(C.FinalizeJob(status)));
    var (s1, matched) := Apply(c, s, Pod(stmt));
    if matched {
      FinalizeFollows(c, s, s1, status);
      FollowingKeeps(c, s, s1, Apply(c, s1, Cloud(C.FinalizeJob(status))).0, status);
    } else {
      FinalizeIdles(c, s, status);
    }
  }

  lemma FailUnobservableKeeps(c: Context, s: Slice, runpodId: int, cutoff: Time, deadline: R.Deadline, submitted: bool)
    requires SliceOk(c, s) && FreshSlice(s, c.now)
    ensures SliceStep(c, s, ApplyAll(c, s, Statements(FailUnobservable(runpodId, cutoff, deadline, submitted))))
  {
    OutcomeMoves(c, s, R.FailUnobservableAttempt(runpodId, cutoff, deadline, submitted));
    PodFinalizeKeeps(c, s, R.FailUnobservableAttempt(runpodId, cutoff, deadline, submitted));
  }

  lemma FinalizeTerminalKeeps(c: Context, s: Slice, runpodId: int, cancelled: bool)
    requires SliceOk(c, s) && FreshSlice(s, c.now)
    ensures SliceStep(c, s, ApplyAll(c, s, Statements(FinalizeTerminal(runpodId, cancelled))))
  {
    var status := if cancelled then AttemptCancelled else AttemptFailed;
    OutcomeMoves(c, s, R.FinalizeTerminalAttempt(runpodId, status));
    PodFinalizeKeeps(c, s, R.FinalizeTerminalAttempt(runpodId, status));
  }

  lemma FinalizeCompletedKeeps(c: Context, s: Slice, runpodId: int, artifactsStored: bool)
    requires SliceOk(c, s) && FreshSlice(s, c.now)
    ensures SliceStep(c, s, ApplyAll(c, s, Statements(FinalizeCompleted(runpodId, artifactsStored))))
  {
    OutcomeMoves(c, s, R.CompleteAttempt(runpodId, artifactsStored));
    PodFinalizeKeeps(c, s, R.CompleteAttempt(runpodId, artifactsStored));
  }

  lemma RejectedJobFollows(c: Context, s: Slice, s1: Slice)
    requires SliceOk(c, s) && AttemptMoved(c, s, s1, AttemptFailed) && s.attempt.value.status == Submitting
    requires s1.attempt.value.submissionOutcome == Some(CreateRejected)
    ensures JobFollowed(c, s, s1, Apply(c, s1, Pod(R.MarkJobRejected)).0, AttemptFailed)
  {
  }

  lemma RejectedJobIdles(c: Context, s: Slice)
    requires SliceOk(c, s)
    ensures SliceStep(c, s, Apply(c, s, Pod(R.MarkJobRejected)).0)
  {
  }

  lemma RejectionTraces(c: Context, s: Slice)
    requires SliceOk(c, s) && Apply(c, s, Pod(R.MarkAttemptRejected)).1
    ensures
      var s1 := Apply(c, s, Pod(R.MarkAttemptRejected)).0;
      && AttemptMoved(c, s, s1, AttemptFailed) && s.attempt.value.status == Submitting
      && s1.attempt.value.submissionOutcome == Some(CreateRejected)
  {
  }

  lemma RejectedThenJob(c: Context, s: Slice, s1: Slice)
    requires SliceOk(c, s) && AttemptMoved(c, s, s1, AttemptFailed) && s.attempt.value.status == Submitting
    requires s1.attempt.value.submissionOutcome == Some(CreateRejected)
    ensures SliceStep(c, s, Apply(c, s1, Pod(R.MarkJobRejected)).0)
  {
    RejectedJobFollows(c, s, s1);
    FollowingKeeps(c, s, s1, Apply(c, s1, Pod(R.MarkJobRejected)).0, AttemptFailed);
  }

  lemma RejectionIdles(c: Context, s: Slice)
    requires SliceOk(c, s) && !Apply(c, s, Pod(R.MarkAttemptRejected)).1
    ensures Apply(c, s, Pod(R.MarkAttemptRejected)).0 == s
  {
  }

  lemma RejectionKeeps(c: Context, s: Slice) returns (s1: Slice)
    requires SliceOk(c, s)
    ensures s1 == Apply(c, s, Pod(R.MarkAttemptRejected)).0
    ensures SliceStep(c, s, Apply(c, s1, Pod(R.MarkJobRejected)).0)
  {
    s1 := Apply(c, s, Pod(R.MarkAttemptRejected)).0;
    if Apply(c, s, Pod(R.MarkAttemptRejected)).1 {
      RejectionTraces(c, s);
      RejectedThenJob(c, s, s1);
    } else {
      RejectionIdles(c, s);
      RejectedJobIdles(c, s);
    }
  }

  lemma RecordSubmissionRejectedKeeps(c: Context, s: Slice, b: Batch)
    requires SliceOk(c, s) && b.RecordSubmissionRejected?
    ensures SliceStep(c, s, ApplyAll(c, s, Statements(b)))
  {
    TwoStatements(c, s, Pod(R.MarkAttemptRejected), Pod(R.MarkJobRejected));
    var s1 := RejectionKeeps(c, s);
  }

  lemma RunningJobFollows(c: Context, s: Slice, s1: Slice)
    requires SliceOk(c, s) && AttemptMoved(c, s, s1, AttemptRunning) && s.attempt.value.status == Submitting
    ensures JobFollowed(c, s, s1, Apply(c, s1, Cloud(C.MarkJobRunning)).0, AttemptRunning)
  {
  }

  lemma RunningJobIdles(c: Context, s: Slice)
    requires SliceOk(c, s)
    ensures Apply(c, s, Cloud(C.MarkJobRunning)).0 == s
  {
  }

  lemma ClaimWinnerKeeps(c: Context, s: Slice, runpodId: int, token: int)
    requires SliceOk(c, s) && FreshSlice(s, c.now)
    ensures SliceStep(c, s, ApplyAll(c, s, Statements(ClaimWinner(runpodId, token))))
  {
    TwoStatements(c, s, Pod(R.ClaimWinner(runpodId, token)), Cloud(C.MarkJobRunning));
    SubmissionMoves(c, s, R.ClaimWinner(runpodId, token));
    var (s1, matched) := Apply(c, s, Pod(R.ClaimWinner(runpodId, token)));
    if matched {
      RunningJobFollows(c, s, s1);
      FollowingKeeps(c, s, s1, Apply(c, s1, Cloud(C.MarkJobRunning)).0, AttemptRunning);
    } else {
      RunningJobIdles(c, s);
    }
  }

  /** The job statements of the expiry batches ask for the traces their attempt statement leaves. */
  predicate ExpiryTraces(c: Context, s: Slice, s1: Slice, stmt: R.Statement) {
    s1.attempt.Some? && s.attempt.Some? &&
    match stmt
    case FailExpiredUnknownJob(submitted) =>
      && s.attempt.value.status == Submitting && !submitted && s1.attempt.value.failedAt == Some(c.now)
      && R.OutcomeOpen(s1.attempt.value) && s1.attempt.value.winner == None
    case FailStaleAcceptedJob(submitted, staleBefore) =>
      && s.attempt.value.status == Submitting && submitted && s1.attempt.value.failedAt == Some(c.now)
      && s1.attempt.value.submissionOutcome == Some(CreateAccepted)
      && R.NotAfter(s1.attempt.value.submissionFinishedAt, staleBefore)
      && s1.attempt.value.winner == None && s1.attempt.value.terminalStatus == None
    case CancelExpiredUnboundJob =>
      s.attempt.value.status == CancelRequested && s1.attempt.value.winner == None
    case _ => false
  }

  function ExpiryStatus(stmt: R.Statement): AttemptStatus {
    if stmt.CancelExpiredUnboundJob? then AttemptCancelled else AttemptFailed
  }

  lemma ExpiryJobFollows(c: Context, s: Slice, s1: Slice, stmt: R.Statement)
    requires SliceOk(c, s) && AttemptMoved(c, s, s1, ExpiryStatus(stmt)) && ExpiryTraces(c, s, s1, stmt)
    ensures JobFollowed(c, s, s1, Apply(c, s1, Pod(stmt)).0, ExpiryStatus(stmt))
  {
  }

  lemma ExpiryJobIdles(c: Context, s: Slice, stmt: R.Statement)
    requires SliceOk(c, s) && FreshSlice(s, c.now)
    requires stmt.FailExpiredUnknownJob? || stmt.FailStaleAcceptedJob? || stmt.CancelExpiredUnboundJob?
    ensures Apply(c, s, Pod(stmt)).0 == s
  {
  }

  lemma ExpiryKeeps(c: Context, s: Slice, first: R.Statement, second: R.Statement)
    requires SliceOk(c, s) && FreshSlice(s, c.now)
    requires second.FailExpiredUnknownJob? || second.FailStaleAcceptedJob? || second.CancelExpiredUnboundJob?
    requires Moves(c, s, first, Apply(c, s, Pod(first))) && Target(first) == Some(ExpiryStatus(second))
    requires Apply(c, s, Pod(first)).1 ==> ExpiryTraces(c, s, Apply(c, s, Pod(first)).0, second)
    ensures SliceStep(c, s, ApplyAll(c, s, [Pod(first), Pod(second)]))
  {
    TwoStatements(c, s, Pod(first), Pod(second));
    var (s1, matched) := Apply(c, s, Pod(first));
    if matched {
      ExpiryJobFollows(c, s, s1, second);
      FollowingKeeps(c, s, s1, Apply(c, s1, Pod(second)).0, ExpiryStatus(second));
    } else {
      ExpiryJobIdles(c, s, second);
    }
  }

  lemma FailExpiredUnknownKeeps(c: Context, s: Slice, submitted: bool)
    requires SliceOk(c, s) && FreshSlice(s, c.now)
    ensures SliceStep(c, s, ApplyAll(c, s, Statements(FailExpiredUnknown(submitted))))
  {
    ExpiryMoves(c, s, R.FailExpiredUnknownAttempt(submitted));
    ExpiryKeeps(c, s, R.FailExpiredUnknownAttempt(submitted), R.FailExpiredUnknownJob(submitted));
  }

  lemma FailStaleAcceptedKeeps(c: Context, s: Slice, submitted: bool, staleBefore: Time)
    requires SliceOk(c, s) && FreshSlice(s, c.now)
    ensures SliceStep(c, s, ApplyAll(c, s, Statements(FailStaleAccepted(submitted, staleBefore))))
  {
    ExpiryMoves(c, s, R.FailStaleAcceptedAttempt(submitted, staleBefore));
    ExpiryKeeps(c, s, R.FailStaleAcceptedAttempt(submitted, staleBefore), R.FailStaleAcceptedJob(submitted, staleBefore));
  }

  lemma CancelExpiredUnboundKeeps(c: Context, s: Slice, submitted: bool)
    requires SliceOk(c, s) && FreshSlice(s, c.now)
    ensures SliceStep(c, s, ApplyAll(c, s, Statements(CancelExpiredUnbound(submitted))))
  {
    ExpiryMoves(c, s, R.CancelExpiredUnboundAttempt(submitted));
    ExpiryKeeps(c, s, R.CancelExpiredUnboundAttempt(submitted), R.CancelExpiredUnboundJob);
  }

  // ---------------------------------------------------------------- the user and the upload queue

  lemma IngestSourceKeeps(c: Context, s: Slice, provider: Provider, version: int, etag: int, insert: bool)
    requires SliceOk(c, s) && FreshSlice(s, c.now)
    ensures SliceStep(c, s, ApplyAll(c, s, Statements(IngestSource(provider, version, etag, insert))))
  {
    if insert {
      assert Statements(IngestSource(provider, version, etag, insert))
          == [Web(W.InsertFirstAttempt(provider, version, etag)), Web(W.ActivateAttempt(version, etag))];
      TwoStatements(c, s, Web(W.InsertFirstAttempt(provider, version, etag)), Web(W.ActivateAttempt(version, etag)));
    } else {
      assert Statements(IngestSource(provider, version, etag, insert)) == [Web(W.ActivateAttempt(version, etag))];
      OneStatement(c, s, Web(W.ActivateAttempt(version, etag)));
    }
  }

  lemma RetryFailedJobKeeps(c: Context, s: Slice, owner: int)
    requires SliceOk(c, s) && FreshSlice(s, c.now)
    ensures SliceStep(c, s, ApplyAll(c, s, Statements(RetryFailedJob(owner))))
  {
    TwoStatements(c, s, Web(W.InsertRetryAttempt(owner)), Web(W.ActivateRetryAttempt(owner)));
  }

  lemma RequestCancellationKeeps(c: Context, s: Slice, owner: int, version: int, expected: AttemptStatus)
    requires SliceOk(c, s) && FreshSlice(s, c.now) && Snapshot(c, s, RequestCancellation(owner, version, expected))
    ensures SliceStep(c, s, ApplyAll(c, s, Statements(RequestCancellation(owner, version, expected))))
  {
    TwoStatements(c, s, Web(W.RequestAttemptCancellation(expected)),
                  Web(W.RequestJobCancellation(owner, version, expected)));
  }

  lemma DeleteWithAttemptKeeps(c: Context, s: Slice, owner: int, version: int, was: AttemptStatus)
    requires SliceOk(c, s) && FreshSlice(s, c.now)
    ensures SliceStep(c, s, Apply(c, Apply(c, s, Web(W.RequestAttemptDeletion(owner, version, was))).0,
                                  Web(W.MarkJobDeleted(owner, version, Some(was)))).0)
  {
  }

  lemma RequestDeletionKeeps(c: Context, s: Slice, owner: int, version: int, was: Option<AttemptStatus>)
    requires SliceOk(c, s) && FreshSlice(s, c.now)
    ensures SliceStep(c, s, ApplyAll(c, s, Statements(RequestDeletion(owner, version, was))))
  {
    if was.Some? {
      assert Statements(RequestDeletion(owner, version, was))
          == [Web(W.RequestAttemptDeletion(owner, version, was.value)), Web(W.MarkJobDeleted(owner, version, was))];
      TwoStatements(c, s, Web(W.RequestAttemptDeletion(owner, version, was.value)),
                    Web(W.MarkJobDeleted(owner, version, was)));
      DeleteWithAttemptKeeps(c, s, owner, version, was.value);
    } else {
      assert Statements(RequestDeletion(owner, version, was)) == [Web(W.MarkJobDeleted(owner, version, was))];
      OneStatement(c, s, Web(W.MarkJobDeleted(owner, version, was)));
    }
  }

  lemma MutationKeeps(c: Context, s: Slice, asker: Option<int>, version: int, etag: int)
    requires SliceOk(c, s) && FreshSlice(s, c.now) && Snapshot(c, s, SourceMutated(asker, version, etag))
    requires W.Apply(c, s, W.FailSourceMutatedAttempt(asker, version, etag)).1
    ensures SliceStep(c, s, W.Apply(c, W.Apply(c, s, W.FailSourceMutatedAttempt(asker, version, etag)).0,
                                    W.MarkSourceMutated(asker, version, etag)).0)
  {
  }

  lemma MutationOfJobKeeps(c: Context, s: Slice, asker: Option<int>, version: int, etag: int)
    requires SliceOk(c, s) && FreshSlice(s, c.now) && Snapshot(c, s, SourceMutated(asker, version, etag))
    requires !W.Apply(c, s, W.FailSourceMutatedAttempt(asker, version, etag)).1
    ensures W.Apply(c, s, W.FailSourceMutatedAttempt(asker, version, etag)).0 == s
    ensures SliceStep(c, s, W.Apply(c, s, W.MarkSourceMutated(asker, version, etag)).0)
  {
  }

  lemma SourceMutatedKeeps(c: Context, s: Slice, asker: Option<int>, version: int, etag: int)
    requires SliceOk(c, s) && FreshSlice(s, c.now) && Snapshot(c, s, SourceMutated(asker, version, etag))
    ensures SliceStep(c, s, ApplyAll(c, s, Statements(SourceMutated(asker, version, etag))))
  {
    TwoStatements(c, s, Web(W.FailSourceMutatedAttempt(asker, version, etag)),
                  Web(W.MarkSourceMutated(asker, version, etag)));
    hide W.Apply, SliceOk, Snapshot, SliceStep, FreshSlice;
    if W.Apply(c, s, W.FailSourceMutatedAttempt(asker, version, etag)).1 {
      MutationKeeps(c, s, asker, version, etag);
    } else {
      MutationOfJobKeeps(c, s, asker, version, etag);
    }
  }

  // ---------------------------------------------------------------- rows are never removed

  predicate Grows(s: Slice, s': Slice) {
    && (s.job.Some? ==> s'.job.Some?)
    && (s.attempt.Some? ==> s'.attempt.Some?)
    && (s.execution.Some? ==> s'.execution.Some? )
  }

  /** No row is removed, no job appears, and no execution stands without its attempt. */
  predicate RowsRemain(s: Slice, s': Slice) {
    Grows(s, s') && (s.job == None ==> s'.job == None) && (s'.attempt == None ==> s'.execution == None)
  }

  lemma EarlyCloudGrows(c: Context, s: Slice, stmt: C.Statement)
    requires s.attempt == None ==> s.execution == None
    ensures RowsRemain(s, C.ApplyClaim(c, s, stmt).0)
    ensures RowsRemain(s, C.ApplyRecord(c, s, stmt).0)
    ensures RowsRemain(s, C.ApplyDefer(c, s, stmt).0)
  {
  }

  lemma LateCloudGrows(c: Context, s: Slice, stmt: C.Statement)
    requires s.attempt == None ==> s.execution == None
    ensures RowsRemain(s, C.ApplyResponse(c, s, stmt).0)
    ensures RowsRemain(s, C.ApplyFinal(c, s, stmt).0)
  {
  }

  lemma CloudGrows(c: Context, s: Slice, stmt: C.Statement)
    requires s.attempt == None ==> s.execution == None
    ensures RowsRemain(s, C.Apply(c, s, stmt).0)
  {
    hide C.ApplyClaim, C.ApplyRecord, C.ApplyDefer, C.ApplyResponse, C.ApplyFinal;
    EarlyCloudGrows(c, s, stmt);
    LateCloudGrows(c, s, stmt);
  }

  lemma PodGrows(c: Context, s: Slice, stmt: R.Statement)
    requires s.attempt == None ==> s.execution == None
    ensures RowsRemain(s, R.Apply(c, s, stmt).0)
  {
  }

  lemma WebGrows(c: Context, s: Slice, stmt: W.Statement)
    requires s.attempt == None ==> s.execution == None
    ensures RowsRemain(s, W.Apply(c, s, stmt).0)
  {
  }

  lemma ApplyGrows(c: Context, s: Slice, stmt: Statement)
    requires s.attempt == None ==> s.execution == None
    ensures Grows(s, Apply(c, s, stmt).0)
    ensures Apply(c, s, stmt).0.attempt == None ==> Apply(c, s, stmt).0.execution == None
  {
    match stmt
    case Cloud(cloud) => CloudGrows(c, s, cloud);
    case Pod(pod) => PodGrows(c, s, pod);
    case Web(web) => WebGrows(c, s, web);
  }

  lemma CloudBatchKeeps(c: Context, s: Slice, b: Batch)
    requires SliceOk(c, s) && FreshSlice(s, c.now) && IsCloud(b)
    ensures SliceStep(c, s, ApplyAll(c, s, Statements(b)))
  {
    hide SliceOk, SliceStep, FreshSlice, ApplyAll;
    match b
    case PrepareCloudRun(handle) => PrepareCloudRunKeeps(c, s, handle);
    case RecordCreateResponse(handle, response, version) => RecordCreateResponseKeeps(c, s, handle, response, version);
    case RecordCreateUnknown(handle) => RecordCreateUnknownKeeps(c, s, handle);
    case RecordCreateDeferred(handle) => RecordCreateDeferredKeeps(c, s, handle);
    case RecordCreateRejected(handle, version) => RecordCreateRejectedKeeps(c, s, handle, version);
    case ApplyControllerResponse(handle, expected, action, response, version) =>
      ApplyControllerResponseKeeps(c, s, handle, expected, action, response, version);
    case FailMissingTerminal(handle, expected) => FailMissingTerminalKeeps(c, s, handle, expected);
    case FinalizeSuccess(handle, evidence) => FinalizeSuccessKeeps(c, s, handle, evidence);
    case FinalizeFailure(handle, cancelled, evidence) => FinalizeFailureKeeps(c, s, handle, cancelled, evidence);
    case BeginBootstrap(handle, version) => BeginBootstrapKeeps(c, s, handle, version);
  }

  predicate IsCloud(b: Batch) {
    || b.PrepareCloudRun? || b.RecordCreateResponse? || b.RecordCreateUnknown? || b.RecordCreateDeferred?
    || b.RecordCreateRejected? || b.ApplyControllerResponse? || b.FailMissingTerminal? || b.FinalizeSuccess?
    || b.FinalizeFailure? || b.BeginBootstrap?
  }

  lemma OtherBatchKeeps(c: Context, s: Slice, b: Batch)
    requires SliceOk(c, s) && FreshSlice(s, c.now) && Snapshot(c, s, b) && !IsCloud(b)
    ensures SliceStep(c, s, ApplyAll(c, s, Statements(b)))
  {
    hide SliceOk, SliceStep, FreshSlice, ApplyAll, Snapshot;
    match b
    case PrepareRunpod(token, expiresAt, optionsValid) => PrepareRunpodKeeps(c, s, token, expiresAt, optionsValid);
    case RecordSubmissionAccepted(submitted) => SubmissionNoteKeeps(c, s, R.MarkSubmissionAccepted(submitted));
    case RecordSubmissionUnknown => SubmissionNoteKeeps(c, s, R.MarkSubmissionUnknown);
    case RecordSubmissionRejected => RecordSubmissionRejectedKeeps(c, s, b);
    case ClaimWinner(runpodId, token) => ClaimWinnerKeeps(c, s, runpodId, token);
    case FailExpiredUnknown(submitted) => FailExpiredUnknownKeeps(c, s, submitted);
    case FailStaleAccepted(submitted, staleBefore) => FailStaleAcceptedKeeps(c, s, submitted, staleBefore);
    case CancelExpiredUnbound(submitted) => CancelExpiredUnboundKeeps(c, s, submitted);
    case FailUnobservable(runpodId, cutoff, deadline, submitted) =>
      FailUnobservableKeeps(c, s, runpodId, cutoff, deadline, submitted);
    case RecordTerminalStatus(runpodId, terminal, outputCompleted, allowUnclaimed, submitted) =>
      SubmissionNoteKeeps(c, s, R.RecordTerminalStatus(runpodId, terminal, outputCompleted, allowUnclaimed, submitted));
    case FinalizeTerminal(runpodId, cancelled) => FinalizeTerminalKeeps(c, s, runpodId, cancelled);
    case FinalizeCompleted(runpodId, artifactsStored) => FinalizeCompletedKeeps(c, s, runpodId, artifactsStored);
    case IngestSource(provider, version, etag, insert) => IngestSourceKeeps(c, s, provider, version, etag, insert);
    case RetryFailedJob(owner) => RetryFailedJobKeeps(c, s, owner);
    case RequestCancellation(owner, version, expected) => RequestCancellationKeeps(c, s, owner, version, expected);
    case RequestDeletion(owner, version, was) => RequestDeletionKeeps(c, s, owner, version, was);
    case SourceMutated(asker, version, etag) => SourceMutatedKeeps(c, s, asker, version, etag);
  }
}

/** What each batch does to the rows it works on, told row by row and status by status.  A batch carries a timestamp that none of
    its rows carries; whatever it is not said to change stays. */
module JobEffects {
  import opened ControllerTypes
  import opened JobTables
  import opened JobBatches
  import C = CloudRunBatches
  import R = RunpodBatches
  import W = WebBatches

  // ---------------------------------------------------------------- where a batch finds its rows

  /** The undeleted job whose active attempt this is, in one of these statuses. */
  predicate LiveIn(c: Context, job: Option<JobRow>, statuses: set<JobStatus>) {
    && job.Some? && job.value.active == Some(c.attempt) && job.value.deletedAt == None
    && job.value.status in statuses
  }

  /** A Cloud Run execution under this handle, in one of these statuses. */
  predicate CloudIn(s: Slice, handle: int, statuses: set<ExecStatus>) {
    && s.execution.Some? && s.execution.value.provider == CloudRun && s.execution.value.handle == Some(handle)
    && s.execution.value.status in statuses
  }

  predicate AttemptIn(s: Slice, statuses: set<AttemptStatus>) {
    s.attempt.Some? && s.attempt.value.status in statuses
  }

  /** The job is moved to this status if it is live in one of those and its attempt has just been moved. */
  predicate JobMovedTo(c: Context, job: Option<JobRow>, job': Option<JobRow>, moved: bool, from: set<JobStatus>, to: JobStatus) {
    job' ==
      if moved && LiveIn(c, job, from) then
        Some(job.value.(status := to, version := job.value.version + 1, updatedAt := c.now))
      else job
  }

  /** The execution row with its version counted and its time set. */
  function Next(e: ExecRow, now: Time): ExecRow {
    e.(version := e.version + 1, updatedAt := now)
  }

  function OrNow(stored: Option<Time>, now: Time): Option<Time> {
    if stored == None then Some(now) else stored
  }

  predicate Ready(c: Context, s: Slice) {
    RowsOk(c, s) && FreshSlice(s, c.now)
  }

  /** Rows that fit have their attempt under its own job, and a Cloud Run execution beside a Cloud Run attempt. */
  lemma Placed(c: Context, s: Slice)
    requires Ready(c, s)
    ensures s.attempt.Some? ==> s.attempt.value.jobId == c.job && s.attempt.value.updatedAt != c.now
    ensures s.execution.Some? && s.execution.value.provider == CloudRun ==>
      s.attempt.Some? && s.attempt.value.provider == Some(CloudRun)
  {
  }

  // ---------------------------------------------------------------- the create response

  /** A create that is running makes execution, attempt and job RUNNING; one that is on its way leaves them where they are
      with outcome accepted, one that is unknown or rejected with outcome unknown. */
  lemma RecordCreateResponseRows(c: Context, s: Slice, handle: int, response: C.Response, providerVersion: int)
    requires Ready(c, s) && response in {C.RespAccepted, C.RespPending, C.RespRunning, C.RespUnknown, C.RespRejected}
    ensures
      var s' := ApplyAll(c, s, Statements(RecordCreateResponse(handle, response, providerVersion)));
      var running := response == C.RespRunning;
      var outcome := if response == C.RespUnknown || response == C.RespRejected then CreateUnknown else CreateAccepted;
      var found := CloudIn(s, handle, {ExecCreating});
      var moved := found && AttemptIn(s, {Submitting});
      && s'.execution == (if !found then s.execution else
           Some(Next(s.execution.value, c.now).(
             status := if running then ExecActive else ExecCreating, createOutcome := Some(outcome),
             providerVersion := Some(providerVersion))))
      && s'.attempt == (if !moved then s.attempt else
           Some(s.attempt.value.(
             status := if running then AttemptRunning else Submitting, submissionOutcome := Some(outcome),
             submissionFinishedAt := Some(c.now), updatedAt := c.now,
             claimedAt := if running then OrNow(s.attempt.value.claimedAt, c.now) else s.attempt.value.claimedAt)))
      && JobMovedTo(c, s.job, s'.job, moved, {JobSubmitting}, if running then JobRunning else JobSubmitting)
  {
    ThreeStatements(c, s, Cloud(C.RecordResponseExecution(handle, response, providerVersion)),
                    Cloud(C.RecordResponseAttempt(handle, response, providerVersion)), Cloud(C.RecordResponseJob(response)));
  }

  /** No other response is recorded by this batch. */
  lemma OtherCreateResponses(c: Context, s: Slice, handle: int, response: C.Response, providerVersion: int)
    requires response in {C.RespSucceeded, C.RespFailed, C.RespCancelled, C.RespCleaned}
    ensures ApplyAll(c, s, Statements(RecordCreateResponse(handle, response, providerVersion))) == s
  {
  }

  /** An unknown create marks execution and attempt so and moves nothing. */
  lemma RecordCreateUnknownRows(c: Context, s: Slice, handle: int)
    requires Ready(c, s)
    ensures
      var s' := ApplyAll(c, s, Statements(RecordCreateUnknown(handle)));
      var found := CloudIn(s, handle, {ExecCreating});
      && s'.job == s.job
      && s'.execution == (if !found then s.execution else
           Some(Next(s.execution.value, c.now).(createOutcome := Some(CreateUnknown))))
      && s'.attempt == (if !(found && AttemptIn(s, {Submitting})) then s.attempt else
           Some(s.attempt.value.(
             submissionOutcome := Some(CreateUnknown), submissionFinishedAt := Some(c.now), updatedAt := c.now)))
  {
    TwoStatements(c, s, Cloud(C.RecordUnknownExecution(handle)), Cloud(C.RecordUnknownAttempt));
  }

  /** A rejected create ends all three: there is nothing to clean up. */
  lemma RecordCreateRejectedRows(c: Context, s: Slice, handle: int, providerVersion: int)
    requires Ready(c, s)
    ensures
      var s' := ApplyAll(c, s, Statements(RecordCreateRejected(handle, providerVersion)));
      var found := CloudIn(s, handle, {ExecCreating});
      var moved := found && AttemptIn(s, {Submitting});
      && s'.execution == (if !found then s.execution else
           Some(Next(s.execution.value, c.now).(
             status := ExecTerminal, createOutcome := Some(CreateRejected), terminalStatus := Some(TermFailed),
             cleanup := CleanupSucceeded, providerVersion := Some(providerVersion))))
      && s'.attempt == (if !moved then s.attempt else
           Some(s.attempt.value.(
             status := AttemptFailed, submissionOutcome := Some(CreateRejected), submissionFinishedAt := Some(c.now),
             failedAt := Some(c.now), updatedAt := c.now)))
      && JobMovedTo(c, s.job, s'.job, moved, {JobSubmitting, JobRunning, JobCancelRequested}, JobFailed)
  {
    ThreeStatements(c, s, Cloud(C.RejectExecution(handle, providerVersion)), Cloud(C.RejectAttempt(handle)),
                    Cloud(C.ApplyJob(C.RespFailed)));
  }

  // ---------------------------------------------------------------- later responses

  /** What an execution becomes: its status, its create outcome, how it ended and how its cleanup stands. */
  predicate ExecutionTold(e: ExecRow, e': ExecRow, action: C.ControlAction, response: C.Response, providerVersion: int, now: Time) {
    && e' == e.(status := e'.status, createOutcome := e'.createOutcome, terminalStatus := e'.terminalStatus,
                cleanup := e'.cleanup, providerVersion := Some(providerVersion), version := e.version + 1, updatedAt := now)
    && (response in {C.RespFailed, C.RespCancelled, C.RespSucceeded, C.RespCleaned} ==> e'.status == ExecTerminal)
    && (response == C.RespRunning ==> e'.status == ExecActive)
    && (response in {C.RespAccepted, C.RespPending} ==>
          e'.status == if action == C.CancelAction then ExecCancelRequested else e.status)
    && (response in {C.RespUnknown, C.RespRejected} ==> e'.status == e.status)
    && (response == C.RespRejected || e.createOutcome.Some? ==> e'.createOutcome == e.createOutcome)
    && (response == C.RespUnknown && e.createOutcome == None ==> e'.createOutcome == Some(CreateUnknown))
    && (response != C.RespUnknown && response != C.RespRejected && e.createOutcome == None ==>
          e'.createOutcome == Some(CreateAccepted))
    && (response == C.RespSucceeded ==> e'.terminalStatus == Some(TermCompleted))
    && (response == C.RespFailed ==> e'.terminalStatus == Some(TermFailed))
    && (response == C.RespCancelled ==> e'.terminalStatus == Some(TermCancelled))
    && (response == C.RespCleaned ==>
          e'.terminalStatus == if e.terminalStatus == None then Some(TermCancelled) else e.terminalStatus)
    && (response in {C.RespAccepted, C.RespPending, C.RespRunning, C.RespUnknown, C.RespRejected} ==>
          e'.terminalStatus == e.terminalStatus)
    && (response == C.RespCleaned ==> e'.cleanup == CleanupSucceeded)
    && (response in {C.RespFailed, C.RespCancelled} ==> e'.cleanup == CleanupPending)
    && (response !in {C.RespCleaned, C.RespFailed, C.RespCancelled} ==>
          e'.cleanup == if action == C.CleanupAction && e.cleanup in {NotRequested, CleanupPending}
                        then CleanupInProgress else e.cleanup)
  }

  predicate ResponseFound(s: Slice, handle: int, expected: int) {
    && s.execution.Some? && s.execution.value.provider == CloudRun && s.execution.value.handle == Some(handle)
    && s.execution.value.version == expected
  }

  lemma ResponseExecutionRows(c: Context, s: Slice, handle: int, expected: int, action: C.ControlAction, response: C.Response,
                              providerVersion: int)
    ensures
      var (s', matched) := Apply(c, s, Cloud(C.ApplyExecution(handle, expected, action, response, providerVersion)));
      && matched == ResponseFound(s, handle, expected)
      && (!matched ==> s' == s)
      && (matched ==>
            && s'.job == s.job && s'.attempt == s.attempt && s'.execution.Some?
            && ExecutionTold(s.execution.value, s'.execution.value, action, response, providerVersion, c.now))
  {
  }

  /** A response moves the attempt and the live job with it: running to RUNNING, failed to FAILED, cancelled and cleaned to
      CANCELLED; the others leave both as they are. */
  predicate FollowResponse(c: Context, s: Slice, s': Slice, moved: bool, response: C.Response)
    requires moved ==> s.attempt.Some?
  {
    && (!moved ==> s'.attempt == s.attempt && s'.job == s.job)
    && (moved && response == C.RespRunning ==>
          && s'.attempt == Some(s.attempt.value.(
               status := AttemptRunning, submissionOutcome := Some(CreateAccepted),
               submissionFinishedAt := OrNow(s.attempt.value.submissionFinishedAt, c.now),
               claimedAt := OrNow(s.attempt.value.claimedAt, c.now), updatedAt := c.now))
          && JobMovedTo(c, s.job, s'.job, true, {JobSubmitting, JobRunning, JobCancelRequested}, JobRunning))
    && (moved && response == C.RespFailed ==>
          && s'.attempt == Some(s.attempt.value.(status := AttemptFailed, failedAt := Some(c.now), updatedAt := c.now))
          && JobMovedTo(c, s.job, s'.job, true, {JobSubmitting, JobRunning, JobCancelRequested}, JobFailed))
    && (moved && response in {C.RespCancelled, C.RespCleaned} ==>
          && s'.attempt == Some(s.attempt.value.(status := AttemptCancelled, updatedAt := c.now))
          && JobMovedTo(c, s.job, s'.job, true, {JobSubmitting, JobRunning, JobCancelRequested}, JobCancelled))
  }

  lemma ResponseTailRows(c: Context, s: Slice, handle: int, response: C.Response, found: bool)
    requires s.attempt.Some? ==> s.attempt.value.jobId == c.job && s.attempt.value.updatedAt != c.now
    requires found == (s.execution.Some? && s.execution.value.handle == Some(handle) && s.execution.value.updatedAt == c.now)
    requires found ==> s.execution.value.provider == CloudRun && s.attempt.Some?
    ensures
      var s' := Apply(c, Apply(c, s, Cloud(C.ApplyAttempt(handle, response))).0, Cloud(C.ApplyJob(response))).0;
      var moved := found && AttemptIn(s, {Submitting, AttemptRunning, CancelRequested})
                   && response in {C.RespRunning, C.RespFailed, C.RespCancelled, C.RespCleaned};
      FollowResponse(c, s, s', moved, response) && s'.execution == s.execution
  {
  }

  lemma ApplyControllerResponseRows(c: Context, s: Slice, handle: int, expected: int, action: C.ControlAction,
                                    response: C.Response, providerVersion: int)
    requires Ready(c, s)
    ensures
      var s' := ApplyAll(c, s, Statements(ApplyControllerResponse(handle, expected, action, response, providerVersion)));
      var found := ResponseFound(s, handle, expected);
      var moved := found && AttemptIn(s, {Submitting, AttemptRunning, CancelRequested})
                   && response in {C.RespRunning, C.RespFailed, C.RespCancelled, C.RespCleaned};
      && (!found ==> s'.execution == s.execution)
      && (found ==> s'.execution.Some?
                    && ExecutionTold(s.execution.value, s'.execution.value, action, response, providerVersion, c.now))
      && FollowResponse(c, s, s', moved, response)
  {
    var first := Cloud(C.ApplyExecution(handle, expected, action, response, providerVersion));
    ThreeStatements(c, s, first, Cloud(C.ApplyAttempt(handle, response)), Cloud(C.ApplyJob(response)));
    ResponseExecutionRows(c, s, handle, expected, action, response, providerVersion);
    var s1 := Apply(c, s, first).0;
    hide Apply;
    ResponseTailRows(c, s1, handle, response, ResponseFound(s, handle, expected));
  }

  /** The attempt ends or starts as told and the live job with it, once the execution is where it must be. */
  predicate EndsAs(c: Context, s: Slice, s': Slice, moved: bool, row: AttemptRow, to: JobStatus) {
    && s'.execution == s.execution
    && s'.attempt == (if moved then Some(row) else s.attempt)
    && JobMovedTo(c, s.job, s'.job, moved, {JobSubmitting, JobRunning, JobCancelRequested}, to)
  }

  lemma MissingTail(c: Context, s: Slice, handle: int, found: bool)
    requires s.attempt.Some? ==> s.attempt.value.jobId == c.job && s.attempt.value.updatedAt != c.now
    requires s.execution.Some? ==> s.attempt.Some?
    requires s.execution.Some? && s.execution.value.provider == CloudRun
    requires found == (s.execution.value.handle == Some(handle) && s.execution.value.cleanup == CleanupPending
                       && s.execution.value.updatedAt == c.now)
    ensures
      var moved := found && AttemptIn(s, {Submitting, AttemptRunning, CancelRequested});
      EndsAs(c, s, C.ApplyResponse(c, C.ApplyResponse(c, s, C.FailMissingAttempt(handle)).0, C.ApplyJob(C.RespFailed)).0,
             moved, s.attempt.value.(status := AttemptFailed, failedAt := Some(c.now), updatedAt := c.now), JobFailed)
  {
  }

  lemma MissingExecution(c: Context, s: Slice, handle: int, expected: int)
    ensures
      var found := CloudIn(s, handle, {ExecTerminal}) && s.execution.value.terminalStatus.Some?
                   && s.execution.value.cleanup == NotRequested && s.execution.value.version == expected;
      C.ApplyResponse(c, s, C.FailMissingExecution(handle, expected)).0 ==
        if found then s.(execution := Some(Next(s.execution.value, c.now).(cleanup := CleanupPending))) else s
  {
  }

  /** Without a Cloud Run execution the statements that follow match nothing. */
  lemma MissingNowhere(c: Context, s: Slice, handle: int)
    requires Ready(c, s) && !(s.execution.Some? && s.execution.value.provider == CloudRun)
    ensures C.ApplyResponse(c, C.ApplyResponse(c, s, C.FailMissingAttempt(handle)).0, C.ApplyJob(C.RespFailed)).0 == s
  {
  }

  lemma ThreeResponses(c: Context, s: Slice, handle: int, expected: int)
    ensures ApplyAll(c, s, Statements(FailMissingTerminal(handle, expected)))
         == C.ApplyResponse(c, C.ApplyResponse(c, C.ApplyResponse(c, s, C.FailMissingExecution(handle, expected)).0,
                                               C.FailMissingAttempt(handle)).0, C.ApplyJob(C.RespFailed)).0
  {
    hide C.ApplyResponse;
    ThreeStatements(c, s, Cloud(C.FailMissingExecution(handle, expected)), Cloud(C.FailMissingAttempt(handle)),
                    Cloud(C.ApplyJob(C.RespFailed)));
  }

  /** An execution that ended without being heard of any more fails what is still active and asks for its cleanup. */
  lemma FailMissingTerminalRows(c: Context, s: Slice, handle: int, expected: int)
    requires Ready(c, s)
    ensures
      var s' := ApplyAll(c, s, Statements(FailMissingTerminal(handle, expected)));
      var found := CloudIn(s, handle, {ExecTerminal}) && s.execution.value.terminalStatus.Some?
                   && s.execution.value.cleanup == NotRequested && s.execution.value.version == expected;
      var moved := found && AttemptIn(s, {Submitting, AttemptRunning, CancelRequested});
      && s'.execution == (if !found then s.execution else Some(Next(s.execution.value, c.now).(cleanup := CleanupPending)))
      && s'.attempt == (if !moved then s.attempt else
           Some(s.attempt.value.(status := AttemptFailed, failedAt := Some(c.now), updatedAt := c.now)))
      && JobMovedTo(c, s.job, s'.job, moved, {JobSubmitting, JobRunning, JobCancelRequested}, JobFailed)
  {
    Placed(c, s);
    hide ApplyAll, RowsOk, FreshSlice, JobMovedTo, C.ApplyResponse;
    ThreeResponses(c, s, handle, expected);
    MissingExecution(c, s, handle, expected);
    if s.execution.Some? && s.execution.value.provider == CloudRun {
      var s1 := C.ApplyResponse(c, s, C.FailMissingExecution(handle, expected)).0;
      MissingTail(c, s1, handle, s1.execution != s.execution);
    } else {
      MissingNowhere(c, s, handle);
    }
  }

  // ---------------------------------------------------------------- the worker's terminal report, and its start

  /** The cleanup that follows an end. */
  function ThenClean(cleanup: CleanupStatus): CleanupStatus {
    if cleanup == NotRequested then CleanupPending else cleanup
  }

  lemma CompletedExecution(c: Context, s: Slice, handle: int, evidence: bool)
    ensures
      var ends := CloudIn(s, handle, {ExecCreating, ExecActive, ExecCancelRequested}) && evidence;
      C.ApplyFinal(c, s, C.CompleteExecution(handle, evidence)).0 ==
        if !ends then s else s.(execution :=
          Some(Next(s.execution.value, c.now).(
            status := ExecTerminal, createOutcome := Some(CreateAccepted), terminalStatus := Some(TermCompleted),
            cleanup := ThenClean(s.execution.value.cleanup))))
  {
  }

  lemma CompletedTail(c: Context, s: Slice, handle: int)
    requires s.attempt.Some? ==> s.attempt.value.jobId == c.job && s.attempt.value.updatedAt != c.now
    requires s.attempt.Some? && s.attempt.value.provider == Some(CloudRun)
    ensures
      var moved := s.execution.Some? && s.execution.value.handle == Some(handle) && s.execution.value.status == ExecTerminal
                   && s.execution.value.terminalStatus == Some(TermCompleted)
                   && AttemptIn(s, {Submitting, AttemptRunning, CancelRequested})
                   && s.attempt.value.claimedAt.Some? && s.attempt.value.claimedAt.value <= c.now;
      EndsAs(c, s, C.ApplyFinal(c, C.ApplyFinal(c, s, C.CompleteAttempt(handle)).0, C.FinalizeJob(AttemptCompleted)).0,
             moved, s.attempt.value.(status := AttemptCompleted, updatedAt := c.now), JobCompleted)
  {
  }

  /** Three statements of the family of final reports. */
  lemma ThreeFinal(c: Context, s: Slice, x: C.Statement, y: C.Statement, z: C.Statement)
    requires OfFinal(x) && OfFinal(y) && OfFinal(z)
    ensures ApplyAll(c, s, [Cloud(x), Cloud(y), Cloud(z)])
         == C.ApplyFinal(c, C.ApplyFinal(c, C.ApplyFinal(c, s, x).0, y).0, z).0
  {
    hide C.ApplyFinal;
    ThreeStatements(c, s, Cloud(x), Cloud(y), Cloud(z));
  }

  predicate OfFinal(stmt: C.Statement) {
    || stmt.CompleteExecution? || stmt.CompleteAttempt? || stmt.TerminateExecution? || stmt.TerminateAttempt?
    || stmt.FinalizeJob? || stmt.MarkExecutionRunning? || stmt.MarkAttemptRunning? || stmt.MarkJobRunning?
  }

  /** Without a Cloud Run attempt no final report matches anything. */
  lemma NothingFinal(c: Context, s: Slice, x: C.Statement, y: C.Statement, status: AttemptStatus)
    requires Ready(c, s) && !(s.attempt.Some? && s.attempt.value.provider == Some(CloudRun))
    requires (x.CompleteExecution? && y.CompleteAttempt?) || (x.TerminateExecution? && y.TerminateAttempt?)
    ensures C.ApplyFinal(c, C.ApplyFinal(c, C.ApplyFinal(c, s, x).0, y).0, C.FinalizeJob(status)).0 == s
  {
  }

  lemma SuccessIsThree(c: Context, s: Slice, handle: int, evidence: bool)
    ensures ApplyAll(c, s, Statements(FinalizeSuccess(handle, evidence)))
         == C.ApplyFinal(c, C.ApplyFinal(c, C.ApplyFinal(c, s, C.CompleteExecution(handle, evidence)).0,
                                         C.CompleteAttempt(handle)).0, C.FinalizeJob(AttemptCompleted)).0
  {
    hide C.ApplyFinal, ApplyAll;
    ThreeFinal(c, s, C.CompleteExecution(handle, evidence), C.CompleteAttempt(handle), C.FinalizeJob(AttemptCompleted));
  }

  /** A worker that reports success completes execution, attempt and job, if the evidence is there and the attempt has been
      claimed in time. */
  lemma FinalizeSuccessRows(c: Context, s: Slice, handle: int, evidence: bool)
    requires Ready(c, s)
    ensures
      var s' := ApplyAll(c, s, Statements(FinalizeSuccess(handle, evidence)));
      var ends := CloudIn(s, handle, {ExecCreating, ExecActive, ExecCancelRequested}) && evidence;
      var ended := ends || (CloudIn(s, handle, {ExecTerminal}) && s.execution.value.terminalStatus == Some(TermCompleted));
      var moved := ended && AttemptIn(s, {Submitting, AttemptRunning, CancelRequested})
                   && s.attempt.value.claimedAt.Some? && s.attempt.value.claimedAt.value <= c.now;
      && s'.execution == (if !ends then s.execution else
           Some(Next(s.execution.value, c.now).(
             status := ExecTerminal, createOutcome := Some(CreateAccepted), terminalStatus := Some(TermCompleted),
             cleanup := ThenClean(s.execution.value.cleanup))))
      && s'.attempt == (if !moved then s.attempt else
           Some(s.attempt.value.(status := AttemptCompleted, updatedAt := c.now)))
      && JobMovedTo(c, s.job, s'.job, moved, {JobSubmitting, JobRunning, JobCancelRequested}, JobCompleted)
  {
    Placed(c, s);
    hide C.ApplyFinal, ApplyAll, Statements, RowsOk, FreshSlice, JobMovedTo, ThenClean, OrNow;
    SuccessIsThree(c, s, handle, evidence);
    if s.attempt.Some? && s.attempt.value.provider == Some(CloudRun) {
      CompletedExecution(c, s, handle, evidence);
      CompletedTail(c, C.ApplyFinal(c, s, C.CompleteExecution(handle, evidence)).0, handle);
    } else {
      NothingFinal(c, s, C.CompleteExecution(handle, evidence), C.CompleteAttempt(handle), AttemptCompleted);
    }
  }

  lemma TerminatedExecution(c: Context, s: Slice, handle: int, terminal: TerminalStatus, evidence: bool)
    ensures
      var ends := CloudIn(s, handle, {ExecCreating, ExecActive, ExecCancelRequested}) && evidence;
      C.ApplyFinal(c, s, C.TerminateExecution(handle, terminal, evidence)).0 ==
        if !ends then s else s.(execution :=
          Some(Next(s.execution.value, c.now).(
            status := ExecTerminal, terminalStatus := Some(terminal), cleanup := ThenClean(s.execution.value.cleanup),
            createOutcome := if s.execution.value.createOutcome == None then Some(CreateAccepted)
                             else s.execution.value.createOutcome)))
  {
  }

  lemma TerminatedTail(c: Context, s: Slice, handle: int, cancelled: bool)
    requires s.attempt.Some? ==> s.attempt.value.jobId == c.job && s.attempt.value.updatedAt != c.now
    requires s.attempt.Some? && s.attempt.value.provider == Some(CloudRun)
    ensures
      var terminal := if cancelled then TermCancelled else TermFailed;
      var status := if cancelled then AttemptCancelled else AttemptFailed;
      var moved := s.execution.Some? && s.execution.value.handle == Some(handle) && s.execution.value.status == ExecTerminal
                   && s.execution.value.terminalStatus == Some(terminal)
                   && AttemptIn(s, {Submitting, AttemptRunning, CancelRequested});
      EndsAs(c, s, C.ApplyFinal(c, C.ApplyFinal(c, s, C.TerminateAttempt(handle, status, terminal)).0, C.FinalizeJob(status)).0,
             moved, s.attempt.value.(status := status, updatedAt := c.now,
                                     failedAt := if cancelled then s.attempt.value.failedAt else Some(c.now)),
             if cancelled then JobCancelled else JobFailed)
  {
  }

  lemma FailureIsThree(c: Context, s: Slice, handle: int, cancelled: bool, evidence: bool)
    ensures
      var terminal := if cancelled then TermCancelled else TermFailed;
      var status := if cancelled then AttemptCancelled else AttemptFailed;
      ApplyAll(c, s, Statements(FinalizeFailure(handle, cancelled, evidence)))
      == C.ApplyFinal(c, C.ApplyFinal(c, C.ApplyFinal(c, s, C.TerminateExecution(handle, terminal, evidence)).0,
                                      C.TerminateAttempt(handle, status, terminal)).0, C.FinalizeJob(status)).0
  {
    hide C.ApplyFinal, ApplyAll;
    var terminal := if cancelled then TermCancelled else TermFailed;
    var status := if cancelled then AttemptCancelled else AttemptFailed;
    ThreeFinal(c, s, C.TerminateExecution(handle, terminal, evidence), C.TerminateAttempt(handle, status, terminal),
               C.FinalizeJob(status));
  }

  /** What a report of failure or cancellation does to the three rows. */
  predicate FailsAs(c: Context, s: Slice, s': Slice, handle: int, cancelled: bool, evidence: bool) {
    var terminal := if cancelled then TermCancelled else TermFailed;
    var ends := CloudIn(s, handle, {ExecCreating, ExecActive, ExecCancelRequested}) && evidence;
    var ended := ends || (CloudIn(s, handle, {ExecTerminal}) && s.execution.value.terminalStatus == Some(terminal));
    var moved := ended && AttemptIn(s, {Submitting, AttemptRunning, CancelRequested});
    && s'.execution == (if !ends then s.execution else
         Some(Next(s.execution.value, c.now).(
           status := ExecTerminal, terminalStatus := Some(terminal), cleanup := ThenClean(s.execution.value.cleanup),
           createOutcome := if s.execution.value.createOutcome == None then Some(CreateAccepted)
                            else s.execution.value.createOutcome)))
    && s'.attempt == (if !moved then s.attempt else
         Some(s.attempt.value.(
           status := if cancelled then AttemptCancelled else AttemptFailed, updatedAt := c.now,
           failedAt := if cancelled then s.attempt.value.failedAt else Some(c.now))))
    && JobMovedTo(c, s.job, s'.job, moved, {JobSubmitting, JobRunning, JobCancelRequested}, if cancelled then JobCancelled else JobFailed)
  }

  lemma FailureOnCloud(c: Context, s: Slice, handle: int, cancelled: bool, evidence: bool)
    requires Ready(c, s) && s.attempt.Some? && s.attempt.value.provider == Some(CloudRun)
    ensures FailsAs(c, s, ApplyAll(c, s, Statements(FinalizeFailure(handle, cancelled, evidence))), handle, cancelled, evidence)
  {
    Placed(c, s);
    hide C.ApplyFinal, ApplyAll, Statements, RowsOk, FreshSlice, JobMovedTo, ThenClean;
    var terminal := if cancelled then TermCancelled else TermFailed;
    FailureIsThree(c, s, handle, cancelled, evidence);
    TerminatedExecution(c, s, handle, terminal, evidence);
    TerminatedTail(c, C.ApplyFinal(c, s, C.TerminateExecution(handle, terminal, evidence)).0, handle, cancelled);
  }

  /** A worker that reports failure or cancellation ends all three so. */
  lemma FinalizeFailureRows(c: Context, s: Slice, handle: int, cancelled: bool, evidence: bool)
    requires Ready(c, s)
    ensures FailsAs(c, s, ApplyAll(c, s, Statements(FinalizeFailure(handle, cancelled, evidence))), handle, cancelled, evidence)
  {
    if s.attempt.Some? && s.attempt.value.provider == Some(CloudRun) {
      FailureOnCloud(c, s, handle, cancelled, evidence);
    } else {
      var terminal := if cancelled then TermCancelled else TermFailed;
      var status := if cancelled then AttemptCancelled else AttemptFailed;
      Placed(c, s);
      hide C.ApplyFinal, ApplyAll, Statements, RowsOk, FreshSlice, ThenClean;
      FailureIsThree(c, s, handle, cancelled, evidence);
      NothingFinal(c, s, C.TerminateExecution(handle, terminal, evidence), C.TerminateAttempt(handle, status, terminal), status);
    }
  }

  lemma StartedTail(c: Context, s: Slice)
    requires s.attempt.Some? && s.attempt.value.jobId == c.job && s.attempt.value.provider == Some(CloudRun)
    ensures
      var s' := C.ApplyFinal(c, C.ApplyFinal(c, s, C.MarkAttemptRunning).0, C.MarkJobRunning).0;
      var moved := s.execution.Some? && s.execution.value.status == ExecActive && AttemptIn(s, {Submitting});
      && s'.execution == s.execution
      && s'.attempt == (if !moved then s.attempt else
           Some(s.attempt.value.(
             status := AttemptRunning, submissionOutcome := Some(CreateAccepted),
             submissionFinishedAt := OrNow(s.attempt.value.submissionFinishedAt, c.now),
             claimedAt := OrNow(s.attempt.value.claimedAt, c.now), updatedAt := c.now)))
      && JobMovedTo(c, s.job, s'.job, moved || AttemptIn(s, {AttemptRunning}), {JobSubmitting}, JobRunning)
  {
  }

  lemma StartedElsewhere(c: Context, s: Slice, handle: int, providerVersion: int)
    requires RowsOk(c, s) && !(s.attempt.Some? && s.attempt.value.provider == Some(CloudRun))
    ensures
      var s' := C.ApplyFinal(c, C.ApplyFinal(c, C.ApplyFinal(c, s, C.MarkExecutionRunning(handle, providerVersion)).0,
                                             C.MarkAttemptRunning).0, C.MarkJobRunning).0;
      && s'.execution == s.execution && s'.attempt == s.attempt
      && JobMovedTo(c, s.job, s'.job, AttemptIn(s, {AttemptRunning}), {JobSubmitting}, JobRunning)
  {
  }

  /** A worker that asks for its bootstrap makes all three RUNNING. */
  lemma BeginBootstrapRows(c: Context, s: Slice, handle: int, providerVersion: int)
    requires Ready(c, s)
    ensures
      var s' := ApplyAll(c, s, Statements(BeginBootstrap(handle, providerVersion)));
      var found := CloudIn(s, handle, {ExecCreating}) && AttemptIn(s, {Submitting});
      var runs := found || (s.execution.Some? && s.execution.value.provider == CloudRun && s.execution.value.status == ExecActive);
      var moved := runs && AttemptIn(s, {Submitting});
      && s'.execution == (if !found then s.execution else
           Some(Next(s.execution.value, c.now).(
             status := ExecActive, createOutcome := Some(CreateAccepted), providerVersion := Some(providerVersion))))
      && s'.attempt == (if !moved then s.attempt else
           Some(s.attempt.value.(
             status := AttemptRunning, submissionOutcome := Some(CreateAccepted),
             submissionFinishedAt := OrNow(s.attempt.value.submissionFinishedAt, c.now),
             claimedAt := OrNow(s.attempt.value.claimedAt, c.now), updatedAt := c.now)))
      && JobMovedTo(c, s.job, s'.job, moved || AttemptIn(s, {AttemptRunning}), {JobSubmitting}, JobRunning)
  {
    Placed(c, s);
    hide C.ApplyFinal, ApplyAll, RowsOk, FreshSlice, JobMovedTo, ThenClean, OrNow;
    ThreeFinal(c, s, C.MarkExecutionRunning(handle, providerVersion), C.MarkAttemptRunning, C.MarkJobRunning);
    if s.attempt.Some? && s.attempt.value.provider == Some(CloudRun) {
      StartedTail(c, C.ApplyFinal(c, s, C.MarkExecutionRunning(handle, providerVersion)).0);
    } else {
      StartedElsewhere(c, s, handle, providerVersion);
    }
  }
}

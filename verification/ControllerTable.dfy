/** What a handler does at each of its awaits, told by the calls it makes, the fields it writes and the answers it gives: an
    independent account of the controller's decisions, with the codes, states and durations written out. */
module ControllerTable {
  import opened ControllerTypes
  import opened ControllerPolicy
  import opened ControllerMachine
  import F = FirestoreStore

  // ---------------------------------------------------------------- how the table speaks

  /** A reconcile of this record reads its job, to run it if it can be run. */
  predicate ToBeRun(r: ControlRecord) {
    r.state in {CREATE_INTENT, CREATE_UNKNOWN, JOB_PENDING, JOB_READY} && !r.cleanupIntent && !r.runIntent
  }

  /** The execution is not one of the job the record names. */
  predicate Foreign(r: ControlRecord, execution: ProviderExecution) {
    r.job == None || r.job.value.ref != execution.jobRef
  }

  /** The handler is about to make this call for the record it holds. */
  predicate Calls(pc: Pc, r: ControlRecord, kind: CallKind) {
    Pending(pc) == Some(Call(r.executionHandle, kind))
  }

  /** The handler is about to replace `base` by `next`, its version and time still to be set. */
  predicate Writes(pc: Pc, base: ControlRecord, next: ControlRecord, ret: Ret) {
    pc.Updating? && pc.base == base && pc.changed == next && pc.ret == ret
  }

  function Stamped(r: ControlRecord, now: Time): ControlRecord {
    r.(version := r.version + 1, updatedAt := now)
  }

  /** The write the handler is about to make applies to this store at this time. */
  predicate Applies(c: Config, db: F.Database, pc: Pc, now: Time) {
    pc.Updating? && F.CompareAndSet(c.auth, db, pc.base.version, Stamped(pc.changed, now)).1 == Applied
  }

  /** A cancellation is told as it stands if the record has ended; otherwise it is stored first. */
  predicate DecidesCancel(pc: Pc, r: ControlRecord, request: Request) {
    if r.execution.Some? && r.state in {SUCCEEDED, FAILED, CANCELLED} then pc == Done(Responded(request, r))
    else Writes(pc, r, r.(state := CANCEL_PENDING, cancelIntent := true), Respond(request))
  }

  /** A cleanup stores its intent first, unless it is stored already, and then lists the executions. */
  predicate BeginsCleaning(pc: Pc, r: ControlRecord, ret: Ret) {
    if r.cleanupIntent then pc == CleanListing(r, ret)
    else Writes(pc, r, r.(state := CLEANUP_PENDING, cleanupIntent := true), ret)
  }

  /** The reaper takes the next record that is marked or past its deadline. */
  predicate ReapsOn(pc: Pc, rest: seq<ControlRecord>, reapNow: Time) {
    if rest == [] then pc == Done(Reaped)
    else if rest[0].cleanupIntent || rest[0].provisioningDeadline <= reapNow then
      BeginsCleaning(pc, rest[0], ReapResume(rest[1..], reapNow))
    else ReapsOn(pc, rest[1..], reapNow)
  }

  /** The record is handed back to whoever asked: the requester, the cancellation, or the reaper. */
  predicate HandsBack(pc: Pc, r: ControlRecord, ret: Ret) {
    match ret
    case Respond(request) => pc == Done(Responded(request, r))
    case CancelResume(request) => DecidesCancel(pc, r, request)
    case ReapResume(rest, reapNow) => ReapsOn(pc, rest, reapNow)
  }

  /** The handler writes the record so and, once the write applies, hands it back. */
  ghost predicate Records(c: Config, pc: Pc, base: ControlRecord, next: ControlRecord, ret: Ret) {
    && Writes(pc, base, next, ret)
    && forall db: F.Database, now: Time, answer: Answer :: Applies(c, db, pc, now) ==>
         HandsBack(Advance(c, db, pc, now, answer).1, Stamped(next, now), ret)
  }

  /** The handler writes the record so and, once the write applies, makes this call. */
  ghost predicate RecordsThenCalls(c: Config, pc: Pc, base: ControlRecord, next: ControlRecord, ret: Ret, kind: CallKind) {
    && Writes(pc, base, next, ret)
    && forall db: F.Database, now: Time, answer: Answer :: Applies(c, db, pc, now) ==>
         Calls(Advance(c, db, pc, now, answer).1, next, kind)
  }

  lemma {:induction false} ReapNextReapsOn(rest: seq<ControlRecord>, reapNow: Time)
    ensures ReapsOn(ReapNext(rest, reapNow), rest, reapNow)
  {
    if rest != [] && !(rest[0].cleanupIntent || rest[0].provisioningDeadline <= reapNow) { ReapNextReapsOn(rest[1..], reapNow); }
  }

  lemma ReturnHandsBack(r: ControlRecord, ret: Ret)
    ensures HandsBack(Return(r, ret), r, ret)
  {
    if ret.ReapResume? { ReapNextReapsOn(ret.rest, ret.reapNow); }
  }

  lemma Recorded(c: Config, base: ControlRecord, next: ControlRecord, ret: Ret)
    ensures Records(c, Updating(base, next, AfterReturn, ret), base, next, ret)
  {
    var pc := Updating(base, next, AfterReturn, ret);
    forall db: F.Database, now: Time, answer: Answer | Applies(c, db, pc, now)
      ensures HandsBack(Advance(c, db, pc, now, answer).1, Stamped(next, now), ret)
    {
      hide F.CompareAndSet, HandsBack;
      ReturnHandsBack(Stamped(next, now), ret);
    }
  }

  // ---------------------------------------------------------------- requests

  /** Before its first await: a request for another environment is refused, a create must expect version 0, and a create may take
      five minutes to be provisioned and leaves a record for 31 days. */
  lemma RequestsStart(c: Config, request: Request, expectedVersion: int, jobId: JobId, now: Time)
    ensures
      var pc := Start(c, Execute(request, expectedVersion, jobId), now);
      if request.environment != c.environment then pc == Done(Rejected(request, RejectEnvironment))
      else if request.action == Create && expectedVersion != 0 then pc == Done(Rejected(request, RejectStale(expectedVersion)))
      else if request.action == Create then
        pc == Pc.Admitting(AdmitCreateInput(request, jobId, now, now + 300_000, now + 2_678_400_000))
      else pc == Pc.Claiming(ClaimRequestInput(request, expectedVersion, now))
  {
  }

  lemma TicksStart(c: Config, environment: Environment, now: Time)
    ensures Start(c, ReapTick(environment), now)
         == if environment == c.environment then ReapFindingActive(now) else Done(Reaped)
  {
  }

  /** An admitted create counts its first attempt and, once that is stored, asks for the job. */
  lemma AdmissionsAnswered(c: Config, db: F.Database, pc: Pc, now: Time, answer: Answer)
    requires pc.Admitting?
    ensures
      var request, outcome, pc' := pc.input.request, F.Admit(c.auth, db, pc.input).1, Advance(c, db, pc, now, answer).1;
      && (outcome == BudgetExhausted ==> pc' == Done(Rejected(request, RejectBudget)))
      && (outcome == RateLimited ==> pc' == Done(Rejected(request, RejectRate)))
      && (outcome == EnvironmentMismatch ==> pc' == Done(Rejected(request, RejectEnvironment)))
      && (outcome == Conflict ==> pc' == Done(Rejected(request, RejectConflict)))
      && (outcome.Duplicate? ==> pc' == Done(Responded(request, outcome.record)))
      && (outcome.Accepted? ==> AsksForJob(c, pc', outcome.record, Respond(request)))
  {
    hide F.Admit;
    var outcome := F.Admit(c.auth, db, pc.input).1;
    if outcome.Accepted? { CreateAsksForJob(c, outcome.record, Respond(pc.input.request)); }
  }

  /** One more create attempt is counted, and the provider is then asked under that number. */
  ghost predicate AsksForJob(c: Config, pc: Pc, r: ControlRecord, ret: Ret) {
    RecordsThenCalls(c, pc, r, r.(state := CREATE_INTENT, createAttempts := r.createAttempts + 1, errorCode := None), ret,
                     CallCreateJob(r.createAttempts + 1))
  }

  lemma CreateAsksForJob(c: Config, r: ControlRecord, ret: Ret)
    ensures AsksForJob(c, SendCreate(r, ret), r, ret)
  {
    var next := r.(state := CREATE_INTENT, createAttempts := r.createAttempts + 1, errorCode := None);
    forall db: F.Database, now: Time, answer: Answer | Applies(c, db, SendCreate(r, ret), now)
      ensures Calls(Advance(c, db, SendCreate(r, ret), now, answer).1, next, CallCreateJob(r.createAttempts + 1))
    {
      hide F.CompareAndSet;
    }
  }

  lemma ClaimsAnswered(c: Config, db: F.Database, pc: Pc, now: Time, answer: Answer)
    requires pc.Claiming?
    ensures
      var request, outcome, pc' := pc.claim.request, F.Claim(c.auth, db, pc.claim).1, Advance(c, db, pc, now, answer).1;
      && (outcome == RateLimited ==> pc' == Done(Rejected(request, RejectRate)))
      && (outcome == EnvironmentMismatch ==> pc' == Done(Rejected(request, RejectEnvironment)))
      && (outcome in {Conflict, NotFound} ==> pc' == Done(Rejected(request, RejectConflict)))
      && (outcome.Stale? ==> pc' == Done(Rejected(request, RejectStale(outcome.record.version))))
      && (outcome.Duplicate? ==> pc' == Done(Responded(request, outcome.record)))
      && (outcome.Accepted? ==> Serves(pc', request, outcome.record))
  {
    hide F.Claim;
    var outcome := F.Claim(c.auth, db, pc.claim).1;
    if outcome.Accepted? { PerformServes(pc.claim.request, outcome.record); }
  }

  /** The job is read, after the operation that was to create it, if one is known. */
  predicate ReadsJob(pc: Pc, r: ControlRecord, mayRun: bool, ret: Ret) {
    if r.operationRef.Some? then pc == GettingOperation(r, r.operationRef.value, mayRun, ret)
    else pc == GettingJob(r, None, mayRun, ret)
  }

  /** What each action begins with. */
  predicate Serves(pc: Pc, request: Request, r: ControlRecord) {
    && (request.action == Observe && r.runIntent ==> pc == ListingToObserve(r, Respond(request)))
    && (request.action == Observe && !r.runIntent ==> ReadsJob(pc, r, false, Respond(request)))
    && (request.action == Cleanup ==> BeginsCleaning(pc, r, Respond(request)))
    && (request.action == Cancel && (r.execution == None || r.cancelIntent) ==> pc == ListingToObserve(r, CancelResume(request)))
    && (request.action == Cancel && r.execution.Some? && !r.cancelIntent ==> DecidesCancel(pc, r, request))
    && (request.action == Reconcile ==> Reconciles(pc, r, Respond(request)))
    && (request.action == Create ==> pc == Done(Responded(request, r)))
  }

  /** A record that has ended well or is CLEANED is answered; one marked for cleanup is cleaned; a failed one is answered; one
      whose run is intended is watched; of any other the job is read, and run if it is ready. */
  predicate Reconciles(pc: Pc, r: ControlRecord, ret: Ret) {
    if r.state in {CLEANED, CANCELLED, SUCCEEDED} then HandsBack(pc, r, ret)
    else if r.cleanupIntent || r.state == CLEANUP_PENDING then BeginsCleaning(pc, r, ret)
    else if r.state == FAILED then HandsBack(pc, r, ret)
    else if r.runIntent then pc == ListingToObserve(r, ret)
    else ReadsJob(pc, r, true, ret)
  }

  lemma PerformServes(request: Request, r: ControlRecord)
    ensures Serves(Perform(request, r), request, r)
  {
  }

  // ---------------------------------------------------------------- creating

  function Code(kind: ErrorKind): ErrorCode {
    if kind == Retryable then PROVIDER_RETRYABLE else PROVIDER_PERMANENT
  }

  lemma JobCreated(c: Config, pc: Pc, answer: Answer)
    requires pc.CreatingJob?
    ensures
      var r, ret, pc' := pc.record, pc.ret, Proceed(pc, answer);
      && Calls(pc, r, CallCreateJob(r.createAttempts))
      && (answer.mutation == MutationConflict ==> ReadsJob(pc', r, true, ret))
      && (answer.mutation == MutationUnknown ==>
            Records(c, pc', r, r.(state := CREATE_UNKNOWN, errorCode := Some(UNKNOWN_OUTCOME)), ret))
      && (answer.mutation.MutationAccepted? ==>
            Records(c, pc', r, r.(state := JOB_PENDING, operationRef := Some(answer.mutation.operationRef), errorCode := None), ret))
      && (answer.mutation.MutationRejected? ==>
            Records(c, pc', r, r.(state := FAILED, errorCode := Some(Code(answer.mutation.errorKind))), ret))
  {
    hide Records;
    var pc' := Proceed(pc, answer);
    if pc'.Updating? { Recorded(c, pc'.base, pc'.changed, pc'.ret); }
  }

  lemma OperationRead(pc: Pc, answer: Answer)
    requires pc.GettingOperation?
    ensures Calls(pc, pc.record, CallGetOperation)
    ensures Proceed(pc, answer) ==
      GettingJob(pc.record, if answer.operation.OperationFailed? then Some(answer.operation.errorKind) else None, pc.allowRun, pc.ret)
  {
  }

  /** A job that cannot be read leaves the outcome unknown. One that is missing has failed if its operation has; it is asked for
      again once, after at least five seconds and before the deadline; and otherwise its creation is in doubt. */
  lemma JobNotFound(c: Config, pc: Pc, answer: Answer)
    requires pc.GettingJob? && !answer.job.JobFound?
    ensures
      var r, ret, pc' := pc.record, pc.ret, Proceed(pc, answer);
      var again := (r.createAttempts <= 0 || (r.createAttempts == 1 && answer.elapsedAt - r.createdAt >= 5_000))
                   && answer.deadlineAt < r.provisioningDeadline;
      && Calls(pc, r, CallGetJob)
      && (answer.job == JobUnavailable ==> Records(c, pc', r, r.(errorCode := Some(UNKNOWN_OUTCOME)), ret))
      && (answer.job == JobMissing && pc.operationFailed.Some? ==>
            Records(c, pc', r, r.(state := FAILED, errorCode := Some(Code(pc.operationFailed.value))), ret))
      && (answer.job == JobMissing && pc.operationFailed == None && r.createAttempts >= 0 && again ==> AsksForJob(c, pc', r, ret))
      && (answer.job == JobMissing && pc.operationFailed == None && r.createAttempts >= 0 && !again ==>
            Records(c, pc', r, r.(state := CREATE_UNKNOWN, errorCode := Some(UNKNOWN_OUTCOME)), ret))
  {
    hide Records, AsksForJob;
    var pc' := Proceed(pc, answer);
    if pc'.Updating? { Recorded(c, pc'.base, pc'.changed, pc'.ret); }
    CreateAsksForJob(c, pc.record, pc.ret);
  }

  /** A job that is not as it was made is drift, and marked for cleanup.  One that is as made is noted; if it is ready, may run and
      is not meant to run yet, the executions are listed next. */
  lemma JobFoundThen(c: Config, pc: Pc, answer: Answer)
    requires pc.GettingJob? && answer.job.JobFound?
    ensures
      var r, ret, job, pc' := pc.record, pc.ret, answer.job.job, Proceed(pc, answer);
      && Calls(pc, r, CallGetJob)
      && (!answer.job.manifestMatches ==>
            Records(c, pc', r, r.(state := FAILED, job := Some(job), cleanupIntent := true, errorCode := Some(RESOURCE_DRIFT)), ret))
      && (answer.job.manifestMatches ==>
            NotesJob(c, pc', r, r.(state := if job.ready then JOB_READY else JOB_PENDING, job := Some(job), errorCode := None),
                     job.ready && pc.allowRun && !r.runIntent, ret))
  {
    hide Records, NotesJob;
    var pc' := Proceed(pc, answer);
    if answer.job.manifestMatches {
      JobNoted(c, pc.record, JobSeen(pc.record, answer.job.job), answer.job.job.ready, pc.allowRun, pc.ret);
    } else {
      Recorded(c, pc'.base, pc'.changed, pc'.ret);
    }
  }

  ghost predicate NotesJob(c: Config, pc: Pc, base: ControlRecord, next: ControlRecord, goesOn: bool, ret: Ret) {
    && Writes(pc, base, next, ret)
    && forall db: F.Database, now: Time, answer: Answer :: Applies(c, db, pc, now) ==>
         var pc' := Advance(c, db, pc, now, answer).1;
         if goesOn then pc' == ListingForRun(Stamped(next, now), ret) else HandsBack(pc', Stamped(next, now), ret)
  }

  lemma JobNoted(c: Config, r: ControlRecord, next: ControlRecord, ready: bool, allowRun: bool, ret: Ret)
    requires next.runIntent == r.runIntent
    ensures NotesJob(c, Updating(r, next, AfterJobSeen(ready, allowRun), ret), r, next, ready && allowRun && !r.runIntent, ret)
  {
    var pc := Updating(r, next, AfterJobSeen(ready, allowRun), ret);
    forall db: F.Database, now: Time, answer: Answer | Applies(c, db, pc, now)
      ensures
        var pc' := Advance(c, db, pc, now, answer).1;
        if ready && allowRun && !r.runIntent then pc' == ListingForRun(Stamped(next, now), ret)
        else HandsBack(pc', Stamped(next, now), ret)
    {
      hide F.CompareAndSet, HandsBack;
      ReturnHandsBack(Stamped(next, now), ret);
    }
  }

  // ---------------------------------------------------------------- running and watching

  /** What one own execution, or none, or too many, or one of another job make of the record. */
  ghost predicate TakesOver(c: Config, pc: Pc, r: ControlRecord, executions: seq<ProviderExecution>, ret: Ret)
    requires executions != []
  {
    if |executions| > 1 then pc == CancellingMany(r, executions, ret)
    else if Foreign(r, executions[0]) then pc == CancellingDrifted(r, executions[0], ret)
    else ShowsStatus(c, pc, r, executions[0], ret)
  }

  ghost predicate ShowsStatus(c: Config, pc: Pc, r: ControlRecord, execution: ProviderExecution, ret: Ret) {
    match execution.status
    case ExecPending => Records(c, pc, r, r.(state := EXECUTION_PENDING, execution := Some(execution), errorCode := None), ret)
    case ExecRunning => Records(c, pc, r, r.(state := RUNNING, execution := Some(execution), errorCode := None), ret)
    case ExecSucceeded => Records(c, pc, r, r.(state := SUCCEEDED, execution := Some(execution), errorCode := None), ret)
    case ExecCancelled => Records(c, pc, r, r.(state := CANCELLED, execution := Some(execution), errorCode := None), ret)
    case ExecFailed =>
      Records(c, pc, r, r.(state := FAILED, execution := Some(execution), errorCode := Some(PROVIDER_PERMANENT)), ret)
  }

  lemma ExecutionsTakenOver(c: Config, r: ControlRecord, executions: seq<ProviderExecution>, ret: Ret)
    requires executions != []
    ensures TakesOver(c, HandleExecutions(r, executions, ret), r, executions, ret)
  {
    hide Records;
    Recorded(c, r, ExecutionSeen(r, executions[0]), ret);
  }

  /** With no execution listed the run is claimed, and once that is stored the job is run; but a record that names no job is handed
      back with the intent alone. */
  lemma ListedForRun(c: Config, pc: Pc, answer: Answer)
    requires pc.ListingForRun?
    ensures
      var r, ret, read, pc' := pc.record, pc.ret, answer.executions, Proceed(pc, answer);
      && Calls(pc, r, CallListExecutions)
      && (read == ExecutionsUnavailable ==> Records(c, pc', r, r.(errorCode := Some(UNKNOWN_OUTCOME)), ret))
      && (read == ExecutionsFound([]) && r.job.Some? ==>
            RecordsThenCalls(c, pc', r, r.(state := RUN_INTENT, runIntent := true), ret, CallRunJob))
      && (read == ExecutionsFound([]) && r.job == None ==>
            Records(c, pc', r, r.(state := RUN_INTENT, runIntent := true), ret))
      && (read.ExecutionsFound? && read.executions != [] ==> TakesOver(c, pc', r, read.executions, ret))
  {
    hide Records, TakesOver, RecordsThenCalls;
    var pc' := Proceed(pc, answer);
    if answer.executions == ExecutionsUnavailable { Recorded(c, pc'.base, pc'.changed, pc'.ret); }
    else if answer.executions.executions != [] { ExecutionsTakenOver(c, pc.record, answer.executions.executions, pc.ret); }
    else if pc.record.job.Some? { RunIsCalled(c, pc.record, pc.ret); }
    else { NoJobToRun(c, pc.record, pc.ret); }
  }

  lemma NoJobToRun(c: Config, r: ControlRecord, ret: Ret)
    requires r.job == None
    ensures Records(c, Updating(r, RunClaimed(r), AfterRunClaim, ret), r, r.(state := RUN_INTENT, runIntent := true), ret)
  {
    var pc, next := Updating(r, RunClaimed(r), AfterRunClaim, ret), r.(state := RUN_INTENT, runIntent := true);
    forall db: F.Database, now: Time, answer: Answer | Applies(c, db, pc, now)
      ensures HandsBack(Advance(c, db, pc, now, answer).1, Stamped(next, now), ret)
    {
      hide F.CompareAndSet, HandsBack;
      ReturnHandsBack(Stamped(next, now), ret);
    }
  }

  lemma RunIsCalled(c: Config, r: ControlRecord, ret: Ret)
    requires r.job.Some?
    ensures RecordsThenCalls(c, Updating(r, RunClaimed(r), AfterRunClaim, ret), r, r.(state := RUN_INTENT, runIntent := true), ret,
                             CallRunJob)
  {
    var pc := Updating(r, RunClaimed(r), AfterRunClaim, ret);
    forall db: F.Database, now: Time, answer: Answer | Applies(c, db, pc, now)
      ensures Calls(Advance(c, db, pc, now, answer).1, r, CallRunJob)
    {
      hide F.CompareAndSet;
    }
  }

  lemma JobRun(c: Config, pc: Pc, answer: Answer)
    requires pc.RunningJob?
    ensures
      var r, ret, pc' := pc.record, pc.ret, Proceed(pc, answer);
      && Calls(pc, r, CallRunJob)
      && (answer.mutation.MutationAccepted? ==>
            Records(c, pc', r, r.(state := EXECUTION_PENDING, operationRef := Some(answer.mutation.operationRef),
                                  errorCode := None), ret))
      && (answer.mutation == MutationUnknown ==>
            Records(c, pc', r, r.(state := EXECUTION_PENDING, errorCode := Some(UNKNOWN_OUTCOME)), ret))
      && (answer.mutation == MutationConflict ==> Records(c, pc', r, r.(state := FAILED, errorCode := Some(CONFLICT)), ret))
      && (answer.mutation.MutationRejected? ==>
            Records(c, pc', r, r.(state := FAILED, errorCode := Some(Code(answer.mutation.errorKind))), ret))
  {
    hide Records;
    var pc' := Proceed(pc, answer);
    Recorded(c, pc'.base, pc'.changed, pc'.ret);
  }

  lemma ListedToObserve(c: Config, pc: Pc, answer: Answer)
    requires pc.ListingToObserve?
    ensures
      var r, ret, read, pc' := pc.record, pc.ret, answer.executions, Proceed(pc, answer);
      && Calls(pc, r, CallListExecutions)
      && (read == ExecutionsUnavailable ==> Records(c, pc', r, r.(errorCode := Some(UNKNOWN_OUTCOME)), ret))
      && (read == ExecutionsFound([]) ==> Records(c, pc', r, r.(state := EXECUTION_PENDING, errorCode := None), ret))
      && (read.ExecutionsFound? && read.executions != [] ==> TakesOver(c, pc', r, read.executions, ret))
  {
    hide Records, TakesOver;
    var pc' := Proceed(pc, answer);
    if answer.executions.ExecutionsFound? && answer.executions.executions != [] {
      ExecutionsTakenOver(c, pc.record, answer.executions.executions, pc.ret);
    } else {
      Recorded(c, pc'.base, pc'.changed, pc'.ret);
    }
  }

  /** Surplus executions are cancelled one after the other, a foreign one alone; then the record fails and is to be cleaned. */
  lemma SurplusCancelled(c: Config, pc: Pc, answer: Answer)
    requires pc.CancellingMany? || pc.CancellingDrifted?
    ensures
      var r, ret, pc' := pc.record, pc.ret, Proceed(pc, answer);
      && Calls(pc, r, CallCancelExecution)
      && (pc.CancellingMany? && |pc.executions| > 1 ==> pc' == CancellingMany(r, pc.executions[1..], ret))
      && (pc.CancellingMany? && |pc.executions| <= 1 ==>
            Records(c, pc', r, r.(state := FAILED, cleanupIntent := true, errorCode := Some(MULTIPLE_EXECUTIONS)), ret))
      && (pc.CancellingDrifted? ==>
            Records(c, pc', r, r.(state := FAILED, cleanupIntent := true, errorCode := Some(RESOURCE_DRIFT)), ret))
  {
    hide Records;
    var pc' := Proceed(pc, answer);
    if pc'.Updating? { Recorded(c, pc'.base, pc'.changed, pc'.ret); }
  }

  // ---------------------------------------------------------------- cancelling

  /** Once a cancellation is stored, the execution the record names, if it names one, is cancelled. */
  lemma CancellationStored(c: Config, r: ControlRecord, request: Request)
    requires !(r.execution.Some? && r.state in {SUCCEEDED, FAILED, CANCELLED})
    ensures
      var pc, next := CancelDecided(r, request), r.(state := CANCEL_PENDING, cancelIntent := true);
      if r.execution == None then Records(c, pc, r, next, Respond(request))
      else RecordsThenCalls(c, pc, r, next, Respond(request), CallCancelExecution)
  {
    hide Records;
    var pc := CancelDecided(r, request);
    if r.execution == None {
      Recorded(c, r, CancelClaimed(r), Respond(request));
    } else {
      forall db: F.Database, now: Time, answer: Answer | Applies(c, db, pc, now)
        ensures Calls(Advance(c, db, pc, now, answer).1, pc.changed, CallCancelExecution)
      {
        hide F.CompareAndSet;
      }
    }
  }

  lemma ExecutionCancelled(c: Config, pc: Pc, answer: Answer)
    requires pc.CancellingOne?
    ensures
      var r, ret, pc' := pc.record, pc.ret, Proceed(pc, answer);
      && Calls(pc, r, CallCancelExecution)
      && (answer.mutation == MutationRejected(Permanent) ==> Records(c, pc', r, r.(errorCode := Some(PROVIDER_PERMANENT)), ret))
      && (answer.mutation == MutationUnknown ==> Records(c, pc', r, r.(errorCode := Some(UNKNOWN_OUTCOME)), ret))
      && (answer.mutation.MutationAccepted? || answer.mutation in {MutationConflict, MutationRejected(Retryable)} ==>
            Records(c, pc', r, r.(errorCode := None), ret))
  {
    hide Records;
    var pc' := Proceed(pc, answer);
    Recorded(c, pc'.base, pc'.changed, pc'.ret);
  }

  // ---------------------------------------------------------------- cleaning up

  /** Whatever cannot be read leaves the cleanup to be done again. */
  ghost predicate Unfinished(c: Config, pc: Pc, r: ControlRecord, ret: Ret) {
    Records(c, pc, r, r.(state := CLEANUP_PENDING, errorCode := Some(UNKNOWN_OUTCOME)), ret)
  }

  /** The first execution left is cancelled if it is pending or running, and deleted; without one the job is read. */
  predicate Empties(pc: Pc, r: ControlRecord, executions: seq<ProviderExecution>, ret: Ret) {
    if executions == [] then pc == CleanGettingJob(r, ret)
    else if executions[0].status in {ExecPending, ExecRunning} then pc == CleanCancelling(r, executions, ret)
    else pc == CleanDeleting(r, executions, ret)
  }

  lemma CleanupLists(c: Config, pc: Pc, answer: Answer)
    requires pc.CleanListing? || pc.CleanGettingJob?
    ensures
      var r, ret, pc' := pc.record, pc.ret, Proceed(pc, answer);
      && (pc.CleanListing? ==>
            && Calls(pc, r, CallListExecutions)
            && (answer.executions == ExecutionsUnavailable ==> Unfinished(c, pc', r, ret))
            && (answer.executions.ExecutionsFound? ==> Empties(pc', r, answer.executions.executions, ret)))
      && (pc.CleanGettingJob? ==>
            && Calls(pc, r, CallGetJob)
            && (answer.job == JobUnavailable ==> Unfinished(c, pc', r, ret))
            && (answer.job == JobMissing ==> pc' == CleanRelisting(r, ret))
            && (answer.job.JobFound? ==> pc' == CleanDeletingJob(r, ret)))
  {
    hide Records;
    var pc' := Proceed(pc, answer);
    if pc'.Updating? { Recorded(c, pc'.base, pc'.changed, pc'.ret); }
  }

  lemma CleanupDeletes(pc: Pc, answer: Answer)
    requires pc.CleanCancelling? || pc.CleanDeleting? || pc.CleanDeletingJob?
    ensures
      var r, ret, pc' := pc.record, pc.ret, Proceed(pc, answer);
      && (pc.CleanCancelling? ==> Calls(pc, r, CallCancelExecution) && pc' == CleanDeleting(r, pc.executions, ret))
      && (pc.CleanDeleting? ==>
            && Calls(pc, r, CallDeleteExecution)
            && (pc.executions != [] ==> Empties(pc', r, pc.executions[1..], ret)))
      && (pc.CleanDeletingJob? ==> Calls(pc, r, CallDeleteJob) && pc' == CleanRelisting(r, ret))
  {
  }

  /** CLEANED is written exactly when the second listing is empty and the second read finds no job. */
  lemma CleanupReadsBack(c: Config, pc: Pc, answer: Answer)
    requires pc.CleanRelisting? || pc.CleanRereadingJob?
    ensures
      var r, ret, pc' := pc.record, pc.ret, Proceed(pc, answer);
      && (pc.CleanRelisting? ==>
            Calls(pc, r, CallListExecutions) && pc' == CleanRereadingJob(r, answer.executions == ExecutionsFound([]), ret))
      && (pc.CleanRereadingJob? ==>
            && Calls(pc, r, CallGetJob)
            && (pc.emptied && answer.job == JobMissing ==>
                  Records(c, pc', r, r.(state := CLEANED, job := None, execution := None, operationRef := None,
                                        errorCode := None), ret))
            && (!(pc.emptied && answer.job == JobMissing) ==> Unfinished(c, pc', r, ret)))
  {
    hide Records;
    var pc' := Proceed(pc, answer);
    if pc'.Updating? { Recorded(c, pc'.base, pc'.changed, pc'.ret); }
  }

  /** Once the cleanup is marked, it lists. */
  lemma CleanupMarkedThen(c: Config, db: F.Database, r: ControlRecord, ret: Ret, now: Time, answer: Answer)
    requires !r.cleanupIntent && Applies(c, db, BeginCleanup(r, ret), now)
    ensures Advance(c, db, BeginCleanup(r, ret), now, answer).1
         == CleanListing(Stamped(r.(state := CLEANUP_PENDING, cleanupIntent := true), now), ret)
  {
    hide F.CompareAndSet;
  }

  // ---------------------------------------------------------------- reaping

  /** The reaper reads the one record that is not CLEANED, and has nothing to do if there is none. */
  lemma ReaperFinds(c: Config, db: F.Database, reapNow: Time, now: Time, answer: Answer, handle: Handle)
    requires F.Inv(c.auth, db) && c.environment == c.auth.environment
    ensures handle in db.executions && db.executions[handle].state != CLEANED ==>
      Advance(c, db, ReapFindingActive(reapNow), now, answer) == (db, ReapReading(handle, reapNow))
    ensures (forall h :: h in db.executions ==> db.executions[h].state == CLEANED) ==>
      Advance(c, db, ReapFindingActive(reapNow), now, answer) == (db, Done(Reaped))
  {
    if handle in db.executions && db.executions[handle].state != CLEANED { assert handle in F.Active(db.executions); }
    if db.environment.activeExecutionHandle.Some? {
      assert db.environment.activeExecutionHandle.value in F.Active(db.executions);
    }
  }

  /** It then takes it, if it is marked or past its deadline, unless it has been cleaned meanwhile. */
  lemma ReaperReads(c: Config, db: F.Database, handle: Handle, reapNow: Time, now: Time, answer: Answer)
    requires F.Inv(c.auth, db) && c.environment == c.auth.environment && handle in db.executions
    ensures
      var pc' := Advance(c, db, ReapReading(handle, reapNow), now, answer).1;
      if db.executions[handle].state == CLEANED then pc' == Thrown else ReapsOn(pc', [db.executions[handle]], reapNow)
  {
    ReapNextReapsOn([db.executions[handle]], reapNow);
    hide ReapsOn;
  }

  // ---------------------------------------------------------------- a write that is lost

  /** A write that does not apply is given up: the handler reads the record again. */
  lemma LostIsReread(c: Config, db: F.Database, pc: Pc, now: Time, answer: Answer)
    requires pc.Updating?
    ensures
      var outcome := F.CompareAndSet(c.auth, db, pc.base.version, Stamped(pc.changed, now)).1;
      outcome == Lost ==> Advance(c, db, pc, now, answer) == (db, Reloading(pc.base, pc.after, pc.ret))
  {
  }

  /** The record it then holds is handed back, unless a ready job is still to be run or a cleanup goes on. */
  lemma RereadIsHandedBack(c: Config, db: F.Database, pc: Pc, now: Time, answer: Answer)
    requires pc.Reloading? && pc.lost.executionHandle in db.executions
    requires F.RecordParses(db.executions[pc.lost.executionHandle], pc.lost.executionHandle)
    requires db.executions[pc.lost.executionHandle].environment == c.auth.environment
    ensures
      var r, pc' := db.executions[pc.lost.executionHandle], Advance(c, db, pc, now, answer).1;
      && (pc.after in {AfterReturn, AfterSendClaim, AfterRunClaim, AfterCancelClaim} ==> HandsBack(pc', r, pc.ret))
      && (pc.after == AfterCleanupMark ==> pc' == CleanListing(r, pc.ret))
      && (pc.after.AfterJobSeen? ==>
            if pc.after.ready && pc.after.allowRun && !r.runIntent then pc' == ListingForRun(r, pc.ret)
            else HandsBack(pc', r, pc.ret))
  {
    hide HandsBack;
    ReturnHandsBack(db.executions[pc.lost.executionHandle], pc.ret);
  }
}

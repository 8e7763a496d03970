/** The controller as it really runs: any number of request handlers and reaper ticks share one durable
    store, interleave at every await, read an arbitrary clock and get arbitrary provider answers. */
module ControllerMachine {
  import opened ControllerTypes
  import opened ControllerPolicy
  import F = FirestoreStore

  datatype Config = Config(environment: Environment, auth: Authorization)

  /** What the provider would answer, should the next step ask it, and what the two clock readings before a
      second create would show. */
  datatype Answer = Answer(
    mutation: ProviderMutation, operation: OperationRead, job: JobRead, executions: ExecutionRead,
    elapsedAt: Time, deadlineAt: Time)

  datatype Incoming =
    | Execute(request: Request, expectedVersion: int, jobId: JobId)
    | ReapTick(environment: Environment)

  /** What a handler does with the record once its current sub-task returns it. */
  datatype Ret =
    | Respond(request: Request)
    | CancelResume(request: Request)
    | ReapResume(rest: seq<ControlRecord>, reapNow: Time)

  /** Where a handler continues after a compare-and-set. */
  datatype After =
    | AfterSendClaim
    | AfterJobSeen(ready: bool, allowRun: bool)
    | AfterRunClaim
    | AfterCancelClaim
    | AfterCleanupMark
    | AfterReturn

  /** One constructor per await; the handler is about to perform the operation it names. */
  datatype Pc =
    | Admitting(input: AdmitCreateInput)
    | Claiming(claim: ClaimRequestInput)
    | ReapFindingActive(reapNow: Time)
    | ReapReading(handle: Handle, reapNow: Time)
    | Updating(base: ControlRecord, changed: ControlRecord, after: After, ret: Ret)
    | Reloading(lost: ControlRecord, after: After, ret: Ret)
    | CreatingJob(record: ControlRecord, ret: Ret)
    | GettingOperation(record: ControlRecord, operationRef: int, allowRun: bool, ret: Ret)
    | GettingJob(record: ControlRecord, operationFailed: Option<ErrorKind>, allowRun: bool, ret: Ret)
    | ListingForRun(record: ControlRecord, ret: Ret)
    | RunningJob(record: ControlRecord, ret: Ret)
    | ListingToObserve(record: ControlRecord, ret: Ret)
    | CancellingMany(record: ControlRecord, executions: seq<ProviderExecution>, ret: Ret)
    | CancellingDrifted(record: ControlRecord, execution: ProviderExecution, ret: Ret)
    | CancellingOne(record: ControlRecord, execution: ProviderExecution, ret: Ret)
    | CleanListing(record: ControlRecord, ret: Ret)
    | CleanCancelling(record: ControlRecord, executions: seq<ProviderExecution>, ret: Ret)
    | CleanDeleting(record: ControlRecord, executions: seq<ProviderExecution>, ret: Ret)
    | CleanGettingJob(record: ControlRecord, ret: Ret)
    | CleanDeletingJob(record: ControlRecord, ret: Ret)
    | CleanRelisting(record: ControlRecord, ret: Ret)
    | CleanRereadingJob(record: ControlRecord, emptied: bool, ret: Ret)
    | Done(reply: Reply)
    | Thrown

  /** The handler is emptying the provider. */
  predicate Cleaning(pc: Pc) {
    || pc.CleanListing? || pc.CleanCancelling? || pc.CleanDeleting? || pc.CleanGettingJob?
    || pc.CleanDeletingJob? || pc.CleanRelisting? || pc.CleanRereadingJob?
  }

  datatype CallKind =
    | CallCreateJob(attempt: int) | CallRunJob | CallCancelExecution | CallDeleteExecution | CallDeleteJob
    | CallGetOperation | CallGetJob | CallListExecutions

  datatype Call = Call(handle: Handle, kind: CallKind)

  // ---------------------------------------------------------------- from one await to the next

  function Return(record: ControlRecord, ret: Ret): Pc {
    match ret
    case Respond(request) => Done(Responded(request, record))
    case CancelResume(request) => CancelDecided(record, request)
    case ReapResume(rest, reapNow) => ReapNext(rest, reapNow)
  }

  function CancelDecided(record: ControlRecord, request: Request): Pc {
    if record.execution == None then
      Updating(record, CancelClaimed(record), AfterReturn, Respond(request))
    else if record.state in {SUCCEEDED, FAILED, CANCELLED} then Done(Responded(request, record))
    else Updating(record, CancelClaimed(record), AfterCancelClaim, Respond(request))
  }

  function ReapNext(records: seq<ControlRecord>, reapNow: Time): Pc {
    if records == [] then Done(Reaped)
    else if NeedsReaping(records[0], reapNow) then BeginCleanup(records[0], ReapResume(records[1..], reapNow))
    else ReapNext(records[1..], reapNow)
  }

  function BeginCleanup(record: ControlRecord, ret: Ret): Pc {
    if record.cleanupIntent then CleanListing(record, ret)
    else Updating(record, CleanupMarked(record), AfterCleanupMark, ret)
  }

  function SendCreate(record: ControlRecord, ret: Ret): Pc {
    Updating(record, CreateClaimed(record), AfterSendClaim, ret)
  }

  function ReconcileJob(record: ControlRecord, allowRun: bool, ret: Ret): Pc {
    match record.operationRef
    case Some(operationRef) => GettingOperation(record, operationRef, allowRun, ret)
    case None => GettingJob(record, None, allowRun, ret)
  }

  function BeginObserve(record: ControlRecord, ret: Ret): Pc {
    if record.runIntent then ListingToObserve(record, ret) else ReconcileJob(record, false, ret)
  }

  function BeginReconcile(record: ControlRecord, ret: Ret): Pc {
    if record.state in {CLEANED, CANCELLED, SUCCEEDED} then Return(record, ret)
    else if record.cleanupIntent || record.state == CLEANUP_PENDING then BeginCleanup(record, ret)
    else if record.state == FAILED then Return(record, ret)
    else if record.runIntent then ListingToObserve(record, ret)
    else ReconcileJob(record, true, ret)
  }

  function BeginCancel(record: ControlRecord, request: Request): Pc {
    if record.execution == None || record.cancelIntent then ListingToObserve(record, CancelResume(request))
    else CancelDecided(record, request)
  }

  /** `#handleExecutionList` up to its first await. */
  function HandleExecutions(record: ControlRecord, executions: seq<ProviderExecution>, ret: Ret): Pc {
    if executions == [] then Updating(record, NoExecutionYet(record), AfterReturn, ret)
    else if |executions| > 1 then CancellingMany(record, executions, ret)
    else if Drifted(record, executions[0]) then CancellingDrifted(record, executions[0], ret)
    else Updating(record, ExecutionSeen(record, executions[0]), AfterReturn, ret)
  }

  function CleanNext(record: ControlRecord, executions: seq<ProviderExecution>, ret: Ret): Pc {
    if executions == [] then CleanGettingJob(record, ret)
    else if StillActive(executions[0]) then CleanCancelling(record, executions, ret)
    else CleanDeleting(record, executions, ret)
  }

  /** The handler resumes with the record a compare-and-set left it with. */
  function Continue(record: ControlRecord, applied: bool, after: After, ret: Ret): Pc {
    match after
    case AfterSendClaim => if applied then CreatingJob(record, ret) else Return(record, ret)
    case AfterJobSeen(ready, allowRun) =>
      if !ready || !allowRun || record.runIntent then Return(record, ret) else ListingForRun(record, ret)
    case AfterRunClaim =>
      if !applied || record.job == None then Return(record, ret) else RunningJob(record, ret)
    case AfterCancelClaim =>
      if !applied || record.execution == None then Return(record, ret)
      else CancellingOne(record, record.execution.value, ret)
    case AfterCleanupMark => CleanListing(record, ret)
    case AfterReturn => Return(record, ret)
  }

  // ---------------------------------------------------------------- provider steps

  /** The provider call a handler is about to make. */
  function Pending(pc: Pc): Option<Call> {
    match pc
    case CreatingJob(r, _) => Some(Call(r.executionHandle, CallCreateJob(r.createAttempts)))
    case GettingOperation(r, _, _, _) => Some(Call(r.executionHandle, CallGetOperation))
    case GettingJob(r, _, _, _) => Some(Call(r.executionHandle, CallGetJob))
    case ListingForRun(r, _) => Some(Call(r.executionHandle, CallListExecutions))
    case RunningJob(r, _) => Some(Call(r.executionHandle, CallRunJob))
    case ListingToObserve(r, _) => Some(Call(r.executionHandle, CallListExecutions))
    case CancellingMany(r, _, _) => Some(Call(r.executionHandle, CallCancelExecution))
    case CancellingDrifted(r, _, _) => Some(Call(r.executionHandle, CallCancelExecution))
    case CancellingOne(r, _, _) => Some(Call(r.executionHandle, CallCancelExecution))
    case CleanListing(r, _) => Some(Call(r.executionHandle, CallListExecutions))
    case CleanCancelling(r, _, _) => Some(Call(r.executionHandle, CallCancelExecution))
    case CleanDeleting(r, _, _) => Some(Call(r.executionHandle, CallDeleteExecution))
    case CleanGettingJob(r, _) => Some(Call(r.executionHandle, CallGetJob))
    case CleanDeletingJob(r, _) => Some(Call(r.executionHandle, CallDeleteJob))
    case CleanRelisting(r, _) => Some(Call(r.executionHandle, CallListExecutions))
    case CleanRereadingJob(r, _, _) => Some(Call(r.executionHandle, CallGetJob))
    case _ => None
  }

  function AfterCreateJob(record: ControlRecord, ret: Ret, result: ProviderMutation): Pc {
    if result == MutationConflict then ReconcileJob(record, true, ret)
    else Updating(record, CreateAnswered(record, result), AfterReturn, ret)
  }

  function AfterGetJob(record: ControlRecord, operationFailed: Option<ErrorKind>, allowRun: bool, ret: Ret,
                       answer: Answer): Pc {
    match answer.job
    case JobUnavailable => Updating(record, OutcomeUnknown(record), AfterReturn, ret)
    case JobMissing =>
      if operationFailed.Some? then
        Updating(record, CreateFailed(record, operationFailed.value), AfterReturn, ret)
      else if MayCreateAgain(record, answer.elapsedAt, answer.deadlineAt) then SendCreate(record, ret)
      else Updating(record, CreateUnknown(record), AfterReturn, ret)
    case JobFound(job, matches) =>
      if matches then Updating(record, JobSeen(record, job), AfterJobSeen(job.ready, allowRun), ret)
      else Updating(record, JobDrifted(record, job), AfterReturn, ret)
  }

  function AfterListingForRun(record: ControlRecord, ret: Ret, read: ExecutionRead): Pc {
    match read
    case ExecutionsUnavailable => Updating(record, OutcomeUnknown(record), AfterReturn, ret)
    case ExecutionsFound(executions) =>
      if executions == [] then Updating(record, RunClaimed(record), AfterRunClaim, ret)
      else HandleExecutions(record, executions, ret)
  }

  function AfterListingToObserve(record: ControlRecord, ret: Ret, read: ExecutionRead): Pc {
    match read
    case ExecutionsUnavailable => Updating(record, OutcomeUnknown(record), AfterReturn, ret)
    case ExecutionsFound(executions) => HandleExecutions(record, executions, ret)
  }

  function AfterCancelOfMany(record: ControlRecord, executions: seq<ProviderExecution>, ret: Ret): Pc {
    if |executions| > 1 then CancellingMany(record, executions[1..], ret)
    else Updating(record, TooManyExecutions(record), AfterReturn, ret)
  }

  function AfterCleanListing(record: ControlRecord, ret: Ret, read: ExecutionRead): Pc {
    match read
    case ExecutionsUnavailable => Updating(record, CleanupUnfinished(record), AfterReturn, ret)
    case ExecutionsFound(executions) => CleanNext(record, executions, ret)
  }

  function AfterCleanGetJob(record: ControlRecord, ret: Ret, read: JobRead): Pc {
    match read
    case JobUnavailable => Updating(record, CleanupUnfinished(record), AfterReturn, ret)
    case JobMissing => CleanRelisting(record, ret)
    case JobFound(_, _) => CleanDeletingJob(record, ret)
  }

  function AfterCleanReread(record: ControlRecord, emptied: bool, ret: Ret, read: JobRead): Pc {
    if emptied && read == JobMissing then Updating(record, CleanedUp(record), AfterReturn, ret)
    else Updating(record, CleanupUnfinished(record), AfterReturn, ret)
  }

  /** One provider call and the handler's code up to the next await. */
  function Proceed(pc: Pc, answer: Answer): Pc
    requires Pending(pc).Some?
  {
    match pc
    case CreatingJob(r, ret) => AfterCreateJob(r, ret, answer.mutation)
    case GettingOperation(r, _, allowRun, ret) =>
      GettingJob(r, if answer.operation.OperationFailed? then Some(answer.operation.errorKind) else None, allowRun, ret)
    case GettingJob(r, operationFailed, allowRun, ret) => AfterGetJob(r, operationFailed, allowRun, ret, answer)
    case ListingForRun(r, ret) => AfterListingForRun(r, ret, answer.executions)
    case RunningJob(r, ret) => Updating(r, RunAnswered(r, answer.mutation), AfterReturn, ret)
    case ListingToObserve(r, ret) => AfterListingToObserve(r, ret, answer.executions)
    case CancellingMany(r, executions, ret) => AfterCancelOfMany(r, executions, ret)
    case CancellingDrifted(r, _, ret) => Updating(r, ExecutionDrifted(r), AfterReturn, ret)
    case CancellingOne(r, _, ret) => Updating(r, CancelAnswered(r, answer.mutation), AfterReturn, ret)
    case CleanListing(r, ret) => AfterCleanListing(r, ret, answer.executions)
    case CleanCancelling(r, executions, ret) => CleanDeleting(r, executions, ret)
    case CleanDeleting(r, executions, ret) => CleanNext(r, if executions == [] then [] else executions[1..], ret)
    case CleanGettingJob(r, ret) => AfterCleanGetJob(r, ret, answer.job)
    case CleanDeletingJob(r, ret) => CleanRelisting(r, ret)
    case CleanRelisting(r, ret) => CleanRereadingJob(r, answer.executions == ExecutionsFound([]), ret)
    case CleanRereadingJob(r, emptied, ret) => AfterCleanReread(r, emptied, ret, answer.job)
  }

  // ---------------------------------------------------------------- store steps

  function AfterAdmit(request: Request, outcome: StoreOutcome): Pc {
    match outcome
    case BudgetExhausted => Done(Rejected(request, RejectBudget))
    case EnvironmentMismatch => Done(Rejected(request, RejectEnvironment))
    case RateLimited => Done(Rejected(request, RejectRate))
    case Conflict => Done(Rejected(request, RejectConflict))
    case Duplicate(record) => Done(Responded(request, record))
    case Accepted(record) => SendCreate(record, Respond(request))
    case _ => Thrown
  }

  function AfterClaim(request: Request, outcome: StoreOutcome): Pc {
    match outcome
    case EnvironmentMismatch => Done(Rejected(request, RejectEnvironment))
    case Conflict => Done(Rejected(request, RejectConflict))
    case NotFound => Done(Rejected(request, RejectConflict))
    case Stale(record) => Done(Rejected(request, RejectStale(record.version)))
    case RateLimited => Done(Rejected(request, RejectRate))
    case Duplicate(record) => Done(Responded(request, record))
    case Accepted(record) => Perform(request, record)
    case _ => Thrown
  }

  function Perform(request: Request, record: ControlRecord): Pc {
    match request.action
    case Observe => BeginObserve(record, Respond(request))
    case Reconcile => BeginReconcile(record, Respond(request))
    case Cancel => BeginCancel(record, request)
    case Cleanup => BeginCleanup(record, Respond(request))
    case Create => Done(Responded(request, record))
  }

  /** The reaper reads the environment document and the record it names one after the other. */
  function FindActive(c: Config, db: F.Database, reapNow: Time): Pc {
    if c.environment != c.auth.environment then Done(Reaped)
    else if !F.EnvironmentSchema(db.environment) || db.environment.authorization != c.auth then Thrown
    else match db.environment.activeExecutionHandle
      case None => if db.environment.activeExecutions != 0 then Thrown else Done(Reaped)
      case Some(handle) => if db.environment.activeExecutions != 1 then Thrown else ReapReading(handle, reapNow)
  }

  function ReadActive(c: Config, db: F.Database, handle: Handle, reapNow: Time): Pc {
    if handle !in db.executions then Thrown
    else
      var record := db.executions[handle];
      if !F.RecordParses(record, handle) || record.environment != c.environment || record.state == CLEANED
      then Thrown
      else ReapNext([record], reapNow)
  }

  function Reload(c: Config, db: F.Database, lost: ControlRecord, after: After, ret: Ret): Pc {
    if lost.executionHandle !in db.executions then Thrown
    else
      var record := db.executions[lost.executionHandle];
      if !F.RecordParses(record, lost.executionHandle) || record.environment != c.auth.environment then Thrown
      else Continue(record, false, after, ret)
  }

  function AfterCas(pc: Pc, next: ControlRecord, outcome: CasOutcome): Pc
    requires pc.Updating?
  {
    match outcome
    case Applied => Continue(next, true, pc.after, pc.ret)
    case Lost => Reloading(pc.base, pc.after, pc.ret)
    case CasThrows => Thrown
  }

  /** One await of one handler: the store after it, and where the handler is then. An update reads the clock in the
      same breath as it sends its compare-and-set. */
  function Advance(c: Config, db: F.Database, pc: Pc, now: Time, answer: Answer): (F.Database, Pc) {
    match pc
    case Admitting(input) =>
      var (db', outcome) := F.Admit(c.auth, db, input);
      (db', AfterAdmit(input.request, outcome))
    case Claiming(claim) =>
      var (db', outcome) := F.Claim(c.auth, db, claim);
      (db', AfterClaim(claim.request, outcome))
    case ReapFindingActive(reapNow) => (db, FindActive(c, db, reapNow))
    case ReapReading(handle, reapNow) => (db, ReadActive(c, db, handle, reapNow))
    case Updating(base, changed, _, _) =>
      var next := Touch(changed, now);
      var (db', outcome) := F.CompareAndSet(c.auth, db, base.version, next);
      (db', AfterCas(pc, next, outcome))
    case Reloading(lost, after, ret) => (db, Reload(c, db, lost, after, ret))
    case Done(_) => (db, pc)
    case Thrown => (db, pc)
    case _ => (db, Proceed(pc, answer))
  }

  /** A handler's code before its first await. */
  function Start(c: Config, incoming: Incoming, now: Time): Pc {
    match incoming
    case Execute(request, expectedVersion, jobId) =>
      if request.environment != c.environment then Done(Rejected(request, RejectEnvironment))
      else if request.action == Create then
        if expectedVersion != 0 then Done(Rejected(request, RejectStale(expectedVersion)))
        else Admitting(AdmitCreateInput(request, jobId, now, now + PROVISIONING_WINDOW_MS, now + RECORD_TTL_MS))
      else Claiming(ClaimRequestInput(request, expectedVersion, now))
    case ReapTick(environment) =>
      if environment != c.environment then Done(Reaped) else ReapFindingActive(now)
  }

  // ---------------------------------------------------------------- the whole system

  /** `claimed` remembers which handler's compare-and-set licensed each create and run call; `calls` is every
      provider call made so far and `accepted` every request id accepted, both oldest first. */
  datatype Sys = Sys(
    db: F.Database, handlers: map<int, Pc>, claimed: map<Call, int>, calls: seq<Call>, accepted: seq<RequestId>)

  datatype Move =
    | Spawn(handler: int, incoming: Incoming, now: Time)
    | Resume(handler: int, now: Time, answer: Answer)

  /** The call a successful compare-and-set licenses. */
  function Licensed(pc: Pc): Option<Call>
    requires pc.Updating?
  {
    match pc.after
    case AfterSendClaim => Some(Call(pc.changed.executionHandle, CallCreateJob(pc.changed.createAttempts)))
    case AfterRunClaim => Some(Call(pc.changed.executionHandle, CallRunJob))
    case _ => None
  }

  function ClaimedAfter(c: Config, s: Sys, handler: int, pc: Pc, now: Time): map<Call, int> {
    if pc.Updating? && Licensed(pc).Some? && F.CompareAndSet(c.auth, s.db, pc.base.version, Touch(pc.changed, now)).1 == Applied
    then s.claimed[Licensed(pc).value := handler]
    else s.claimed
  }

  function AcceptedAfter(c: Config, s: Sys, pc: Pc): seq<RequestId> {
    if pc.Admitting? && F.Admit(c.auth, s.db, pc.input).1.Accepted? then s.accepted + [pc.input.request.requestId]
    else if pc.Claiming? && F.Claim(c.auth, s.db, pc.claim).1.Accepted? then s.accepted + [pc.claim.request.requestId]
    else s.accepted
  }

  function Step(c: Config, s: Sys, move: Move): Sys {
    match move
    case Spawn(i, incoming, now) =>
      if i in s.handlers then s else s.(handlers := s.handlers[i := Start(c, incoming, now)])
    case Resume(i, now, answer) =>
      if i !in s.handlers then s
      else
        var pc := s.handlers[i];
        var (db', pc') := Advance(c, s.db, pc, now, answer);
        Sys(db',
            s.handlers[i := pc'],
            ClaimedAfter(c, s, i, pc, now),
            s.calls + (if Pending(pc).Some? then [Pending(pc).value] else []),
            AcceptedAfter(c, s, pc))
  }

  function Initial(c: Config, now: Time): Sys {
    Sys(F.Initial(c.auth, now), map[], map[], [], [])
  }

  function Run(c: Config, s: Sys, moves: seq<Move>): Sys {
    if moves == [] then s
    else Step(c, Run(c, s, moves[..|moves| - 1]), moves[|moves| - 1])
  }
}

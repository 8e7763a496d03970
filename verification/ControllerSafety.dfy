/** Safety of the interleaved controller: what every step keeps, and what follows for whole runs. */
module ControllerSafety {
  import opened ControllerTypes
  import opened ControllerPolicy
  import opened ControllerMachine
  import opened Sets
  import F = FirestoreStore

  // ---------------------------------------------------------------- local copies of records

  /** How a stored record may change: the version counts the changes, and intent is never taken back. */
  predicate Precedes(earlier: ControlRecord, later: ControlRecord) {
    && earlier.executionHandle == later.executionHandle
    && earlier.version <= later.version
    && (earlier.version == later.version ==> earlier == later)
    && (earlier.runIntent ==> later.runIntent)
    && (earlier.cancelIntent ==> later.cancelIntent)
    && (earlier.cleanupIntent ==> later.cleanupIntent)
    && earlier.createAttempts <= later.createAttempts
  }

  /** A record's state, resources, intents and error fit together. */
  predicate Coherent(r: ControlRecord) {
    && (r.state == JOB_READY ==> r.job.Some? && r.job.value.ready)
    && (r.state == RUN_INTENT ==> r.runIntent)
    && (r.state in {RUNNING, SUCCEEDED, CANCELLED} ==>
          r.execution.Some? && r.job.Some? && r.job.value.ref == r.execution.value.jobRef)
    && (r.state == RUNNING ==> r.execution.value.status == ExecRunning)
    && (r.state == SUCCEEDED ==> r.execution.value.status == ExecSucceeded)
    && (r.state == CANCELLED ==> r.execution.value.status == ExecCancelled)
    && (r.state == CREATE_UNKNOWN ==> r.errorCode == Some(UNKNOWN_OUTCOME))
    && (r.state == CANCEL_PENDING ==> r.cancelIntent)
    && (r.state == CLEANED ==> r.job == None && r.execution == None && r.operationRef == None && r.errorCode == None)
    && (r.errorCode in {Some(MULTIPLE_EXECUTIONS), Some(RESOURCE_DRIFT)} ==> r.cleanupIntent)
  }

  predicate StoreCoherent(db: F.Database) {
    forall h :: h in db.executions ==> Coherent(db.executions[h])
  }

  /** `r` is the stored record of its handle or one of its earlier versions. */
  predicate Copied(db: F.Database, r: ControlRecord) {
    && r.executionHandle in db.executions
    && Precedes(r, db.executions[r.executionHandle])
    && F.RecordSchema(r) && Coherent(r)
  }

  predicate Evolves(db: F.Database, db': F.Database) {
    forall h :: h in db.executions ==> h in db'.executions && Precedes(db.executions[h], db'.executions[h])
  }

  /** What a handler may write: intents are kept, attempts counted, and the record stays coherent. */
  predicate Legal(base: ControlRecord, changed: ControlRecord, after: After) {
    && changed.executionHandle == base.executionHandle
    && F.RecordSchema(changed)
    && (base.runIntent ==> changed.runIntent)
    && (base.cancelIntent ==> changed.cancelIntent)
    && (base.cleanupIntent ==> changed.cleanupIntent)
    && changed.createAttempts == base.createAttempts + (if after.AfterSendClaim? then 1 else 0)
    && (after.AfterRunClaim? ==> !base.runIntent && changed.runIntent)
    && (after.AfterCancelClaim? ==> changed.state == CANCEL_PENDING)
    && (base.state != CLEANED ==> Coherent(changed))
  }

  predicate RetSound(db: F.Database, ret: Ret) {
    ret.ReapResume? ==> forall r :: r in ret.rest ==> Copied(db, r)
  }

  function Copy(pc: Pc): Option<ControlRecord> {
    match pc
    case Updating(base, _, _, _) => Some(base)
    case Reloading(lost, _, _) => Some(lost)
    case CreatingJob(r, _) => Some(r)
    case GettingOperation(r, _, _, _) => Some(r)
    case GettingJob(r, _, _, _) => Some(r)
    case ListingForRun(r, _) => Some(r)
    case RunningJob(r, _) => Some(r)
    case ListingToObserve(r, _) => Some(r)
    case CancellingMany(r, _, _) => Some(r)
    case CancellingDrifted(r, _, _) => Some(r)
    case CancellingOne(r, _, _) => Some(r)
    case CleanListing(r, _) => Some(r)
    case CleanCancelling(r, _, _) => Some(r)
    case CleanDeleting(r, _, _) => Some(r)
    case CleanGettingJob(r, _) => Some(r)
    case CleanDeletingJob(r, _) => Some(r)
    case CleanRelisting(r, _) => Some(r)
    case CleanRereadingJob(r, _, _) => Some(r)
    case _ => None
  }

  function RetOf(pc: Pc): Ret
    requires Copy(pc).Some?
  {
    pc.ret
  }

  /** Every record a handler holds is a copy of its stored record, and what it is about to write or call is
      licensed by that copy. */
  predicate Sound(db: F.Database, pc: Pc) {
    && (Copy(pc).Some? ==> Copied(db, Copy(pc).value) && RetSound(db, RetOf(pc)))
    && (pc.Updating? ==> pc.changed.version == pc.base.version && Legal(pc.base, pc.changed, pc.after))
    && (pc.CreatingJob? ==> 1 <= pc.record.createAttempts)
    && (pc.ListingForRun? ==> !pc.record.runIntent)
    && (pc.RunningJob? ==> pc.record.runIntent)
    && (pc.CancellingOne? ==> pc.record.state == CANCEL_PENDING)
    && (pc.Admitting? ==> F.AdmitInputSchema(pc.input))
    && (pc.Claiming? ==> pc.claim.request.action != Create)
    && (pc.ReapReading? ==> pc.handle in db.executions)
    && (pc.Done? && pc.reply.Responded? ==> Copied(db, pc.reply.record))
  }

  predicate Exclusive(call: Call) {
    call.kind.CallCreateJob? || call.kind.CallRunJob?
  }

  predicate Plain(pc: Pc) {
    !pc.CreatingJob? && !pc.RunningJob?
  }

  lemma CopiedStable(db: F.Database, db': F.Database, r: ControlRecord)
    requires Evolves(db, db') && Copied(db, r)
    ensures Copied(db', r)
  {
  }

  lemma SoundStable(db: F.Database, db': F.Database, pc: Pc)
    requires Evolves(db, db') && Sound(db, pc)
    ensures Sound(db', pc)
  {
    if pc.Done? && pc.reply.Responded? { CopiedStable(db, db', pc.reply.record); }
    if Copy(pc).Some? {
      CopiedStable(db, db', Copy(pc).value);
      if RetOf(pc).ReapResume? {
        forall r | r in RetOf(pc).rest ensures Copied(db', r) { CopiedStable(db, db', r); }
      }
    }
  }

  // ---------------------------------------------------------------- handler code keeps its copies sound

  lemma {:induction false} ReapNextSound(db: F.Database, records: seq<ControlRecord>, reapNow: Time)
    requires forall r :: r in records ==> Copied(db, r)
    ensures Sound(db, ReapNext(records, reapNow)) && Plain(ReapNext(records, reapNow))
  {
    if records != [] {
      assert Copied(db, records[0]);
      assert forall r :: r in records[1..] ==> r in records;
      if NeedsReaping(records[0], reapNow) {
        CleanupSound(db, records[0], ReapResume(records[1..], reapNow));
      } else {
        ReapNextSound(db, records[1..], reapNow);
      }
    }
  }

  lemma ReturnSound(db: F.Database, record: ControlRecord, ret: Ret)
    requires Copied(db, record) && RetSound(db, ret)
    ensures Sound(db, Return(record, ret)) && Plain(Return(record, ret))
  {
    if ret.ReapResume? { ReapNextSound(db, ret.rest, ret.reapNow); }
    if ret.CancelResume? { CancelDecidedSound(db, record, ret.request); }
  }

  lemma ContinueSound(db: F.Database, record: ControlRecord, applied: bool, after: After, ret: Ret)
    requires Copied(db, record) && RetSound(db, ret)
    requires applied && after.AfterSendClaim? ==> 1 <= record.createAttempts
    requires applied && after.AfterRunClaim? ==> record.runIntent
    requires applied && after.AfterCancelClaim? ==> record.state == CANCEL_PENDING
    ensures Sound(db, Continue(record, applied, after, ret))
    ensures !Plain(Continue(record, applied, after, ret)) ==>
      applied && (after.AfterSendClaim? || after.AfterRunClaim?)
    ensures Continue(record, applied, after, ret).CreatingJob? ==>
      after.AfterSendClaim? && Continue(record, applied, after, ret).record == record
    ensures Continue(record, applied, after, ret).RunningJob? ==>
      after.AfterRunClaim? && Continue(record, applied, after, ret).record == record
  {
    ReturnSound(db, record, ret);
  }

  lemma UpdateSound(db: F.Database, base: ControlRecord, changed: ControlRecord, after: After, ret: Ret)
    requires Copied(db, base) && RetSound(db, ret)
    requires changed.version == base.version && Legal(base, changed, after)
    ensures Sound(db, Updating(base, changed, after, ret))
  {
  }

  lemma WatchingIsLegal(r: ControlRecord, execution: ProviderExecution)
    requires F.RecordSchema(r) && Coherent(r)
    ensures Legal(r, NoExecutionYet(r), AfterReturn)
    ensures Legal(r, TooManyExecutions(r), AfterReturn)
    ensures Legal(r, ExecutionDrifted(r), AfterReturn)
    ensures Legal(r, OutcomeUnknown(r), AfterReturn)
    ensures !Drifted(r, execution) ==> Legal(r, ExecutionSeen(r, execution), AfterReturn)
  {
  }

  lemma CreatingIsLegal(r: ControlRecord, kind: ErrorKind)
    requires F.RecordSchema(r) && Coherent(r)
    ensures r.createAttempts < 2 ==> Legal(r, CreateClaimed(r), AfterSendClaim)
    ensures Legal(r, OutcomeUnknown(r), AfterReturn)
    ensures Legal(r, CreateUnknown(r), AfterReturn)
    ensures Legal(r, CreateFailed(r, kind), AfterReturn)
  {
  }

  lemma AnswersAreLegal(r: ControlRecord, result: ProviderMutation)
    requires F.RecordSchema(r) && Coherent(r)
    ensures result != MutationConflict ==> Legal(r, CreateAnswered(r, result), AfterReturn)
    ensures Legal(r, RunAnswered(r, result), AfterReturn)
    ensures r.state == CANCEL_PENDING ==> Legal(r, CancelAnswered(r, result), AfterReturn)
  {
  }

  lemma SightingIsLegal(r: ControlRecord, job: ProviderJob, allowRun: bool)
    requires F.RecordSchema(r) && Coherent(r)
    ensures Legal(r, JobSeen(r, job), AfterJobSeen(job.ready, allowRun))
    ensures Legal(r, JobDrifted(r, job), AfterReturn)
    ensures !r.runIntent ==> Legal(r, RunClaimed(r), AfterRunClaim)
  {
  }

  lemma EndingIsLegal(r: ControlRecord)
    requires F.RecordSchema(r) && Coherent(r)
    ensures Legal(r, CancelClaimed(r), AfterReturn) && Legal(r, CancelClaimed(r), AfterCancelClaim)
    ensures Legal(r, CleanupMarked(r), AfterCleanupMark)
    ensures Legal(r, CleanupUnfinished(r), AfterReturn)
    ensures Legal(r, CleanedUp(r), AfterReturn)
  {
  }

  lemma HandleExecutionsSound(db: F.Database, r: ControlRecord, executions: seq<ProviderExecution>, ret: Ret)
    requires Copied(db, r) && RetSound(db, ret)
    ensures
      var pc' := HandleExecutions(r, executions, ret);
      Sound(db, pc') && Plain(pc')
  {
    if executions == [] {
      UpdateSound(db, r, NoExecutionYet(r), AfterReturn, ret);
    } else if |executions| == 1 && !Drifted(r, executions[0]) {
      WatchingIsLegal(r, executions[0]);
      UpdateSound(db, r, ExecutionSeen(r, executions[0]), AfterReturn, ret);
    }
  }

  lemma JobFoundSound(db: F.Database, r: ControlRecord, failed: Option<ErrorKind>, allowRun: bool, ret: Ret,
                      answer: Answer)
    requires Copied(db, r) && RetSound(db, ret) && answer.job.JobFound?
    ensures
      var pc' := AfterGetJob(r, failed, allowRun, ret, answer);
      Sound(db, pc') && Plain(pc')
  {
    SightingIsLegal(r, answer.job.job, allowRun);
    if answer.job.manifestMatches {
      UpdateSound(db, r, JobSeen(r, answer.job.job), AfterJobSeen(answer.job.job.ready, allowRun), ret);
    } else {
      UpdateSound(db, r, JobDrifted(r, answer.job.job), AfterReturn, ret);
    }
  }

  lemma JobNotFoundSound(db: F.Database, r: ControlRecord, failed: Option<ErrorKind>, allowRun: bool, ret: Ret,
                         answer: Answer)
    requires Copied(db, r) && RetSound(db, ret) && !answer.job.JobFound?
    ensures
      var pc' := AfterGetJob(r, failed, allowRun, ret, answer);
      Sound(db, pc') && Plain(pc')
  {
    CreatingIsLegal(r, if failed.Some? then failed.value else Permanent);
    if answer.job == JobUnavailable {
      UpdateSound(db, r, OutcomeUnknown(r), AfterReturn, ret);
    } else if failed.Some? {
      UpdateSound(db, r, CreateFailed(r, failed.value), AfterReturn, ret);
    } else if MayCreateAgain(r, answer.elapsedAt, answer.deadlineAt) {
      UpdateSound(db, r, CreateClaimed(r), AfterSendClaim, ret);
    } else {
      UpdateSound(db, r, CreateUnknown(r), AfterReturn, ret);
    }
  }

  lemma ListedForRunSound(db: F.Database, r: ControlRecord, ret: Ret, read: ExecutionRead)
    requires Copied(db, r) && RetSound(db, ret) && !r.runIntent
    ensures
      var pc' := AfterListingForRun(r, ret, read);
      Sound(db, pc') && Plain(pc')
  {
    if read == ExecutionsUnavailable {
      UpdateSound(db, r, OutcomeUnknown(r), AfterReturn, ret);
    } else if read.executions == [] {
      UpdateSound(db, r, RunClaimed(r), AfterRunClaim, ret);
    } else {
      HandleExecutionsSound(db, r, read.executions, ret);
    }
  }

  lemma ListedToObserveSound(db: F.Database, r: ControlRecord, ret: Ret, read: ExecutionRead)
    requires Copied(db, r) && RetSound(db, ret)
    ensures
      var pc' := AfterListingToObserve(r, ret, read);
      Sound(db, pc') && Plain(pc')
  {
    if read == ExecutionsUnavailable {
      UpdateSound(db, r, OutcomeUnknown(r), AfterReturn, ret);
    } else {
      HandleExecutionsSound(db, r, read.executions, ret);
    }
  }

  lemma CancelDecidedSound(db: F.Database, r: ControlRecord, request: Request)
    requires Copied(db, r)
    ensures Sound(db, CancelDecided(r, request)) && Plain(CancelDecided(r, request))
  {
    EndingIsLegal(r);
    hide Legal, Precedes, Coherent, F.RecordSchema;
    UpdateSound(db, r, CancelClaimed(r), AfterReturn, Respond(request));
    UpdateSound(db, r, CancelClaimed(r), AfterCancelClaim, Respond(request));
  }

  lemma CleanupSound(db: F.Database, r: ControlRecord, ret: Ret)
    requires Copied(db, r) && RetSound(db, ret)
    ensures Sound(db, BeginCleanup(r, ret)) && Plain(BeginCleanup(r, ret))
  {
    if !r.cleanupIntent {
      EndingIsLegal(r);
      UpdateSound(db, r, CleanupMarked(r), AfterCleanupMark, ret);
    }
  }

  lemma CleanupListsSoundly(db: F.Database, pc: Pc, answer: Answer)
    requires pc.CleanListing? && Sound(db, pc)
    ensures Sound(db, Proceed(pc, answer)) && Plain(Proceed(pc, answer))
  {
    hide Legal, RetSound, Precedes, Coherent, F.RecordSchema;
    EndingIsLegal(pc.record);
    UpdateSound(db, pc.record, CleanupUnfinished(pc.record), AfterReturn, pc.ret);
  }

  lemma CleanupReadsSoundly(db: F.Database, pc: Pc, answer: Answer)
    requires pc.CleanGettingJob? && Sound(db, pc)
    ensures Sound(db, Proceed(pc, answer)) && Plain(Proceed(pc, answer))
  {
    hide Legal, RetSound, Precedes, Coherent, F.RecordSchema;
    EndingIsLegal(pc.record);
    UpdateSound(db, pc.record, CleanupUnfinished(pc.record), AfterReturn, pc.ret);
  }

  lemma CleanupEndsSoundly(db: F.Database, pc: Pc, answer: Answer)
    requires pc.CleanRereadingJob? && Sound(db, pc)
    ensures Sound(db, Proceed(pc, answer)) && Plain(Proceed(pc, answer))
  {
    EndingIsLegal(pc.record);
    UpdateSound(db, pc.record, CleanupUnfinished(pc.record), AfterReturn, pc.ret);
    UpdateSound(db, pc.record, CleanedUp(pc.record), AfterReturn, pc.ret);
  }

  lemma CleanupProceedsSoundly(db: F.Database, pc: Pc, answer: Answer)
    requires Cleaning(pc) && Sound(db, pc)
    ensures Sound(db, Proceed(pc, answer)) && Plain(Proceed(pc, answer))
  {
    if pc.CleanListing? { CleanupListsSoundly(db, pc, answer); }
    else if pc.CleanGettingJob? { CleanupReadsSoundly(db, pc, answer); }
    else if pc.CleanRereadingJob? { CleanupEndsSoundly(db, pc, answer); }
  }

  lemma AnswerProceedsSoundly(db: F.Database, pc: Pc, answer: Answer)
    requires pc.CreatingJob? || pc.RunningJob? || pc.CancellingOne?
    requires Sound(db, pc)
    ensures Sound(db, Proceed(pc, answer)) && Plain(Proceed(pc, answer))
  {
    hide Legal, RetSound, Precedes, Coherent, F.RecordSchema;
    var r := pc.record;
    AnswersAreLegal(r, answer.mutation);
    if pc.RunningJob? {
      UpdateSound(db, r, RunAnswered(r, answer.mutation), AfterReturn, pc.ret);
    } else if pc.CancellingOne? {
      UpdateSound(db, r, CancelAnswered(r, answer.mutation), AfterReturn, pc.ret);
    } else if answer.mutation != MutationConflict {
      UpdateSound(db, r, CreateAnswered(r, answer.mutation), AfterReturn, pc.ret);
    }
  }

  lemma DriftProceedsSoundly(db: F.Database, pc: Pc, answer: Answer)
    requires pc.CancellingMany? || pc.CancellingDrifted? || pc.GettingOperation?
    requires Sound(db, pc)
    ensures Sound(db, Proceed(pc, answer)) && Plain(Proceed(pc, answer))
  {
    if pc.CancellingMany? {
      UpdateSound(db, pc.record, TooManyExecutions(pc.record), AfterReturn, pc.ret);
    } else if pc.CancellingDrifted? {
      UpdateSound(db, pc.record, ExecutionDrifted(pc.record), AfterReturn, pc.ret);
    }
  }

  lemma ProceedSound(db: F.Database, pc: Pc, answer: Answer)
    requires Pending(pc).Some? && Sound(db, pc)
    ensures Sound(db, Proceed(pc, answer)) && Plain(Proceed(pc, answer))
  {
    if Cleaning(pc) { CleanupProceedsSoundly(db, pc, answer); }
    else if pc.ListingForRun? { ListedForRunSound(db, pc.record, pc.ret, answer.executions); }
    else if pc.ListingToObserve? { ListedToObserveSound(db, pc.record, pc.ret, answer.executions); }
    else if pc.GettingJob? {
      if answer.job.JobFound? { JobFoundSound(db, pc.record, pc.operationFailed, pc.allowRun, pc.ret, answer); }
      else { JobNotFoundSound(db, pc.record, pc.operationFailed, pc.allowRun, pc.ret, answer); }
    }
    else if pc.CreatingJob? || pc.RunningJob? || pc.CancellingOne? { AnswerProceedsSoundly(db, pc, answer); }
    else { DriftProceedsSoundly(db, pc, answer); }
  }

  lemma ObservingSound(db: F.Database, request: Request, record: ControlRecord)
    requires Copied(db, record) && request.action in {Observe, Create}
    ensures Sound(db, Perform(request, record)) && Plain(Perform(request, record))
  {
  }

  lemma ReconcilingSound(db: F.Database, request: Request, record: ControlRecord)
    requires Copied(db, record) && request.action.Reconcile?
    ensures Sound(db, Perform(request, record)) && Plain(Perform(request, record))
  {
    CleanupSound(db, record, Respond(request));
  }

  lemma PerformSound(db: F.Database, request: Request, record: ControlRecord)
    requires Copied(db, record)
    ensures Sound(db, Perform(request, record)) && Plain(Perform(request, record))
  {
    match request.action
    case Cleanup => CleanupSound(db, record, Respond(request));
    case Cancel => CancelDecidedSound(db, record, request);
    case Reconcile => ReconcilingSound(db, request, record);
    case _ => ObservingSound(db, request, record);
  }

  // ---------------------------------------------------------------- the store under the handlers

  lemma AdmitEvolves(c: Config, db: F.Database, input: AdmitCreateInput)
    requires F.Inv(c.auth, db) && StoreCoherent(db)
    ensures
      var (db', outcome) := F.Admit(c.auth, db, input);
      && Evolves(db, db') && StoreCoherent(db')
      && (outcome.Accepted? || outcome.Duplicate? ==> Copied(db', outcome.record))
  {
    F.AdmitKeepsInv(c.auth, db, input);
    hide F.ActiveCached, F.EnvironmentSchema, F.OverBudget, F.OverRate;
    var (db', outcome) := F.Admit(c.auth, db, input);
    if outcome.Accepted? {
      assert db'.executions[input.request.executionHandle] == outcome.record;
      assert F.RecordParses(outcome.record, input.request.executionHandle);
    }
  }

  lemma AdmitAnswerSound(c: Config, db: F.Database, input: AdmitCreateInput)
    requires F.Inv(c.auth, db) && StoreCoherent(db)
    ensures
      var (db', outcome) := F.Admit(c.auth, db, input);
      Sound(db', AfterAdmit(input.request, outcome)) && Plain(AfterAdmit(input.request, outcome))
  {
    AdmitEvolves(c, db, input);
    var (db', outcome) := F.Admit(c.auth, db, input);
    if outcome.Accepted? { assert outcome.record.createAttempts == 0; }
  }

  lemma ClaimEvolves(c: Config, db: F.Database, claim: ClaimRequestInput)
    requires F.Inv(c.auth, db) && StoreCoherent(db)
    ensures
      var (db', outcome) := F.Claim(c.auth, db, claim);
      && db'.executions == db.executions
      && (outcome.Accepted? || outcome.Duplicate? ==> Copied(db', outcome.record))
  {
  }

  lemma ClaimAnswerSound(c: Config, db: F.Database, claim: ClaimRequestInput)
    requires F.Inv(c.auth, db) && StoreCoherent(db)
    ensures
      var (db', outcome) := F.Claim(c.auth, db, claim);
      Sound(db', AfterClaim(claim.request, outcome)) && Plain(AfterClaim(claim.request, outcome))
  {
    ClaimEvolves(c, db, claim);
    var (db', outcome) := F.Claim(c.auth, db, claim);
    if outcome.Accepted? { PerformSound(db', claim.request, outcome.record); }
  }

  /** An applied compare-and-set started from the stored record itself. */
  lemma CasEvolves(c: Config, db: F.Database, pc: Pc, now: Time)
    requires F.Inv(c.auth, db) && StoreCoherent(db) && pc.Updating? && Sound(db, pc)
    ensures
      var (db', outcome) := F.CompareAndSet(c.auth, db, pc.base.version, Touch(pc.changed, now));
      && F.Inv(c.auth, db') && StoreCoherent(db') && Evolves(db, db')
      && outcome != CasThrows
      && (outcome == Applied ==>
            db.executions[pc.base.executionHandle] == pc.base && Copied(db', Touch(pc.changed, now)))
      && (outcome == Applied ==> db'.executions == db.executions[pc.base.executionHandle := Touch(pc.changed, now)])
      && (outcome != Applied ==> db' == db)
  {
    F.CasKeepsInv(c.auth, db, pc.base.version, Touch(pc.changed, now));
  }

  lemma UpdatingSound(c: Config, db: F.Database, pc: Pc, now: Time)
    requires F.Inv(c.auth, db) && StoreCoherent(db) && pc.Updating? && Sound(db, pc)
    ensures
      var (db', outcome) := F.CompareAndSet(c.auth, db, pc.base.version, Touch(pc.changed, now));
      var pc' := AfterCas(pc, Touch(pc.changed, now), outcome);
      && Sound(db', pc')
      && (!Plain(pc') ==> outcome == Applied && Licensed(pc).Some? && Pending(pc') == Licensed(pc))
  {
    CasEvolves(c, db, pc, now);
    var (db', outcome) := F.CompareAndSet(c.auth, db, pc.base.version, Touch(pc.changed, now));
    SoundStable(db, db', pc);
    if outcome == Applied {
      ContinueSound(db', Touch(pc.changed, now), true, pc.after, pc.ret);
    }
  }

  lemma ReapReadingSound(c: Config, db: F.Database, handle: Handle, reapNow: Time)
    requires F.Inv(c.auth, db) && StoreCoherent(db)
    ensures
      var pc' := ReadActive(c, db, handle, reapNow);
      Sound(db, pc') && Plain(pc')
  {
    if !ReadActive(c, db, handle, reapNow).Thrown? {
      ReapNextSound(db, [db.executions[handle]], reapNow);
    }
  }

  lemma ReloadSound(c: Config, db: F.Database, pc: Pc)
    requires F.Inv(c.auth, db) && StoreCoherent(db) && pc.Reloading? && Sound(db, pc)
    ensures
      var pc' := Reload(c, db, pc.lost, pc.after, pc.ret);
      Sound(db, pc') && Plain(pc')
  {
    ContinueSound(db, db.executions[pc.lost.executionHandle], false, pc.after, pc.ret);
  }

  /** One await keeps the store's invariant, moves every record only forward, and leaves the handler sound;
      it reaches a create or run call only through the compare-and-set that licenses it. */
  ghost predicate AdvancesSoundly(c: Config, db: F.Database, pc: Pc, now: Time, answer: Answer) {
    var (db', pc') := Advance(c, db, pc, now, answer);
    && F.Inv(c.auth, db') && StoreCoherent(db') && Evolves(db, db') && Sound(db', pc')
    && (!Plain(pc') ==>
          && pc.Updating?
          && F.CompareAndSet(c.auth, db, pc.base.version, Touch(pc.changed, now)).1 == Applied
          && Licensed(pc).Some? && Pending(pc') == Licensed(pc))
  }

  lemma AdmittingSound(c: Config, db: F.Database, pc: Pc, now: Time, answer: Answer)
    requires F.Inv(c.auth, db) && StoreCoherent(db) && Sound(db, pc) && pc.Admitting?
    ensures AdvancesSoundly(c, db, pc, now, answer)
  {
    F.AdmitKeepsInv(c.auth, db, pc.input);
    AdmitEvolves(c, db, pc.input);
    AdmitAnswerSound(c, db, pc.input);
  }

  lemma ClaimingSound(c: Config, db: F.Database, pc: Pc, now: Time, answer: Answer)
    requires F.Inv(c.auth, db) && StoreCoherent(db) && Sound(db, pc) && pc.Claiming?
    ensures AdvancesSoundly(c, db, pc, now, answer)
  {
    F.ClaimKeepsInv(c.auth, db, pc.claim);
    ClaimEvolves(c, db, pc.claim);
    ClaimAnswerSound(c, db, pc.claim);
  }

  lemma SwappingSound(c: Config, db: F.Database, pc: Pc, now: Time, answer: Answer)
    requires F.Inv(c.auth, db) && StoreCoherent(db) && Sound(db, pc) && pc.Updating?
    ensures AdvancesSoundly(c, db, pc, now, answer)
  {
    CasEvolves(c, db, pc, now);
    UpdatingSound(c, db, pc, now);
  }

  lemma CallingSound(c: Config, db: F.Database, pc: Pc, now: Time, answer: Answer)
    requires F.Inv(c.auth, db) && StoreCoherent(db) && Sound(db, pc) && Pending(pc).Some?
    ensures AdvancesSoundly(c, db, pc, now, answer)
  {
    assert Advance(c, db, pc, now, answer) == (db, Proceed(pc, answer));
    ProceedSound(db, pc, answer);
  }

  lemma AdvanceSound(c: Config, db: F.Database, pc: Pc, now: Time, answer: Answer)
    requires F.Inv(c.auth, db) && StoreCoherent(db) && Sound(db, pc)
    ensures AdvancesSoundly(c, db, pc, now, answer)
  {
    if pc.Admitting? { AdmittingSound(c, db, pc, now, answer); }
    else if pc.Claiming? { ClaimingSound(c, db, pc, now, answer); }
    else if pc.Updating? { SwappingSound(c, db, pc, now, answer); }
    else if Pending(pc).Some? { CallingSound(c, db, pc, now, answer); }
    else if pc.Reloading? { ReloadingSound(c, db, pc, now, answer); }
    else { ReadingSound(c, db, pc, now, answer); }
  }

  lemma ReloadingSound(c: Config, db: F.Database, pc: Pc, now: Time, answer: Answer)
    requires F.Inv(c.auth, db) && StoreCoherent(db) && Sound(db, pc) && pc.Reloading?
    ensures AdvancesSoundly(c, db, pc, now, answer)
  {
    ReloadSound(c, db, pc);
  }

  lemma ReadingSound(c: Config, db: F.Database, pc: Pc, now: Time, answer: Answer)
    requires F.Inv(c.auth, db) && StoreCoherent(db) && Sound(db, pc)
    requires pc.ReapFindingActive? || pc.ReapReading? || pc.Done? || pc.Thrown?
    ensures AdvancesSoundly(c, db, pc, now, answer)
  {
    hide StoreCoherent, ReadActive;
    if pc.ReapReading? { ReapReadingSound(c, db, pc.handle, pc.reapNow); }
    if pc.ReapFindingActive? { FindingSound(c, db, pc.reapNow); }
  }

  /** The handle the environment document names has a record. */
  lemma FindingSound(c: Config, db: F.Database, reapNow: Time)
    requires F.Inv(c.auth, db)
    ensures
      var pc' := FindActive(c, db, reapNow);
      Sound(db, pc') && Plain(pc')
  {
    if db.environment.activeExecutionHandle.Some? {
      assert db.environment.activeExecutionHandle.value in F.Active(db.executions);
    }
  }
}

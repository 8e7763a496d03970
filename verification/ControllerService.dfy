/** `GpuControllerService` with handlers that run one after the other.  Every handler is a run of the machine's
    steps, so what the machine keeps the service keeps; beyond that, a CLEANED record means that the provider holds
    nothing for it, and a cleanup with a reliable provider always gets there. */
module ControllerService {
  import opened ControllerTypes
  import opened ControllerPolicy
  import opened CloudRunProvider
  import opened DurableStore
  import opened ControllerSolo
  import M = ControllerMachine
  import T = ControllerTable
  import StoreTable
  import F = FirestoreStore

  /** Stored records are not from the future and name the job derived from their handle. */
  ghost predicate RecordsSound(executions: map<Handle, ControlRecord>, jobIdOf: Handle -> JobId, time: Time) {
    forall h :: h in executions ==>
      && executions[h].updatedAt <= time
      && executions[h].jobId == jobIdOf(h)
      && (executions[h].job.Some? ==> executions[h].job.value.ref == jobIdOf(h))
  }

  /** `changed` differs from `record` at most in the fields a handler may change. */
  predicate ChangesOnly(record: ControlRecord, changed: ControlRecord) {
    && changed == record.(
         state := changed.state, createAttempts := changed.createAttempts, runIntent := changed.runIntent,
         cancelIntent := changed.cancelIntent, cleanupIntent := changed.cleanupIntent, job := changed.job,
         execution := changed.execution, operationRef := changed.operationRef, errorCode := changed.errorCode)
    && 0 <= changed.createAttempts <= 2
    && (changed.job.Some? ==> changed.job.value.ref == record.jobId)
  }

  lemma SwapApplies(auth: Authorization, db: F.Database, record: ControlRecord, changed: ControlRecord, now: Time)
    requires F.Inv(auth, db)
    requires record.executionHandle in db.executions && db.executions[record.executionHandle] == record
    requires ChangesOnly(record, changed) && record.updatedAt <= now
    ensures
      var next := Touch(changed, now);
      var (db', outcome) := F.CompareAndSet(auth, db, record.version, next);
      && F.Inv(auth, db')
      && (outcome == Applied <==> record.state != CLEANED)
      && (outcome == Applied ==> db'.executions == db.executions[record.executionHandle := next])
      && db'.requests == db.requests
      && (outcome != Applied ==> outcome == Lost && db' == db)
      && (outcome == Applied && next.state == CLEANED ==> db'.environment.activeExecutionHandle == None)
  {
    F.CasKeepsInv(auth, db, record.version, Touch(changed, now));
    assert record.state != CLEANED ==> record.executionHandle in F.Active(db.executions);
  }

  /** The provider holds neither a job nor an execution for a CLEANED record. */
  ghost predicate CleanedMeansEmpty(executions: map<Handle, ControlRecord>, world: World) {
    forall h :: h in executions && executions[h].state == CLEANED ==> world.Empty(executions[h].jobId)
  }

  /** Provider calls that can only bring up jobs of other records leave CLEANED records empty. */
  lemma CallKeepsCleaned(executions: map<Handle, ControlRecord>, before: World, after: World, ids: set<JobId>)
    requires CleanedMeansEmpty(executions, before) && OnlyNew(before, after, ids)
    requires forall h :: h in executions && executions[h].state == CLEANED ==> executions[h].jobId !in ids
    ensures CleanedMeansEmpty(executions, after)
  {
  }

  /** What every handler leaves behind: it moved at most its own record, and CLEANED records not at all. */
  predicate Advanced(before: F.Database, after: F.Database, record: ControlRecord, current: ControlRecord) {
    && record.executionHandle in before.executions
    && current.executionHandle == record.executionHandle
    && after.executions == before.executions[record.executionHandle := current]
    && after.requests == before.requests
    && (record.state == CLEANED ==> current == record)
  }

  lemma AdvancedThen(a: F.Database, b: F.Database, c: F.Database,
                     record: ControlRecord, mid: ControlRecord, current: ControlRecord)
    requires Advanced(a, b, record, mid) && Advanced(b, c, mid, current)
    ensures Advanced(a, c, record, current)
  {
  }

  /** The bounds that `ChangesOnly` asks for hold of every stored record. */
  predicate Fits(record: ControlRecord) {
    0 <= record.createAttempts <= 2 && (record.job.Some? ==> record.job.value.ref == record.jobId)
  }

  lemma StoredFits(auth: Authorization, db: F.Database, jobIdOf: Handle -> JobId, time: Time, h: Handle)
    requires F.Inv(auth, db) && RecordsSound(db.executions, jobIdOf, time) && h in db.executions
    ensures Fits(db.executions[h]) && db.executions[h].executionHandle == h
  {
  }

  lemma SwapKeepsSound(executions: map<Handle, ControlRecord>, record: ControlRecord, next: ControlRecord,
                       jobIdOf: Handle -> JobId, time: Time, world: World)
    requires RecordsSound(executions, jobIdOf, time) && CleanedMeansEmpty(executions, world)
    requires record.executionHandle in executions && executions[record.executionHandle] == record
    requires next.jobId == record.jobId && next.updatedAt <= time
    requires next.job.Some? ==> next.job.value.ref == record.jobId
    requires next.state == CLEANED && record.state != CLEANED ==> world.Empty(record.jobId)
    ensures RecordsSound(executions[record.executionHandle := next], jobIdOf, time)
    ensures CleanedMeansEmpty(executions[record.executionHandle := next], world)
  {
  }

  /** CLEANED records stay as they are. */
  predicate KeepsCleaned(before: F.Database, after: F.Database) {
    forall h :: h in before.executions ==>
      h in after.executions &&
      (before.executions[h].state == CLEANED ==> after.executions[h] == before.executions[h])
  }

  /** The record of a create that has just been admitted. */
  predicate IsNew(record: ControlRecord, input: AdmitCreateInput) {
    && record.executionHandle == input.request.executionHandle && record.jobId == input.jobId
    && record.state == CREATE_INTENT && record.createAttempts == 0
  }

  lemma AdmitKeepsSound(auth: Authorization, db: F.Database, input: AdmitCreateInput, jobIdOf: Handle -> JobId,
                        time: Time, world: World)
    requires RecordsSound(db.executions, jobIdOf, time) && CleanedMeansEmpty(db.executions, world)
    requires input.jobId == jobIdOf(input.request.executionHandle) && input.now <= time
    ensures
      var (db', admission) := F.Admit(auth, db, input);
      && RecordsSound(db'.executions, jobIdOf, time) && CleanedMeansEmpty(db'.executions, world)
      && KeepsCleaned(db, db')
      && (admission.Accepted? ==>
            var record := admission.record;
            && record.executionHandle in db'.executions && db'.executions[record.executionHandle] == record
            && Fits(record) && IsNew(record, input))
      && (admission.Duplicate? ==> input.request.requestId in db.requests)
  {
  }

  /** Every execution of the job is in the list from position `from` on. */
  predicate AllListed(held: map<Uid, ProviderExecution>, id: JobId, executions: seq<ProviderExecution>, from: nat) {
    forall uid :: uid in held && held[uid].jobRef == id ==> Listed(executions, from, uid)
  }

  /** A truthful list that is not empty lists something the provider holds. */
  lemma SomethingHeld(held: map<Uid, ProviderExecution>, id: JobId, executions: seq<ProviderExecution>)
    requires AllHeld(held, id, executions)
    ensures executions != [] ==> !AllListed(held, id, [], 0)
  {
    if executions != [] {
      assert !Listed([], 0, executions[0].uid);
    }
  }

  /** Through this provider the record's job can be run now: it is there and ready, and nothing of it was ever run. */
  predicate Runnable(world: World, record: ControlRecord) {
    world.Ready(record.jobId) && world.Idle(record.jobId) && !record.runIntent && record.state != CLEANED
  }

  /** The provider holds an execution of the job, and the record awaits it. */
  predicate Started(world: World, id: JobId, r: ControlRecord) {
    && !world.Idle(id)
    && r.runIntent && r.state == EXECUTION_PENDING && r.operationRef.Some? && r.errorCode == None
  }

  /** The provider holds the job, and the record awaits that it becomes ready. */
  predicate Made(world: World, id: JobId, r: ControlRecord) {
    && id in world.jobs
    && r.state == JOB_PENDING && r.operationRef.Some? && r.errorCode == None
  }

  /** What a record says once it has taken over the one execution of its job. */
  predicate Follows(r: ControlRecord, execution: ProviderExecution) {
    && r.execution == Some(execution)
    && (execution.status == ExecPending ==> r.state == EXECUTION_PENDING && r.errorCode == None)
    && (execution.status == ExecRunning ==> r.state == RUNNING && r.errorCode == None)
    && (execution.status == ExecSucceeded ==> r.state == SUCCEEDED && r.errorCode == None)
    && (execution.status == ExecCancelled ==> r.state == CANCELLED && r.errorCode == None)
    && (execution.status == ExecFailed ==> r.state == FAILED && r.errorCode == Some(PROVIDER_PERMANENT))
  }

  /** A reaper takes this record: it is marked or past its deadline, and not CLEANED. */
  predicate Due(r: ControlRecord, now: Time) {
    r.state != CLEANED && (r.cleanupIntent || r.provisioningDeadline <= now)
  }

  lemma DueNeedsReaping(r: ControlRecord, now: Time)
    ensures Due(r, now) ==> NeedsReaping(r, now)
  {
  }

  lemma SeenFollows(record: ControlRecord, execution: ProviderExecution, now: Time)
    ensures Follows(Touch(ExecutionSeen(record, execution), now), execution)
  {
  }

  /** A reconcile of a record whose job can be run now has it run, and answers so. */
  predicate ReconcileRuns(before: map<Handle, ControlRecord>, world: World, after: map<Handle, ControlRecord>, world': World,
                          request: Request, reply: Option<Reply>) {
    var h := request.executionHandle;
    h in before && T.ToBeRun(before[h]) && Runnable(world, before[h]) && reply.Some? && reply.value.Responded? ==>
      && h in after && after[h] == reply.value.record
      && Started(world', before[h].jobId, after[h])
  }

  /** An admitted create of a job that the provider does not hold has it made at the first attempt, and answers so. */
  predicate CreateMakes(id: JobId, world: World, after: map<Handle, ControlRecord>, world': World, request: Request,
                        reply: Option<Reply>) {
    var h := request.executionHandle;
    id !in world.jobs && reply.Some? && reply.value.Responded? ==>
      && h in after && after[h] == reply.value.record && after[h].createAttempts == 1
      && Made(world', id, after[h])
  }

  class GpuControllerService {
    const environment: Environment
    const clock: Clock
    const provider: Provider
    const store: FirestoreControlStore
    const jobIdOf: Handle -> JobId

    /** Where the machine's handler that runs here started, the awaits since then, and where it is now. */
    ghost var begun: (F.Database, M.Pc)
    ghost var ticks: seq<Tick>
    ghost var pc: M.Pc

    constructor (environment: Environment, clock: Clock, provider: Provider, store: FirestoreControlStore,
                 jobIdOf: Handle -> JobId)
      requires F.Inv(store.authorization, store.Value()) && store.executions == map[]
      requires provider.Valid() && Injective(jobIdOf)
      ensures this.environment == environment && this.clock == clock && this.provider == provider
      ensures this.store == store && this.jobIdOf == jobIdOf
      ensures Valid()
    {
      this.environment := environment;
      this.clock := clock;
      this.provider := provider;
      this.store := store;
      this.jobIdOf := jobIdOf;
      this.begun := (store.Value(), M.Thrown);
      this.ticks := [];
      this.pc := M.Thrown;
    }

    ghost predicate Valid()
      reads this, clock, provider, store
    {
      && Injective(jobIdOf)
      && F.Inv(store.authorization, store.Value())
      && RecordsSound(store.executions, jobIdOf, clock.time)
      && provider.Valid()
      && CleanedMeansEmpty(store.executions, provider.Value())
      && InStep()
    }

    ghost function Conf(): M.Config
      reads this, store
    {
      M.Config(environment, store.authorization)
    }

    /** The handler is where its awaits so far took the machine, and so is the store. */
    ghost predicate InStep()
      reads this, store
    {
      Solo(Conf(), begun.0, begun.1, ticks) == (store.Value(), pc)
    }

    predicate Stored(record: ControlRecord)
      reads this, store
    {
      && record.executionHandle in store.executions && store.executions[record.executionHandle] == record
      && Fits(record)
    }

    // -------------------------------------------------------------- keeping step with the machine

    ghost method Begin(start: M.Pc)
      requires Valid()
      modifies this
      ensures Valid() && begun == (store.Value(), start) && pc == start
    {
      begun := (store.Value(), start);
      ticks := [];
      pc := start;
    }

    /** The machine makes the step that took the store from `before` to what it is now. */
    ghost method Follow(before: F.Database, now: Time, answer: M.Answer)
      requires Solo(Conf(), begun.0, begun.1, ticks) == (before, pc)
      requires M.Advance(Conf(), before, pc, now, answer).0 == store.Value()
      modifies this`ticks, this`pc
      ensures InStep() && pc == M.Advance(Conf(), before, old(pc), now, answer).1
    {
      hide Solo, M.Advance;
      SoloMore(Conf(), begun.0, begun.1, ticks, Tick(now, answer));
      pc := M.Advance(Conf(), before, pc, now, answer).1;
      ticks := ticks + [Tick(now, answer)];
    }

    /** A provider call was answered. */
    ghost method Answered(answer: M.Answer)
      requires Valid() && M.Pending(pc).Some?
      modifies this`ticks, this`pc
      ensures Valid() && pc == M.Proceed(old(pc), answer)
    {
      Follow(store.Value(), 0, answer);
    }

    method TryUpdate(record: ControlRecord, changed: ControlRecord, ghost after: M.After, ghost ret: M.Ret)
      returns (applied: bool, current: ControlRecord)
      requires Valid() && Stored(record) && ChangesOnly(record, changed)
      requires changed.state == CLEANED && record.state != CLEANED ==> provider.Value().Empty(record.jobId)
      requires pc == M.Updating(record, changed, after, ret)
      modifies `ticks, `pc, clock, store
      ensures Valid() && Stored(current) && Advanced(old(store.Value()), store.Value(), record, current)
      ensures pc == M.Continue(current, applied, after, ret)
      ensures applied <==> record.state != CLEANED
      ensures applied ==> current == Touch(changed, clock.time)
      ensures applied && current.state == CLEANED ==> store.environment.activeExecutionHandle == None
    {
      hide Solo, RecordsSound, CleanedMeansEmpty, F.Inv, F.CompareAndSet, M.Continue;
      var now := ReadClock();
      var next := Touch(changed, now);
      ghost var before := store.Value();
      StoredSound(record, now);
      SwapApplies(store.authorization, before, record, changed, now);
      SwapKeepsSound(store.executions, record, next, jobIdOf, now, provider.Value());
      var outcome := store.CompareAndSet(record.version, next);
      Swapped(before, record, changed, after, ret, now, outcome);
      if outcome == Applied { return true, next; }
      Reloaded(record, after, ret);
      return false, store.executions[record.executionHandle];
    }

    lemma StoredSound(record: ControlRecord, now: Time)
      requires Valid() && Stored(record) && now == clock.time
      ensures record.updatedAt <= now && record.jobId == jobIdOf(record.executionHandle)
    {
    }

    ghost method Swapped(before: F.Database, record: ControlRecord, changed: ControlRecord,
                         after: M.After, ret: M.Ret, now: Time, outcome: CasOutcome)
      requires Solo(Conf(), begun.0, begun.1, ticks) == (before, pc)
      requires pc == M.Updating(record, changed, after, ret)
      requires (store.Value(), outcome)
            == F.CompareAndSet(store.authorization, before, record.version, Touch(changed, now))
      modifies this`ticks, this`pc
      ensures InStep() && pc == M.AfterCas(old(pc), Touch(changed, now), outcome)
    {
      hide F.CompareAndSet, Solo;
      Follow(before, now, SILENCE);
    }

    ghost method Reloaded(record: ControlRecord, after: M.After, ret: M.Ret)
      requires InStep() && F.Inv(store.authorization, store.Value())
      requires pc == M.Reloading(record, after, ret) && record.executionHandle in store.executions
      modifies this`ticks, this`pc
      ensures InStep() && pc == M.Continue(store.executions[record.executionHandle], false, after, ret)
    {
      hide Solo;
      ReloadsStored(Conf(), store.Value(), record, after, ret);
      Follow(store.Value(), 0, SILENCE);
    }

    method Update(record: ControlRecord, changed: ControlRecord, ghost ret: M.Ret) returns (current: ControlRecord)
      requires Valid() && Stored(record) && ChangesOnly(record, changed)
      requires changed.state == CLEANED && record.state != CLEANED ==> provider.Value().Empty(record.jobId)
      requires pc == M.Updating(record, changed, M.AfterReturn, ret)
      modifies `ticks, `pc, clock, store
      ensures Valid() && Stored(current) && Advanced(old(store.Value()), store.Value(), record, current)
      ensures pc == M.Return(current, ret)
      ensures record.state != CLEANED ==> current == Touch(changed, clock.time)
      ensures record.state != CLEANED && current.state == CLEANED ==> store.environment.activeExecutionHandle == None
    {
      hide F.Inv, RecordsSound, CleanedMeansEmpty, Advanced, Solo, ChangesOnly, M.Return;
      var applied;
      applied, current := TryUpdate(record, changed, M.AfterReturn, ret);
    }

    // -------------------------------------------------------------- provider calls

    method CreateJob(record: ControlRecord, ghost ret: M.Ret) returns (result: ProviderMutation)
      requires Valid() && Stored(record) && record.state != CLEANED
      requires pc == M.CreatingJob(record, ret)
      modifies `ticks, `pc, provider
      ensures Valid() && Stored(record)
      ensures pc == M.AfterCreateJob(record, ret, result)
      ensures provider.reliable ==> record.jobId in provider.jobs
      ensures provider.reliable && record.jobId !in old(provider.jobs) ==> result.MutationAccepted?
    {
      hide F.Inv, Solo;
      ghost var before := provider.Value();
      result := provider.CreateJob(record.jobId);
      CallKeepsCleaned(store.executions, before, provider.Value(), {record.jobId});
      Answered(SILENCE.(mutation := result));
    }

    method RunJob(record: ControlRecord, ghost ret: M.Ret) returns (result: ProviderMutation)
      requires Valid() && Stored(record) && record.state != CLEANED && record.job.Some?
      requires pc == M.RunningJob(record, ret)
      modifies `ticks, `pc, provider
      ensures Valid() && Stored(record)
      ensures pc == M.Updating(record, RunAnswered(record, result), M.AfterReturn, ret)
      ensures provider.reliable && old(provider.Value()).Ready(record.jobId) ==>
        result.MutationAccepted? && !provider.Value().Idle(record.jobId)
    {
      hide F.Inv, Solo;
      ghost var before := provider.Value();
      result := provider.RunJob(record.job.value);
      CallKeepsCleaned(store.executions, before, provider.Value(), {record.jobId});
      Answered(SILENCE.(mutation := result));
    }

    /** The machine has not been told the answer yet. */
    method ReadJob(id: JobId) returns (read: JobRead)
      requires Valid()
      modifies provider
      ensures Valid()
      ensures read.JobFound? ==> read.job.ref == id
      ensures JobsStay(old(provider.Value()), provider.Value())
      ensures old(provider.Value()).Idle(id) ==> provider.Value().Idle(id)
      ensures provider.reliable && provider.conforming && old(provider.Value()).Ready(id) ==>
        read.JobFound? && read.manifestMatches && read.job.ready
    {
      hide F.Inv, Solo;
      ghost var before := provider.Value();
      read := provider.GetJob(id);
      CallKeepsCleaned(store.executions, before, provider.Value(), {});
    }

    method ReadOperation(record: ControlRecord, allowRun: bool, ghost ret: M.Ret)
      returns (operationFailed: Option<ErrorKind>)
      requires Valid() && Stored(record) && record.operationRef.Some?
      requires pc == M.GettingOperation(record, record.operationRef.value, allowRun, ret)
      modifies `ticks, `pc, provider
      ensures Valid() && Stored(record)
      ensures pc == M.GettingJob(record, operationFailed, allowRun, ret)
      ensures JobsStay(old(provider.Value()), provider.Value())
      ensures old(provider.Value()).Idle(record.jobId) ==> provider.Value().Idle(record.jobId)
    {
      hide F.Inv, Solo;
      ghost var before := provider.Value();
      var operation := provider.GetOperation(record.operationRef.value);
      CallKeepsCleaned(store.executions, before, provider.Value(), {});
      Answered(SILENCE.(operation := operation));
      operationFailed := if operation.OperationFailed? then Some(operation.errorKind) else None;
    }

    method ReadExecutions(record: ControlRecord) returns (read: ExecutionRead, ghost answer: M.Answer)
      requires Valid() && Stored(record)
      requires M.Pending(pc) == Some(M.Call(record.executionHandle, M.CallListExecutions))
      modifies `ticks, `pc, provider
      ensures Valid() && Stored(record)
      ensures answer == SILENCE.(executions := read) && pc == M.Proceed(old(pc), answer)
      ensures JobsStay(old(provider.Value()), provider.Value())
      ensures provider.reliable && old(provider.Value()).Idle(record.jobId) ==> read == ExecutionsFound([])
    {
      hide F.Inv, Solo;
      ghost var before := provider.Value();
      read := provider.ListExecutions(record.jobId);
      CallKeepsCleaned(store.executions, before, provider.Value(), {});
      answer := SILENCE.(executions := read);
      Answered(answer);
    }

    method CancelExecution(record: ControlRecord, execution: ProviderExecution)
      returns (result: ProviderMutation, ghost answer: M.Answer)
      requires Valid() && Stored(record)
      requires M.Pending(pc) == Some(M.Call(record.executionHandle, M.CallCancelExecution))
      modifies `ticks, `pc, provider
      ensures Valid() && Stored(record)
      ensures answer == SILENCE.(mutation := result) && pc == M.Proceed(old(pc), answer)
      ensures forall uid :: old(provider.Value()).Stopped(uid) ==> provider.Value().Stopped(uid)
      ensures provider.reliable ==> provider.Value().Stopped(execution.uid)
    {
      hide F.Inv, Solo;
      ghost var before := provider.Value();
      result := provider.CancelExecution(execution);
      CallKeepsCleaned(store.executions, before, provider.Value(), {});
      answer := SILENCE.(mutation := result);
      Answered(answer);
    }

    // -------------------------------------------------------------- creating and running

    method SendCreate(record: ControlRecord, ghost ret: M.Ret) returns (current: ControlRecord)
      requires Valid() && Stored(record) && record.createAttempts < 2
      requires pc == M.SendCreate(record, ret)
      modifies `ticks, `pc, clock, store, provider
      ensures Valid() && Stored(current) && Advanced(old(store.Value()), store.Value(), record, current)
      ensures pc == M.Return(current, ret)
      ensures provider.reliable && record.state != CLEANED && record.jobId !in old(provider.jobs) ==>
        Made(provider.Value(), record.jobId, current) && current.createAttempts == record.createAttempts + 1
      decreases 2 - record.createAttempts, 0
    {
      hide F.Inv, RecordsSound, CleanedMeansEmpty, Advanced, Solo, M.Return;
      ghost var before := store.Value();
      var applied, intent := TryUpdate(record, CreateClaimed(record), M.AfterSendClaim, ret);
      if !applied { return intent; }
      ghost var mid := store.Value();
      current := SendClaimedCreate(intent, ret);
      AdvancedThen(before, mid, store.Value(), record, intent, current);
    }

    method SendClaimedCreate(intent: ControlRecord, ghost ret: M.Ret) returns (current: ControlRecord)
      requires Valid() && Stored(intent) && intent.state != CLEANED
      requires pc == M.CreatingJob(intent, ret)
      modifies `ticks, `pc, clock, store, provider
      ensures Valid() && Stored(current) && Advanced(old(store.Value()), store.Value(), intent, current)
      ensures pc == M.Return(current, ret)
      ensures provider.reliable && intent.jobId !in old(provider.jobs) ==>
        Made(provider.Value(), intent.jobId, current) && current.createAttempts == intent.createAttempts
      decreases 2 - intent.createAttempts, 3
    {
      hide F.Inv, RecordsSound, CleanedMeansEmpty, Advanced, Solo, M.Return;
      var result := CreateJob(intent, ret);
      if result == MutationConflict {
        current := ReconcileJob(intent, true, ret);
      } else {
        current := Update(intent, CreateAnswered(intent, result), ret);
      }
    }

    method ReconcileRecord(record: ControlRecord, ghost ret: M.Ret) returns (current: ControlRecord)
      requires Valid() && Stored(record)
      requires pc == M.BeginReconcile(record, ret)
      modifies `ticks, `pc, clock, store, provider
      ensures Valid() && Stored(current) && Advanced(old(store.Value()), store.Value(), record, current)
      ensures pc == M.Return(current, ret)
      ensures provider.reliable && provider.conforming && T.ToBeRun(record) && Runnable(old(provider.Value()), record) ==>
        Started(provider.Value(), record.jobId, current)
    {
      hide F.Inv, RecordsSound, CleanedMeansEmpty, Advanced, Solo, M.Return;
      if record.state in {CLEANED, CANCELLED, SUCCEEDED} {
        current := Unmoved(record);
      } else if record.cleanupIntent || record.state == CLEANUP_PENDING {
        current := CleanupRecord(record, ret);
      } else if record.state == FAILED {
        current := Unmoved(record);
      } else if !record.runIntent {
        current := ReconcileJob(record, true, ret);
      } else {
        current := ObserveExecution(record, ret);
      }
    }

    /** The record is answered as it is. */
    method Unmoved(record: ControlRecord) returns (current: ControlRecord)
      requires Stored(record)
      ensures current == record && Advanced(store.Value(), store.Value(), record, current)
    {
      assert store.executions == store.executions[record.executionHandle := record];
      current := record;
    }

    method ReconcileJob(record: ControlRecord, allowRun: bool, ghost ret: M.Ret) returns (current: ControlRecord)
      requires Valid() && Stored(record)
      requires pc == M.ReconcileJob(record, allowRun, ret)
      modifies `ticks, `pc, clock, store, provider
      ensures Valid() && Stored(current) && Advanced(old(store.Value()), store.Value(), record, current)
      ensures pc == M.Return(current, ret)
      ensures provider.reliable && provider.conforming && allowRun && Runnable(old(provider.Value()), record) ==>
        Started(provider.Value(), record.jobId, current)
      decreases 2 - record.createAttempts, 2
    {
      hide F.Inv, RecordsSound, CleanedMeansEmpty, Advanced, Solo, M.Return, M.Advance, MayCreateAgain, Started, StillActive;
      var operationFailed: Option<ErrorKind> := None;
      if record.operationRef.Some? { operationFailed := ReadOperation(record, allowRun, ret); }
      var read := ReadJob(record.jobId);
      if read == JobMissing {
        current := ReconcileMissingJob(record, operationFailed, allowRun, ret);
      } else {
        current := ReconcileReadJob(record, read, operationFailed, allowRun, ret);
      }
    }

    /** The read answered something other than that the job is missing. */
    method ReconcileReadJob(record: ControlRecord, read: JobRead, ghost operationFailed: Option<ErrorKind>, allowRun: bool,
                            ghost ret: M.Ret)
      returns (current: ControlRecord)
      requires Valid() && Stored(record)
      requires pc == M.GettingJob(record, operationFailed, allowRun, ret)
      requires read != JobMissing && (read.JobFound? ==> read.job.ref == record.jobId)
      modifies `ticks, `pc, clock, store, provider
      ensures Valid() && Stored(current) && Advanced(old(store.Value()), store.Value(), record, current)
      ensures pc == M.Return(current, ret)
      ensures provider.reliable && read.JobFound? && read.manifestMatches && read.job.ready && allowRun ==>
        (Runnable(old(provider.Value()), record) ==> Started(provider.Value(), record.jobId, current))
    {
      hide F.Inv, RecordsSound, CleanedMeansEmpty, Advanced, Solo, M.Return, M.Advance, Started, Runnable;
      Answered(SILENCE.(job := read));
      if read == JobUnavailable {
        current := Update(record, OutcomeUnknown(record), ret);
      } else if !read.manifestMatches {
        current := Update(record, JobDrifted(record, read.job), ret);
      } else {
        current := SeeJob(record, read.job, allowRun, ret);
      }
    }

    method ReconcileMissingJob(record: ControlRecord, operationFailed: Option<ErrorKind>, ghost allowRun: bool,
                               ghost ret: M.Ret)
      returns (current: ControlRecord)
      requires Valid() && Stored(record)
      requires pc == M.GettingJob(record, operationFailed, allowRun, ret)
      modifies `ticks, `pc, clock, store, provider
      ensures Valid() && Stored(current) && Advanced(old(store.Value()), store.Value(), record, current)
      ensures pc == M.Return(current, ret)
      decreases 2 - record.createAttempts, 1
    {
      hide F.Inv, RecordsSound, CleanedMeansEmpty, Advanced, Solo, M.Return;
      if operationFailed.Some? {
        Answered(SILENCE.(job := JobMissing));
        current := Update(record, CreateFailed(record, operationFailed.value), ret);
        return;
      }
      var elapsedAt := ReadClock();
      var deadlineAt := ReadClock();
      Answered(SILENCE.(job := JobMissing, elapsedAt := elapsedAt, deadlineAt := deadlineAt));
      if MayCreateAgain(record, elapsedAt, deadlineAt) {
        current := SendCreate(record, ret);
      } else {
        current := Update(record, CreateUnknown(record), ret);
      }
    }

    method ReadClock() returns (now: Time)
      requires Valid()
      modifies clock
      ensures Valid() && now == clock.time
    {
      hide F.Inv, CleanedMeansEmpty, Solo;
      now := clock.Now();
    }

    /** The job carries the fixed manifest: it is recorded, and run when it is ready and may be. */
    method SeeJob(record: ControlRecord, job: ProviderJob, allowRun: bool, ghost ret: M.Ret)
      returns (current: ControlRecord)
      requires Valid() && Stored(record) && job.ref == record.jobId
      requires pc == M.Updating(record, JobSeen(record, job), M.AfterJobSeen(job.ready, allowRun), ret)
      modifies `ticks, `pc, clock, store, provider
      ensures Valid() && Stored(current) && Advanced(old(store.Value()), store.Value(), record, current)
      ensures pc == M.Return(current, ret)
      ensures provider.reliable && job.ready && allowRun && Runnable(old(provider.Value()), record) ==>
        Started(provider.Value(), record.jobId, current)
    {
      hide F.Inv, RecordsSound, CleanedMeansEmpty, Advanced, Solo, M.Return;
      ghost var before := store.Value();
      var applied;
      applied, current := TryUpdate(record, JobSeen(record, job), M.AfterJobSeen(job.ready, allowRun), ret);
      if job.ready && allowRun && !current.runIntent {
        ghost var mid, seen := store.Value(), current;
        current := StartRun(current, ret);
        AdvancedThen(before, mid, store.Value(), record, seen, current);
      }
    }

    method StartRun(record: ControlRecord, ghost ret: M.Ret) returns (current: ControlRecord)
      requires Valid() && Stored(record)
      requires pc == M.ListingForRun(record, ret)
      modifies `ticks, `pc, clock, store, provider
      ensures Valid() && Stored(current) && Advanced(old(store.Value()), store.Value(), record, current)
      ensures pc == M.Return(current, ret)
      ensures provider.reliable && record.job.Some? && Runnable(old(provider.Value()), record) ==>
        Started(provider.Value(), record.jobId, current)
    {
      hide F.Inv, RecordsSound, CleanedMeansEmpty, Advanced, Solo, M.Return;
      var executions, _ := ReadExecutions(record);
      if executions == ExecutionsUnavailable {
        current := Update(record, OutcomeUnknown(record), ret);
      } else if executions.executions != [] {
        current := HandleExecutionList(record, executions.executions, ret);
      } else {
        current := ClaimRun(record, ret);
      }
    }

    method ClaimRun(record: ControlRecord, ghost ret: M.Ret) returns (current: ControlRecord)
      requires Valid() && Stored(record)
      requires pc == M.Updating(record, RunClaimed(record), M.AfterRunClaim, ret)
      modifies `ticks, `pc, clock, store, provider
      ensures Valid() && Stored(current) && Advanced(old(store.Value()), store.Value(), record, current)
      ensures pc == M.Return(current, ret)
      ensures provider.reliable && record.state != CLEANED && record.job.Some? && old(provider.Value()).Ready(record.jobId) ==>
        Started(provider.Value(), record.jobId, current)
    {
      hide F.Inv, RecordsSound, CleanedMeansEmpty, Advanced, Solo, M.Return;
      ghost var before := store.Value();
      var applied;
      applied, current := TryUpdate(record, RunClaimed(record), M.AfterRunClaim, ret);
      if applied && current.job.Some? {
        ghost var mid, claimed := store.Value(), current;
        current := RunClaimedJob(current, ret);
        AdvancedThen(before, mid, store.Value(), record, claimed, current);
      }
    }

    method RunClaimedJob(record: ControlRecord, ghost ret: M.Ret) returns (current: ControlRecord)
      requires Valid() && Stored(record) && record.state != CLEANED && record.job.Some?
      requires pc == M.RunningJob(record, ret)
      modifies `ticks, `pc, clock, store, provider
      ensures Valid() && Stored(current) && Advanced(old(store.Value()), store.Value(), record, current)
      ensures pc == M.Return(current, ret)
      ensures provider.reliable && record.runIntent && old(provider.Value()).Ready(record.jobId) ==>
        Started(provider.Value(), record.jobId, current)
    {
      hide F.Inv, RecordsSound, CleanedMeansEmpty, Advanced, Solo, M.Return;
      var result := RunJob(record, ret);
      current := Update(record, RunAnswered(record, result), ret);
    }

    // -------------------------------------------------------------- watching the execution

    method ObserveRecord(record: ControlRecord, ghost ret: M.Ret) returns (current: ControlRecord)
      requires Valid() && Stored(record)
      requires pc == M.BeginObserve(record, ret)
      modifies `ticks, `pc, clock, store, provider
      ensures Valid() && Stored(current) && Advanced(old(store.Value()), store.Value(), record, current)
      ensures pc == M.Return(current, ret)
    {
      hide F.Inv, RecordsSound, CleanedMeansEmpty, Advanced, Solo, M.Return;
      if !record.runIntent {
        current := ReconcileJob(record, false, ret);
      } else {
        current := ObserveExecution(record, ret);
      }
    }

    method ObserveExecution(record: ControlRecord, ghost ret: M.Ret) returns (current: ControlRecord)
      requires Valid() && Stored(record)
      requires pc == M.ListingToObserve(record, ret)
      modifies `ticks, `pc, clock, store, provider
      ensures Valid() && Stored(current) && Advanced(old(store.Value()), store.Value(), record, current)
      ensures pc == M.Return(current, ret)
    {
      hide F.Inv, RecordsSound, CleanedMeansEmpty, Advanced, Solo, M.Return, M.HandleExecutions;
      var executions, _ := ReadExecutions(record);
      if executions == ExecutionsUnavailable {
        current := Update(record, OutcomeUnknown(record), ret);
      } else {
        current := HandleExecutionList(record, executions.executions, ret);
      }
    }

    /** More than one execution, or one of another job: all of them are stopped and the record is marked for
        cleanup. Otherwise the record takes over the state of its one execution. */
    method HandleExecutionList(record: ControlRecord, executions: seq<ProviderExecution>, ghost ret: M.Ret)
      returns (current: ControlRecord)
      requires Valid() && Stored(record)
      requires pc == M.HandleExecutions(record, executions, ret)
      modifies `ticks, `pc, clock, store, provider
      ensures Valid() && Stored(current) && Advanced(old(store.Value()), store.Value(), record, current)
      ensures pc == M.Return(current, ret)
      ensures record.state != CLEANED && executions == [] ==> current.state == EXECUTION_PENDING && current.errorCode == None
      ensures record.state != CLEANED && (|executions| > 1 || (|executions| == 1 && T.Foreign(record, executions[0]))) ==>
        && current.state == FAILED && current.cleanupIntent
        && current.errorCode == Some(if |executions| > 1 then MULTIPLE_EXECUTIONS else RESOURCE_DRIFT)
        && (provider.reliable ==> forall i :: 0 <= i < |executions| ==> provider.Value().Stopped(executions[i].uid))
      ensures record.state != CLEANED && |executions| == 1 && !T.Foreign(record, executions[0]) ==> Follows(current, executions[0])
    {
      hide F.Inv, RecordsSound, CleanedMeansEmpty, Advanced, Solo, M.Return, Follows;
      if executions == [] {
        current := Update(record, NoExecutionYet(record), ret);
      } else if |executions| > 1 {
        CancelAll(record, executions, ret);
        current := Update(record, TooManyExecutions(record), ret);
      } else if Drifted(record, executions[0]) {
        var _, _ := CancelExecution(record, executions[0]);
        current := Update(record, ExecutionDrifted(record), ret);
      } else {
        current := Update(record, ExecutionSeen(record, executions[0]), ret);
        SeenFollows(record, executions[0], clock.time);
      }
    }

    method CancelAll(record: ControlRecord, executions: seq<ProviderExecution>, ghost ret: M.Ret)
      requires Valid() && Stored(record) && executions != []
      requires pc == M.CancellingMany(record, executions, ret)
      modifies `ticks, `pc, provider
      ensures Valid() && Stored(record)
      ensures pc == M.Updating(record, TooManyExecutions(record), M.AfterReturn, ret)
      ensures provider.reliable ==> forall i :: 0 <= i < |executions| ==> provider.Value().Stopped(executions[i].uid)
    {
      hide F.Inv, RecordsSound, CleanedMeansEmpty, Solo, Fits;
      for i := 0 to |executions|
        invariant Valid() && Stored(record)
        invariant pc == if i < |executions| then M.CancellingMany(record, executions[i..], ret)
                        else M.Updating(record, TooManyExecutions(record), M.AfterReturn, ret)
        invariant provider.reliable ==> forall j :: 0 <= j < i ==> provider.Value().Stopped(executions[j].uid)
      {
        var _, _ := CancelExecution(record, executions[i]);
        assert i + 1 < |executions| ==> executions[i..][1..] == executions[i + 1..];
      }
    }

    // -------------------------------------------------------------- cancelling

    /** Unless it has already ended, the record carries the cancel intent, and a reliable provider has stopped
        the execution it names. */
    method CancelRecord(record: ControlRecord, ghost request: Request) returns (current: ControlRecord)
      requires Valid() && Stored(record)
      requires pc == M.BeginCancel(record, request)
      modifies `ticks, `pc, clock, store, provider
      ensures Valid() && Stored(current) && Advanced(old(store.Value()), store.Value(), record, current)
      ensures pc == M.Return(current, M.Respond(request))
      ensures current.state in {CLEANED, SUCCEEDED, FAILED, CANCELLED} ||
        (&& current.state == CANCEL_PENDING && current.cancelIntent
         && (provider.reliable && current.execution.Some? ==>
               provider.Value().Stopped(current.execution.value.uid)))
    {
      hide F.Inv, RecordsSound, CleanedMeansEmpty, Advanced, Solo;
      ghost var before := store.Value();
      current := record;
      if current.execution == None || current.cancelIntent {
        current := ObserveExecution(current, M.CancelResume(request));
      } else {
        current := Unmoved(record);
      }
      ghost var mid, seen := store.Value(), current;
      current := DecideCancel(current, request);
      AdvancedThen(before, mid, store.Value(), record, seen, current);
    }

    method DecideCancel(record: ControlRecord, ghost request: Request) returns (current: ControlRecord)
      requires Valid() && Stored(record)
      requires pc == M.CancelDecided(record, request)
      modifies `ticks, `pc, clock, store, provider
      ensures Valid() && Stored(current) && Advanced(old(store.Value()), store.Value(), record, current)
      ensures pc == M.Return(current, M.Respond(request))
      ensures current.state in {CLEANED, SUCCEEDED, FAILED, CANCELLED} ||
        (&& current.state == CANCEL_PENDING && current.cancelIntent
         && (provider.reliable && current.execution.Some? ==>
               provider.Value().Stopped(current.execution.value.uid)))
    {
      hide F.Inv, RecordsSound, CleanedMeansEmpty, Advanced, Solo;
      if record.execution == None {
        ghost var before := store.Value();
        current := Update(record, CancelClaimed(record), M.Respond(request));
        if record.state == CLEANED { CleanedIsStill(before, store.Value(), record, current); }
      } else if record.state in {SUCCEEDED, FAILED, CANCELLED} {
        current := Unmoved(record);
      } else {
        current := ClaimCancel(record, request);
      }
    }

    method ClaimCancel(record: ControlRecord, ghost request: Request) returns (current: ControlRecord)
      requires Valid() && Stored(record) && record.execution.Some?
      requires pc == M.Updating(record, CancelClaimed(record), M.AfterCancelClaim, M.Respond(request))
      modifies `ticks, `pc, clock, store, provider
      ensures Valid() && Stored(current) && Advanced(old(store.Value()), store.Value(), record, current)
      ensures pc == M.Return(current, M.Respond(request))
      ensures current.state == CLEANED ||
        (&& current.state == CANCEL_PENDING && current.cancelIntent
         && current.execution.Some?
         && (provider.reliable ==> provider.Value().Stopped(current.execution.value.uid)))
    {
      hide F.Inv, RecordsSound, CleanedMeansEmpty, Advanced, Solo;
      ghost var before := store.Value();
      var applied;
      applied, current := TryUpdate(record, CancelClaimed(record), M.AfterCancelClaim, M.Respond(request));
      if applied {
        ghost var mid, claimed := store.Value(), current;
        current := SendCancel(current, request);
        AdvancedThen(before, mid, store.Value(), record, claimed, current);
      } else {
        CleanedIsStill(before, store.Value(), record, current);
      }
    }

    method SendCancel(record: ControlRecord, ghost request: Request) returns (current: ControlRecord)
      requires Valid() && Stored(record) && record.state != CLEANED && record.execution.Some?
      requires pc == M.CancellingOne(record, record.execution.value, M.Respond(request))
      modifies `ticks, `pc, clock, store, provider
      ensures Valid() && Stored(current) && Advanced(old(store.Value()), store.Value(), record, current)
      ensures pc == M.Return(current, M.Respond(request))
      ensures current.state == record.state && current.cancelIntent == record.cancelIntent
      ensures current.execution == record.execution
      ensures provider.reliable ==> provider.Value().Stopped(record.execution.value.uid)
    {
      hide F.Inv, RecordsSound, CleanedMeansEmpty, Advanced, Solo, M.Return;
      var result, _ := CancelExecution(record, record.execution.value);
      current := Update(record, CancelAnswered(record, result), M.Respond(request));
    }

    static lemma CleanedIsStill(before: F.Database, after: F.Database, record: ControlRecord, current: ControlRecord)
      requires Advanced(before, after, record, current) && record.state == CLEANED
      ensures current == record && after.executions == before.executions[record.executionHandle := record]
    {
    }

    // -------------------------------------------------------------- cleaning up

    /** With a reliable provider one call takes any record that is not CLEANED to CLEANED and frees the slot. */
    method CleanupRecord(record: ControlRecord, ghost ret: M.Ret) returns (current: ControlRecord)
      requires Valid() && Stored(record)
      requires pc == M.BeginCleanup(record, ret)
      modifies `ticks, `pc, clock, store, provider
      ensures Valid() && Stored(current) && Advanced(old(store.Value()), store.Value(), record, current)
      ensures pc == M.Return(current, ret)
      ensures provider.reliable && record.state != CLEANED ==>
        current.state == CLEANED && store.environment.activeExecutionHandle == None
    {
      hide F.Inv, RecordsSound, CleanedMeansEmpty, Advanced, Solo, M.Return;
      ghost var before := store.Value();
      if record.cleanupIntent {
        current := Unmoved(record);
      } else {
        var _, marked := TryUpdate(record, CleanupMarked(record), M.AfterCleanupMark, ret);
        current := marked;
      }
      ghost var mid, marked := store.Value(), current;
      current := EmptyAndRecord(current, ret);
      AdvancedThen(before, mid, store.Value(), record, marked, current);
    }

    method EmptyAndRecord(record: ControlRecord, ghost ret: M.Ret) returns (current: ControlRecord)
      requires Valid() && Stored(record)
      requires pc == M.CleanListing(record, ret)
      modifies `ticks, `pc, clock, store, provider
      ensures Valid() && Stored(current) && Advanced(old(store.Value()), store.Value(), record, current)
      ensures pc == M.Return(current, ret)
      ensures provider.reliable && record.state != CLEANED ==>
        current.state == CLEANED && store.environment.activeExecutionHandle == None
    {
      hide F.Inv, RecordsSound, CleanedMeansEmpty, Advanced, Solo, M.Return;
      var emptied := EmptyProvider(record, ret);
      if emptied {
        current := Update(record, CleanedUp(record), ret);
      } else {
        current := Update(record, CleanupUnfinished(record), ret);
      }
    }

    /** Deletes what the provider holds for the record and reads back whether it is gone. */
    method EmptyProvider(record: ControlRecord, ghost ret: M.Ret) returns (emptied: bool)
      requires Valid() && Stored(record)
      requires pc == M.CleanListing(record, ret)
      modifies `ticks, `pc, provider
      ensures Valid() && Stored(record)
      ensures pc == M.Updating(record, if emptied then CleanedUp(record) else CleanupUnfinished(record), M.AfterReturn, ret)
      ensures emptied ==> provider.Value().Empty(record.jobId)
      ensures provider.reliable ==> emptied
    {
      hide F.Inv, RecordsSound, CleanedMeansEmpty, Solo, Fits, CleanupUnfinished, CleanedUp;
      var listed := ListDoomed(record, ret);
      if listed == ExecutionsUnavailable { return false; }
      DeleteExecutions(record, listed.executions, ret);
      var sent := DeleteJob(record, ret);
      if !sent { return false; }
      emptied := ReadBack(record, ret);
    }

    method ListDoomed(record: ControlRecord, ghost ret: M.Ret) returns (listed: ExecutionRead)
      requires Valid() && Stored(record)
      requires pc == M.CleanListing(record, ret)
      modifies `ticks, `pc, provider
      ensures Valid() && Stored(record)
      ensures pc == M.AfterCleanListing(record, ret, listed)
      ensures listed.ExecutionsFound? ==> AllListed(provider.executions, record.jobId, listed.executions, 0)
      ensures provider.reliable ==> listed.ExecutionsFound?
    {
      hide F.Inv, Solo;
      ghost var before := provider.Value();
      listed := provider.ListExecutions(record.jobId);
      CallKeepsCleaned(store.executions, before, provider.Value(), {});
      Answered(SILENCE.(executions := listed));
    }

    /** A reliable provider keeps none of the listed executions. */
    method DeleteExecutions(record: ControlRecord, executions: seq<ProviderExecution>, ghost ret: M.Ret)
      requires Valid() && Stored(record)
      requires pc == M.CleanNext(record, executions, ret)
      requires AllListed(provider.executions, record.jobId, executions, 0)
      modifies `ticks, `pc, provider
      ensures Valid() && Stored(record)
      ensures pc == M.CleanGettingJob(record, ret)
      ensures provider.reliable ==> AllListed(provider.executions, record.jobId, [], 0)
    {
      hide F.Inv, RecordsSound, CleanedMeansEmpty, Solo, Fits;
      for i := 0 to |executions|
        invariant Valid() && Stored(record)
        invariant pc == M.CleanNext(record, executions[i..], ret)
        invariant provider.reliable ==> AllListed(provider.executions, record.jobId, executions, i)
      {
        DeleteExecution(record, executions, i, ret);
      }
    }

    method DeleteExecution(record: ControlRecord, executions: seq<ProviderExecution>, i: nat, ghost ret: M.Ret)
      requires Valid() && Stored(record) && i < |executions|
      requires pc == M.CleanNext(record, executions[i..], ret)
      requires provider.reliable ==> AllListed(provider.executions, record.jobId, executions, i)
      modifies `ticks, `pc, provider
      ensures Valid() && Stored(record)
      ensures pc == M.CleanNext(record, executions[i + 1..], ret)
      ensures provider.reliable ==> AllListed(provider.executions, record.jobId, executions, i + 1)
    {
      hide F.Inv, RecordsSound, Solo, Fits;
      if StillActive(executions[i]) { CancelDoomed(record, executions, i, ret); }
      DeleteDoomed(record, executions, i, ret);
      assert executions[i..][1..] == executions[i + 1..];
    }

    method DeleteDoomed(record: ControlRecord, executions: seq<ProviderExecution>, i: nat, ghost ret: M.Ret)
      requires Valid() && Stored(record) && i < |executions|
      requires pc == M.CleanDeleting(record, executions[i..], ret)
      requires provider.reliable ==> AllListed(provider.executions, record.jobId, executions, i)
      modifies `ticks, `pc, provider
      ensures Valid() && Stored(record)
      ensures pc == M.CleanNext(record, executions[i..][1..], ret)
      ensures provider.reliable ==> AllListed(provider.executions, record.jobId, executions, i + 1)
    {
      hide F.Inv, RecordsSound, Solo, Fits, M.CleanNext;
      ghost var before := provider.Value();
      var deleted := provider.DeleteExecution(executions[i]);
      CallKeepsCleaned(store.executions, before, provider.Value(), {});
      Answered(SILENCE.(mutation := deleted));
    }

    method CancelDoomed(record: ControlRecord, executions: seq<ProviderExecution>, i: nat, ghost ret: M.Ret)
      requires Valid() && Stored(record) && i < |executions|
      requires pc == M.CleanCancelling(record, executions[i..], ret)
      requires provider.reliable ==> AllListed(provider.executions, record.jobId, executions, i)
      modifies `ticks, `pc, provider
      ensures Valid() && Stored(record)
      ensures pc == M.CleanDeleting(record, executions[i..], ret)
      ensures provider.reliable ==> AllListed(provider.executions, record.jobId, executions, i)
    {
      hide F.Inv, RecordsSound, Solo, Fits;
      ghost var before := provider.Value();
      var cancelled := provider.CancelExecution(executions[i]);
      CallKeepsCleaned(store.executions, before, provider.Value(), {});
      Answered(SILENCE.(mutation := cancelled));
    }

    /** False when the job could not even be read. */
    method DeleteJob(record: ControlRecord, ghost ret: M.Ret) returns (sent: bool)
      requires Valid() && Stored(record)
      requires pc == M.CleanGettingJob(record, ret)
      modifies `ticks, `pc, provider
      ensures Valid() && Stored(record)
      ensures pc == if sent then M.CleanRelisting(record, ret)
                    else M.Updating(record, CleanupUnfinished(record), M.AfterReturn, ret)
      ensures provider.reliable ==> sent && record.jobId !in provider.jobs
      ensures provider.reliable && old(AllListed(provider.executions, record.jobId, [], 0)) ==>
        AllListed(provider.executions, record.jobId, [], 0)
    {
      hide F.Inv, RecordsSound, Solo, Fits;
      ghost var before := provider.Value();
      var jobRead := provider.GetJob(record.jobId);
      CallKeepsCleaned(store.executions, before, provider.Value(), {});
      Answered(SILENCE.(job := jobRead));
      if jobRead.JobFound? { DeleteFound(record, jobRead.job, ret); }
      sent := jobRead != JobUnavailable;
    }

    method DeleteFound(record: ControlRecord, job: ProviderJob, ghost ret: M.Ret)
      requires Valid() && Stored(record) && job.ref == record.jobId
      requires pc == M.CleanDeletingJob(record, ret)
      modifies `ticks, `pc, provider
      ensures Valid() && Stored(record)
      ensures pc == M.CleanRelisting(record, ret)
      ensures provider.reliable ==> record.jobId !in provider.jobs
      ensures old(AllListed(provider.executions, record.jobId, [], 0)) ==>
        AllListed(provider.executions, record.jobId, [], 0)
    {
      hide F.Inv, RecordsSound, Solo, Fits;
      ghost var before := provider.Value();
      var deleted := provider.DeleteJob(job);
      CallKeepsCleaned(store.executions, before, provider.Value(), {});
      Answered(SILENCE.(mutation := deleted));
    }

    method ReadBack(record: ControlRecord, ghost ret: M.Ret) returns (emptied: bool)
      requires Valid() && Stored(record)
      requires pc == M.CleanRelisting(record, ret)
      modifies `ticks, `pc, provider
      ensures Valid() && Stored(record)
      ensures pc == M.Updating(record, if emptied then CleanedUp(record) else CleanupUnfinished(record), M.AfterReturn, ret)
      ensures emptied ==> provider.Value().Empty(record.jobId)
      ensures provider.reliable && old(record.jobId !in provider.jobs && AllListed(provider.executions, record.jobId, [], 0))
        ==> emptied
    {
      hide F.Inv, RecordsSound, Solo, Fits, CleanedMeansEmpty, CleanedUp, CleanupUnfinished;
      hide M.Advance;
      var none := Relist(record, ret);
      ghost var before := provider.Value();
      var job := provider.GetJob(record.jobId);
      CallKeepsCleaned(store.executions, before, provider.Value(), {});
      Answered(SILENCE.(job := job));
      emptied := none && job == JobMissing;
    }

    method Relist(record: ControlRecord, ghost ret: M.Ret) returns (none: bool)
      requires Valid() && Stored(record)
      requires pc == M.CleanRelisting(record, ret)
      modifies `ticks, `pc, provider
      ensures Valid() && Stored(record)
      ensures pc == M.CleanRereadingJob(record, none, ret)
      ensures provider.jobs.Keys == old(provider.jobs.Keys)
      ensures none ==> AllListed(provider.executions, record.jobId, [], 0)
      ensures provider.reliable && old(AllListed(provider.executions, record.jobId, [], 0)) ==> none
    {
      hide F.Inv, RecordsSound, Solo, Fits;
      ghost var before := provider.Value();
      var executions := provider.ListExecutions(record.jobId);
      if executions.ExecutionsFound? { SomethingHeld(provider.executions, record.jobId, executions.executions); }
      CallKeepsCleaned(store.executions, before, provider.Value(), {});
      Answered(SILENCE.(executions := executions));
      none := executions == ExecutionsFound([]);
    }

    // -------------------------------------------------------------- requests and reaper ticks

    static lemma AdvancedKeepsCleaned(before: F.Database, after: F.Database, record: ControlRecord, current: ControlRecord)
      requires Advanced(before, after, record, current) && before.executions[record.executionHandle] == record
      ensures KeepsCleaned(before, after)
      ensures record.executionHandle in after.executions && after.executions[record.executionHandle] == current
    {
    }

    /** A request handler is a run of the machine from that handler's start to its reply; no reply means that the
        store threw. */
    method Execute(request: Request, expectedVersion: int) returns (reply: Option<Reply>, ghost at: Time)
      requires Valid()
      modifies this, clock, store, provider
      ensures Valid() && KeepsCleaned(old(store.Value()), store.Value())
      ensures Solo(Conf(), old(store.Value()),
                   M.Start(Conf(), M.Execute(request, expectedVersion, jobIdOf(request.executionHandle)), at), ticks)
           == (store.Value(), if reply.Some? then M.Done(reply.value) else M.Thrown)
      ensures provider.reliable && request.action == Cleanup && request.requestId !in old(store.requests) ==>
        (reply.Some? && reply.value.Responded? ==>
           && reply.value.record.state == CLEANED
           && store.environment.activeExecutionHandle != Some(request.executionHandle))
      ensures provider.reliable && provider.conforming && request.action == Reconcile && request.requestId !in old(store.requests) ==>
        ReconcileRuns(old(store.executions), old(provider.Value()), store.executions, provider.Value(), request, reply)
      ensures provider.reliable && request.action.Create? && request.requestId !in old(store.requests) ==>
        CreateMakes(jobIdOf(request.executionHandle), old(provider.Value()), store.executions, provider.Value(), request, reply)
    {
      hide F.Inv, RecordsSound, CleanedMeansEmpty;
      at := 0;
      if request.environment != environment {
        Begin(M.Done(Rejected(request, RejectEnvironment)));
        return Some(Rejected(request, RejectEnvironment)), at;
      }
      if request.action.Create? {
        reply, at := Create(request, expectedVersion);
      } else {
        reply, at := Claim(request, expectedVersion);
      }
    }

    method Claim(request: Request, expectedVersion: int) returns (reply: Option<Reply>, ghost at: Time)
      requires Valid() && !request.action.Create?
      modifies this, clock, store, provider
      ensures Valid() && KeepsCleaned(old(store.Value()), store.Value())
      ensures begun == (old(store.Value()), M.Claiming(ClaimRequestInput(request, expectedVersion, at)))
      ensures pc == if reply.Some? then M.Done(reply.value) else M.Thrown
      ensures provider.reliable && request.action == Cleanup && request.requestId !in old(store.requests) ==>
        (reply.Some? && reply.value.Responded? ==>
           && reply.value.record.state == CLEANED
           && store.environment.activeExecutionHandle != Some(request.executionHandle))
      ensures provider.reliable && provider.conforming && request.action == Reconcile && request.requestId !in old(store.requests) ==>
        ReconcileRuns(old(store.executions), old(provider.Value()), store.executions, provider.Value(), request, reply)
    {
      hide F.Inv, RecordsSound, CleanedMeansEmpty, Solo, Advanced, T.ToBeRun, Runnable, Started, Fits, M.Perform;
      ghost var before := store.Value();
      var now := ReadClock();
      at := now;
      Begin(M.Claiming(ClaimRequestInput(request, expectedVersion, now)));
      var claim := ClaimInStore(ClaimRequestInput(request, expectedVersion, now));
      match claim
      case EnvironmentMismatch => return Some(Rejected(request, RejectEnvironment)), at;
      case Conflict => return Some(Rejected(request, RejectConflict)), at;
      case NotFound => return Some(Rejected(request, RejectConflict)), at;
      case Stale(record) => return Some(Rejected(request, RejectStale(record.version))), at;
      case RateLimited => return Some(Rejected(request, RejectRate)), at;
      case Duplicate(record) => return Some(Responded(request, record)), at;
      case Accepted(record) =>
        ghost var mid := store.Value();
        var current := Perform(request, record);
        AdvancedKeepsCleaned(mid, store.Value(), record, current);
        return Some(Responded(request, current)), at;
      case _ => return None, at;
    }

    method ClaimInStore(input: ClaimRequestInput) returns (claim: StoreOutcome)
      requires Valid() && pc == M.Claiming(input)
      modifies `ticks, `pc, store
      ensures Valid() && store.executions == old(store.executions)
      ensures pc == M.AfterClaim(input.request, claim)
      ensures claim.Accepted? ==> Stored(claim.record) && claim.record.executionHandle == input.request.executionHandle
      ensures claim.Duplicate? ==> input.request.requestId in old(store.requests)
    {
      hide Solo, RecordsSound, CleanedMeansEmpty;
      ghost var before := store.Value();
      F.ClaimKeepsInv(store.authorization, before, input);
      hide F.ActiveCached, F.EnvironmentSchema, F.OverRate, F.ClaimAborts, M.AfterClaim;
      claim := store.ClaimRequest(input);
      Follow(before, 0, SILENCE);
      if claim.Accepted? {
        StoredFits(store.authorization, store.Value(), jobIdOf, clock.time, input.request.executionHandle);
      }
    }

    method Perform(request: Request, record: ControlRecord) returns (current: ControlRecord)
      requires Valid() && Stored(record)
      requires pc == M.Perform(request, record)
      modifies `ticks, `pc, clock, store, provider
      ensures Valid() && Advanced(old(store.Value()), store.Value(), record, current)
      ensures pc == M.Done(Responded(request, current))
      ensures provider.reliable && request.action == Cleanup ==>
        current.state == CLEANED && store.environment.activeExecutionHandle != Some(record.executionHandle)
      ensures provider.reliable && provider.conforming && request.action == Reconcile ==>
        (T.ToBeRun(record) && Runnable(old(provider.Value()), record) ==> Started(provider.Value(), record.jobId, current))
    {
      hide F.Inv, RecordsSound, CleanedMeansEmpty, Solo, Advanced;
      ghost var before := store.Value();
      match request.action
      case Observe => current := ObserveRecord(record, M.Respond(request));
      case Reconcile => current := ReconcileRecord(record, M.Respond(request));
      case Cancel => current := CancelRecord(record, request);
      case Cleanup =>
        current := CleanupRecord(record, M.Respond(request));
        if record.state == CLEANED {
          CleanedIsStill(before, store.Value(), record, current);
          CleanedHoldsNoSlot(store.authorization, store.Value(), record.executionHandle);
        }
      case Create => current := Unmoved(record);
    }

    static lemma CleanedHoldsNoSlot(auth: Authorization, db: F.Database, h: Handle)
      requires F.Inv(auth, db) && h in db.executions && db.executions[h].state == CLEANED
      ensures db.environment.activeExecutionHandle != Some(h)
    {
      assert h !in F.Active(db.executions);
    }

    method Create(request: Request, expectedVersion: int) returns (reply: Option<Reply>, ghost at: Time)
      requires Valid() && request.action.Create? && request.environment == environment
      modifies this, clock, store, provider
      ensures Valid() && KeepsCleaned(old(store.Value()), store.Value())
      ensures begun == (old(store.Value()),
        M.Start(Conf(), M.Execute(request, expectedVersion, jobIdOf(request.executionHandle)), at))
      ensures pc == if reply.Some? then M.Done(reply.value) else M.Thrown
      ensures provider.reliable && request.requestId !in old(store.requests) ==>
        CreateMakes(jobIdOf(request.executionHandle), old(provider.Value()), store.executions, provider.Value(), request, reply)
    {
      hide F.Inv, RecordsSound, CleanedMeansEmpty, Solo, Advanced, KeepsCleaned, M.SendCreate, Fits, Made;
      ghost var before := store.Value();
      at := 0;
      if expectedVersion != 0 {
        assert KeepsCleaned(before, before) by { SameKeepsCleaned(before); }
        Begin(M.Done(Rejected(request, RejectStale(expectedVersion))));
        return Some(Rejected(request, RejectStale(expectedVersion))), at;
      }
      var now := ReadClock();
      at := now;
      var input := AdmitCreateInput(
        request, jobIdOf(request.executionHandle), now, now + PROVISIONING_WINDOW_MS, now + RECORD_TTL_MS);
      Begin(M.Admitting(input));
      assert store.Value() == before;
      var admission := Admit(input);
      match admission
      case BudgetExhausted => return Some(Rejected(request, RejectBudget)), at;
      case EnvironmentMismatch => return Some(Rejected(request, RejectEnvironment)), at;
      case RateLimited => return Some(Rejected(request, RejectRate)), at;
      case Conflict => return Some(Rejected(request, RejectConflict)), at;
      case Duplicate(record) => return Some(Responded(request, record)), at;
      case Accepted(record) =>
        ghost var mid := store.Value();
        var current := SendCreate(record, M.Respond(request));
        AdvancedKeepsCleaned(mid, store.Value(), record, current);
        KeepsCleanedThen(before, mid, store.Value());
        return Some(Responded(request, current)), at;
      case _ => return None, at;
    }

    static lemma SameKeepsCleaned(db: F.Database)
      ensures KeepsCleaned(db, db)
    {
    }

    static lemma KeepsCleanedThen(a: F.Database, b: F.Database, c: F.Database)
      requires KeepsCleaned(a, b) && KeepsCleaned(b, c)
      ensures KeepsCleaned(a, c)
    {
    }

    method Admit(input: AdmitCreateInput) returns (admission: StoreOutcome)
      requires Valid() && input.jobId == jobIdOf(input.request.executionHandle) && input.now <= clock.time
      requires pc == M.Admitting(input)
      modifies `ticks, `pc, store
      ensures Valid() && KeepsCleaned(old(store.Value()), store.Value())
      ensures pc == M.AfterAdmit(input.request, admission)
      ensures admission.Accepted? ==> Stored(admission.record) && IsNew(admission.record, input)
      ensures admission.Duplicate? ==> input.request.requestId in old(store.requests)
    {
      hide Solo, RecordsSound, CleanedMeansEmpty, F.Inv, F.Admit, KeepsCleaned, Fits;
      ghost var before := store.Value();
      F.AdmitKeepsInv(store.authorization, before, input);
      AdmitKeepsSound(store.authorization, before, input, jobIdOf, clock.time, provider.Value());
      admission := store.AdmitCreate(input);
      Follow(before, 0, SILENCE);
    }

    /** A tick is a run of the machine too.  One that finds a record due reaps it, and one that reaps anything through a
        reliable provider leaves no active execution. */
    method Reap(environment: Environment) returns (processed: int, ghost at: Time)
      requires Valid()
      modifies this, clock, store, provider
      ensures Valid() && KeepsCleaned(old(store.Value()), store.Value())
      ensures Solo(Conf(), old(store.Value()), M.Start(Conf(), M.ReapTick(environment), at), ticks)
           == (store.Value(), M.Done(Reaped))
      ensures processed == 0 ==> store.Value() == old(store.Value())
      ensures provider.reliable && processed > 0 ==> store.environment.activeExecutionHandle == None
      ensures environment == this.environment == store.authorization.environment ==>
        forall h :: h in old(store.executions) && Due(old(store.executions)[h], at) ==> processed > 0
    {
      hide F.Inv, RecordsSound, CleanedMeansEmpty, Solo, Advanced, NeedsReaping, M.BeginCleanup, M.FindActive;
      processed, at := 0, 0;
      if environment != this.environment {
        Begin(M.Done(Reaped));
        return;
      }
      var now := ReadClock();
      at := now;
      Begin(M.ReapFindingActive(now));
      ghost var before := store.Value();
      var records := ListUnclean(now);
      for i := 0 to |records|
        invariant Valid() && KeepsCleaned(before, store.Value()) && begun == (before, M.ReapFindingActive(now))
        invariant pc == M.ReapNext(records[i..], now)
        invariant i == 0 ==> forall j :: 0 <= j < |records| ==> Stored(records[j])
        invariant processed == 0 ==> store.Value() == before
        invariant 0 <= processed <= i
        invariant forall j :: 0 <= j < i && Due(records[j], now) ==> processed > 0
        invariant provider.reliable && processed > 0 ==> store.environment.activeExecutionHandle == None
      {
        var record := records[i];
        DueNeedsReaping(record, now);
        if NeedsReaping(record, now) {
          ghost var mid := store.Value();
          assert records[i..][1..] == records[i + 1..];
          var current := CleanupRecord(record, M.ReapResume(records[i + 1..], now));
          AdvancedKeepsCleaned(mid, store.Value(), record, current);
          processed := processed + 1;
        }
      }
    }

    /** The record that holds the slot, if there is one. */
    method ListUnclean(now: Time) returns (records: seq<ControlRecord>)
      requires Valid() && pc == M.ReapFindingActive(now)
      modifies `ticks, `pc
      ensures Valid() && pc == M.ReapNext(records, now)
      ensures |records| <= 1 && forall j :: 0 <= j < |records| ==> Stored(records[j]) && records[j].state != CLEANED
      ensures environment == store.authorization.environment ==>
        forall h :: h in store.executions && store.executions[h].state != CLEANED ==> store.executions[h] in records
    {
      hide Solo;
      StoreTable.ListsUnclean(store.authorization, store.Value(), environment);
      var listing := store.ListUnclean(environment);
      Follow(store.Value(), 0, SILENCE);
      records := listing.records;
      if records != [] { Follow(store.Value(), 0, SILENCE); }
    }
  }
}

/** What CLEANED means when handlers overlap: the interleaved controller together with what the provider holds.  Reads are
    truthful or unavailable and mutations take effect at the call or never; a record that is written CLEANED is empty at the
    provider, then and ever after, exactly when no handler was about to create or run as its cleanup went to read back. */
module ControllerEmptiness {
  import opened ControllerTypes
  import opened ControllerPolicy
  import opened ControllerMachine
  import opened ControllerSafety
  import opened ControllerRuns
  import opened ControllerLate
  import opened CloudRunProvider
  import opened Sets
  import F = FirestoreStore

  // ---------------------------------------------------------------- the provider under the machine

  /** Jobs become ready and executions advance on their own; nothing appears or disappears. */
  predicate Settles(before: World, after: World) {
    && after.jobs.Keys == before.jobs.Keys && after.executions.Keys == before.executions.Keys
    && forall uid :: uid in before.executions ==> after.executions[uid].jobRef == before.executions[uid].jobRef
  }

  predicate TruthfulJob(id: JobId, read: JobRead, world: World) {
    match read
    case JobUnavailable => true
    case JobMissing => id !in world.jobs
    case JobFound(job, _) => id in world.jobs && job.ref == id
  }

  predicate TruthfulList(id: JobId, read: ExecutionRead, world: World) {
    read.ExecutionsFound? ==>
      && AllHeld(world.executions, id, read.executions)
      && forall uid :: uid in world.executions && world.executions[uid].jobRef == id ==> Listed(read.executions, 0, uid)
  }

  predicate HasExecution(world: World, id: JobId) {
    exists uid :: uid in world.executions && world.executions[uid].jobRef == id
  }

  /** A create brings up the record's job or nothing; what it reports accepted is there. */
  predicate Creates(id: JobId, mutation: ProviderMutation, before: World, after: World) {
    && before.jobs.Keys <= after.jobs.Keys <= before.jobs.Keys + {id}
    && Settles(before.(jobs := map[]), after.(jobs := map[]))
    && (mutation.MutationAccepted? ==> id in after.jobs)
  }

  /** A run brings up executions of the job it names or nothing. */
  predicate Runs(ref: JobId, mutation: ProviderMutation, before: World, after: World) {
    && after.jobs.Keys == before.jobs.Keys && before.executions.Keys <= after.executions.Keys
    && (forall uid :: uid in after.executions ==>
          after.executions[uid].jobRef == if uid in before.executions then before.executions[uid].jobRef else ref)
    && (mutation.MutationAccepted? ==> HasExecution(after, ref))
  }

  /** A deletion takes away the record's job or executions of it, or nothing. */
  predicate Deletes(id: JobId, before: World, after: World) {
    && before.jobs.Keys - {id} <= after.jobs.Keys <= before.jobs.Keys
    && after.executions.Keys <= before.executions.Keys
    && (forall uid :: uid in after.executions ==> after.executions[uid].jobRef == before.executions[uid].jobRef)
    && (forall uid :: uid in before.executions && uid !in after.executions ==> before.executions[uid].jobRef == id)
  }

  /** What the provider may do and answer when a handler that holds `r` makes a call. */
  predicate Provides(r: ControlRecord, kind: CallKind, answer: Answer, before: World, after: World) {
    match kind
    case CallCreateJob(_) => Creates(r.jobId, answer.mutation, before, after)
    case CallRunJob => r.job.Some? && Runs(r.job.value.ref, answer.mutation, before, after)
    case CallGetJob => Settles(before, after) && TruthfulJob(r.jobId, answer.job, after)
    case CallListExecutions => Settles(before, after) && TruthfulList(r.jobId, answer.executions, after)
    case CallDeleteExecution => Deletes(r.jobId, before, after) && after.jobs.Keys == before.jobs.Keys
    case CallDeleteJob => Deletes(r.jobId, before, after)
    case _ => Settles(before, after)
  }

  /** One move of the controller and what the provider holds after it. */
  datatype Beat = Beat(move: Move, after: World)

  /** Job ids are derived from handles, and the provider does what the calls ask of it or nothing. */
  predicate Allowed(jobIdOf: Handle -> JobId, s: Sys, world: World, beat: Beat) {
    match beat.move
    case Spawn(_, incoming, _) =>
      && Settles(world, beat.after)
      && (incoming.Execute? ==> incoming.jobId == jobIdOf(incoming.request.executionHandle))
    case Resume(i, _, answer) =>
      if i in s.handlers && Pending(s.handlers[i]).Some? then
        Provides(Copy(s.handlers[i]).value, Pending(s.handlers[i]).value.kind, answer, world, beat.after)
      else Settles(world, beat.after)
  }

  function Moves(beats: seq<Beat>): (moves: seq<Move>)
    ensures |moves| == |beats|
  {
    seq(|beats|, k requires 0 <= k < |beats| => beats[k].move)
  }

  function WorldAfter(world: World, beats: seq<Beat>): World {
    if beats == [] then world else beats[|beats| - 1].after
  }

  function SysAfter(c: Config, s: Sys, beats: seq<Beat>): Sys {
    Run(c, s, Moves(beats))
  }

  lemma SysAfterMore(c: Config, s: Sys, beats: seq<Beat>)
    requires beats != []
    ensures SysAfter(c, s, beats) == Step(c, SysAfter(c, s, beats[..|beats| - 1]), beats[|beats| - 1].move)
  {
    hide Step;
    assert Moves(beats)[..|beats| - 1] == Moves(beats[..|beats| - 1]);
  }

  predicate Provided(jobIdOf: Handle -> JobId, c: Config, s: Sys, world: World, beats: seq<Beat>) {
    beats == []
    || (&& Provided(jobIdOf, c, s, world, beats[..|beats| - 1])
        && Allowed(jobIdOf, SysAfter(c, s, beats[..|beats| - 1]), WorldAfter(world, beats[..|beats| - 1]), beats[|beats| - 1]))
  }

  // ---------------------------------------------------------------- every record names its handle's own job

  predicate Named(jobIdOf: Handle -> JobId, r: ControlRecord) {
    r.jobId == jobIdOf(r.executionHandle) && (r.job.Some? ==> r.job.value.ref == r.jobId)
  }

  predicate RetNamed(jobIdOf: Handle -> JobId, ret: Ret) {
    ret.ReapResume? ==> forall r :: r in ret.rest ==> Named(jobIdOf, r)
  }

  predicate PcNamed(jobIdOf: Handle -> JobId, pc: Pc) {
    && (Copy(pc).Some? ==> Named(jobIdOf, Copy(pc).value) && RetNamed(jobIdOf, ControllerSafety.RetOf(pc)))
    && (pc.Updating? ==> Named(jobIdOf, pc.changed))
    && (pc.RunningJob? ==> pc.record.job.Some?)
    && (pc.Admitting? ==> pc.input.jobId == jobIdOf(pc.input.request.executionHandle))
  }

  predicate StoreNamed(jobIdOf: Handle -> JobId, db: F.Database) {
    forall h :: h in db.executions ==> Named(jobIdOf, db.executions[h])
  }

  predicate AllNamed(jobIdOf: Handle -> JobId, s: Sys) {
    StoreNamed(jobIdOf, s.db) && forall i :: i in s.handlers ==> PcNamed(jobIdOf, s.handlers[i])
  }

  lemma {:induction false} ReapNextNamed(jobIdOf: Handle -> JobId, records: seq<ControlRecord>, reapNow: Time)
    requires forall r :: r in records ==> Named(jobIdOf, r)
    ensures PcNamed(jobIdOf, ReapNext(records, reapNow))
  {
    if records != [] {
      assert Named(jobIdOf, records[0]);
      assert forall r :: r in records[1..] ==> r in records;
      if !NeedsReaping(records[0], reapNow) { ReapNextNamed(jobIdOf, records[1..], reapNow); }
    }
  }

  lemma ReturnNamed(jobIdOf: Handle -> JobId, record: ControlRecord, ret: Ret)
    requires Named(jobIdOf, record) && RetNamed(jobIdOf, ret)
    ensures PcNamed(jobIdOf, Return(record, ret))
  {
    if ret.ReapResume? { ReapNextNamed(jobIdOf, ret.rest, ret.reapNow); }
  }

  lemma ContinueNamed(jobIdOf: Handle -> JobId, record: ControlRecord, applied: bool, after: After, ret: Ret)
    requires Named(jobIdOf, record) && RetNamed(jobIdOf, ret)
    ensures PcNamed(jobIdOf, Continue(record, applied, after, ret))
  {
    hide Return;
    ReturnNamed(jobIdOf, record, ret);
  }

  lemma ProceedNamed(jobIdOf: Handle -> JobId, pc: Pc, answer: Answer)
    requires PcNamed(jobIdOf, pc) && Pending(pc).Some? && !Cleaning(pc)
    requires pc.GettingJob? && answer.job.JobFound? ==> answer.job.job.ref == pc.record.jobId
    ensures PcNamed(jobIdOf, Proceed(pc, answer))
  {
    hide RetNamed;
  }

  lemma CleaningNamed(jobIdOf: Handle -> JobId, pc: Pc, answer: Answer)
    requires PcNamed(jobIdOf, pc) && Cleaning(pc)
    ensures PcNamed(jobIdOf, Proceed(pc, answer))
  {
    hide RetNamed;
  }

  lemma AdmitNamed(jobIdOf: Handle -> JobId, c: Config, db: F.Database, pc: Pc)
    requires StoreNamed(jobIdOf, db) && PcNamed(jobIdOf, pc) && pc.Admitting?
    ensures
      var (db', outcome) := F.Admit(c.auth, db, pc.input);
      StoreNamed(jobIdOf, db') && PcNamed(jobIdOf, AfterAdmit(pc.input.request, outcome))
  {
  }

  lemma PerformNamed(jobIdOf: Handle -> JobId, request: Request, record: ControlRecord)
    requires Named(jobIdOf, record)
    ensures PcNamed(jobIdOf, Perform(request, record))
  {
  }

  lemma ClaimNamed(jobIdOf: Handle -> JobId, c: Config, db: F.Database, pc: Pc)
    requires StoreNamed(jobIdOf, db) && pc.Claiming?
    ensures
      var (db', outcome) := F.Claim(c.auth, db, pc.claim);
      StoreNamed(jobIdOf, db') && PcNamed(jobIdOf, AfterClaim(pc.claim.request, outcome))
  {
    hide Perform;
    var outcome := F.Claim(c.auth, db, pc.claim).1;
    if outcome.Accepted? { PerformNamed(jobIdOf, pc.claim.request, outcome.record); }
  }

  lemma UpdateNamed(jobIdOf: Handle -> JobId, c: Config, db: F.Database, pc: Pc, now: Time, answer: Answer)
    requires StoreNamed(jobIdOf, db) && PcNamed(jobIdOf, pc) && pc.Updating?
    ensures StoreNamed(jobIdOf, Advance(c, db, pc, now, answer).0) && PcNamed(jobIdOf, Advance(c, db, pc, now, answer).1)
  {
    hide Continue;
    ContinueNamed(jobIdOf, Touch(pc.changed, now), true, pc.after, pc.ret);
  }

  lemma AdvanceNamed(jobIdOf: Handle -> JobId, c: Config, db: F.Database, pc: Pc, now: Time, answer: Answer)
    requires StoreNamed(jobIdOf, db) && PcNamed(jobIdOf, pc)
    requires pc.GettingJob? && answer.job.JobFound? ==> answer.job.job.ref == pc.record.jobId
    ensures StoreNamed(jobIdOf, Advance(c, db, pc, now, answer).0) && PcNamed(jobIdOf, Advance(c, db, pc, now, answer).1)
  {
    hide Continue, Proceed, F.Admit, F.Claim, F.CompareAndSet;
    if pc.Admitting? { AdmitNamed(jobIdOf, c, db, pc); }
    else if pc.Claiming? { ClaimNamed(jobIdOf, c, db, pc); }
    else if pc.Updating? { UpdateNamed(jobIdOf, c, db, pc, now, answer); }
    else if Cleaning(pc) { CleaningNamed(jobIdOf, pc, answer); }
    else if Pending(pc).Some? { ProceedNamed(jobIdOf, pc, answer); }
    else if pc.Reloading? {
      if pc.lost.executionHandle in db.executions {
        ContinueNamed(jobIdOf, db.executions[pc.lost.executionHandle], false, pc.after, pc.ret);
      }
    }
    else if pc.ReapReading? {
      if pc.handle in db.executions { ReapNextNamed(jobIdOf, [db.executions[pc.handle]], pc.reapNow); }
    }
  }

  lemma StepNamed(jobIdOf: Handle -> JobId, c: Config, s: Sys, world: World, beat: Beat)
    requires AllNamed(jobIdOf, s) && Allowed(jobIdOf, s, world, beat)
    ensures AllNamed(jobIdOf, Step(c, s, beat.move))
  {
    hide Advance, StoreNamed;
    if beat.move.Resume? && beat.move.handler in s.handlers {
      AdvanceNamed(jobIdOf, c, s.db, s.handlers[beat.move.handler], beat.move.now, beat.move.answer);
    }
  }

  /** In every run beside a provider the machine's invariant holds and every record names its handle's own job. */
  ghost predicate Sane(jobIdOf: Handle -> JobId, c: Config, s: Sys) {
    SysInv(c, s) && AllNamed(jobIdOf, s)
  }

  lemma {:induction false} RunStaysSane(jobIdOf: Handle -> JobId, c: Config, s: Sys, world: World, beats: seq<Beat>)
    requires Sane(jobIdOf, c, s) && Provided(jobIdOf, c, s, world, beats)
    ensures Sane(jobIdOf, c, SysAfter(c, s, beats))
  {
    hide SysInv, AllNamed, Allowed, Step;
    if beats == [] {
      assert SysAfter(c, s, []) == s;
    } else {
      var before := beats[..|beats| - 1];
      RunStaysSane(jobIdOf, c, s, world, before);
      StepNamed(jobIdOf, c, SysAfter(c, s, before), WorldAfter(world, before), beats[|beats| - 1]);
      StepKeepsInv(c, SysAfter(c, s, before), beats[|beats| - 1].move);
      SysAfterMore(c, s, beats);
    }
  }

  // ---------------------------------------------------------------- while nobody is about to call

  ghost predicate NobodyAbout(s: Sys, handle: Handle) {
    forall i :: !About(s, i, handle)
  }

  predicate StoredStill(s: Sys, r: ControlRecord) {
    r.executionHandle in s.db.executions && s.db.executions[r.executionHandle] == r
  }

  /** Only a create or run call for the handle brings anything up for its job. */
  lemma NothingAppears(jobIdOf: Handle -> JobId, s: Sys, world: World, beat: Beat, handle: Handle)
    requires Injective(jobIdOf) && AllNamed(jobIdOf, s) && Allowed(jobIdOf, s, world, beat)
    requires beat.move.Resume? ==> !About(s, beat.move.handler, handle)
    ensures jobIdOf(handle) !in world.jobs ==> jobIdOf(handle) !in beat.after.jobs
    ensures !HasExecution(world, jobIdOf(handle)) ==> !HasExecution(beat.after, jobIdOf(handle))
  {
    hide StoreNamed, RetNamed;
    assert HasExecution(beat.after, jobIdOf(handle)) ==> HasExecution(world, jobIdOf(handle)) by {
      if uid :| uid in beat.after.executions && beat.after.executions[uid].jobRef == jobIdOf(handle) {
        assert uid in world.executions && world.executions[uid].jobRef == jobIdOf(handle);
      }
    }
  }

  /** While the stored record of a handle is unchanged, no step comes to a create or run call for it. */
  lemma UnchangedLicensesNothing(c: Config, s: Sys, move: Move, r: ControlRecord)
    requires SysInv(c, s) && StoredStill(s, r) && StoredStill(Step(c, s, move), r)
    requires NobodyAbout(s, r.executionHandle)
    ensures NobodyAbout(Step(c, s, move), r.executionHandle)
  {
    var s' := Step(c, s, move);
    if move.Resume? && move.handler in s.handlers {
      var pc := s.handlers[move.handler];
      UnchangedLicensesHandler(c, s.db, pc, move.now, move.answer, r);
      forall i ensures !About(s', i, r.executionHandle) {
        assert !About(s, i, r.executionHandle);
      }
    } else {
      forall i ensures !About(s', i, r.executionHandle) {
        assert !About(s, i, r.executionHandle);
      }
    }
  }

  lemma UnchangedLicensesHandler(c: Config, db: F.Database, pc: Pc, now: Time, answer: Answer, r: ControlRecord)
    requires F.Inv(c.auth, db) && StoreCoherent(db) && Sound(db, pc)
    requires r.executionHandle in db.executions && db.executions[r.executionHandle] == r
    requires
      var db' := Advance(c, db, pc, now, answer).0;
      r.executionHandle in db'.executions && db'.executions[r.executionHandle] == r
    ensures
      var pc' := Advance(c, db, pc, now, answer).1;
      Pending(pc').Some? && Exclusive(Pending(pc').value) ==> Pending(pc').value.handle != r.executionHandle
  {
    AdvanceSound(c, db, pc, now, answer);
    if !Plain(Advance(c, db, pc, now, answer).1) { CasEvolves(c, db, pc, now); }
  }

  // ---------------------------------------------------------------- where a cleanup stands

  /** What the cleanup at `pc` has read of the job so far still holds. */
  predicate ReadSoFar(pc: Pc, r: ControlRecord, world: World) {
    && (pc.CleanRereadingJob? && pc.record == r && pc.emptied ==> !HasExecution(world, r.jobId))
    && (pc.Updating? && pc.base == r && pc.changed.state == CLEANED ==>
          pc.after == AfterReturn && !HasExecution(world, r.jobId) && r.jobId !in world.jobs)
  }

  /** Only the read-back leads to writing CLEANED, and only the second listing to the read-back. */
  predicate FromReadBack(pc: Pc, answer: Answer, pc': Pc) {
    && (pc'.Updating? && pc'.base.state != CLEANED && pc'.changed.state == CLEANED ==>
          pc'.after == AfterReturn
          && pc.CleanRereadingJob? && pc.record == pc'.base && pc.emptied && answer.job == JobMissing)
    && (pc'.CleanRereadingJob? && pc'.emptied ==>
          pc.CleanRelisting? && pc.record == pc'.record && answer.executions == ExecutionsFound([]))
  }

  lemma {:induction false} ReapNextElsewhere(pc: Pc, answer: Answer, records: seq<ControlRecord>, reapNow: Time)
    ensures FromReadBack(pc, answer, ReapNext(records, reapNow))
  {
    if records != [] && !NeedsReaping(records[0], reapNow) { ReapNextElsewhere(pc, answer, records[1..], reapNow); }
  }

  lemma ContinueElsewhere(pc: Pc, answer: Answer, record: ControlRecord, applied: bool, after: After, ret: Ret)
    ensures FromReadBack(pc, answer, Continue(record, applied, after, ret))
  {
    if ret.ReapResume? { ReapNextElsewhere(pc, answer, ret.rest, ret.reapNow); }
  }

  lemma CallElsewhere(pc: Pc, answer: Answer)
    requires Pending(pc).Some?
    ensures FromReadBack(pc, answer, Proceed(pc, answer))
  {
  }

  lemma ReadBackOnly(c: Config, db: F.Database, pc: Pc, now: Time, answer: Answer)
    requires !pc.Done? && !pc.Thrown?
    ensures FromReadBack(pc, answer, Advance(c, db, pc, now, answer).1)
  {
    hide Continue, Proceed, F.Admit, F.Claim, F.CompareAndSet;
    if pc.Updating? { ContinueElsewhere(pc, answer, Touch(pc.changed, now), true, pc.after, pc.ret); }
    else if Pending(pc).Some? { CallElsewhere(pc, answer); }
    else if pc.Reloading? {
      if pc.lost.executionHandle in db.executions {
        ContinueElsewhere(pc, answer, db.executions[pc.lost.executionHandle], false, pc.after, pc.ret);
      }
    }
    else if pc.ReapReading? {
      if pc.handle in db.executions { ReapNextElsewhere(pc, answer, [db.executions[pc.handle]], pc.reapNow); }
    }
  }

  // ---------------------------------------------------------------- whole continuations of a cleanup

  /** Handler `i` writes CLEANED over the record its cleanup has worked on, and the write applies. */
  predicate WritesCleaned(c: Config, s: Sys, move: Move, i: int, r: ControlRecord) {
    && move.Resume? && move.handler == i && i in s.handlers && s.handlers[i].Updating?
    && s.handlers[i].base == r && s.handlers[i].changed.state == CLEANED
    && F.CompareAndSet(c.auth, s.db, r.version, Touch(s.handlers[i].changed, move.now)).1 == Applied
  }

  predicate Closes(c: Config, s: Sys, beats: seq<Beat>, i: int, r: ControlRecord) {
    && beats != []
    && (|| Closes(c, s, beats[..|beats| - 1], i, r)
        || WritesCleaned(c, SysAfter(c, s, beats[..|beats| - 1]), beats[|beats| - 1].move, i, r))
  }

  /** The record as the cleanup holds it is stored, nobody is about to call for it, and what was read still holds. */
  ghost predicate Undisturbed(s: Sys, world: World, i: int, r: ControlRecord) {
    && StoredStill(s, r) && NobodyAbout(s, r.executionHandle)
    && i in s.handlers && ReadSoFar(s.handlers[i], r, world)
  }

  predicate Superseded(s: Sys, r: ControlRecord) {
    r.executionHandle in s.db.executions && r.version < s.db.executions[r.executionHandle].version
  }

  ghost predicate Emptied(s: Sys, world: World, r: ControlRecord) {
    IsCleaned(s.db, r.executionHandle) && NobodyAbout(s, r.executionHandle) && world.Empty(r.jobId)
  }

  lemma EmptyIsNothing(world: World, id: JobId)
    ensures world.Empty(id) <==> id !in world.jobs && !HasExecution(world, id)
  {
  }

  lemma EmptiedStays(jobIdOf: Handle -> JobId, c: Config, s: Sys, world: World, beat: Beat, r: ControlRecord)
    requires Injective(jobIdOf) && Sane(jobIdOf, c, s) && Named(jobIdOf, r) && Emptied(s, world, r)
    requires Allowed(jobIdOf, s, world, beat)
    ensures Emptied(Step(c, s, beat.move), beat.after, r)
  {
    hide SysInv, AllNamed, Allowed, Step, About, IsCleaned, HasExecution;
    StepAfterCleaned(c, s, beat.move, r.executionHandle);
    NothingAppears(jobIdOf, s, world, beat, r.executionHandle);
    EmptyIsNothing(world, r.jobId);
    EmptyIsNothing(beat.after, r.jobId);
  }

  lemma StoredOrSuperseded(c: Config, s: Sys, move: Move, r: ControlRecord)
    requires SysInv(c, s) && (StoredStill(s, r) || Superseded(s, r))
    ensures var s' := Step(c, s, move); StoredStill(s', r) || Superseded(s', r)
    ensures Superseded(s, r) ==> Superseded(Step(c, s, move), r)
  {
    hide Advance, F.Inv;
    if move.Resume? && move.handler in s.handlers { AdvanceSound(c, s.db, s.handlers[move.handler], move.now, move.answer); }
  }

  lemma OnlyStoredIsWritten(c: Config, s: Sys, move: Move, i: int, r: ControlRecord)
    requires SysInv(c, s) && WritesCleaned(c, s, move, i, r)
    ensures StoredStill(s, r)
    ensures IsCleaned(Step(c, s, move).db, r.executionHandle)
  {
    CasEvolves(c, s.db, s.handlers[i], move.now);
  }

  lemma NobodyAboutAfterWrite(c: Config, s: Sys, move: Move, i: int, r: ControlRecord)
    requires SysInv(c, s) && WritesCleaned(c, s, move, i, r) && NobodyAbout(s, r.executionHandle)
    requires s.handlers[i].after == AfterReturn
    ensures NobodyAbout(Step(c, s, move), r.executionHandle)
  {
    hide Advance, F.Inv, F.CompareAndSet;
    AdvanceSound(c, s.db, s.handlers[i], move.now, move.answer);
    forall j ensures !About(Step(c, s, move), j, r.executionHandle) { assert !About(s, j, r.executionHandle); }
  }

  lemma WritingEmpties(jobIdOf: Handle -> JobId, c: Config, s: Sys, world: World, beat: Beat, i: int, r: ControlRecord)
    requires Injective(jobIdOf) && Sane(jobIdOf, c, s) && Named(jobIdOf, r) && Undisturbed(s, world, i, r)
    requires Allowed(jobIdOf, s, world, beat) && WritesCleaned(c, s, beat.move, i, r)
    ensures Emptied(Step(c, s, beat.move), beat.after, r)
  {
    OnlyStoredIsWritten(c, s, beat.move, i, r);
    NobodyAboutAfterWrite(c, s, beat.move, i, r);
    NothingAppears(jobIdOf, s, world, beat, r.executionHandle);
    EmptyIsNothing(beat.after, r.jobId);
  }

  /** An await of the cleanup itself adds what it has just read. */
  lemma OwnReadIsTrue(jobIdOf: Handle -> JobId, s: Sys, world: World, beat: Beat, i: int, r: ControlRecord)
    requires Allowed(jobIdOf, s, world, beat) && beat.move.Resume? && beat.move.handler == i && i in s.handlers
    ensures s.handlers[i].CleanRelisting? && s.handlers[i].record == r && beat.move.answer.executions == ExecutionsFound([]) ==>
              !HasExecution(beat.after, r.jobId)
    ensures s.handlers[i].CleanRereadingJob? && s.handlers[i].record == r && beat.move.answer.job == JobMissing ==>
              r.jobId !in beat.after.jobs
  {
    hide HasExecution;
    if s.handlers[i].CleanRelisting? && beat.move.answer.executions == ExecutionsFound([]) && s.handlers[i].record == r {
      NoneListed(r.jobId, beat.after);
    }
  }

  lemma OwnReadHolds(jobIdOf: Handle -> JobId, c: Config, s: Sys, world: World, beat: Beat, i: int, r: ControlRecord)
    requires Injective(jobIdOf) && Sane(jobIdOf, c, s) && Named(jobIdOf, r) && Undisturbed(s, world, i, r)
    requires Allowed(jobIdOf, s, world, beat) && beat.move.Resume? && beat.move.handler == i && r.state != CLEANED
    ensures i in Step(c, s, beat.move).handlers && ReadSoFar(Step(c, s, beat.move).handlers[i], r, beat.after)
  {
    var pc := s.handlers[i];
    NothingAppears(jobIdOf, s, world, beat, r.executionHandle);
    OwnReadIsTrue(jobIdOf, s, world, beat, i, r);
    if !pc.Done? && !pc.Thrown? { ReadBackOnly(c, s.db, pc, beat.move.now, beat.move.answer); }
    hide Sane, Injective, Named, NobodyAbout, Advance, HasExecution, Allowed, StoredStill;
  }

  lemma NoneListed(id: JobId, world: World)
    requires TruthfulList(id, ExecutionsFound([]), world)
    ensures !HasExecution(world, id)
  {
    forall uid | uid in world.executions ensures world.executions[uid].jobRef != id { assert !Listed([], 0, uid); }
  }

  lemma UndisturbedGoesOn(jobIdOf: Handle -> JobId, c: Config, s: Sys, world: World, beat: Beat, i: int, r: ControlRecord)
    requires Injective(jobIdOf) && Sane(jobIdOf, c, s) && Named(jobIdOf, r) && Undisturbed(s, world, i, r)
    requires Allowed(jobIdOf, s, world, beat) && r.state != CLEANED && StoredStill(Step(c, s, beat.move), r)
    ensures Undisturbed(Step(c, s, beat.move), beat.after, i, r)
  {
    UnchangedLicensesNothing(c, s, beat.move, r);
    NothingAppears(jobIdOf, s, world, beat, r.executionHandle);
    if beat.move.handler == i && beat.move.Resume? { OwnReadHolds(jobIdOf, c, s, world, beat, i, r); }
  }

  /** Where a continuation of the cleanup stands. */
  ghost predicate Stands(s: Sys, world: World, i: int, r: ControlRecord, closed: bool) {
    if closed then Emptied(s, world, r) else Undisturbed(s, world, i, r) || Superseded(s, r)
  }

  lemma StandsAfter(jobIdOf: Handle -> JobId, c: Config, s: Sys, world: World, beat: Beat, i: int, r: ControlRecord, closed: bool)
    requires Injective(jobIdOf) && Sane(jobIdOf, c, s) && Named(jobIdOf, r) && r.state != CLEANED
    requires Stands(s, world, i, r, closed) && Allowed(jobIdOf, s, world, beat)
    ensures Stands(Step(c, s, beat.move), beat.after, i, r, closed || WritesCleaned(c, s, beat.move, i, r))
  {
    hide SysInv, AllNamed, Allowed, Step, Emptied, WritesCleaned, ReadSoFar, NobodyAbout, Named, Injective;
    if closed {
      EmptiedStays(jobIdOf, c, s, world, beat, r);
    } else if WritesCleaned(c, s, beat.move, i, r) {
      OnlyStoredIsWritten(c, s, beat.move, i, r);
      WritingEmpties(jobIdOf, c, s, world, beat, i, r);
    } else {
      StoredOrSuperseded(c, s, beat.move, r);
      if StoredStill(Step(c, s, beat.move), r) && Undisturbed(s, world, i, r) {
        UndisturbedGoesOn(jobIdOf, c, s, world, beat, i, r);
      }
    }
  }

  lemma {:induction false} StandsAlong(jobIdOf: Handle -> JobId, c: Config, s: Sys, world: World, beats: seq<Beat>,
                                       i: int, r: ControlRecord)
    requires Injective(jobIdOf) && Sane(jobIdOf, c, s) && Named(jobIdOf, r) && r.state != CLEANED
    requires Undisturbed(s, world, i, r) && Provided(jobIdOf, c, s, world, beats)
    ensures Stands(SysAfter(c, s, beats), WorldAfter(world, beats), i, r, Closes(c, s, beats, i, r))
  {
    hide Sane, Allowed, Step, Stands, Undisturbed, WritesCleaned, Named, Injective;
    if beats == [] {
      assert SysAfter(c, s, []) == s;
      assert Stands(s, world, i, r, false) by { StandsAtFirst(s, world, i, r); }
    } else {
      var before := beats[..|beats| - 1];
      StandsAlong(jobIdOf, c, s, world, before, i, r);
      RunStaysSane(jobIdOf, c, s, world, before);
      StandsAfter(jobIdOf, c, SysAfter(c, s, before), WorldAfter(world, before), beats[|beats| - 1], i, r,
                  Closes(c, s, before, i, r));
      SysAfterMore(c, s, beats);
    }
  }

  lemma StandsAtFirst(s: Sys, world: World, i: int, r: ControlRecord)
    requires Undisturbed(s, world, i, r)
    ensures Stands(s, world, i, r, false)
  {
  }

  // ---------------------------------------------------------------- the exact condition

  /** Whatever happens next, if the cleanup's write of CLEANED applies, the provider holds nothing for the record, then
      and later. */
  ghost predicate LeavesEmpty(jobIdOf: Handle -> JobId, c: Config, s: Sys, world: World, i: int, r: ControlRecord) {
    forall beats: seq<Beat> :: Provided(jobIdOf, c, s, world, beats) && Closes(c, s, beats, i, r) ==>
      WorldAfter(world, beats).Empty(r.jobId)
  }

  lemma NobodyAboutSuffices(jobIdOf: Handle -> JobId, c: Config, s: Sys, world: World, i: int)
    requires Injective(jobIdOf) && Sane(jobIdOf, c, s)
    requires i in s.handlers && s.handlers[i].CleanRelisting? && s.handlers[i].record.state != CLEANED
    requires StoredStill(s, s.handlers[i].record) && NobodyAbout(s, s.handlers[i].record.executionHandle)
    ensures LeavesEmpty(jobIdOf, c, s, world, i, s.handlers[i].record)
  {
    var r := s.handlers[i].record;
    assert PcNamed(jobIdOf, s.handlers[i]);
    hide Sane, Provided, NobodyAbout;
    forall beats: seq<Beat> | Provided(jobIdOf, c, s, world, beats) && Closes(c, s, beats, i, r)
      ensures WorldAfter(world, beats).Empty(r.jobId)
    {
      StandsAlong(jobIdOf, c, s, world, beats, i, r);
    }
  }

  // ---------------------------------------------------------------- the failing continuation

  lemma {:induction false} FreshUid(uids: set<Uid>) returns (next: Uid)
    ensures forall uid :: uid in uids ==> uid < next
  {
    next := 0;
    if uids != {} {
      var uid := Pick(uids);
      var other := FreshUid(uids - {uid});
      assert forall x :: x in uids ==> x == uid || x in uids - {uid};
      next := if uid < other then other else uid + 1;
    }
  }

  /** What the provider holds when the call of the handler at `pc` takes effect. */
  function Effect(pc: Pc, world: World, uid: Uid): World
    requires pc.CreatingJob? || (pc.RunningJob? && pc.record.job.Some?)
  {
    if pc.CreatingJob? then
      world.(jobs := world.jobs[pc.record.jobId := ProviderJob(pc.record.jobId, uid, 0, false)])
    else
      world.(executions := world.executions[uid := ProviderExecution(uid, 0, pc.record.job.value.ref, ExecPending)])
  }

  const EMPTY_READ := Answer(MutationUnknown, OperationNotFailed, JobMissing, ExecutionsFound([]), 0, 0)

  lemma Appended(jobIdOf: Handle -> JobId, c: Config, s: Sys, world: World, beats: seq<Beat>, beat: Beat)
    requires Provided(jobIdOf, c, s, world, beats)
    requires Allowed(jobIdOf, SysAfter(c, s, beats), WorldAfter(world, beats), beat)
    ensures Provided(jobIdOf, c, s, world, beats + [beat])
    ensures SysAfter(c, s, beats + [beat]) == Step(c, SysAfter(c, s, beats), beat.move)
    ensures WorldAfter(world, beats + [beat]) == beat.after
  {
    hide Allowed, Step, WritesCleaned;
    assert (beats + [beat])[..|beats|] == beats;
    SysAfterMore(c, s, beats + [beat]);
  }

  lemma Resumes(c: Config, s: Sys, i: int, now: Time, answer: Answer)
    requires i in s.handlers
    ensures
      var s' := Step(c, s, Resume(i, now, answer));
      var (db', pc') := Advance(c, s.db, s.handlers[i], now, answer);
      s'.db == db' && s'.handlers == s.handlers[i := pc']
  {
    hide Advance, ClaimedAfter, AcceptedAfter, Pending;
  }

  lemma ReadsNothing(c: Config, db: F.Database, r: ControlRecord, ret: Ret)
    ensures Advance(c, db, CleanRelisting(r, ret), 0, EMPTY_READ) == (db, CleanRereadingJob(r, true, ret))
    ensures Advance(c, db, CleanRereadingJob(r, true, ret), 0, EMPTY_READ) == (db, Updating(r, CleanedUp(r), AfterReturn, ret))
  {
  }

  /** With a provider that holds nothing of the record, reading just that is truthful. */
  lemma NothingIsRead(jobIdOf: Handle -> JobId, s: Sys, world: World, i: int, now: Time)
    requires i in s.handlers && (s.handlers[i].CleanRelisting? || s.handlers[i].CleanRereadingJob? || s.handlers[i].Updating?)
    requires Copy(s.handlers[i]).Some? && world.Empty(Copy(s.handlers[i]).value.jobId)
    ensures Allowed(jobIdOf, s, world, Beat(Resume(i, now, EMPTY_READ), world))
  {
  }

  /** The system stands with this store and these handlers, and the provider holds what it held. */
  predicate Reaches(jobIdOf: Handle -> JobId, c: Config, s: Sys, world: World, beats: seq<Beat>,
                    db: F.Database, handlers: map<int, Pc>) {
    && Provided(jobIdOf, c, s, world, beats) && WorldAfter(world, beats) == world
    && SysAfter(c, s, beats).db == db && SysAfter(c, s, beats).handlers == handlers
  }

  /** One more await of the cleanup, with nothing to be read. */
  lemma OwnAwait(jobIdOf: Handle -> JobId, c: Config, s: Sys, world: World, i: int, beats: seq<Beat>, now: Time,
                 db: F.Database, handlers: map<int, Pc>)
    requires Reaches(jobIdOf, c, s, world, beats, db, handlers) && i in handlers
    requires handlers[i].CleanRelisting? || handlers[i].CleanRereadingJob? || handlers[i].Updating?
    requires world.Empty(Copy(handlers[i]).value.jobId)
    ensures
      var (db', pc') := Advance(c, db, handlers[i], now, EMPTY_READ);
      Reaches(jobIdOf, c, s, world, beats + [Beat(Resume(i, now, EMPTY_READ), world)], db', handlers[i := pc'])
  {
    hide Advance, Step, Allowed, Provided, SysAfter, WorldAfter;
    NothingIsRead(jobIdOf, SysAfter(c, s, beats), world, i, now);
    Appended(jobIdOf, c, s, world, beats, Beat(Resume(i, now, EMPTY_READ), world));
    Resumes(c, SysAfter(c, s, beats), i, now, EMPTY_READ);
  }

  lemma AtFirst(jobIdOf: Handle -> JobId, c: Config, s: Sys, world: World)
    ensures Reaches(jobIdOf, c, s, world, [], s.db, s.handlers)
  {
    assert SysAfter(c, s, []) == s;
  }

  /** The cleanup lists nothing and reads nothing, one after the other. */
  lemma ReadsBack(jobIdOf: Handle -> JobId, c: Config, s: Sys, world: World, i: int) returns (beats: seq<Beat>)
    requires i in s.handlers && s.handlers[i].CleanRelisting? && world.Empty(s.handlers[i].record.jobId)
    ensures
      var r, ret := s.handlers[i].record, s.handlers[i].ret;
      Reaches(jobIdOf, c, s, world, beats, s.db, s.handlers[i := Updating(r, CleanedUp(r), AfterReturn, ret)])
  {
    hide Reaches, Advance, CleanedUp;
    var r, ret := s.handlers[i].record, s.handlers[i].ret;
    var first := Beat(Resume(i, 0, EMPTY_READ), world);
    AtFirst(jobIdOf, c, s, world);
    ReadsNothing(c, s.db, r, ret);
    OwnAwait(jobIdOf, c, s, world, i, [], 0, s.db, s.handlers);
    var handlers := s.handlers[i := CleanRereadingJob(r, true, ret)];
    OwnAwait(jobIdOf, c, s, world, i, [] + [first], 0, s.db, handlers);
    beats := [] + [first] + [first];
    assert handlers[i := Updating(r, CleanedUp(r), AfterReturn, ret)]
        == s.handlers[i := Updating(r, CleanedUp(r), AfterReturn, ret)];
  }

  /** Then it writes CLEANED, and the write applies. */
  lemma ReadsBackAtOnce(jobIdOf: Handle -> JobId, c: Config, s: Sys, world: World, i: int) returns (beats: seq<Beat>)
    requires Sane(jobIdOf, c, s) && i in s.handlers && s.handlers[i].CleanRelisting?
    requires StoredStill(s, s.handlers[i].record) && s.handlers[i].record.state != CLEANED
    requires world.Empty(s.handlers[i].record.jobId)
    ensures Provided(jobIdOf, c, s, world, beats) && WorldAfter(world, beats) == world
    ensures Closes(c, s, beats, i, s.handlers[i].record)
    ensures forall j :: j in s.handlers && j != i ==>
      j in SysAfter(c, s, beats).handlers && SysAfter(c, s, beats).handlers[j] == s.handlers[j]
  {
    var r, ret := s.handlers[i].record, s.handlers[i].ret;
    StoredSwapApplies(c, s, r);
    hide Sane, Step, Advance, F.CompareAndSet, Provided, SysAfter, WorldAfter;
    var read := ReadsBack(jobIdOf, c, s, world, i);
    var last := Beat(Resume(i, r.updatedAt, EMPTY_READ), world);
    OwnAwait(jobIdOf, c, s, world, i, read, r.updatedAt, s.db, s.handlers[i := Updating(r, CleanedUp(r), AfterReturn, ret)]);
    beats := read + [last];
    assert beats[..|beats| - 1] == read;
    assert WritesCleaned(c, SysAfter(c, s, read), last.move, i, r);
  }

  lemma StoredSwapApplies(c: Config, s: Sys, r: ControlRecord)
    requires SysInv(c, s) && StoredStill(s, r) && r.state != CLEANED
    ensures F.CompareAndSet(c.auth, s.db, r.version, Touch(CleanedUp(r), r.updatedAt)).1 == Applied
  {
    F.CasKeepsInv(c.auth, s.db, r.version, Touch(CleanedUp(r), r.updatedAt));
  }

  lemma EffectIsProvided(jobIdOf: Handle -> JobId, s: Sys, world: World, j: int, handle: Handle, uid: Uid)
    requires AllNamed(jobIdOf, s) && About(s, j, handle) && forall x :: x in world.executions ==> x < uid
    ensures s.handlers[j].CreatingJob? || (s.handlers[j].RunningJob? && s.handlers[j].record.job.Some?)
    ensures Allowed(jobIdOf, s, world, Beat(Resume(j, 0, EMPTY_READ), Effect(s.handlers[j], world, uid)))
    ensures !Effect(s.handlers[j], world, uid).Empty(jobIdOf(handle))
  {
    assert PcNamed(jobIdOf, s.handlers[j]);
    assert s.handlers[j].record.executionHandle == handle;
    var after := Effect(s.handlers[j], world, uid);
    assert s.handlers[j].RunningJob? ==> uid in after.executions && after.executions[uid].jobRef == jobIdOf(handle);
  }

  lemma StaysAbout(s: Sys, s': Sys, j: int, handle: Handle)
    requires About(s, j, handle) && j in s'.handlers && s'.handlers[j] == s.handlers[j]
    ensures About(s', j, handle)
  {
  }

  lemma Spoiled(jobIdOf: Handle -> JobId, c: Config, s: Sys, world: World, i: int, r: ControlRecord, beats: seq<Beat>, call: Beat)
    requires Provided(jobIdOf, c, s, world, beats) && Closes(c, s, beats, i, r)
    requires Allowed(jobIdOf, SysAfter(c, s, beats), WorldAfter(world, beats), call) && !call.after.Empty(r.jobId)
    ensures !LeavesEmpty(jobIdOf, c, s, world, i, r)
  {
    hide Allowed, SysAfter, Step, Provided, World.Empty;
    Appended(jobIdOf, c, s, world, beats, call);
    assert (beats + [call])[..|beats|] == beats;
    assert Closes(c, s, beats + [call], i, r);
  }

  lemma SomebodyAboutSpoils(jobIdOf: Handle -> JobId, c: Config, s: Sys, world: World, i: int, j: int)
    requires Sane(jobIdOf, c, s) && i in s.handlers && s.handlers[i].CleanRelisting?
    requires StoredStill(s, s.handlers[i].record) && s.handlers[i].record.state != CLEANED
    requires world.Empty(s.handlers[i].record.jobId) && About(s, j, s.handlers[i].record.executionHandle)
    ensures !LeavesEmpty(jobIdOf, c, s, world, i, s.handlers[i].record)
  {
    var r := s.handlers[i].record;
    assert PcNamed(jobIdOf, s.handlers[i]) && j in s.handlers && j != i;
    hide SysInv, AllNamed, Provided, Allowed, Effect, SysAfter, Step, Closes, About, PcNamed, World.Empty;
    var beats := ReadsBackAtOnce(jobIdOf, c, s, world, i);
    var s3 := SysAfter(c, s, beats);
    StaysAbout(s, s3, j, r.executionHandle);
    RunStaysSane(jobIdOf, c, s, world, beats);
    var uid := FreshUid(world.executions.Keys);
    EffectIsProvided(jobIdOf, s3, world, j, r.executionHandle, uid);
    Spoiled(jobIdOf, c, s, world, i, r, beats, Beat(Resume(j, 0, EMPTY_READ), Effect(s3.handlers[j], world, uid)));
  }

  // ---------------------------------------------------------------- runs beside a provider that holds nothing

  const VOID := World(map[], map[])

  /** Every await that asks the provider gets the answer of one that holds nothing. */
  predicate Quiet(jobIdOf: Handle -> JobId, move: Move) {
    match move
    case Spawn(_, incoming, _) => incoming.Execute? ==> incoming.jobId == jobIdOf(incoming.request.executionHandle)
    case Resume(_, _, answer) => answer == EMPTY_READ
  }

  function Still(moves: seq<Move>): (beats: seq<Beat>)
    ensures |beats| == |moves| && forall k :: 0 <= k < |moves| ==> beats[k] == Beat(moves[k], VOID)
  {
    seq(|moves|, k requires 0 <= k < |moves| => Beat(moves[k], VOID))
  }

  lemma QuietIsAllowed(jobIdOf: Handle -> JobId, s: Sys, move: Move)
    requires AllNamed(jobIdOf, s) && Quiet(jobIdOf, move)
    ensures Allowed(jobIdOf, s, VOID, Beat(move, VOID))
  {
    assert !HasExecution(VOID, 0);
    if move.Resume? && move.handler in s.handlers { assert PcNamed(jobIdOf, s.handlers[move.handler]); }
  }

  lemma {:induction false} QuietRun(jobIdOf: Handle -> JobId, c: Config, now: Time, moves: seq<Move>)
    requires F.AuthorizationSchema(c.auth) && forall k :: 0 <= k < |moves| ==> Quiet(jobIdOf, moves[k])
    ensures Provided(jobIdOf, c, Initial(c, now), VOID, Still(moves))
    ensures SysAfter(c, Initial(c, now), Still(moves)) == Run(c, Initial(c, now), moves)
    ensures WorldAfter(VOID, Still(moves)) == VOID
  {
    hide Quiet, Allowed, Sane, Run;
    assert Moves(Still(moves)) == moves;
    if moves != [] {
      var n := |moves| - 1;
      QuietRun(jobIdOf, c, now, moves[..n]);
      assert Still(moves)[..n] == Still(moves[..n]);
      InitiallySane(jobIdOf, c, now);
      RunStaysSane(jobIdOf, c, Initial(c, now), VOID, Still(moves[..n]));
      assert AllNamed(jobIdOf, SysAfter(c, Initial(c, now), Still(moves[..n]))) by { SaneIsNamed(jobIdOf, c, SysAfter(c, Initial(c, now), Still(moves[..n]))); }
      QuietIsAllowed(jobIdOf, SysAfter(c, Initial(c, now), Still(moves[..n])), moves[n]);
    }
  }

  lemma SaneIsNamed(jobIdOf: Handle -> JobId, c: Config, s: Sys)
    requires Sane(jobIdOf, c, s)
    ensures AllNamed(jobIdOf, s)
  {
  }

  // ---------------------------------------------------------------- what CLEANED means

  lemma InitiallySane(jobIdOf: Handle -> JobId, c: Config, now: Time)
    requires F.AuthorizationSchema(c.auth)
    ensures Sane(jobIdOf, c, Initial(c, now))
  {
    RunKeepsInv(c, now, []);
  }

  /** In any run beside a provider: as a cleanup goes to read back what it deleted, holding the record as it is stored, the
      provider will be empty once and for all when its CLEANED is written, exactly when no handler is about to create or run
      for the handle at that moment.  If somebody is, a provider that holds nothing is enough to go wrong. */
  lemma CleanedMeansEmptyExactly(jobIdOf: Handle -> JobId, c: Config, now: Time, start: World, before: seq<Beat>, i: int)
    requires F.AuthorizationSchema(c.auth) && Injective(jobIdOf)
    requires Provided(jobIdOf, c, Initial(c, now), start, before)
    ensures
      var s := SysAfter(c, Initial(c, now), before);
      i in s.handlers && s.handlers[i].CleanRelisting? && StoredStill(s, s.handlers[i].record)
      && s.handlers[i].record.state != CLEANED ==>
        var r := s.handlers[i].record;
        && ((forall world :: LeavesEmpty(jobIdOf, c, s, world, i, r)) <==> NobodyAbout(s, r.executionHandle))
        && (forall world: World :: world.Empty(r.jobId) ==>
              (LeavesEmpty(jobIdOf, c, s, world, i, r) <==> NobodyAbout(s, r.executionHandle)))
  {
    var s := SysAfter(c, Initial(c, now), before);
    InitiallySane(jobIdOf, c, now);
    RunStaysSane(jobIdOf, c, Initial(c, now), start, before);
    hide SysAfter, Sane, LeavesEmpty;
    if i in s.handlers && s.handlers[i].CleanRelisting? && StoredStill(s, s.handlers[i].record)
       && s.handlers[i].record.state != CLEANED {
      var r := s.handlers[i].record;
      if NobodyAbout(s, r.executionHandle) {
        forall world ensures LeavesEmpty(jobIdOf, c, s, world, i, r) { NobodyAboutSuffices(jobIdOf, c, s, world, i); }
      } else {
        var j :| About(s, j, r.executionHandle);
        forall world: World | world.Empty(r.jobId) ensures !LeavesEmpty(jobIdOf, c, s, world, i, r) {
          SomebodyAboutSpoils(jobIdOf, c, s, world, i, j);
        }
        assert World(map[], map[]).Empty(r.jobId);
      }
    }
  }
}

/** What must happen, whatever other handlers do in between: an admitted create asks the provider for its job, and a reconcile that
    finds its job ready and nothing running asks the provider to run it. */
module ControllerProgress {
  import opened ControllerTypes
  import opened ControllerPolicy
  import opened ControllerMachine
  import opened ControllerSafety
  import opened ControllerRuns
  import T = ControllerTable
  import F = FirestoreStore

  /** Any moves of others, and then one await of the handler itself. */
  datatype Leg = Leg(others: seq<Move>, now: Time, answer: Answer)

  predicate OfOthers(i: int, leg: Leg) {
    forall k :: 0 <= k < |leg.others| ==> leg.others[k].handler != i
  }

  /** Where the others take the system, and where the handler's own await then takes it. */
  function Before(c: Config, s: Sys, leg: Leg): Sys {
    Run(c, s, leg.others)
  }

  function Took(c: Config, s: Sys, i: int, leg: Leg): Sys {
    Step(c, Before(c, s, leg), Resume(i, leg.now, leg.answer))
  }

  /** Nobody has touched the record since the handler got to hold it, and it is not CLEANED. */
  predicate Untouched(s: Sys, r: ControlRecord, now: Time) {
    && r.executionHandle in s.db.executions && s.db.executions[r.executionHandle] == r
    && r.state != CLEANED && r.updatedAt <= now
  }

  lemma LegSteps(c: Config, s: Sys, i: int, leg: Leg)
    requires SysInv(c, s) && i in s.handlers && OfOthers(i, leg)
    ensures
      var m, s' := Before(c, s, leg), Took(c, s, i, leg);
      && SysInv(c, m) && SysInv(c, s') && i in m.handlers && i in s'.handlers
      && m.handlers[i] == s.handlers[i]
      && (s'.db, s'.handlers[i]) == Advance(c, m.db, s.handlers[i], leg.now, leg.answer)
      && s'.calls == m.calls + (if Pending(s.handlers[i]).Some? then [Pending(s.handlers[i]).value] else [])
  {
    hide SysInv, Run, Advance;
    OthersLeaveMine(c, s, leg.others, i);
    StepKeepsInv(c, Before(c, s, leg), Resume(i, leg.now, leg.answer));
  }

  /** A write to an untouched record applies. */
  lemma WriteApplies(c: Config, s: Sys, base: ControlRecord, changed: ControlRecord, now: Time)
    requires SysInv(c, s) && Untouched(s, base, now)
    requires F.RecordSchema(changed) && SameIdentity(base, changed)
    requires changed.executionHandle == base.executionHandle
    requires changed.version == base.version && changed.expiresAt == base.expiresAt
    ensures
      var next := T.Stamped(changed, now);
      var (db', outcome) := F.CompareAndSet(c.auth, s.db, base.version, next);
      outcome == Applied && base.executionHandle in db'.executions && db'.executions[base.executionHandle] == next
  {
    F.CasKeepsInv(c.auth, s.db, base.version, T.Stamped(changed, now));
  }

  // ---------------------------------------------------------------- one write and what follows it

  /** The handler is about to replace `base` by `next` and then to call. */
  ghost predicate WillCall(c: Config, s: Sys, i: int, base: ControlRecord, next: ControlRecord, ret: Ret, kind: CallKind) {
    && i in s.handlers && T.RecordsThenCalls(c, s.handlers[i], base, next, ret, kind)
    && SameIdentity(base, next) && next.expiresAt == base.expiresAt && next.version == base.version
    && next.executionHandle == base.executionHandle && F.RecordSchema(next)
  }

  /** It has done both: the record is stored so, and the call is the latest of the log. */
  predicate HasCalled(stored: Sys, m: Sys, s: Sys, next: ControlRecord, now: Time, kind: CallKind) {
    && next.executionHandle in stored.db.executions
    && stored.db.executions[next.executionHandle] == T.Stamped(next, now)
    && s.calls == m.calls + [Call(next.executionHandle, kind)]
  }

  lemma WriteThenCall(c: Config, s: Sys, i: int, base: ControlRecord, next: ControlRecord, ret: Ret, kind: CallKind,
                      write: Leg, call: Leg)
    requires SysInv(c, s) && WillCall(c, s, i, base, next, ret, kind) && OfOthers(i, write) && OfOthers(i, call)
    requires Untouched(Before(c, s, write), base, write.now)
    ensures
      var s1 := Took(c, s, i, write);
      HasCalled(s1, Before(c, s1, call), Took(c, s1, i, call), next, write.now, kind)
  {
    hide SysInv, Run, Advance, Step, F.CompareAndSet, F.RecordSchema, Before, Took, SameIdentity;
    var pc, m := s.handlers[i], Before(c, s, write);
    LegSteps(c, s, i, write);
    WriteApplies(c, m, base, next, write.now);
    AppliedAdvances(c, m.db, pc, next, write.now, write.answer);
    LegSteps(c, Took(c, s, i, write), i, call);
  }

  lemma AppliedAdvances(c: Config, db: F.Database, pc: Pc, next: ControlRecord, now: Time, answer: Answer)
    requires pc.Updating? && pc.changed == next && T.Applies(c, db, pc, now)
    ensures Advance(c, db, pc, now, answer).0 == F.CompareAndSet(c.auth, db, pc.base.version, T.Stamped(next, now)).0
  {
  }

  lemma HoldsParsed(c: Config, s: Sys, i: int)
    requires SysInv(c, s) && i in s.handlers && Copy(s.handlers[i]).Some?
    ensures F.RecordSchema(Copy(s.handlers[i]).value)
  {
  }

  // ---------------------------------------------------------------- what a reconcile reads

  predicate AcceptedReconcile(c: Config, s: Sys, pc: Pc, r: ControlRecord) {
    && pc.Claiming? && pc.claim.request.action == Reconcile && F.Claim(c.auth, s.db, pc.claim).1 == Accepted(r)
  }

  predicate ReadsToRun(pc: Pc, r: ControlRecord, ret: Ret) {
    pc.GettingJob? && pc.record == r && pc.allowRun && pc.ret == ret
  }

  /** An accepted reconcile of such a record reads the operation that was to create the job, if one is known, and then the job, which
      it may run. */
  lemma ReconcileReadsJob(c: Config, s: Sys, i: int, r: ControlRecord, claim: Leg, operation: Leg)
    requires SysInv(c, s) && i in s.handlers && OfOthers(i, claim) && OfOthers(i, operation)
    requires AcceptedReconcile(c, Before(c, s, claim), s.handlers[i], r) && T.ToBeRun(r)
    ensures
      var ret := Respond(s.handlers[i].claim.request);
      var s1 := Took(c, s, i, claim);
      var s2 := Took(c, s1, i, operation);
      && SysInv(c, s1) && SysInv(c, s2) && i in s1.handlers && i in s2.handlers
      && ReadsToRun(if r.operationRef == None then s1.handlers[i] else s2.handlers[i], r, ret)
  {
    var pc, m := s.handlers[i], Before(c, s, claim);
    T.ClaimsAnswered(c, m.db, pc, claim.now, claim.answer);
    hide SysInv, Run, Advance, Step, F.Claim, Before, Took;
    LegSteps(c, s, i, claim);
    var s1 := Took(c, s, i, claim);
    assert T.Serves(s1.handlers[i], pc.claim.request, r);
    assert T.ReadsJob(s1.handlers[i], r, true, Respond(pc.claim.request));
    LegSteps(c, s1, i, operation);
    OperationIsRead(c, Before(c, s1, operation).db, s1.handlers[i], operation.now, operation.answer);
  }

  lemma OperationIsRead(c: Config, db: F.Database, pc: Pc, now: Time, answer: Answer)
    ensures pc.GettingOperation? ==>
      var pc' := Advance(c, db, pc, now, answer).1;
      pc'.GettingJob? && pc'.record == pc.record && pc'.allowRun == pc.allowRun && pc'.ret == pc.ret
  {
  }

  // ---------------------------------------------------------------- the job is run

  /** The record a handler writes when it finds this job ready, and the one it writes when it claims the run. */
  function Sighted(r: ControlRecord, job: ProviderJob): ControlRecord {
    r.(state := JOB_READY, job := Some(job), errorCode := None)
  }

  function ToRun(r: ControlRecord): ControlRecord {
    r.(state := RUN_INTENT, runIntent := true)
  }

  /** The handler may run the job, and this await of its own shows the job ready and as it was made. */
  predicate FindsReadyJob(pc: Pc, read: JobRead) {
    && pc.GettingJob? && pc.allowRun && !pc.record.runIntent
    && read.JobFound? && read.manifestMatches && read.job.ready
  }

  lemma ReadyJobIsWritten(c: Config, s: Sys, i: int, read: Leg)
    requires SysInv(c, s) && i in s.handlers && OfOthers(i, read)
    requires FindsReadyJob(s.handlers[i], read.answer.job)
    ensures
      var s1, pc := Took(c, s, i, read), s.handlers[i];
      && SysInv(c, s1) && i in s1.handlers
      && T.NotesJob(c, s1.handlers[i], pc.record, Sighted(pc.record, read.answer.job.job), true, pc.ret)
      && F.RecordSchema(pc.record)
  {
    var pc := s.handlers[i];
    HoldsParsed(c, s, i);
    T.JobFoundThen(c, pc, read.answer);
    hide SysInv, Run, Step, Before, Took, T.NotesJob, T.Records, F.RecordSchema;
    LegSteps(c, s, i, read);
  }

  /** It notes the job, and then lists its executions. */
  lemma ReadyJobIsNoted(c: Config, s: Sys, i: int, read: Leg, note: Leg)
    requires SysInv(c, s) && i in s.handlers && OfOthers(i, read) && OfOthers(i, note)
    requires FindsReadyJob(s.handlers[i], read.answer.job)
    requires Untouched(Before(c, Took(c, s, i, read), note), s.handlers[i].record, note.now)
    ensures
      var s2 := Took(c, Took(c, s, i, read), i, note);
      && SysInv(c, s2) && i in s2.handlers
      && s2.handlers[i] == ListingForRun(T.Stamped(Sighted(s.handlers[i].record, read.answer.job.job), note.now),
                                         s.handlers[i].ret)
  {
    hide SysInv, Run, Step, Advance, Before, Took, F.CompareAndSet, Untouched;
    var r, s1 := s.handlers[i].record, Took(c, s, i, read);
    ReadyJobIsWritten(c, s, i, read);
    LegSteps(c, s1, i, note);
    WriteApplies(c, Before(c, s1, note), r, Sighted(r, read.answer.job.job), note.now);
  }

  lemma NothingListedIsClaimed(c: Config, s: Sys, i: int, list: Leg)
    requires SysInv(c, s) && i in s.handlers && OfOthers(i, list)
    requires s.handlers[i].ListingForRun? && s.handlers[i].record.job.Some? && list.answer.executions == ExecutionsFound([])
    ensures
      var s1, pc := Took(c, s, i, list), s.handlers[i];
      SysInv(c, s1) && WillCall(c, s1, i, pc.record, ToRun(pc.record), pc.ret, CallRunJob)
  {
    HoldsParsed(c, s, i);
    T.ListedForRun(c, s.handlers[i], list.answer);
    hide SysInv, Run, Step, Before, Took, T.RecordsThenCalls, T.Records, T.TakesOver;
    LegSteps(c, s, i, list);
  }

  /** In any run: a handler that may run its job finds it ready, notes it, and finds no execution of it.  Whatever others do in
      between, if both its writes meet the record as it left it, the run intent is stored and its next await asks the provider to run
      the job. */
  lemma ReadyJobIsRun(c: Config, now: Time, moves: seq<Move>, i: int, read: Leg, note: Leg, list: Leg, claim: Leg, call: Leg)
    requires F.AuthorizationSchema(c.auth)
    requires OfOthers(i, read) && OfOthers(i, note) && OfOthers(i, list) && OfOthers(i, claim) && OfOthers(i, call)
    ensures
      var s := Run(c, Initial(c, now), moves);
      i in s.handlers && FindsReadyJob(s.handlers[i], read.answer.job) && list.answer.executions == ExecutionsFound([]) ==>
        var r := s.handlers[i].record;
        var s1 := Took(c, s, i, read);
        var s2 := Took(c, s1, i, note);
        var s3 := Took(c, s2, i, list);
        var s4 := Took(c, s3, i, claim);
        var sighted := T.Stamped(Sighted(r, read.answer.job.job), note.now);
        Untouched(Before(c, s1, note), r, note.now) && Untouched(Before(c, s3, claim), sighted, claim.now) ==>
          HasCalled(s4, Before(c, s4, call), Took(c, s4, i, call), ToRun(sighted), claim.now, CallRunJob)
  {
    RunKeepsInv(c, now, moves);
    hide *;
    var s := Run(c, Initial(c, now), moves);
    if i in s.handlers && FindsReadyJob(s.handlers[i], read.answer.job) && list.answer.executions == ExecutionsFound([]) {
      RunFollows(c, s, i, read, note, list, claim, call);
    }
  }

  lemma RunFollows(c: Config, s: Sys, i: int, read: Leg, note: Leg, list: Leg, claim: Leg, call: Leg)
    requires SysInv(c, s) && i in s.handlers
    requires OfOthers(i, read) && OfOthers(i, note) && OfOthers(i, list) && OfOthers(i, claim) && OfOthers(i, call)
    requires FindsReadyJob(s.handlers[i], read.answer.job) && list.answer.executions == ExecutionsFound([])
    ensures
      var s1 := Took(c, s, i, read);
      var s3 := Took(c, Took(c, s1, i, note), i, list);
      var s4 := Took(c, s3, i, claim);
      var sighted := T.Stamped(Sighted(s.handlers[i].record, read.answer.job.job), note.now);
      Untouched(Before(c, s1, note), s.handlers[i].record, note.now) && Untouched(Before(c, s3, claim), sighted, claim.now) ==>
        HasCalled(s4, Before(c, s4, call), Took(c, s4, i, call), ToRun(sighted), claim.now, CallRunJob)
  {
    hide SysInv, Run, Step, Before, Took, Untouched, HasCalled, WillCall, OfOthers, ToRun;
    var s1 := Took(c, s, i, read);
    var s2 := Took(c, s1, i, note);
    var s3 := Took(c, s2, i, list);
    var sighted := T.Stamped(Sighted(s.handlers[i].record, read.answer.job.job), note.now);
    if Untouched(Before(c, s1, note), s.handlers[i].record, note.now) && Untouched(Before(c, s3, claim), sighted, claim.now) {
      ReadyJobIsNoted(c, s, i, read, note);
      NothingListedIsClaimed(c, s2, i, list);
      WriteThenCall(c, s3, i, sighted, ToRun(sighted), s.handlers[i].ret, CallRunJob, claim, call);
    }
  }

  // ---------------------------------------------------------------- an intent that nobody acts on

  predicate AboutToRun(s: Sys, i: int, handle: Handle) {
    i in s.handlers && Pending(s.handlers[i]) == Some(Call(handle, CallRunJob))
  }

  predicate Intends(db: F.Database, handle: Handle) {
    handle in db.executions && db.executions[handle].runIntent
  }

  /** Once the intent is stored, no handler comes to the call any more. */
  lemma IntentLicensesNothing(c: Config, s: Sys, move: Move, handle: Handle)
    requires SysInv(c, s) && Intends(s.db, handle)
    ensures
      var s' := Step(c, s, move);
      && SysInv(c, s') && Intends(s'.db, handle)
      && (forall i :: AboutToRun(s', i, handle) ==> AboutToRun(s, i, handle))
  {
    StepKeepsInv(c, s, move);
    match move
    case Spawn(i, incoming, now) => StartSound(c, s.db, incoming, now);
    case Resume(i, now, answer) =>
      if i in s.handlers {
        StepperRunsNothing(c, s.db, s.handlers[i], now, answer, handle) by { HandlerIsSound(c, s, i); }
        hide SysInv, Advance, Intends, ClaimedAfter, AcceptedAfter;
      }
  }

  lemma HandlerIsSound(c: Config, s: Sys, i: int)
    requires SysInv(c, s) && i in s.handlers
    ensures F.Inv(c.auth, s.db) && StoreCoherent(s.db) && Sound(s.db, s.handlers[i])
  {
  }

  lemma StepperRunsNothing(c: Config, db: F.Database, pc: Pc, now: Time, answer: Answer, handle: Handle)
    requires F.Inv(c.auth, db) && StoreCoherent(db) && Sound(db, pc) && Intends(db, handle)
    ensures
      var (db', pc') := Advance(c, db, pc, now, answer);
      Intends(db', handle) && Pending(pc') != Some(Call(handle, CallRunJob))
  {
    hide Advance, F.CompareAndSet, F.Inv, StoreCoherent, Sound;
    AdvanceSound(c, db, pc, now, answer);
    if pc.Updating? && Licensed(pc) == Some(Call(handle, CallRunJob)) { LicenceNeedsNew(c, db, pc, now, handle); }
  }

  lemma LicenceNeedsNew(c: Config, db: F.Database, pc: Pc, now: Time, handle: Handle)
    requires F.Inv(c.auth, db) && StoreCoherent(db) && pc.Updating? && Sound(db, pc)
    requires Intends(db, handle) && Licensed(pc) == Some(Call(handle, CallRunJob))
    ensures F.CompareAndSet(c.auth, db, pc.base.version, Touch(pc.changed, now)).1 != Applied
  {
    if F.CompareAndSet(c.auth, db, pc.base.version, Touch(pc.changed, now)).1 == Applied { LicenceIsNew(c, db, pc, now); }
  }

  lemma {:induction false} IntentStays(c: Config, s: Sys, moves: seq<Move>, handle: Handle)
    requires SysInv(c, s) && Intends(s.db, handle)
    ensures
      var s' := Run(c, s, moves);
      && SysInv(c, s') && Intends(s'.db, handle) && |s.calls| <= |s'.calls|
      && (forall i :: AboutToRun(s', i, handle) ==> AboutToRun(s, i, handle))
  {
    hide SysInv, Intends, AboutToRun;
    if moves != [] {
      var n := |moves| - 1;
      IntentStays(c, s, moves[..n], handle);
      IntentLicensesNothing(c, Run(c, s, moves[..n]), moves[n], handle);
      CallsGrow(c, Run(c, s, moves[..n]), moves[n]);
    }
  }

  /** One step logs at most the call its handler was about to make. */
  lemma CallsGrow(c: Config, s: Sys, move: Move)
    ensures
      var s' := Step(c, s, move);
      && |s.calls| <= |s'.calls| <= |s.calls| + 1 && s'.calls[..|s.calls|] == s.calls
      && (forall handle :: |s'.calls| > |s.calls| && s'.calls[|s.calls|] == Call(handle, CallRunJob) ==>
            AboutToRun(s, move.handler, handle))
  {
    hide Advance, ClaimedAfter, AcceptedAfter;
  }

  predicate RunAt(calls: seq<Call>, k: int, handle: Handle) {
    0 <= k < |calls| && calls[k] == Call(handle, CallRunJob)
  }

  lemma {:induction false} RunWasPending(c: Config, s: Sys, moves: seq<Move>, handle: Handle, k: int) returns (i: int)
    requires SysInv(c, s) && Intends(s.db, handle) && |s.calls| <= k && RunAt(Run(c, s, moves).calls, k, handle)
    ensures AboutToRun(s, i, handle)
  {
    hide SysInv, Intends, AboutToRun;
    var n := |moves| - 1;
    var s1 := Run(c, s, moves[..n]);
    IntentStays(c, s, moves[..n], handle);
    CallsGrow(c, s1, moves[n]);
    if k < |s1.calls| {
      assert Step(c, s1, moves[n]).calls[..|s1.calls|][k] == s1.calls[k];
      i := RunWasPending(c, s, moves[..n], handle, k);
    } else {
      i := moves[n].handler;
    }
  }

  lemma PendingRunIsCalled(c: Config, s: Sys, i: int, handle: Handle)
    requires AboutToRun(s, i, handle)
    ensures exists moves, k :: |s.calls| <= k && RunAt(Run(c, s, moves).calls, k, handle)
  {
    var answer := Answer(MutationUnknown, OperationNotFailed, JobUnavailable, ExecutionsUnavailable, 0, 0);
    var moves := [Resume(i, 0, answer)];
    assert moves[..0] == [];
    assert Run(c, s, moves).calls == s.calls + [Call(handle, CallRunJob)];
    assert RunAt(Run(c, s, moves).calls, |s.calls|, handle);
  }

  /** Once a record has its run intent, its job is run in some continuation exactly when a handler is about to run it already. */
  lemma RunFollowsIntentExactly(c: Config, s: Sys, handle: Handle)
    requires SysInv(c, s) && Intends(s.db, handle)
    ensures (exists moves, k :: |s.calls| <= k && RunAt(Run(c, s, moves).calls, k, handle))
       <==> (exists i :: AboutToRun(s, i, handle))
  {
    if moves, k :| |s.calls| <= k && RunAt(Run(c, s, moves).calls, k, handle) {
      var i := RunWasPending(c, s, moves, handle, k);
    }
    if i :| AboutToRun(s, i, handle) { PendingRunIsCalled(c, s, i, handle); }
  }

  /** Nobody runs a job whose intent is not stored. */
  lemma NobodyBeforeIntent(c: Config, s: Sys, handle: Handle)
    requires SysInv(c, s) && !Intends(s.db, handle)
    ensures forall i :: !AboutToRun(s, i, handle)
  {
    forall i ensures !AboutToRun(s, i, handle) {
      if AboutToRun(s, i, handle) { PendingIsIntended(c, s, i, handle); }
    }
  }

  lemma PendingIsIntended(c: Config, s: Sys, i: int, handle: Handle)
    requires SysInv(c, s) && AboutToRun(s, i, handle)
    ensures Intends(s.db, handle)
  {
    assert MayCall(s.claimed, s.calls, i, s.handlers[i]);
  }

  /** A handler that has listed no execution stores the run intent, if its write meets the record untouched, and somebody is about to run
      the job then exactly if the record names one: the intent of a record without a job keeps everybody from ever running it. */
  lemma IntentIsActedOnExactly(c: Config, s: Sys, i: int, list: Leg, claim: Leg)
    requires SysInv(c, s) && i in s.handlers && OfOthers(i, list) && OfOthers(i, claim)
    requires s.handlers[i].ListingForRun? && list.answer.executions == ExecutionsFound([])
    requires Untouched(Before(c, Took(c, s, i, list), claim), s.handlers[i].record, claim.now)
    ensures
      var r := s.handlers[i].record;
      var s2 := Took(c, Took(c, s, i, list), i, claim);
      && SysInv(c, s2)
      && r.executionHandle in s2.db.executions
      && s2.db.executions[r.executionHandle] == T.Stamped(ToRun(r), claim.now)
      && ((exists j :: AboutToRun(s2, j, r.executionHandle)) <==> r.job.Some?)
  {
    var r, ret := s.handlers[i].record, s.handlers[i].ret;
    var s1 := Took(c, s, i, list);
    var m := Before(c, s1, claim);
    HoldsParsed(c, s, i);
    ListedIsWritten(c, s, i, list);
    assert !r.runIntent;
    hide SysInv, Run, Step, Advance, Before, Took, F.CompareAndSet, Untouched;
    LegSteps(c, s1, i, claim);
    WriteApplies(c, m, r, ToRun(r), claim.now);
    NobodyBeforeIntent(c, m, r.executionHandle) by { UntouchedHasNoIntent(m, r, claim.now); }
    AfterTheClaim(c, m, i, r, ret, claim);
  }

  lemma UntouchedHasNoIntent(s: Sys, r: ControlRecord, now: Time)
    requires Untouched(s, r, now) && !r.runIntent
    ensures !Intends(s.db, r.executionHandle)
  {
  }

  lemma ListedIsWritten(c: Config, s: Sys, i: int, list: Leg)
    requires SysInv(c, s) && i in s.handlers && OfOthers(i, list)
    requires s.handlers[i].ListingForRun? && list.answer.executions == ExecutionsFound([])
    ensures
      var s1 := Took(c, s, i, list);
      && SysInv(c, s1) && i in s1.handlers && !s.handlers[i].record.runIntent
      && s1.handlers[i] == Updating(s.handlers[i].record, ToRun(s.handlers[i].record), AfterRunClaim, s.handlers[i].ret)
  {
    LegSteps(c, s, i, list);
  }

  /** What the claim's own await leaves. */
  lemma AfterTheClaim(c: Config, m: Sys, i: int, r: ControlRecord, ret: Ret, claim: Leg)
    requires i in m.handlers && m.handlers[i] == Updating(r, ToRun(r), AfterRunClaim, ret)
    requires forall j :: !AboutToRun(m, j, r.executionHandle)
    requires F.CompareAndSet(c.auth, m.db, r.version, T.Stamped(ToRun(r), claim.now)).1 == Applied
    ensures
      var s2 := Step(c, m, Resume(i, claim.now, claim.answer));
      && s2.db == F.CompareAndSet(c.auth, m.db, r.version, T.Stamped(ToRun(r), claim.now)).0
      && ((exists j :: AboutToRun(s2, j, r.executionHandle)) <==> r.job.Some?)
  {
    hide F.CompareAndSet;
    var s2 := Step(c, m, Resume(i, claim.now, claim.answer));
    assert forall j :: j != i ==> (AboutToRun(s2, j, r.executionHandle) <==> AboutToRun(m, j, r.executionHandle));
    if r.job.Some? {
      assert AboutToRun(s2, i, r.executionHandle);
    } else {
      ReturnRunsNothing(T.Stamped(ToRun(r), claim.now), ret);
    }
  }

  lemma ReturnRunsNothing(r: ControlRecord, ret: Ret)
    ensures !Return(r, ret).RunningJob?
  {
    if ret.ReapResume? { ReapNextRunsNothing(ret.rest, ret.reapNow); }
  }

  lemma {:induction false} ReapNextRunsNothing(records: seq<ControlRecord>, reapNow: Time)
    ensures !ReapNext(records, reapNow).RunningJob?
  {
    if records != [] && !NeedsReaping(records[0], reapNow) { ReapNextRunsNothing(records[1..], reapNow); }
  }

  // ---------------------------------------------------------------- the job is created

  /** The record of a create that arrived at this time: five minutes to be provisioned, 31 days to be kept. */
  function Admitted(c: Config, request: Request, jobId: JobId, at: Time): ControlRecord {
    ControlRecord(
      request.requestId, request.environment, request.executionHandle, jobId, CREATE_INTENT, 1, 0, false, false, false,
      None, None, None, None, c.auth.worstCaseJpyPerExecution, at, at, at + 300_000, at + 2_678_400_000)
  }

  function Arriving(request: Request, jobId: JobId, at: Time): Pc {
    Pc.Admitting(AdmitCreateInput(request, jobId, at, at + 300_000, at + 2_678_400_000))
  }

  predicate Admits(c: Config, s: Sys, pc: Pc) {
    pc.Admitting? && F.Admit(c.auth, s.db, pc.input).1.Accepted?
  }

  lemma AdmittedIs(c: Config, s: Sys, request: Request, jobId: JobId, at: Time)
    requires Admits(c, s, Arriving(request, jobId, at))
    ensures
      var (db', outcome) := F.Admit(c.auth, s.db, Arriving(request, jobId, at).input);
      && outcome == Accepted(Admitted(c, request, jobId, at)) && F.RecordSchema(outcome.record)
      && db'.executions == s.db.executions[request.executionHandle := outcome.record]
      && request.executionHandle !in s.db.executions
  {
  }

  lemma AdmissionAsks(c: Config, s: Sys, i: int, request: Request, jobId: JobId, at: Time, admit: Leg)
    requires SysInv(c, s) && i in s.handlers && OfOthers(i, admit)
    requires s.handlers[i] == Arriving(request, jobId, at) && Admits(c, Before(c, s, admit), s.handlers[i])
    ensures
      var s1, r := Took(c, s, i, admit), Admitted(c, request, jobId, at);
      && SysInv(c, s1)
      && s1.db.executions == Before(c, s, admit).db.executions[request.executionHandle := r]
      && WillCall(c, s1, i, r, r.(createAttempts := 1), Respond(request), CallCreateJob(1))
  {
    var m := Before(c, s, admit);
    AdmittedIs(c, m, request, jobId, at);
    T.AdmissionsAnswered(c, m.db, s.handlers[i], admit.now, admit.answer);
    hide SysInv, Run, Step, Before, Took, F.Admit, T.RecordsThenCalls;
    LegSteps(c, s, i, admit);
  }

  /** In any run: a create that expects version 0 arrives, and is admitted.  Whatever others do in between, if its first write meets the
      new record as it was stored, the first attempt is counted and its next await asks the provider for the job. */
  lemma AdmittedCreateIsSent(c: Config, now: Time, moves: seq<Move>, i: int, request: Request, jobId: JobId, at: Time,
                             admit: Leg, claim: Leg, call: Leg)
    requires F.AuthorizationSchema(c.auth) && OfOthers(i, admit) && OfOthers(i, claim) && OfOthers(i, call)
    requires request.action == Create && request.environment == c.environment
    ensures
      var s := Run(c, Initial(c, now), moves);
      var s0 := Step(c, s, Spawn(i, Execute(request, 0, jobId), at));
      i !in s.handlers && Admits(c, Before(c, s0, admit), Arriving(request, jobId, at)) ==>
        var r := Admitted(c, request, jobId, at);
        var s1 := Took(c, s0, i, admit);
        var s2 := Took(c, s1, i, claim);
        && s1.db.executions == Before(c, s0, admit).db.executions[request.executionHandle := r]
        && (Untouched(Before(c, s1, claim), r, claim.now) ==>
              HasCalled(s2, Before(c, s2, call), Took(c, s2, i, call), r.(createAttempts := 1), claim.now, CallCreateJob(1)))
  {
    RunKeepsInv(c, now, moves);
    hide Run, Before, Took, SysInv, Untouched, HasCalled, WillCall, Admits;
    var s := Run(c, Initial(c, now), moves);
    var s0 := Step(c, s, Spawn(i, Execute(request, 0, jobId), at));
    var r, s1 := Admitted(c, request, jobId, at), Took(c, s0, i, admit);
    if i !in s.handlers && Admits(c, Before(c, s0, admit), Arriving(request, jobId, at)) {
      StepKeepsInv(c, s, Spawn(i, Execute(request, 0, jobId), at));
      T.RequestsStart(c, request, 0, jobId, at);
      AdmissionAsks(c, s0, i, request, jobId, at, admit);
      if Untouched(Before(c, s1, claim), r, claim.now) {
        WriteThenCall(c, s1, i, r, r.(createAttempts := 1), Respond(request), CallCreateJob(1), claim, call);
      }
    }
  }
}

/** Whole runs of the interleaved controller: GPU work starts at most once per handle, creation is bounded,
    money stays inside the authorization, and a deferrable rejection means nothing ever happened. */
module ControllerRuns {
  import opened ControllerTypes
  import opened ControllerPolicy
  import opened ControllerMachine
  import opened ControllerSafety
  import opened Sets
  import F = FirestoreStore

  /** The stored record shows that the call has been licensed. */
  predicate Recorded(db: F.Database, call: Call) {
    && call.handle in db.executions
    && match call.kind
       case CallRunJob => db.executions[call.handle].runIntent
       case CallCreateJob(attempt) => 1 <= attempt <= db.executions[call.handle].createAttempts
       case _ => false
  }

  /** The handler at `pc` may make its pending exclusive call: it claimed it, and nobody has made it yet. */
  predicate MayCall(claimed: map<Call, int>, calls: seq<Call>, i: int, pc: Pc) {
    Pending(pc).Some? && Exclusive(Pending(pc).value) ==>
      && Pending(pc).value in claimed && claimed[Pending(pc).value] == i
      && Pending(pc).value !in calls
  }

  predicate NoExclusiveTwice(calls: seq<Call>) {
    forall j, k :: 0 <= j < k < |calls| && calls[j] == calls[k] ==> !Exclusive(calls[j])
  }

  predicate Distinct(ids: seq<RequestId>) {
    forall j, k :: 0 <= j < k < |ids| ==> ids[j] != ids[k]
  }

  predicate CallsLicensed(db: F.Database, claimed: map<Call, int>, calls: seq<Call>) {
    && (forall call :: call in claimed ==> Exclusive(call) && Recorded(db, call))
    && (forall call :: call in calls ==> call.handle in db.executions && (Exclusive(call) ==> call in claimed))
    && NoExclusiveTwice(calls)
  }

  ghost predicate AcceptedTracked(db: F.Database, accepted: seq<RequestId>) {
    && Distinct(accepted)
    && (forall id :: id in accepted <==> id in db.requests)
  }

  ghost predicate SysInv(c: Config, s: Sys) {
    && F.Inv(c.auth, s.db) && StoreCoherent(s.db)
    && (forall i :: i in s.handlers ==> Sound(s.db, s.handlers[i]) && MayCall(s.claimed, s.calls, i, s.handlers[i]))
    && CallsLicensed(s.db, s.claimed, s.calls)
    && AcceptedTracked(s.db, s.accepted)
  }

  // ---------------------------------------------------------------- one step

  lemma RecordedStable(db: F.Database, db': F.Database, call: Call)
    requires Evolves(db, db') && Recorded(db, call)
    ensures Recorded(db', call)
  {
  }

  /** A compare-and-set that applies records its licence for the first time. */
  lemma LicenceIsNew(c: Config, db: F.Database, pc: Pc, now: Time)
    requires F.Inv(c.auth, db) && StoreCoherent(db) && pc.Updating? && Sound(db, pc) && Licensed(pc).Some?
    requires F.CompareAndSet(c.auth, db, pc.base.version, Touch(pc.changed, now)).1 == Applied
    ensures !Recorded(db, Licensed(pc).value)
    ensures Recorded(F.CompareAndSet(c.auth, db, pc.base.version, Touch(pc.changed, now)).0, Licensed(pc).value)
    ensures Exclusive(Licensed(pc).value)
  {
    CasEvolves(c, db, pc, now);
  }

  lemma ClaimedGrows(c: Config, s: Sys, i: int, pc: Pc, now: Time)
    requires F.Inv(c.auth, s.db) && StoreCoherent(s.db) && Sound(s.db, pc)
    requires CallsLicensed(s.db, s.claimed, s.calls)
    ensures
      var claimed' := ClaimedAfter(c, s, i, pc, now);
      && (forall call :: call in s.claimed ==> call in claimed' && claimed'[call] == s.claimed[call])
      && (claimed' != s.claimed ==> pc.Updating? && Licensed(pc).Some? && Licensed(pc).value !in s.calls)
  {
    if ClaimedAfter(c, s, i, pc, now) != s.claimed { LicenceIsNew(c, s.db, pc, now); }
  }

  lemma ClaimedRecorded(c: Config, s: Sys, i: int, pc: Pc, now: Time, answer: Answer, call: Call)
    requires F.Inv(c.auth, s.db) && StoreCoherent(s.db) && Sound(s.db, pc)
    requires CallsLicensed(s.db, s.claimed, s.calls)
    requires call in ClaimedAfter(c, s, i, pc, now)
    ensures Exclusive(call) && Recorded(Advance(c, s.db, pc, now, answer).0, call)
  {
    AdvanceSound(c, s.db, pc, now, answer);
    if call in s.claimed {
      RecordedStable(s.db, Advance(c, s.db, pc, now, answer).0, call);
    } else {
      LicenceIsNew(c, s.db, pc, now);
    }
  }

  /** The log of provider calls after a step of the handler at `pc`. */
  function CallsAfter(calls: seq<Call>, pc: Pc): seq<Call> {
    calls + (if Pending(pc).Some? then [Pending(pc).value] else [])
  }

  lemma NoneTwiceAfter(claimed: map<Call, int>, calls: seq<Call>, i: int, pc: Pc)
    requires NoExclusiveTwice(calls) && MayCall(claimed, calls, i, pc)
    ensures NoExclusiveTwice(CallsAfter(calls, pc))
  {
    var calls' := CallsAfter(calls, pc);
    forall j, k | 0 <= j < k < |calls'| && calls'[j] == calls'[k] ensures !Exclusive(calls'[j]) {
      assert calls'[j] in calls;
    }
  }

  lemma CallsHaveRecords(db: F.Database, claimed: map<Call, int>, calls: seq<Call>, i: int, pc: Pc, call: Call)
    requires CallsLicensed(db, claimed, calls) && MayCall(claimed, calls, i, pc) && Sound(db, pc)
    requires call in CallsAfter(calls, pc)
    ensures call.handle in db.executions && (Exclusive(call) ==> call in claimed)
  {
    if call !in calls {
      assert Pending(pc) == Some(call);
      assert Copied(db, Copy(pc).value) && call.handle == Copy(pc).value.executionHandle;
    }
  }

  lemma RecordsRemain(c: Config, db: F.Database, pc: Pc, now: Time, answer: Answer, handle: Handle)
    requires F.Inv(c.auth, db) && StoreCoherent(db) && Sound(db, pc) && handle in db.executions
    ensures handle in Advance(c, db, pc, now, answer).0.executions
  {
    hide Advance, F.Inv, StoreCoherent, Sound;
    AdvanceSound(c, db, pc, now, answer);
  }

  lemma CallsStayLicensed(c: Config, s: Sys, i: int, pc: Pc, now: Time, answer: Answer)
    requires F.Inv(c.auth, s.db) && StoreCoherent(s.db) && Sound(s.db, pc)
    requires CallsLicensed(s.db, s.claimed, s.calls) && MayCall(s.claimed, s.calls, i, pc)
    ensures CallsLicensed(Advance(c, s.db, pc, now, answer).0, ClaimedAfter(c, s, i, pc, now), CallsAfter(s.calls, pc))
  {
    hide F.Inv, StoreCoherent, Advance, ClaimedAfter, Sound, MayCall, CallsAfter, Recorded, Exclusive, NoExclusiveTwice, Licensed;
    var claimed', calls' := ClaimedAfter(c, s, i, pc, now), CallsAfter(s.calls, pc);
    ClaimedGrows(c, s, i, pc, now);
    NoneTwiceAfter(s.claimed, s.calls, i, pc);
    forall call | call in claimed' ensures Exclusive(call) && Recorded(Advance(c, s.db, pc, now, answer).0, call) {
      ClaimedRecorded(c, s, i, pc, now, answer, call);
    }
    forall call | call in calls'
      ensures call.handle in Advance(c, s.db, pc, now, answer).0.executions && (Exclusive(call) ==> call in claimed')
    {
      CallsHaveRecords(s.db, s.claimed, s.calls, i, pc, call);
      RecordsRemain(c, s.db, pc, now, answer, call.handle);
    }
  }

  /** Only the handler that stepped can have made the call, so nobody else's pending call is affected. */
  lemma OthersMayStillCall(c: Config, s: Sys, i: int, pc: Pc, now: Time, j: int, other: Pc)
    requires F.Inv(c.auth, s.db) && StoreCoherent(s.db) && Sound(s.db, pc)
    requires CallsLicensed(s.db, s.claimed, s.calls) && MayCall(s.claimed, s.calls, i, pc)
    requires i != j && MayCall(s.claimed, s.calls, j, other)
    ensures MayCall(ClaimedAfter(c, s, i, pc, now), CallsAfter(s.calls, pc), j, other)
  {
    ClaimedGrows(c, s, i, pc, now);
  }

  lemma StepperMayCall(c: Config, s: Sys, i: int, pc: Pc, now: Time, answer: Answer)
    requires F.Inv(c.auth, s.db) && StoreCoherent(s.db) && Sound(s.db, pc)
    requires CallsLicensed(s.db, s.claimed, s.calls)
    ensures
      var pc' := Advance(c, s.db, pc, now, answer).1;
      MayCall(ClaimedAfter(c, s, i, pc, now), CallsAfter(s.calls, pc), i, pc')
  {
    hide Advance, F.Inv, StoreCoherent, F.CompareAndSet, Evolves, Recorded;
    AdvanceSound(c, s.db, pc, now, answer);
    var pc' := Advance(c, s.db, pc, now, answer).1;
    if !Plain(pc') {
      LicenceIsNew(c, s.db, pc, now);
      assert Licensed(pc).value !in s.claimed;
    }
  }

  lemma AcceptedStaysTracked(c: Config, s: Sys, pc: Pc, now: Time, answer: Answer)
    requires AcceptedTracked(s.db, s.accepted)
    ensures AcceptedTracked(Advance(c, s.db, pc, now, answer).0, AcceptedAfter(c, s, pc))
  {
    if pc.Admitting? {
      var (db', outcome) := F.Admit(c.auth, s.db, pc.input);
      assert outcome.Accepted? ==> db'.requests.Keys == s.db.requests.Keys + {pc.input.request.requestId};
    }
    if pc.Claiming? {
      var (db', outcome) := F.Claim(c.auth, s.db, pc.claim);
      assert outcome.Accepted? ==> db'.requests.Keys == s.db.requests.Keys + {pc.claim.request.requestId};
    }
  }

  lemma StartSound(c: Config, db: F.Database, incoming: Incoming, now: Time)
    ensures Sound(db, Start(c, incoming, now)) && Pending(Start(c, incoming, now)) == None
  {
  }

  lemma ResumeKeepsInv(c: Config, s: Sys, i: int, now: Time, answer: Answer)
    requires SysInv(c, s) && i in s.handlers
    ensures SysInv(c, Step(c, s, Resume(i, now, answer)))
  {
    var pc := s.handlers[i];
    var s' := Step(c, s, Resume(i, now, answer));
    AdvanceSound(c, s.db, pc, now, answer);
    CallsStayLicensed(c, s, i, pc, now, answer);
    AcceptedStaysTracked(c, s, pc, now, answer);
    StepperMayCall(c, s, i, pc, now, answer);
    forall j | j in s'.handlers && j != i
      ensures Sound(s'.db, s'.handlers[j]) && MayCall(s'.claimed, s'.calls, j, s'.handlers[j])
    {
      SoundStable(s.db, s'.db, s.handlers[j]);
      OthersMayStillCall(c, s, i, pc, now, j, s.handlers[j]);
    }
  }

  lemma StepKeepsInv(c: Config, s: Sys, move: Move)
    requires SysInv(c, s)
    ensures SysInv(c, Step(c, s, move))
  {
    match move
    case Spawn(i, incoming, now) => StartSound(c, s.db, incoming, now);
    case Resume(i, now, answer) => if i in s.handlers { ResumeKeepsInv(c, s, i, now, answer); }
  }

  lemma {:induction false} RunKeepsInv(c: Config, now: Time, moves: seq<Move>)
    requires F.AuthorizationSchema(c.auth)
    ensures SysInv(c, Run(c, Initial(c, now), moves))
  {
    if moves == [] {
      F.InitialInv(c.auth, now);
    } else {
      RunKeepsInv(c, now, moves[..|moves| - 1]);
      StepKeepsInv(c, Run(c, Initial(c, now), moves[..|moves| - 1]), moves[|moves| - 1]);
    }
  }

  // ---------------------------------------------------------------- what whole runs guarantee

  function RunCalls(s: Sys): set<int> {
    set k | 0 <= k < |s.calls| && s.calls[k].kind == CallRunJob
  }

  function RunCallsFor(s: Sys, handle: Handle): set<int> {
    set k | 0 <= k < |s.calls| && s.calls[k] == Call(handle, CallRunJob)
  }

  function CreateCallsFor(s: Sys, handle: Handle): set<int> {
    set k | 0 <= k < |s.calls| && s.calls[k].handle == handle && s.calls[k].kind.CallCreateJob?
  }

  /** Whatever interleaves and whatever the provider answers, `runJob` is called at most once per handle. */
  lemma RunJobAtMostOnce(c: Config, now: Time, moves: seq<Move>, handle: Handle)
    requires F.AuthorizationSchema(c.auth)
    ensures |RunCallsFor(Run(c, Initial(c, now), moves), handle)| <= 1
  {
    RunKeepsInv(c, now, moves);
    AtMostOne(RunCallsFor(Run(c, Initial(c, now), moves), handle));
  }

  predicate IsCreate(call: Call, handle: Handle) {
    call.handle == handle && call.kind.CallCreateJob?
  }

  /** Two positions of the log that hold create calls for `handle` hold different attempts, 1 or 2. */
  lemma CreateCallsDiffer(db: F.Database, claimed: map<Call, int>, calls: seq<Call>, handle: Handle, j: int, k: int)
    requires CallsLicensed(db, claimed, calls) && 0 <= j < |calls| && 0 <= k < |calls|
    requires IsCreate(calls[j], handle) && IsCreate(calls[k], handle)
    requires handle in db.executions ==> db.executions[handle].createAttempts <= 2
    ensures 1 <= calls[j].kind.attempt <= 2
    ensures calls[j].kind.attempt == calls[k].kind.attempt ==> j == k
  {
    assert calls[j] in calls && calls[k] in calls;
    assert Recorded(db, calls[j]);
    assert calls[j].kind.attempt == calls[k].kind.attempt ==> calls[j] == calls[k] && Exclusive(calls[j]);
  }

  /** `createJob` is called at most twice per handle, each call under its own attempt number, and no record
      ever counts more than two attempts. */
  lemma CreateJobAtMostTwice(c: Config, now: Time, moves: seq<Move>, handle: Handle)
    requires F.AuthorizationSchema(c.auth)
    ensures
      var s := Run(c, Initial(c, now), moves);
      && |CreateCallsFor(s, handle)| <= 2
      && (forall j, k :: j in CreateCallsFor(s, handle) && k in CreateCallsFor(s, handle) ==>
            1 <= s.calls[j].kind.attempt <= 2 && (s.calls[j].kind.attempt == s.calls[k].kind.attempt ==> j == k))
      && (forall h :: h in s.db.executions ==> 0 <= s.db.executions[h].createAttempts <= 2)
  {
    RunKeepsInv(c, now, moves);
    var s := Run(c, Initial(c, now), moves);
    var all := CreateCallsFor(s, handle);
    forall j, k | j in all && k in all
      ensures 1 <= s.calls[j].kind.attempt <= 2 && (s.calls[j].kind.attempt == s.calls[k].kind.attempt ==> j == k)
    {
      CreateCallsDiffer(s.db, s.claimed, s.calls, handle, j, k);
    }
    AtMostTwo(s.calls, all);
  }

  lemma AtMostTwo(calls: seq<Call>, all: set<int>)
    requires forall k :: k in all ==> 0 <= k < |calls| && calls[k].kind.CallCreateJob? && 1 <= calls[k].kind.attempt <= 2
    requires forall j, k :: j in all && k in all && calls[j].kind.attempt == calls[k].kind.attempt ==> j == k
    ensures |all| <= 2
  {
    var first := set k | k in all && calls[k].kind.attempt == 1;
    var second := set k | k in all && calls[k].kind.attempt == 2;
    AtMostOne(first);
    AtMostOne(second);
    assert all == first + second;
  }

  lemma {:induction false} RunCallsWithinRecords(s: Sys, indices: set<int>, handles: set<Handle>)
    requires indices <= RunCalls(s) && NoExclusiveTwice(s.calls)
    requires forall k :: k in indices ==> s.calls[k].handle in handles
    ensures |indices| <= |handles|
  {
    if indices != {} {
      var k := Pick(indices);
      assert forall j :: j in indices - {k} ==> s.calls[j] != s.calls[k];
      RunCallsWithinRecords(s, indices - {k}, handles - {s.calls[k].handle});
    }
  }

  lemma Cost(n: int, m: int, jpy: int)
    requires 0 <= n <= m && 0 <= jpy
    ensures n * jpy <= m * jpy
  {
  }

  /** Over a whole run the provider is asked to start at most `maxExecutions` GPU jobs, and their worst-case
      cost together stays inside the authorized amount. */
  lemma MoneyStaysAuthorized(c: Config, now: Time, moves: seq<Move>)
    requires F.AuthorizationSchema(c.auth)
    ensures
      var runs := |RunCalls(Run(c, Initial(c, now), moves))|;
      runs <= c.auth.maxExecutions && runs * c.auth.worstCaseJpyPerExecution <= c.auth.maxWorstCaseJpy
  {
    RunKeepsInv(c, now, moves);
    var s := Run(c, Initial(c, now), moves);
    forall k | k in RunCalls(s) ensures s.calls[k].handle in s.db.executions.Keys { assert s.calls[k] in s.calls; }
    RunCallsWithinRecords(s, RunCalls(s), s.db.executions.Keys);
    assert |s.db.executions.Keys| == |s.db.executions|;
    Cost(|RunCalls(s)|, |s.db.executions|, c.auth.worstCaseJpyPerExecution);
  }

  /** A request id is accepted at most once over any run. */
  lemma {:induction false} RequestAcceptedAtMostOnce(c: Config, now: Time, moves: seq<Move>)
    requires F.AuthorizationSchema(c.auth)
    ensures
      var s := Run(c, Initial(c, now), moves);
      && (forall j, k :: 0 <= j < k < |s.accepted| ==> s.accepted[j] != s.accepted[k])
      && (forall id :: id in s.accepted <==> id in s.db.requests)
  {
    RunKeepsInv(c, now, moves);
  }

  predicate DefersSafely(pc: Pc) {
    pc.Done? && pc.reply.Rejected? && pc.reply.reason in {RejectBudget, RejectRate, RejectEnvironment}
  }

  /** The handler ends without having answered from its record. */
  predicate Refuses(pc: Pc) {
    pc.Thrown? || (pc.Done? && pc.reply.Rejected?)
  }

  lemma {:induction false} ReapNextNeverRefuses(records: seq<ControlRecord>, reapNow: Time)
    ensures !Refuses(ReapNext(records, reapNow))
  {
    if records != [] && !NeedsReaping(records[0], reapNow) { ReapNextNeverRefuses(records[1..], reapNow); }
  }

  lemma ContinueNeverRefuses(record: ControlRecord, applied: bool, after: After, ret: Ret)
    ensures !Refuses(Continue(record, applied, after, ret))
  {
    if ret.ReapResume? { ReapNextNeverRefuses(ret.rest, ret.reapNow); }
  }

  /** Once admitted or claimed, a request is never answered with a rejection. */
  lemma OnlyAdmissionRefuses(c: Config, db: F.Database, pc: Pc, now: Time, answer: Answer)
    requires !pc.Admitting? && !pc.Claiming? && !pc.Done?
    ensures !DefersSafely(Advance(c, db, pc, now, answer).1)
  {
    if pc.Updating? { ContinueNeverRefuses(Touch(pc.changed, now), true, pc.after, pc.ret); }
    if pc.Reloading? && pc.lost.executionHandle in db.executions {
      ContinueNeverRefuses(db.executions[pc.lost.executionHandle], false, pc.after, pc.ret);
    }
    if pc.ReapReading? && pc.handle in db.executions {
      ReapNextNeverRefuses([db.executions[pc.handle]], pc.reapNow);
    }
  }

  lemma DeferralMeansAbsent(c: Config, db: F.Database, pc: Pc, now: Time, answer: Answer)
    requires F.Inv(c.auth, db) && StoreCoherent(db) && Sound(db, pc) && !pc.Done?
    ensures
      var (db', pc') := Advance(c, db, pc, now, answer);
      DefersSafely(pc') && pc'.reply.request.action == Create && pc'.reply.reason != RejectEnvironment
      ==> pc'.reply.request.executionHandle !in db'.executions
  {
    if !pc.Admitting? && !pc.Claiming? { OnlyAdmissionRefuses(c, db, pc, now, answer); }
  }

  /** The move from `s` to `s'` has just answered a create of handler `i` with a rejection. */
  predicate JustRefused(s: Sys, s': Sys, i: int) {
    && i in s'.handlers && (i !in s.handlers || s.handlers[i] != s'.handlers[i])
    && s'.handlers[i].Done? && s'.handlers[i].reply.Rejected? && s'.handlers[i].reply.request.action == Create
  }

  /** Whenever a create is answered BUDGET_EXHAUSTED or RATE_LIMITED, there is at that moment no control record for its
      handle, and no provider call was ever made for it. */
  lemma SafeDeferral(c: Config, now: Time, moves: seq<Move>, move: Move)
    requires F.AuthorizationSchema(c.auth)
    ensures
      var s := Run(c, Initial(c, now), moves);
      var s' := Step(c, s, move);
      var i := move.handler;
      JustRefused(s, s', i) && s'.handlers[i].reply.reason in {RejectBudget, RejectRate} ==>
        var handle := s'.handlers[i].reply.request.executionHandle;
        && handle !in s'.db.executions
        && forall call :: call in s'.calls ==> call.handle != handle
  {
    RunKeepsInv(c, now, moves);
    var s := Run(c, Initial(c, now), moves);
    StepKeepsInv(c, s, move);
    hide Run, MayCall;
    if move.Resume? && move.handler in s.handlers && !s.handlers[move.handler].Done? {
      DeferralMeansAbsent(c, s.db, s.handlers[move.handler], move.now, move.answer);
    }
  }

  /** Which awaits throw: a claim that is malformed or would be accepted for an expired record, and a reaper
      whose active record was cleaned between its two reads. */
  predicate AwaitThrows(c: Config, db: F.Database, pc: Pc)
    requires pc.ReapReading? ==> pc.handle in db.executions
  {
    || (pc.Claiming? && (!F.ClaimInputSchema(pc.claim)
                         || (pc.claim.request.environment == c.auth.environment && F.ClaimAborts(db, pc.claim))))
    || (pc.ReapReading? && db.executions[pc.handle].state == CLEANED)
  }

  lemma StoreThrowsExactly(c: Config, db: F.Database, pc: Pc, now: Time, answer: Answer)
    requires F.Inv(c.auth, db) && StoreCoherent(db) && Sound(db, pc)
    requires pc.Admitting? || pc.Claiming?
    ensures Advance(c, db, pc, now, answer).1.Thrown? <==> AwaitThrows(c, db, pc)
  {
    if pc.Admitting? { F.AdmitKeepsInv(c.auth, db, pc.input); }
    if pc.Claiming? { F.ClaimKeepsInv(c.auth, db, pc.claim); }
  }

  lemma SwapNeverThrows(c: Config, db: F.Database, pc: Pc, now: Time, answer: Answer)
    requires F.Inv(c.auth, db) && StoreCoherent(db) && Sound(db, pc)
    requires pc.Updating? || pc.Reloading?
    ensures !Advance(c, db, pc, now, answer).1.Thrown?
  {
    if pc.Updating? {
      CasEvolves(c, db, pc, now);
      ContinueNeverRefuses(Touch(pc.changed, now), true, pc.after, pc.ret);
    } else {
      ContinueNeverRefuses(db.executions[pc.lost.executionHandle], false, pc.after, pc.ret);
    }
  }

  /** Exactly these awaits throw: no compare-and-set breaks a schema and no control record disappears. */
  lemma ThrowsExactly(c: Config, db: F.Database, pc: Pc, now: Time, answer: Answer)
    requires F.Inv(c.auth, db) && StoreCoherent(db) && Sound(db, pc)
    requires !pc.Thrown? && c.environment == c.auth.environment
    ensures Advance(c, db, pc, now, answer).1.Thrown? <==> AwaitThrows(c, db, pc)
  {
    if pc.Admitting? || pc.Claiming? { StoreThrowsExactly(c, db, pc, now, answer); }
    else if pc.Updating? || pc.Reloading? { SwapNeverThrows(c, db, pc, now, answer); }
    else if pc.ReapReading? { ReapNextNeverRefuses([db.executions[pc.handle]], pc.reapNow); }
  }

  /** The outcome is unknown as long as the last thing asked of the provider is. */
  predicate InDoubt(r: ControlRecord) {
    r.errorCode == Some(UNKNOWN_OUTCOME)
  }

  predicate ShowsExecution(r: ControlRecord, status: ExecutionStatus) {
    && r.execution.Some? && r.execution.value.status == status
    && r.job.Some? && r.job.value.ref == r.execution.value.jobRef
  }

  /** When each outcome is answered: exactly for these states of a record that is not in doubt; and what the answer says of an
      execution is what the record holds. */
  predicate AnswerHolds(r: ControlRecord) {
    && (OutcomeOf(r) == OutcomeUnknownYet <==> InDoubt(r))
    && (OutcomeOf(r) == OutcomeAccepted <==> !InDoubt(r) && r.state == CREATE_INTENT)
    && (OutcomeOf(r) == OutcomePending <==>
          !InDoubt(r) && r.state in {JOB_PENDING, JOB_READY, RUN_INTENT, EXECUTION_PENDING, CANCEL_PENDING, CLEANUP_PENDING})
    && (OutcomeOf(r) == OutcomeRunning <==> !InDoubt(r) && r.state == RUNNING && ShowsExecution(r, ExecRunning))
    && (OutcomeOf(r) == OutcomeSucceeded <==> !InDoubt(r) && r.state == SUCCEEDED && ShowsExecution(r, ExecSucceeded))
    && (OutcomeOf(r) == OutcomeCancelled <==> !InDoubt(r) && r.state == CANCELLED && ShowsExecution(r, ExecCancelled))
    && (OutcomeOf(r) == OutcomeFailed <==> !InDoubt(r) && r.state == FAILED)
    && (OutcomeOf(r) == OutcomeCleaned <==> r.state == CLEANED)
    && (OutcomeOf(r) == OutcomeCleaned ==> r.job == None && r.execution == None && r.errorCode == None)
  }

  /** Every answer a handler ever gives shows the stored record or an earlier version of it, and each outcome is answered
      exactly when the record says so: "running", "succeeded" and "cancelled" if and only if it names an execution of its own
      job in that very status and nothing is in doubt, "cleaned" if and only if it is CLEANED and names nothing. */
  lemma AnswersAreCoherent(c: Config, now: Time, moves: seq<Move>, i: int)
    requires F.AuthorizationSchema(c.auth)
    ensures
      var s := Run(c, Initial(c, now), moves);
      i in s.handlers && s.handlers[i].Done? && s.handlers[i].reply.Responded? ==>
        var r := s.handlers[i].reply.record;
        && Coherent(r) && AnswerHolds(r)
        && r.executionHandle in s.db.executions && Precedes(r, s.db.executions[r.executionHandle])
  {
    RunKeepsInv(c, now, moves);
  }

  /** Every stored record, at any moment of any run, is coherent; one whose resources are not as created is marked so that
      the reaper takes it at any time. */
  lemma StoredRecordsAreCoherent(c: Config, now: Time, moves: seq<Move>)
    requires F.AuthorizationSchema(c.auth)
    ensures
      var db := Run(c, Initial(c, now), moves).db;
      && StoreCoherent(db)
      && (forall h, t: Time ::
            h in db.executions && db.executions[h].errorCode in {Some(MULTIPLE_EXECUTIONS), Some(RESOURCE_DRIFT)} ==>
              NeedsReaping(db.executions[h], t))
  {
    RunKeepsInv(c, now, moves);
  }

  /** What the provider's answer to a create or run call must make of the record that is stored and told the requester. */
  predicate Reports(creating: bool, mutation: ProviderMutation, r: ControlRecord) {
    match mutation
    case MutationAccepted(ref) =>
      && r.state == (if creating then JOB_PENDING else EXECUTION_PENDING)
      && r.operationRef == Some(ref) && r.errorCode == None
    case MutationUnknown =>
      r.state == (if creating then CREATE_UNKNOWN else EXECUTION_PENDING) && r.errorCode == Some(UNKNOWN_OUTCOME)
    case MutationRejected(kind) =>
      r.state == FAILED && r.errorCode == Some(if kind == Retryable then PROVIDER_RETRYABLE else PROVIDER_PERMANENT)
    case MutationConflict => !creating && r.state == FAILED && r.errorCode == Some(CONFLICT)
  }

  /** What the handler writes for the answer to its create or run call. */
  function Written(pc: Pc, mutation: ProviderMutation): ControlRecord
    requires Pending(pc).Some? && (pc.CreatingJob? ==> mutation != MutationConflict)
  {
    if pc.CreatingJob? then CreateAnswered(pc.record, mutation) else RunAnswered(pc.record, mutation)
  }

  /** The handler answers a request itself and is about to make its create or run call. */
  predicate CallsFor(pc: Pc, mutation: ProviderMutation) {
    && (pc.RunningJob? || (pc.CreatingJob? && mutation != MutationConflict))
    && pc.ret.Respond?
  }

  lemma CallThenWrite(c: Config, s: Sys, i: int, t: Time, answer: Answer)
    requires i in s.handlers && CallsFor(s.handlers[i], answer.mutation)
    ensures
      var s1 := Step(c, s, Resume(i, t, answer));
      var pc := s.handlers[i];
      i in s1.handlers && s1.handlers[i] == Updating(pc.record, Written(pc, answer.mutation), AfterReturn, pc.ret)
  {
  }

  lemma WriteThenReply(c: Config, s: Sys, i: int, u: Time, next: Answer)
    requires SysInv(c, s) && i in s.handlers
    requires s.handlers[i].Updating? && s.handlers[i].after == AfterReturn && s.handlers[i].ret.Respond?
    ensures
      var s2 := Step(c, s, Resume(i, u, next));
      var pc := s.handlers[i];
      var r := Touch(pc.changed, u);
      && i in s2.handlers
      && (|| s2.handlers[i].Reloading?
          || (&& s2.handlers[i] == Done(Responded(pc.ret.request, r))
              && pc.base.executionHandle in s2.db.executions && s2.db.executions[pc.base.executionHandle] == r))
  {
    CasEvolves(c, s.db, s.handlers[i], u);
  }

  lemma WrittenReports(pc: Pc, mutation: ProviderMutation, u: Time)
    requires CallsFor(pc, mutation)
    ensures Reports(pc.CreatingJob?, mutation, Touch(Written(pc, mutation), u))
  {
  }

  /** Moves of other handlers leave a handler where it is. */
  lemma {:induction false} OthersLeaveMine(c: Config, s: Sys, moves: seq<Move>, i: int)
    requires SysInv(c, s) && i in s.handlers
    requires forall k :: 0 <= k < |moves| ==> moves[k].handler != i
    ensures
      var s' := Run(c, s, moves);
      SysInv(c, s') && i in s'.handlers && s'.handlers[i] == s.handlers[i]
  {
    hide SysInv;
    if moves != [] {
      OthersLeaveMine(c, s, moves[..|moves| - 1], i);
      StepKeepsInv(c, Run(c, s, moves[..|moves| - 1]), moves[|moves| - 1]);
    }
  }

  /** In any run: when the provider answers a handler's create or run call, the handler's next step, whatever other handlers
      do before it, writes that answer; if the write applies, the requester is told what the provider answered and the stored
      record says the same, and otherwise the handler reads the record back.  Only a conflict on a create is not an answer but
      sends the handler to read the job. */
  lemma MutationIsReported(c: Config, now: Time, moves: seq<Move>, i: int, t: Time, answer: Answer,
                           between: seq<Move>, u: Time, next: Answer)
    requires F.AuthorizationSchema(c.auth)
    requires forall k :: 0 <= k < |between| ==> between[k].handler != i
    ensures
      var s := Run(c, Initial(c, now), moves);
      i in s.handlers && CallsFor(s.handlers[i], answer.mutation) ==>
        var s1 := Run(c, Step(c, s, Resume(i, t, answer)), between);
        var s2 := Step(c, s1, Resume(i, u, next));
        var handle := s.handlers[i].record.executionHandle;
        && i in s2.handlers
        && (|| s2.handlers[i].Reloading?
            || (&& s2.handlers[i].Done? && s2.handlers[i].reply.Responded?
                && s2.handlers[i].reply.request == s.handlers[i].ret.request
                && Reports(s.handlers[i].CreatingJob?, answer.mutation, s2.handlers[i].reply.record)
                && handle in s2.db.executions && s2.db.executions[handle] == s2.handlers[i].reply.record))
  {
    RunKeepsInv(c, now, moves);
    var s := Run(c, Initial(c, now), moves);
    hide Run, SysInv, Step, Reports, Written;
    if i in s.handlers && CallsFor(s.handlers[i], answer.mutation) {
      CallThenWrite(c, s, i, t, answer);
      StepKeepsInv(c, s, Resume(i, t, answer));
      OthersLeaveMine(c, Step(c, s, Resume(i, t, answer)), between, i);
      WriteThenReply(c, Run(c, Step(c, s, Resume(i, t, answer)), between), i, u, next);
      WrittenReports(s.handlers[i], answer.mutation, u);
    }
  }
}

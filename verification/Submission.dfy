/** The orchestrator's side of a create: at most two sends of one signed request, and what the answer is recorded
    as.  A deferral is recorded only for answers behind which nothing has happened. */
module Submission {
  import opened ControllerTypes
  import opened ControllerPolicy
  import Machine = ControllerMachine
  import Runs = ControllerRuns
  import C = CloudRunBatches
  import J = JobTables
  import B = JobBatches
  import T = JobTheorems
  import E = JobEffects
  import JR = JobRuns
  import Late = ControllerLate
  import Witnesses = ControllerWitnesses

  /** The controller's response as the orchestrator parses it. */
  datatype Answer = Answer(response: C.Response, errorCode: Option<ErrorCode>, version: int)

  datatype Decision =
    | DecideUnknown
    | DecideDeferred
    | DecideRecord(response: C.Response, version: int)
    | DecideInvalid

  predicate SafePreAdmission(code: ErrorCode) {
    code in {BUDGET_EXHAUSTED, ENVIRONMENT_MISMATCH, RATE_LIMITED}
  }

  function Decide(answer: Option<Answer>): Decision {
    match answer
    case None => DecideUnknown
    case Some(a) =>
      if a.response == C.RespRejected && a.errorCode.Some? then
        if SafePreAdmission(a.errorCode.value) then DecideDeferred else DecideRecord(a.response, a.version)
      else if a.response in {C.RespAccepted, C.RespPending, C.RespRunning, C.RespUnknown} && a.errorCode == None
      then DecideRecord(a.response, a.version)
      else DecideInvalid
  }

  /** The batch that records a decision; an invalid outcome records nothing. */
  function Recording(decision: Decision, handle: int): Option<B.Batch> {
    match decision
    case DecideUnknown => Some(B.RecordCreateUnknown(handle))
    case DecideDeferred => Some(B.RecordCreateDeferred(handle))
    case DecideRecord(response, version) => Some(B.RecordCreateResponse(handle, response, version))
    case DecideInvalid => None
  }

  /** What each answer must leave behind: no answer at all an unknown outcome, a rejection before admission the deferral, any other
      rejection and any answer that is on its way without an error the response itself; everything else is invalid and leaves
      nothing. */
  predicate RecordedAs(answer: Option<Answer>, batch: Option<B.Batch>, handle: int) {
    if answer == None then batch == Some(B.RecordCreateUnknown(handle))
    else
      var a := answer.value;
      if a.response == C.RespRejected && a.errorCode in {Some(BUDGET_EXHAUSTED), Some(ENVIRONMENT_MISMATCH), Some(RATE_LIMITED)}
      then batch == Some(B.RecordCreateDeferred(handle))
      else if a.response == C.RespRejected && a.errorCode.Some? then
        batch == Some(B.RecordCreateResponse(handle, C.RespRejected, a.version))
      else if a.errorCode == None && a.response in {C.RespAccepted, C.RespPending, C.RespRunning, C.RespUnknown} then
        batch == Some(B.RecordCreateResponse(handle, a.response, a.version))
      else batch == None
  }

  lemma DecisionsAreRecorded(answer: Option<Answer>, handle: int)
    ensures RecordedAs(answer, Recording(Decide(answer), handle), handle)
  {
  }

  /** `answers[i]` is what the i-th send would get, None where it throws. */
  method SendTwice(answers: seq<Option<Answer>>) returns (sends: nat, decision: Decision)
    requires |answers| == 2
    ensures sends == (if answers[0].Some? then 1 else 2)
    ensures decision == Decide(if answers[0].Some? then answers[0] else answers[1])
    ensures forall handle ::
      RecordedAs(if answers[0].Some? then answers[0] else answers[1], Recording(decision, handle), handle)
    ensures answers == [None, None] ==> forall handle :: Recording(decision, handle) == Some(B.RecordCreateUnknown(handle))
  {
    var response: Option<Answer> := None;
    sends := 0;
    while sends < 2 && response == None
      invariant sends <= 2
      invariant sends == 0 ==> response == None
      invariant sends == 1 ==> response == answers[0]
      invariant sends == 2 ==> answers[0] == None && response == answers[1]
    {
      response := answers[sends];
      sends := sends + 1;
    }
    decision := Decide(response);
    forall handle ensures RecordedAs(response, Recording(decision, handle), handle) { DecisionsAreRecorded(response, handle); }
  }

  function CodeOf(reason: Rejection): ErrorCode {
    match reason
    case RejectBudget => BUDGET_EXHAUSTED
    case RejectEnvironment => ENVIRONMENT_MISMATCH
    case RejectRate => RATE_LIMITED
    case RejectConflict => CONFLICT
    case RejectStale(_) => STALE_VERSION
  }

  function ResponseOf(outcome: Outcome): C.Response {
    match outcome
    case OutcomeAccepted => C.RespAccepted
    case OutcomeUnknownYet => C.RespUnknown
    case OutcomePending => C.RespPending
    case OutcomeRunning => C.RespRunning
    case OutcomeSucceeded => C.RespSucceeded
    case OutcomeFailed => C.RespFailed
    case OutcomeCancelled => C.RespCancelled
    case OutcomeCleaned => C.RespCleaned
  }

  /** What a handler's reply looks like on the wire; a reaper tick answers nobody. */
  function AnswerOf(reply: Reply): Option<Answer> {
    match reply
    case Rejected(_, reason) =>
      Some(Answer(C.RespRejected, Some(CodeOf(reason)), if reason.RejectStale? then reason.version else 0))
    case Responded(_, record) => Some(Answer(ResponseOf(OutcomeOf(record)), record.errorCode, record.version))
    case Reaped => None
  }

  /** The answers that are deferred are the three that a controller gives before it admits a request. */
  lemma DefersExactly(reply: Reply)
    ensures Decide(AnswerOf(reply)) == DecideDeferred <==> Runs.DefersSafely(Machine.Done(reply))
  {
  }

  /** The tables of a run in which attempt `a` of some job was claimed under the handle. */
  predicate ClaimedUnder(t: J.Tables, a: J.AttemptId, handle: Handle) {
    a in t.attempts && a in t.executions && t.executions[a].provider == J.CloudRun && t.executions[a].handle == Some(handle)
  }

  /** What recording the deferral of a handle must do to the tables: if the attempt that holds the handle is still
      being sent, it waits again, its execution holds no handle, and no attempt at all is active; otherwise the answer
      comes too late and nothing changes.  Rows of other attempts and jobs are left alone either way. */
  predicate DeferralRecorded(t: J.Tables, t': J.Tables, a: J.AttemptId, handle: Handle, now: Time)
    requires ClaimedUnder(t, a, handle)
  {
    var j := t.attempts[a].jobId;
    if t.executions[a].status == J.ExecCreating && t.attempts[a].status == J.Submitting then
      && a in t'.attempts && a in t'.executions
      && t'.attempts == t.attempts[a := t'.attempts[a]] && t'.executions == t.executions[a := t'.executions[a]]
      && t'.attempts[a] == t.attempts[a].(status := J.SubmissionPending, submissionStartedAt := None,
                                          submissionOutcome := None, submissionFinishedAt := None, updatedAt := now)
      && t'.executions[a].status == J.ExecWaiting && t'.executions[a].handle == None
      && (forall b :: b in t'.attempts ==> !J.IsActive(t'.attempts[b].status))
      && (j in t.jobs && t.jobs[j].active == Some(a) && t.jobs[j].deletedAt == None && t.jobs[j].status == J.JobSubmitting ==>
            t'.jobs == t.jobs[j := t.jobs[j].(status := J.JobSubmissionPending, version := t.jobs[j].version + 1, updatedAt := now)])
      && (!(j in t.jobs && t.jobs[j].active == Some(a) && t.jobs[j].deletedAt == None && t.jobs[j].status == J.JobSubmitting) ==>
            t'.jobs == t.jobs)
    else t' == t
  }

  lemma DeferringTables(t: J.Tables, a: J.AttemptId, handle: Handle, now: Time)
    requires JR.TablesOk(t) && ClaimedUnder(t, a, handle) && JR.Fresh(t, now)
    ensures DeferralRecorded(t, JR.RunBatch(t, t.attempts[a].jobId, a, now, B.RecordCreateDeferred(handle)), a, handle, now)
  {
    hide B.ApplyAll, B.Statements;
    var j := t.attempts[a].jobId;
    JR.RowsFromTables(t, j, a, now);
    T.DeferringRows(JR.ContextOf(t, j, a, now), JR.SliceOf(t, j, a), handle);
  }

  // ---------------------------------------------------------------- no answer at all

  /** What recording an unknown outcome must do to the tables: if the attempt that holds the handle is still being sent, it and its
      execution say that the outcome is unknown; no status moves, no job changes, and no other row is touched. */
  predicate UnknownRecorded(t: J.Tables, t': J.Tables, a: J.AttemptId, handle: Handle, now: Time)
    requires ClaimedUnder(t, a, handle)
  {
    if t.executions[a].status == J.ExecCreating && t.attempts[a].status == J.Submitting then
      && t'.jobs == t.jobs
      && t'.attempts == t.attempts[a := t.attempts[a].(
           submissionOutcome := Some(J.CreateUnknown), submissionFinishedAt := Some(now), updatedAt := now)]
      && t'.executions == t.executions[a := t.executions[a].(
           createOutcome := Some(J.CreateUnknown), version := t.executions[a].version + 1, updatedAt := now)]
    else t'.jobs == t.jobs && t'.attempts == t.attempts
  }

  /** Whenever both sends of a create throw, the batch that is then run on any tables that batches can reach records the outcome of
      the attempt claimed under the handle as unknown, and moves nothing. */
  lemma TwoFailuresAreUnknown(events: seq<T.Event>, a: J.AttemptId, handle: Handle, now: Time)
    requires T.LegalRun(T.EMPTY, events) && JR.Fresh(T.Run(T.EMPTY, events), now)
    ensures
      var t := T.Run(T.EMPTY, events);
      ClaimedUnder(t, a, handle) ==>
        && Recording(Decide(None), handle).Some?
        && UnknownRecorded(t, JR.RunBatch(t, t.attempts[a].jobId, a, now, Recording(Decide(None), handle).value), a, handle, now)
  {
    hide T.Run, B.ApplyAll, B.Statements;
    T.RunKeepsTables(T.EMPTY, events);
    var t := T.Run(T.EMPTY, events);
    if ClaimedUnder(t, a, handle) {
      var j := t.attempts[a].jobId;
      JR.RowsFromTables(t, j, a, now);
      E.RecordCreateUnknownRows(JR.ContextOf(t, j, a, now), JR.SliceOf(t, j, a), handle);
    }
  }

  // ---------------------------------------------------------------- what a create is answered

  /** The codes of the five rejections, and the version a stale one names. */
  lemma RejectionsOnTheWire(request: Request, version: int)
    ensures AnswerOf(Rejected(request, RejectBudget)) == Some(Answer(C.RespRejected, Some(BUDGET_EXHAUSTED), 0))
    ensures AnswerOf(Rejected(request, RejectEnvironment)) == Some(Answer(C.RespRejected, Some(ENVIRONMENT_MISMATCH), 0))
    ensures AnswerOf(Rejected(request, RejectRate)) == Some(Answer(C.RespRejected, Some(RATE_LIMITED), 0))
    ensures AnswerOf(Rejected(request, RejectConflict)) == Some(Answer(C.RespRejected, Some(CONFLICT), 0))
    ensures AnswerOf(Rejected(request, RejectStale(version))) == Some(Answer(C.RespRejected, Some(STALE_VERSION), version))
  {
  }

  /** When each response is sent, of a record that fits together. */
  predicate SaysOfRecord(r: ControlRecord, a: Answer) {
    && a.errorCode == r.errorCode && a.version == r.version
    && (a.response == C.RespUnknown <==> Runs.InDoubt(r))
    && (a.response == C.RespAccepted <==> !Runs.InDoubt(r) && r.state == CREATE_INTENT)
    && (a.response == C.RespPending <==>
          !Runs.InDoubt(r) && r.state in {JOB_PENDING, JOB_READY, RUN_INTENT, EXECUTION_PENDING, CANCEL_PENDING, CLEANUP_PENDING})
    && (a.response == C.RespRunning <==> !Runs.InDoubt(r) && r.state == RUNNING && Runs.ShowsExecution(r, ExecRunning))
    && (a.response == C.RespSucceeded <==> !Runs.InDoubt(r) && r.state == SUCCEEDED && Runs.ShowsExecution(r, ExecSucceeded))
    && (a.response == C.RespCancelled <==> !Runs.InDoubt(r) && r.state == CANCELLED && Runs.ShowsExecution(r, ExecCancelled))
    && (a.response == C.RespFailed <==> !Runs.InDoubt(r) && r.state == FAILED)
    && (a.response == C.RespCleaned <==> r.state == CLEANED)
    && a.response != C.RespRejected
  }

  /** What the orchestrator reads in any answer of any run, and which of them it takes for a create that is on its way: exactly those
      of a record without an error that has not ended.  An answer in doubt always carries UNKNOWN_OUTCOME, so the orchestrator takes it
      for an invalid one and records nothing, although it is ready to record an unknown outcome. */
  lemma AnswersOnTheWire(c: Machine.Config, start: Time, moves: seq<Machine.Move>, i: int)
    requires Machine.F.AuthorizationSchema(c.auth)
    ensures
      var s := Machine.Run(c, Machine.Initial(c, start), moves);
      i in s.handlers && s.handlers[i].Done? && s.handlers[i].reply.Responded? ==>
        var r, answer := s.handlers[i].reply.record, AnswerOf(s.handlers[i].reply);
        && answer.Some? && SaysOfRecord(r, answer.value)
        && (Decide(answer) == DecideInvalid <==> r.errorCode.Some? || r.state in {SUCCEEDED, FAILED, CANCELLED, CLEANED})
        && (Decide(answer) != DecideInvalid ==> Decide(answer) == DecideRecord(answer.value.response, r.version)
                                                && answer.value.response in {C.RespAccepted, C.RespPending, C.RespRunning})
        && (answer.value.response == C.RespUnknown ==>
              Decide(answer) == DecideInvalid && forall handle :: Recording(Decide(answer), handle) == None)
  {
    hide Machine.Run;
    Runs.AnswersAreCoherent(c, start, moves, i);
  }

  /** Such a run: the create call was made, the answer is "unknown", and the orchestrator records nothing of it. */
  lemma UnknownIsNotRecorded() returns (moves: seq<Machine.Move>)
    ensures
      var s := Machine.Run(Witnesses.CONFIG, Machine.Initial(Witnesses.CONFIG, 0), moves);
      && 1 in s.handlers && s.handlers[1].Done?
      && s.calls == [Machine.Call(7, Machine.CallCreateJob(1))]
      && AnswerOf(s.handlers[1].reply) == Some(Answer(C.RespUnknown, Some(UNKNOWN_OUTCOME), 3))
      && Recording(Decide(AnswerOf(s.handlers[1].reply)), 7) == None
  {
    moves := Witnesses.CreateInDoubt();
  }

  // ---------------------------------------------------------------- end to end

  /** End to end.  Whenever a create is answered so that the orchestrator decides to defer it: for a request to the
      controller's own environment, there is no control record for its handle and no provider call was ever made for it;
      for another environment there is no record of that environment, and no record or call of the handle at all exactly
      unless a create for the handle was accepted under the own environment.  And in any tables that batches can reach,
      recording the deferral lets the attempt that was claimed under this very handle wait again. */
  lemma DeferralIsSafe(c: Machine.Config, start: Time, moves: seq<Machine.Move>, move: Machine.Move,
                       events: seq<T.Event>, a: J.AttemptId, now: Time)
    requires Machine.F.AuthorizationSchema(c.auth) && c.environment == c.auth.environment
    requires T.LegalRun(T.EMPTY, events) && JR.Fresh(T.Run(T.EMPTY, events), now)
    ensures
      var s := Machine.Run(c, Machine.Initial(c, start), moves);
      var s' := Machine.Step(c, s, move);
      Runs.JustRefused(s, s', move.handler) && Decide(AnswerOf(s'.handlers[move.handler].reply)) == DecideDeferred ==>
        && DeferredSafely(c, s', s'.handlers[move.handler].reply.request)
        && var handle := s'.handlers[move.handler].reply.request.executionHandle;
           var t := T.Run(T.EMPTY, events);
           ClaimedUnder(t, a, handle) ==>
             DeferralRecorded(
               t, JR.RunBatch(t, t.attempts[a].jobId, a, now, Recording(DecideDeferred, handle).value), a, handle, now)
  {
    hide Machine.Run, Machine.Step, T.Run, JR.RunBatch, DeferralRecorded, Decide, AnswerOf;
    var s := Machine.Run(c, Machine.Initial(c, start), moves);
    var s' := Machine.Step(c, s, move);
    Runs.SafeDeferral(c, start, moves, move);
    Late.MismatchIsForeign(c, start, moves, move);
    T.RunKeepsTables(T.EMPTY, events);
    if Runs.JustRefused(s, s', move.handler) {
      var handle := s'.handlers[move.handler].reply.request.executionHandle;
      DefersExactly(s'.handlers[move.handler].reply);
      if ClaimedUnder(T.Run(T.EMPTY, events), a, handle) { DeferringTables(T.Run(T.EMPTY, events), a, handle, now); }
    }
  }

  predicate Untouched(s: Machine.Sys, handle: Handle) {
    handle !in s.db.executions && forall call :: call in s.calls ==> call.handle != handle
  }

  predicate DeferredSafely(c: Machine.Config, s: Machine.Sys, request: Request) {
    if request.environment == c.environment then Untouched(s, request.executionHandle)
    else
      && (forall h :: h in s.db.executions ==> s.db.executions[h].environment != request.environment)
      && (Untouched(s, request.executionHandle) <==> !Machine.F.Admitted(s.db, request.executionHandle))
  }
}

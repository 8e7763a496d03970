/** What every statement keeps of the rows it works on, whatever its caller read before: attempts belong to their jobs,
    executions fit their attempts, ended attempts stay ended, and only an idle table lets an attempt become active. */
module JobRows {
  import opened ControllerTypes
  import opened JobTables
  import opened JobBatches
  import C = CloudRunBatches
  import R = RunpodBatches
  import W = WebBatches

  lemma RowsThen(c: Context, s: Slice, s1: Slice, s2: Slice)
    requires RowsStep(c, s, s1) && RowsStep(c, s1, s2)
    ensures RowsStep(c, s, s2)
  {
  }

  // ---------------------------------------------------------------- one statement

  /** The claim and the deferral move the execution first and the attempt second; between the two the rows do not fit. */
  predicate Splits(stmt: C.Statement) {
    stmt.ClaimExecution? || stmt.DeferExecution?
  }

  /** A statement that keeps the rows on its own; the finalizing ones are only ever given statuses that end an attempt. */
  predicate StandsAlone(stmt: Statement) {
    match stmt
    case Cloud(cloud) => !Splits(cloud) && (cloud.TerminateAttempt? ==> IsTerminal(cloud.status))
    case Pod(pod) => pod.FinalizeTerminalAttempt? ==> IsTerminal(pod.status)
    case Web(_) => true
  }

  predicate OfClaim(stmt: C.Statement) {
    stmt.ClaimExecution? || stmt.ClaimAttempt? || stmt.ClaimJob?
  }

  predicate OfRecord(stmt: C.Statement) {
    || stmt.RecordResponseExecution? || stmt.RecordResponseAttempt? || stmt.RecordResponseJob?
    || stmt.RecordUnknownExecution? || stmt.RecordUnknownAttempt?
  }

  predicate OfDefer(stmt: C.Statement) {
    stmt.DeferExecution? || stmt.DeferAttempt? || stmt.DeferJob? || stmt.RejectExecution? || stmt.RejectAttempt?
  }

  predicate OfResponse(stmt: C.Statement) {
    || stmt.ApplyExecution? || stmt.ApplyAttempt? || stmt.ApplyJob?
    || stmt.FailMissingExecution? || stmt.FailMissingAttempt?
  }

  lemma ClaimingKeeps(c: Context, s: Slice, stmt: C.Statement)
    requires RowsOk(c, s) && OfClaim(stmt) && !stmt.ClaimExecution?
    ensures RowsStep(c, s, C.Apply(c, s, stmt).0)
  {
  }

  lemma RecordingKeeps(c: Context, s: Slice, stmt: C.Statement)
    requires RowsOk(c, s) && OfRecord(stmt)
    ensures RowsStep(c, s, C.Apply(c, s, stmt).0)
  {
  }

  lemma DeferringKeeps(c: Context, s: Slice, stmt: C.Statement)
    requires RowsOk(c, s) && OfDefer(stmt) && !stmt.DeferExecution?
    ensures RowsStep(c, s, C.Apply(c, s, stmt).0)
  {
  }

  lemma RespondingKeeps(c: Context, s: Slice, stmt: C.Statement)
    requires RowsOk(c, s) && OfResponse(stmt)
    ensures RowsStep(c, s, C.Apply(c, s, stmt).0)
  {
  }

  lemma EndingKeeps(c: Context, s: Slice, stmt: C.Statement)
    requires RowsOk(c, s) && !OfClaim(stmt) && !OfRecord(stmt) && !OfDefer(stmt) && !OfResponse(stmt)
    requires StandsAlone(Cloud(stmt))
    ensures RowsStep(c, s, C.Apply(c, s, stmt).0)
  {
  }

  lemma CloudKeeps(c: Context, s: Slice, stmt: C.Statement)
    requires RowsOk(c, s) && StandsAlone(Cloud(stmt))
    ensures RowsStep(c, s, C.Apply(c, s, stmt).0)
  {
    hide RowsOk, RowsStep, C.Apply;
    if OfClaim(stmt) { ClaimingKeeps(c, s, stmt); }
    else if OfRecord(stmt) { RecordingKeeps(c, s, stmt); }
    else if OfDefer(stmt) { DeferringKeeps(c, s, stmt); }
    else if OfResponse(stmt) { RespondingKeeps(c, s, stmt); }
    else { EndingKeeps(c, s, stmt); }
  }

  lemma SubmittingKeeps(c: Context, s: Slice, stmt: R.Statement)
    requires RowsOk(c, s)
    ensures RowsStep(c, s, R.ApplySubmission(c, s, stmt).0)
  {
  }

  lemma ExpiringKeeps(c: Context, s: Slice, stmt: R.Statement)
    requires RowsOk(c, s)
    ensures RowsStep(c, s, R.ApplyExpiry(c, s, stmt).0)
  {
  }

  lemma ConcludingKeeps(c: Context, s: Slice, stmt: R.Statement)
    requires RowsOk(c, s) && StandsAlone(Pod(stmt))
    ensures RowsStep(c, s, R.ApplyOutcome(c, s, stmt).0)
  {
  }

  lemma PodKeeps(c: Context, s: Slice, stmt: R.Statement)
    requires RowsOk(c, s) && StandsAlone(Pod(stmt))
    ensures RowsStep(c, s, R.Apply(c, s, stmt).0)
  {
    hide RowsOk, RowsStep, R.ApplySubmission, R.ApplyExpiry, R.ApplyOutcome;
    SubmittingKeeps(c, s, stmt);
    ExpiringKeeps(c, s, stmt);
    ConcludingKeeps(c, s, stmt);
  }

  lemma NewAttemptKeeps(c: Context, s: Slice, stmt: W.Statement)
    requires RowsOk(c, s)
    ensures RowsStep(c, s, W.ApplyNew(c, s, stmt).0)
  {
  }

  lemma StoppingKeeps(c: Context, s: Slice, stmt: W.Statement)
    requires RowsOk(c, s)
    ensures RowsStep(c, s, W.ApplyStop(c, s, stmt).0)
  {
  }

  lemma WebKeeps(c: Context, s: Slice, stmt: W.Statement)
    requires RowsOk(c, s)
    ensures RowsStep(c, s, W.Apply(c, s, stmt).0)
  {
    hide RowsOk, RowsStep, W.ApplyNew, W.ApplyStop;
    NewAttemptKeeps(c, s, stmt);
    StoppingKeeps(c, s, stmt);
  }

  lemma StatementKeeps(c: Context, s: Slice, stmt: Statement)
    requires RowsOk(c, s) && StandsAlone(stmt)
    ensures RowsStep(c, s, Apply(c, s, stmt).0)
  {
    hide RowsOk, RowsStep, C.Apply, R.Apply, W.Apply;
    match stmt
    case Cloud(cloud) => CloudKeeps(c, s, cloud);
    case Pod(pod) => PodKeeps(c, s, pod);
    case Web(web) => WebKeeps(c, s, web);
  }

  // ---------------------------------------------------------------- the claim and the deferral

  lemma ClaimPairKeeps(c: Context, s: Slice, handle: int)
    requires RowsOk(c, s)
    ensures RowsStep(c, s, C.Apply(c, C.Apply(c, s, C.ClaimExecution(handle)).0, C.ClaimAttempt).0)
  {
  }

  lemma DeferPairKeeps(c: Context, s: Slice, handle: int)
    requires RowsOk(c, s)
    ensures RowsStep(c, s, C.Apply(c, C.Apply(c, s, C.DeferExecution(handle)).0, C.DeferAttempt).0)
  {
  }

  // ---------------------------------------------------------------- one batch

  lemma {:induction false} StatementsKeep(c: Context, s: Slice, statements: seq<Statement>)
    requires RowsOk(c, s) && forall i :: 0 <= i < |statements| ==> StandsAlone(statements[i])
    ensures RowsStep(c, s, ApplyAll(c, s, statements))
    decreases statements
  {
    if statements != [] {
      StatementKeeps(c, s, statements[0]);
      StatementsKeep(c, Apply(c, s, statements[0]).0, statements[1..]);
      RowsThen(c, s, Apply(c, s, statements[0]).0, ApplyAll(c, s, statements));
    }
  }

  lemma PairThenJobKeeps(c: Context, s: Slice, first: C.Statement, second: C.Statement, last: C.Statement)
    requires RowsStep(c, s, C.Apply(c, C.Apply(c, s, first).0, second).0) && StandsAlone(Cloud(last))
    ensures RowsStep(c, s, ApplyAll(c, s, [Cloud(first), Cloud(second), Cloud(last)]))
  {
    hide RowsOk, C.Apply;
    var s2 := C.Apply(c, C.Apply(c, s, first).0, second).0;
    ThreeStatements(c, s, Cloud(first), Cloud(second), Cloud(last));
    CloudKeeps(c, s2, last);
    RowsThen(c, s, s2, C.Apply(c, s2, last).0);
  }

  lemma BatchStandsAlone(b: Batch)
    requires !b.PrepareCloudRun? && !b.RecordCreateDeferred?
    ensures forall i :: 0 <= i < |Statements(b)| ==> StandsAlone(Statements(b)[i])
  {
  }

  /** Any batch, by whichever part of the system and however old what its caller read, keeps the rows. */
  lemma BatchKeepsRows(c: Context, s: Slice, b: Batch)
    requires RowsOk(c, s)
    ensures RowsStep(c, s, ApplyAll(c, s, Statements(b)))
  {
    hide RowsOk, RowsStep, ApplyAll, C.Apply, StandsAlone;
    if b.PrepareCloudRun? {
      ClaimPairKeeps(c, s, b.handle);
      assert StandsAlone(Cloud(C.ClaimJob)) by { JobStatementsStandAlone(); }
      PairThenJobKeeps(c, s, C.ClaimExecution(b.handle), C.ClaimAttempt, C.ClaimJob);
    } else if b.RecordCreateDeferred? {
      DeferPairKeeps(c, s, b.handle);
      assert StandsAlone(Cloud(C.DeferJob)) by { JobStatementsStandAlone(); }
      PairThenJobKeeps(c, s, C.DeferExecution(b.handle), C.DeferAttempt, C.DeferJob);
    } else {
      hide Statements;
      BatchStandsAlone(b);
      StatementsKeep(c, s, Statements(b));
    }
  }

  lemma JobStatementsStandAlone()
    ensures StandsAlone(Cloud(C.ClaimJob)) && StandsAlone(Cloud(C.DeferJob))
  {
  }

  /** No row disappears: an attempt that is kept keeps its provider, and with it its execution. */
  lemma RowsGrow(c: Context, s: Slice, s': Slice)
    requires RowsOk(c, s) && RowsStep(c, s, s')
    ensures Grows(s, s')
  {
  }

  // ---------------------------------------------------------------- a job's version pins its row

  /** A job row is as it was, or its version has grown. */
  predicate Pinned(before: Option<JobRow>, after: Option<JobRow>) {
    before.Some? ==> after.Some? && (after == before || after.value.version > before.value.version)
  }

  lemma StatementPins(c: Context, s: Slice, stmt: Statement)
    ensures Pinned(s.job, Apply(c, s, stmt).0.job)
  {
  }

  lemma {:induction false} BatchPins(c: Context, s: Slice, statements: seq<Statement>)
    ensures Pinned(s.job, ApplyAll(c, s, statements).job)
    decreases statements
  {
    hide Apply;
    if statements != [] {
      StatementPins(c, s, statements[0]);
      BatchPins(c, Apply(c, s, statements[0]).0, statements[1..]);
    }
  }
}

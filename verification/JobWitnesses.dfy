/** Two runs of the tables from an empty database: one that a late cancellation leads into disagreement, and one that a
    retry leads to an attempt that never starts. */
module JobWitnesses {
  import opened ControllerTypes
  import opened JobTables
  import opened JobBatches
  import opened JobRuns
  import opened JobTheorems
  import C = CloudRunBatches
  import W = WebBatches

  // ---------------------------------------------------------------- rows of job 1, owned by 7, and its attempt 2

  function Job(status: JobStatus, active: Option<AttemptId>, version: int, etag: Option<int>, at: Time): JobRow {
    JobRow(status, active, version, 7, etag, None, None, at)
  }

  function Waiting(generation: int, provider: Option<Provider>, at: Time): AttemptRow {
    AttemptRow(1, generation, provider, SubmissionPending, None, None, None, None, None, None, None, None, None, None, None,
               false, None, at, at)
  }

  function Sent(at: Time): AttemptRow {
    Waiting(1, Some(CloudRun), 20).(status := Submitting, submissionStartedAt := Some(at), updatedAt := at)
  }

  function Execution(status: ExecStatus, handle: Option<int>, version: int, at: Time): ExecRow {
    ExecRow(CloudRun, status, None, handle, None, None, NotRequested, version, at)
  }

  function Alone(job: JobRow, attempt: AttemptRow, execution: ExecRow): Tables {
    Tables(map[1 := job], map[2 := attempt], map[2 := execution])
  }

  function Rows(job: JobRow, attempt: AttemptRow, execution: ExecRow): Slice {
    Slice(Some(job), Some(attempt), Some(execution))
  }

  /** A batch on a database that holds nothing but this job, its attempt and its execution. */
  lemma BatchAlone(job: JobRow, attempt: AttemptRow, execution: ExecRow, now: Time, b: Batch, left: Slice)
    requires left.job.Some? && left.attempt.Some? && left.execution.Some?
    requires attempt.jobId == 1
    requires
      forall c: Context :: c.job == 1 && c.attempt == 2 && c.now == now && c.othersIdle ==>
        ApplyAll(c, Rows(job, attempt, execution), Statements(b)) == left
    ensures Step(Alone(job, attempt, execution), RunsBatch(1, 2, now, b))
         == Alone(left.job.value, left.attempt.value, left.execution.value)
    ensures Legal(Alone(job, attempt, execution), RunsBatch(1, 2, now, b))
  {
    hide ApplyAll, Statements;
    var t := Alone(job, attempt, execution);
    assert SliceOf(t, 1, 2) == Rows(job, attempt, execution);
    assert ContextOf(t, 1, 2, now).othersIdle;
  }

  /** Three statements of the Cloud Run side with the rows that each of them leaves. */
  lemma ThreeLeave(c: Context, s0: Slice, x: C.Statement, s1: Slice, y: C.Statement, s2: Slice, z: C.Statement, s3: Slice)
    requires C.Apply(c, s0, x).0 == s1 && C.Apply(c, s1, y).0 == s2 && C.Apply(c, s2, z).0 == s3
    ensures ApplyAll(c, s0, [Cloud(x), Cloud(y), Cloud(z)]) == s3
  {
    hide C.Apply;
    ThreeStatements(c, s0, Cloud(x), Cloud(y), Cloud(z));
  }

  // ---------------------------------------------------------------- the first steps of both runs

  const CREATED := NewJob(1, 7, 10)
  const INGESTED := RunsBatch(1, 2, 20, IngestSource(CloudRun, 1, 5, true))
  const CLAIMED := RunsBatch(1, 2, 30, PrepareCloudRun(9))

  const ONE_JOB := Tables(map[1 := Job(JobCreated, None, 1, None, 10)], map[], map[])
  const PENDING :=
    Alone(Job(JobSubmissionPending, Some(2), 2, Some(5), 20), Waiting(1, Some(CloudRun), 20),
          Execution(ExecWaiting, None, 1, 20))
  const SENT :=
    Alone(Job(JobSubmitting, Some(2), 3, Some(5), 30), Sent(30), Execution(ExecCreating, Some(9), 2, 30))

  lemma Creating()
    ensures Step(EMPTY, CREATED) == ONE_JOB && Legal(EMPTY, CREATED)
  {
  }

  lemma Ingesting()
    ensures Step(ONE_JOB, INGESTED) == PENDING && Legal(ONE_JOB, INGESTED)
  {
    var c := ContextOf(ONE_JOB, 1, 2, 20);
    var s := Slice(Some(Job(JobCreated, None, 1, None, 10)), None, None);
    assert SliceOf(ONE_JOB, 1, 2) == s;
    TwoStatements(c, s, Web(W.InsertFirstAttempt(CloudRun, 1, 5)), Web(W.ActivateAttempt(1, 5)));
    assert Statements(IngestSource(CloudRun, 1, 5, true))
        == [Web(W.InsertFirstAttempt(CloudRun, 1, 5)), Web(W.ActivateAttempt(1, 5))];
    assert c.generationOneFree;
  }

  lemma Claiming()
    ensures Step(PENDING, CLAIMED) == SENT && Legal(PENDING, CLAIMED)
  {
    var job, attempt, execution :=
      Job(JobSubmissionPending, Some(2), 2, Some(5), 20), Waiting(1, Some(CloudRun), 20), Execution(ExecWaiting, None, 1, 20);
    forall c: Context | c.job == 1 && c.attempt == 2 && c.now == 30 && c.othersIdle
      ensures ApplyAll(c, Rows(job, attempt, execution), Statements(PrepareCloudRun(9)))
           == Rows(Job(JobSubmitting, Some(2), 3, Some(5), 30), Sent(30), Execution(ExecCreating, Some(9), 2, 30))
    {
      ThreeStatements(c, Rows(job, attempt, execution), Cloud(C.ClaimExecution(9)), Cloud(C.ClaimAttempt), Cloud(C.ClaimJob));
    }
    BatchAlone(job, attempt, execution, 30, PrepareCloudRun(9),
               Rows(Job(JobSubmitting, Some(2), 3, Some(5), 30), Sent(30), Execution(ExecCreating, Some(9), 2, 30)));
  }

  /** One more event in front of a run. */
  lemma Before(t: Tables, e: Event, rest: seq<Event>)
    ensures Run(t, [e] + rest) == Run(Step(t, e), rest)
    ensures LegalRun(t, [e] + rest) == (Legal(t, e) && LegalRun(Step(t, e), rest))
  {
    hide Step, Legal;
    assert ([e] + rest)[1..] == rest;
  }

  lemma ClaimedRun(rest: seq<Event>)
    ensures Run(EMPTY, [CREATED] + ([INGESTED] + ([CLAIMED] + rest))) == Run(SENT, rest)
    ensures LegalRun(EMPTY, [CREATED] + ([INGESTED] + ([CLAIMED] + rest))) == LegalRun(SENT, rest)
  {
    hide Run, LegalRun;
    Before(EMPTY, CREATED, [INGESTED] + ([CLAIMED] + rest));
    Creating();
    Before(ONE_JOB, INGESTED, [CLAIMED] + rest);
    Ingesting();
    Before(PENDING, CLAIMED, rest);
    Claiming();
  }

  // ---------------------------------------------------------------- a cancellation that comes late

  const ANSWERED := RunsBatch(1, 2, 40, RecordCreateResponse(9, C.RespAccepted, 1))
  const LATE := RunsBatch(1, 2, 50, RequestCancellation(7, 3, Submitting))

  function Accepted(): AttemptRow {
    Sent(30).(submissionOutcome := Some(CreateAccepted), submissionFinishedAt := Some(40), updatedAt := 40)
  }

  function Created(): ExecRow {
    Execution(ExecCreating, Some(9), 3, 40).(createOutcome := Some(CreateAccepted), providerVersion := Some(1))
  }

  const WAITING := Alone(Job(JobSubmitting, Some(2), 4, Some(5), 40), Accepted(), Created())
  const SPLIT :=
    Alone(Job(JobSubmitting, Some(2), 4, Some(5), 40), Accepted().(status := CancelRequested, updatedAt := 50),
          Created().(status := ExecCancelRequested, version := 4, updatedAt := 50))

  lemma AnsweringRows(c: Context)
    requires c.job == 1 && c.attempt == 2 && c.now == 40
    ensures ApplyAll(c, Rows(Job(JobSubmitting, Some(2), 3, Some(5), 30), Sent(30), Execution(ExecCreating, Some(9), 2, 30)),
                     Statements(RecordCreateResponse(9, C.RespAccepted, 1)))
         == Rows(Job(JobSubmitting, Some(2), 4, Some(5), 40), Accepted(), Created())
  {
    var job := Job(JobSubmitting, Some(2), 3, Some(5), 30);
    ThreeLeave(c, Rows(job, Sent(30), Execution(ExecCreating, Some(9), 2, 30)),
               C.RecordResponseExecution(9, C.RespAccepted, 1), Rows(job, Sent(30), Created()),
               C.RecordResponseAttempt(9, C.RespAccepted, 1), Rows(job, Accepted(), Created()),
               C.RecordResponseJob(C.RespAccepted),
               Rows(Job(JobSubmitting, Some(2), 4, Some(5), 40), Accepted(), Created()));
  }

  lemma Answering()
    ensures Step(SENT, ANSWERED) == WAITING && Legal(SENT, ANSWERED)
  {
    hide ApplyAll, Statements, Step, Legal;
    forall c: Context | c.job == 1 && c.attempt == 2 && c.now == 40 && c.othersIdle
      ensures ApplyAll(c, Rows(Job(JobSubmitting, Some(2), 3, Some(5), 30), Sent(30), Execution(ExecCreating, Some(9), 2, 30)),
                       Statements(RecordCreateResponse(9, C.RespAccepted, 1)))
           == Rows(Job(JobSubmitting, Some(2), 4, Some(5), 40), Accepted(), Created())
    {
      AnsweringRows(c);
    }
    BatchAlone(Job(JobSubmitting, Some(2), 3, Some(5), 30), Sent(30), Execution(ExecCreating, Some(9), 2, 30), 40,
               RecordCreateResponse(9, C.RespAccepted, 1),
               Rows(Job(JobSubmitting, Some(2), 4, Some(5), 40), Accepted(), Created()));
  }

  lemma CancellingRows(c: Context)
    requires c.job == 1 && c.attempt == 2 && c.now == 50
    ensures ApplyAll(c, Rows(Job(JobSubmitting, Some(2), 4, Some(5), 40), Accepted(), Created()),
                     Statements(RequestCancellation(7, 3, Submitting)))
         == Rows(Job(JobSubmitting, Some(2), 4, Some(5), 40), Accepted().(status := CancelRequested, updatedAt := 50),
                 Created().(status := ExecCancelRequested, version := 4, updatedAt := 50))
  {
    TwoStatements(c, Rows(Job(JobSubmitting, Some(2), 4, Some(5), 40), Accepted(), Created()),
                  Web(W.RequestAttemptCancellation(Submitting)), Web(W.RequestJobCancellation(7, 3, Submitting)));
  }

  lemma CancellingLate()
    ensures Step(WAITING, LATE) == SPLIT && Legal(WAITING, LATE)
  {
    var job, attempt, execution := Job(JobSubmitting, Some(2), 4, Some(5), 40), Accepted(), Created();
    var b := RequestCancellation(7, 3, Submitting);
    var left := Rows(job, Accepted().(status := CancelRequested, updatedAt := 50),
                     Created().(status := ExecCancelRequested, version := 4, updatedAt := 50));
    hide ApplyAll, Statements, Step, Legal;
    forall c: Context | c.job == 1 && c.attempt == 2 && c.now == 50 && c.othersIdle
      ensures ApplyAll(c, Rows(job, attempt, execution), Statements(b)) == left
    {
      CancellingRows(c);
    }
    BatchAlone(job, attempt, execution, 50, b, left);
  }

  /** A cancellation that read version 3 of the job arrives when a create response has taken it to version 4: the
      attempt is asked to cancel, the job stays SUBMITTING, and nothing has brought them back together. */
  lemma StaleCancellationHappens() returns (events: seq<Event>)
    ensures LegalRun(EMPTY, events)
    ensures
      var t := Run(EMPTY, events);
      && 1 in t.jobs && t.jobs[1].active == Some(2) && t.jobs[1].deletedAt == None && 2 in t.attempts
      && t.jobs[1].status == JobSubmitting && t.attempts[2].status == CancelRequested
      && !JobAgrees(t, 1)
  {
    hide Step, Legal;
    var rest := [ANSWERED] + ([LATE] + []);
    events := [CREATED] + ([INGESTED] + ([CLAIMED] + rest));
    ClaimedRun(rest);
    Before(SENT, ANSWERED, [LATE] + []);
    Answering();
    Before(WAITING, LATE, []);
    CancellingLate();
  }

  // ---------------------------------------------------------------- a retry

  const REFUSED := RunsBatch(1, 2, 40, RecordCreateRejected(9, 1))
  const RETRIED := RunsBatch(1, 3, 50, RetryFailedJob(7))

  function Rejected(): AttemptRow {
    Sent(30).(status := AttemptFailed, submissionOutcome := Some(CreateRejected), submissionFinishedAt := Some(40),
              failedAt := Some(40), updatedAt := 40)
  }

  function Ended(): ExecRow {
    Execution(ExecTerminal, Some(9), 3, 40).(
      createOutcome := Some(CreateRejected), terminalStatus := Some(TermFailed), cleanup := CleanupSucceeded,
      providerVersion := Some(1))
  }

  const FAILED := Alone(Job(JobFailed, Some(2), 4, Some(5), 40), Rejected(), Ended())
  const RETRYING :=
    Tables(map[1 := Job(JobSubmissionPending, Some(3), 5, Some(5), 50)],
           map[2 := Rejected(), 3 := Waiting(2, None, 50)], map[2 := Ended()])

  lemma RefusingRows(c: Context)
    requires c.job == 1 && c.attempt == 2 && c.now == 40
    ensures ApplyAll(c, Rows(Job(JobSubmitting, Some(2), 3, Some(5), 30), Sent(30), Execution(ExecCreating, Some(9), 2, 30)),
                     Statements(RecordCreateRejected(9, 1)))
         == Rows(Job(JobFailed, Some(2), 4, Some(5), 40), Rejected(), Ended())
  {
    var job := Job(JobSubmitting, Some(2), 3, Some(5), 30);
    ThreeLeave(c, Rows(job, Sent(30), Execution(ExecCreating, Some(9), 2, 30)),
               C.RejectExecution(9, 1), Rows(job, Sent(30), Ended()),
               C.RejectAttempt(9), Rows(job, Rejected(), Ended()),
               C.ApplyJob(C.RespFailed), Rows(Job(JobFailed, Some(2), 4, Some(5), 40), Rejected(), Ended()));
  }

  lemma Refusing()
    ensures Step(SENT, REFUSED) == FAILED && Legal(SENT, REFUSED)
  {
    hide ApplyAll, Statements, Step, Legal;
    forall c: Context | c.job == 1 && c.attempt == 2 && c.now == 40 && c.othersIdle
      ensures ApplyAll(c, Rows(Job(JobSubmitting, Some(2), 3, Some(5), 30), Sent(30), Execution(ExecCreating, Some(9), 2, 30)),
                       Statements(RecordCreateRejected(9, 1)))
           == Rows(Job(JobFailed, Some(2), 4, Some(5), 40), Rejected(), Ended())
    {
      RefusingRows(c);
    }
    BatchAlone(Job(JobSubmitting, Some(2), 3, Some(5), 30), Sent(30), Execution(ExecCreating, Some(9), 2, 30), 40,
               RecordCreateRejected(9, 1), Rows(Job(JobFailed, Some(2), 4, Some(5), 40), Rejected(), Ended()));
  }

  lemma RetryingRows(c: Context)
    requires c.job == 1 && c.attempt == 3 && c.now == 50 && c.current == Some(Rejected()) && c.nextGenerationFree
    ensures ApplyAll(c, Slice(Some(Job(JobFailed, Some(2), 4, Some(5), 40)), None, None), Statements(RetryFailedJob(7)))
         == Slice(Some(Job(JobSubmissionPending, Some(3), 5, Some(5), 50)), Some(Waiting(2, None, 50)), None)
  {
    var s := Slice(Some(Job(JobFailed, Some(2), 4, Some(5), 40)), None, None);
    TwoStatements(c, s, Web(W.InsertRetryAttempt(7)), Web(W.ActivateRetryAttempt(7)));
  }

  lemma Retrying()
    ensures Step(FAILED, RETRIED) == RETRYING && Legal(FAILED, RETRIED)
  {
    hide ApplyAll, Statements;
    var c := ContextOf(FAILED, 1, 3, 50);
    assert SliceOf(FAILED, 1, 3) == Slice(Some(Job(JobFailed, Some(2), 4, Some(5), 40)), None, None);
    assert c.current == Some(Rejected()) && c.nextGenerationFree;
    RetryingRows(c);
  }

  /** A job whose create was rejected is FAILED; its retry makes attempt 3 the active one, and whatever runs afterwards
      that attempt never starts. */
  lemma RetryLeadsNowhere(later: seq<Event>) returns (events: seq<Event>)
    ensures LegalRun(EMPTY, events)
    ensures
      var t := Run(EMPTY, events);
      && 1 in t.jobs && t.jobs[1].status == JobSubmissionPending && t.jobs[1].active == Some(3)
      && (LegalRun(t, later) ==> 3 in Run(t, later).attempts && !IsActive(Run(t, later).attempts[3].status))
  {
    hide Step, Legal;
    var rest := [REFUSED] + ([RETRIED] + []);
    events := [CREATED] + ([INGESTED] + ([CLAIMED] + rest));
    ClaimedRun(rest);
    Before(SENT, REFUSED, [RETRIED] + []);
    Refusing();
    Before(FAILED, RETRIED, []);
    Retrying();
    RunKeepsTables(EMPTY, events);
    if LegalRun(RETRYING, later) { RetriedAttemptNeverStarts(RETRYING, later, 3); }
  }
}

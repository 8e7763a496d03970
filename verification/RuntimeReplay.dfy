/** The SQL session store beside the job tables its attempt query reads: what a replayed report is answered at any later
    time, and a run in which the store no longer knows a report it accepted. */
module RuntimeReplay {
  import opened ControllerTypes
  import opened JobTables
  import opened RuntimeStore
  import D = RuntimeD1
  import B = JobBatches
  import R = JobRuns
  import T = JobTheorems
  import C = CloudRunBatches
  import S = RuntimeSessions
  import W = JobWitnesses
  import Web = WebBatches

  // ---------------------------------------------------------------- the attempt query

  /** FIND_ATTEMPT for one row of the join; `replay` also admits an ended attempt whose job ended alike. */
  predicate RowFound(job: JobRow, a: AttemptId, attempt: AttemptRow, e: ExecRow, handle: Handle, replay: bool) {
    && e.provider == CloudRun && e.handle == Some(handle) && attempt.provider == Some(CloudRun)
    && job.active == Some(a) && job.deletedAt == None && job.sourceEtag.Some?
    && (|| (&& e.status in {ExecCreating, ExecActive, ExecCancelRequested}
            && IsActive(attempt.status) && IsActiveJob(job.status))
        || (replay && e.status == ExecTerminal && IsTerminal(attempt.status) && job.status == JobStatusOf(attempt.status)))
  }

  predicate Found(t: Tables, a: AttemptId, handle: Handle, replay: bool) {
    && a in t.executions && a in t.attempts && t.attempts[a].jobId in t.jobs
    && RowFound(t.jobs[t.attempts[a].jobId], a, t.attempts[a], t.executions[a], handle, replay)
  }

  predicate FindsAttempt(t: Tables, handle: Handle, replay: bool) {
    exists a :: a in t.executions && Found(t, a, handle, replay)
  }

  function LookupOf(t: Tables, handle: Handle): D.Lookup {
    D.Lookup(FindsAttempt(t, handle, false), FindsAttempt(t, handle, true))
  }

  // ---------------------------------------------------------------- sessions and tables together

  datatype World = World(rows: D.Rows, tables: Tables)

  /** `Bootstraps` is the one batch that marks execution, attempt and job as running and inserts the bootstrap. */
  datatype Op =
    | OnTables(change: T.Event)
    | Bootstraps(job: JobId, attempt: AttemptId, now: Time, version: int, id: BootstrapId, record: Bootstrap)
    | Claims(input: ClaimInput)
    | Reports(id: BootstrapId, event: SessionEvent)

  /** The join of the bootstrap insert: execution, attempt and job are all RUNNING. */
  predicate MarkedRunning(t: Tables, j: JobId, a: AttemptId, handle: Handle) {
    && a in t.executions && a in t.attempts && j in t.jobs
    && t.executions[a].provider == CloudRun && t.executions[a].handle == Some(handle)
    && t.executions[a].status == ExecActive
    && t.attempts[a].jobId == j && t.attempts[a].status == AttemptRunning
    && t.jobs[j].status == JobRunning && t.jobs[j].active == Some(a)
  }

  function Step(w: World, op: Op): World {
    match op
    case OnTables(change) => w.(tables := T.Step(w.tables, change))
    case Bootstraps(j, a, now, version, id, record) =>
      var t := R.RunBatch(w.tables, j, a, now, B.BeginBootstrap(record.executionHandle, version));
      World(D.InsertBootstrap(w.rows, id, record, MarkedRunning(t, j, a, record.executionHandle)).0, t)
    case Claims(input) => w.(rows := D.ConsumeRow(w.rows, input).0)
    case Reports(id, e) => w.(rows := D.InsertEvent(w.rows, id, e).0)
  }

  function Run(w: World, ops: seq<Op>): World
    decreases ops
  {
    if ops == [] then w else Run(Step(w, ops[0]), ops[1..])
  }

  lemma {:induction false} RunKeepsSlots(w: World, ops: seq<Op>)
    ensures D.SlotsKept(w.rows, Run(w, ops).rows)
    decreases ops
  {
    if ops != [] {
      StepKeepsSlots(w, ops[0]);
      RunKeepsSlots(Step(w, ops[0]), ops[1..]);
    }
  }

  lemma StepKeepsSlots(w: World, op: Op)
    ensures D.SlotsKept(w.rows, Step(w, op).rows)
  {
    hide B.ApplyAll, B.Statements;
  }

  /** Replaying a report that was accepted, after whatever happened to sessions and tables since: nothing changes, and the
      answer is "duplicate" exactly when the attempt query finds an attempt for the handle at that moment. */
  lemma ReplayIsDuplicateExactly(w: World, id: BootstrapId, first: SessionEvent, ops: seq<Op>, again: SessionEvent)
    requires D.InsertEvent(w.rows, id, first).1
    requires KeyOf(again) == KeyOf(first) && again.digest == first.digest
    ensures
      var later := Run(Step(w, Reports(id, first)), ops);
      var (rows, answer) := D.Apply(later.rows, again, LookupOf(later.tables, again.executionHandle));
      && rows == later.rows
      && (answer == D.Answered(EventDuplicate) <==> FindsAttempt(later.tables, again.executionHandle, true))
      && (answer != D.Answered(EventDuplicate) ==> answer == D.Answered(EventConflict))
  {
    RunKeepsSlots(Step(w, Reports(id, first)), ops);
  }

  // ---------------------------------------------------------------- what runs keep

  /** The rows are those of some run of statements. */
  ghost predicate Sound(d: D.Rows) {
    exists log :: D.RowsOk(d, log)
  }

  lemma EmptySound()
    ensures Sound(D.NO_ROWS)
  {
    assert D.RowsOk(D.NO_ROWS, []);
  }

  lemma StatementKeepsSound(d: D.Rows, stmt: D.Statement)
    requires Sound(d)
    ensures Sound(D.Execute(d, stmt))
  {
    var log :| D.RowsOk(d, log);
    D.ExecuteKeeps(d, log, stmt);
  }

  lemma StepKeepsSound(w: World, op: Op)
    requires Sound(w.rows)
    ensures Sound(Step(w, op).rows)
  {
    hide Sound, B.ApplyAll, B.Statements, D.InsertBootstrap, D.ConsumeRow, D.InsertEvent, MarkedRunning;
    match op
    case OnTables(_) =>
    case Bootstraps(j, a, now, version, id, record) =>
      var t := R.RunBatch(w.tables, j, a, now, B.BeginBootstrap(record.executionHandle, version));
      StatementKeepsSound(w.rows, D.Bootstrapping(id, record, MarkedRunning(t, j, a, record.executionHandle)));
    case Claims(input) => StatementKeepsSound(w.rows, D.Consuming(input));
    case Reports(id, e) => StatementKeepsSound(w.rows, D.Reporting(id, e));
  }

  lemma {:induction false} RunKeepsSound(w: World, ops: seq<Op>)
    requires Sound(w.rows)
    ensures Sound(Run(w, ops).rows)
    decreases ops
  {
    if ops != [] {
      StepKeepsSound(w, ops[0]);
      RunKeepsSound(Step(w, ops[0]), ops[1..]);
    }
  }

  /** After any run, a report is stored although its call throws exactly when it is inserted for its session and the attempt
      query, asked while the attempt is active, does not find the attempt. */
  lemma StoredButLostExactly(tables: Tables, ops: seq<Op>, id: BootstrapId, e: SessionEvent)
    requires e.sequence >= 0
    ensures
      var w := Run(World(D.NO_ROWS, tables), ops);
      D.Claimed(w.rows, id, e.session) ==>
        var (rows, answer) := D.Apply(w.rows, e, LookupOf(w.tables, e.executionHandle));
        && (answer == D.LostBinding <==>
              D.InsertEvent(w.rows, id, e).1 && !FindsAttempt(w.tables, e.executionHandle, false))
        && (answer == D.LostBinding ==> rows == D.InsertEvent(w.rows, id, e).0 && D.SlotOf(e) in rows.events)
  {
    EmptySound();
    RunKeepsSound(World(D.NO_ROWS, tables), ops);
    var w := Run(World(D.NO_ROWS, tables), ops);
    if D.Claimed(w.rows, id, e.session) { LostOnce(w, id, e); }
  }

  lemma LostOnce(w: World, id: BootstrapId, e: SessionEvent)
    requires Sound(w.rows) && D.Claimed(w.rows, id, e.session) && e.sequence >= 0
    ensures
      var (rows, answer) := D.Apply(w.rows, e, LookupOf(w.tables, e.executionHandle));
      && (answer == D.LostBinding <==>
            D.InsertEvent(w.rows, id, e).1 && !FindsAttempt(w.tables, e.executionHandle, false))
      && (answer == D.LostBinding ==> rows == D.InsertEvent(w.rows, id, e).0 && D.SlotOf(e) in rows.events)
  {
    var log :| D.RowsOk(w.rows, log);
    assert D.RowOk(w.rows, log, id);
    if D.SlotOf(e) !in w.rows.events { D.AppliesToOne(w.rows, log, e, id, LookupOf(w.tables, e.executionHandle)); }
    D.InsertableExactly(w.rows.bootstraps[id], e);
  }

  // ---------------------------------------------------------------- a report the store no longer knows

  const RECORD := Bootstrap(21, 9, 31, 100, None, -1, None, None)
  const SESSION := Session(11, 41, 50, 90, 51)
  const BOOTSTRAPS := Bootstraps(1, 2, 40, 1, 3, RECORD)
  const CLAIMS := Claims(ClaimInput(3, 9, 31, 50, SESSION))
  const ACK := SessionEvent(Ack, 11, 9, 0, 61, 41, 60)
  const DELETES := OnTables(T.RunsBatch(1, 2, 70, B.RequestDeletion(7, 4, Some(AttemptRunning))))

  function Running(): AttemptRow {
    W.Sent(30).(status := AttemptRunning, submissionOutcome := Some(CreateAccepted), submissionFinishedAt := Some(40),
                claimedAt := Some(40), updatedAt := 40)
  }

  function Active(): ExecRow {
    W.Execution(ExecActive, Some(9), 3, 40).(createOutcome := Some(CreateAccepted), providerVersion := Some(1))
  }

  const RUNNING := W.Alone(W.Job(JobRunning, Some(2), 4, Some(5), 40), Running(), Active())
  const DELETED :=
    W.Alone(W.Job(JobRunning, Some(2), 5, Some(5), 70).(deletedAt := Some(70)),
            Running().(status := CancelRequested, updatedAt := 70),
            Active().(status := ExecCancelRequested, version := 4, updatedAt := 70))

  lemma MarkingRows(c: Context)
    requires c.job == 1 && c.attempt == 2 && c.now == 40
    ensures B.ApplyAll(c, W.Rows(W.Job(JobSubmitting, Some(2), 3, Some(5), 30), W.Sent(30),
                                 W.Execution(ExecCreating, Some(9), 2, 30)),
                       B.Statements(B.BeginBootstrap(9, 1)))
         == W.Rows(W.Job(JobRunning, Some(2), 4, Some(5), 40), Running(), Active())
  {
    var job := W.Job(JobSubmitting, Some(2), 3, Some(5), 30);
    MarkingExecution(c, job);
    MarkingAttempt(c, job);
    hide C.Apply;
    W.ThreeLeave(c, W.Rows(job, W.Sent(30), W.Execution(ExecCreating, Some(9), 2, 30)),
                 C.MarkExecutionRunning(9, 1), W.Rows(job, W.Sent(30), Active()),
                 C.MarkAttemptRunning, W.Rows(job, Running(), Active()),
                 C.MarkJobRunning, W.Rows(W.Job(JobRunning, Some(2), 4, Some(5), 40), Running(), Active()));
  }

  lemma MarkingExecution(c: Context, job: JobRow)
    requires c.job == 1 && c.attempt == 2 && c.now == 40
    ensures C.Apply(c, W.Rows(job, W.Sent(30), W.Execution(ExecCreating, Some(9), 2, 30)), C.MarkExecutionRunning(9, 1)).0
         == W.Rows(job, W.Sent(30), Active())
  {
  }

  lemma MarkingAttempt(c: Context, job: JobRow)
    requires c.job == 1 && c.attempt == 2 && c.now == 40
    requires job == W.Job(JobSubmitting, Some(2), 3, Some(5), 30)
    ensures C.Apply(c, W.Rows(job, W.Sent(30), Active()), C.MarkAttemptRunning).0 == W.Rows(job, Running(), Active())
    ensures C.Apply(c, W.Rows(job, Running(), Active()), C.MarkJobRunning).0
         == W.Rows(W.Job(JobRunning, Some(2), 4, Some(5), 40), Running(), Active())
  {
  }

  lemma Marking()
    ensures R.RunBatch(W.SENT, 1, 2, 40, B.BeginBootstrap(9, 1)) == RUNNING
  {
    hide B.ApplyAll, B.Statements;
    forall c: Context | c.job == 1 && c.attempt == 2 && c.now == 40 && c.othersIdle
      ensures B.ApplyAll(c, W.Rows(W.Job(JobSubmitting, Some(2), 3, Some(5), 30), W.Sent(30),
                                   W.Execution(ExecCreating, Some(9), 2, 30)),
                         B.Statements(B.BeginBootstrap(9, 1)))
           == W.Rows(W.Job(JobRunning, Some(2), 4, Some(5), 40), Running(), Active())
    {
      MarkingRows(c);
    }
    W.BatchAlone(W.Job(JobSubmitting, Some(2), 3, Some(5), 30), W.Sent(30), W.Execution(ExecCreating, Some(9), 2, 30), 40,
                 B.BeginBootstrap(9, 1), W.Rows(W.Job(JobRunning, Some(2), 4, Some(5), 40), Running(), Active()));
  }

  lemma DeletionRows(c: Context)
    requires c.job == 1 && c.attempt == 2 && c.now == 70
    ensures B.ApplyAll(c, W.Rows(W.Job(JobRunning, Some(2), 4, Some(5), 40), Running(), Active()),
                       B.Statements(B.RequestDeletion(7, 4, Some(AttemptRunning))))
         == W.Rows(W.Job(JobRunning, Some(2), 5, Some(5), 70).(deletedAt := Some(70)),
                   Running().(status := CancelRequested, updatedAt := 70),
                   Active().(status := ExecCancelRequested, version := 4, updatedAt := 70))
  {
    B.TwoStatements(c, W.Rows(W.Job(JobRunning, Some(2), 4, Some(5), 40), Running(), Active()),
                    B.Web(Web.RequestAttemptDeletion(7, 4, AttemptRunning)),
                    B.Web(Web.MarkJobDeleted(7, 4, Some(AttemptRunning))));
    assert B.Statements(B.RequestDeletion(7, 4, Some(AttemptRunning)))
        == [B.Web(Web.RequestAttemptDeletion(7, 4, AttemptRunning)), B.Web(Web.MarkJobDeleted(7, 4, Some(AttemptRunning)))];
  }

  lemma Deleting()
    ensures T.Step(RUNNING, DELETES.change) == DELETED
  {
    hide B.ApplyAll, B.Statements, T.Step;
    var left := W.Rows(W.Job(JobRunning, Some(2), 5, Some(5), 70).(deletedAt := Some(70)),
                       Running().(status := CancelRequested, updatedAt := 70),
                       Active().(status := ExecCancelRequested, version := 4, updatedAt := 70));
    forall c: Context | c.job == 1 && c.attempt == 2 && c.now == 70 && c.othersIdle
      ensures B.ApplyAll(c, W.Rows(W.Job(JobRunning, Some(2), 4, Some(5), 40), Running(), Active()),
                         B.Statements(B.RequestDeletion(7, 4, Some(AttemptRunning)))) == left
    {
      DeletionRows(c);
    }
    W.BatchAlone(W.Job(JobRunning, Some(2), 4, Some(5), 40), Running(), Active(), 70,
                 B.RequestDeletion(7, 4, Some(AttemptRunning)), left);
  }

  lemma Before(w: World, op: Op, rest: seq<Op>)
    ensures Run(w, [op] + rest) == Run(Step(w, op), rest)
  {
    hide Step;
    assert ([op] + rest)[1..] == rest;
  }

  const BEGUN := D.Rows(map[3 := RECORD], map[])
  const OPENED := D.Rows(map[3 := RECORD.(session := Some(SESSION))], map[])
  const ACKED :=
    D.Rows(map[3 := RECORD.(session := Some(SESSION), lastSequence := 0)], map[D.SlotKey(11, 0) := D.Slot(Ack, 61)])

  lemma Bootstrapping()
    ensures Step(World(D.NO_ROWS, W.SENT), BOOTSTRAPS) == World(BEGUN, RUNNING)
  {
    hide R.RunBatch;
    Marking();
    assert MarkedRunning(RUNNING, 1, 2, 9);
  }

  lemma Acknowledging()
    ensures D.ConsumeRow(BEGUN, CLAIMS.input).0 == OPENED
    ensures D.InsertEvent(OPENED, 3, ACK) == (ACKED, true)
  {
    var withSession := RECORD.(session := Some(SESSION));
    assert D.Insertable(withSession, ACK) && D.SlotOf(ACK) == D.SlotKey(11, 0);
    assert Advanced(withSession, ACK) == withSession.(lastSequence := 0);
    assert OPENED.bootstraps[3 := withSession.(lastSequence := 0)] == ACKED.bootstraps;
  }

  lemma NothingFound()
    ensures !FindsAttempt(DELETED, 9, true)
  {
  }

  /** The user deletes a job whose worker has just acknowledged: replaying the very acknowledgement that the store accepted
      is then a conflict for the SQL store, while the in-memory store, given the same calls, answers "duplicate". */
  lemma DeletedJobForgetsReplay() returns (before: seq<Op>)
    ensures
      var w := Run(World(D.NO_ROWS, T.EMPTY), before);
      && D.InsertEvent(w.rows, 3, ACK).1
      && var later := Run(Step(w, Reports(3, ACK)), [DELETES]);
         D.Apply(later.rows, ACK, LookupOf(later.tables, 9)) == (later.rows, D.Answered(EventConflict))
    ensures
      var memory := S.Run(S.Initial(map[9 := Attempt(1, 2, PendingBootstrap, false)]),
                          [S.BeginOp(3, RECORD, 1, 2), S.ConsumeOp(CLAIMS.input), S.ReportOp(ACK)]);
      Report(memory, ACK) == (memory, EventDuplicate)
  {
    before := [OnTables(W.CREATED)] + ([OnTables(W.INGESTED)] + ([OnTables(W.CLAIMED)] + ([BOOTSTRAPS] + ([CLAIMS] + []))));
    AcknowledgedRun();
    SqlForgets();
    MemoryRemembers();
  }

  lemma AcknowledgedRun()
    ensures
      Run(World(D.NO_ROWS, T.EMPTY),
          [OnTables(W.CREATED)] + ([OnTables(W.INGESTED)] + ([OnTables(W.CLAIMED)] + ([BOOTSTRAPS] + ([CLAIMS] + [])))))
      == World(OPENED, RUNNING)
  {
    hide Run, T.Step;
    Before(World(D.NO_ROWS, T.EMPTY), OnTables(W.CREATED),
           [OnTables(W.INGESTED)] + ([OnTables(W.CLAIMED)] + ([BOOTSTRAPS] + ([CLAIMS] + []))));
    assert T.Step(T.EMPTY, W.CREATED) == W.ONE_JOB by { W.Creating(); }
    Before(World(D.NO_ROWS, W.ONE_JOB), OnTables(W.INGESTED), [OnTables(W.CLAIMED)] + ([BOOTSTRAPS] + ([CLAIMS] + [])));
    W.Ingesting();
    Before(World(D.NO_ROWS, W.PENDING), OnTables(W.CLAIMED), [BOOTSTRAPS] + ([CLAIMS] + []));
    W.Claiming();
    SessionRun();
  }

  lemma SessionRun()
    ensures Run(World(D.NO_ROWS, W.SENT), [BOOTSTRAPS] + ([CLAIMS] + [])) == World(OPENED, RUNNING)
  {
    hide R.RunBatch, D.InsertBootstrap, D.ConsumeRow, T.Step, D.InsertEvent;
    Before(World(D.NO_ROWS, W.SENT), BOOTSTRAPS, [CLAIMS] + []);
    Bootstrapping();
    Before(World(BEGUN, RUNNING), CLAIMS, []);
    Acknowledging();
  }

  lemma SqlForgets()
    ensures D.InsertEvent(OPENED, 3, ACK).1
    ensures
      var later := Run(Step(World(OPENED, RUNNING), Reports(3, ACK)), [DELETES]);
      D.Apply(later.rows, ACK, LookupOf(later.tables, 9)) == (later.rows, D.Answered(EventConflict))
  {
    hide T.Step, D.InsertEvent, R.RunBatch, FindsAttempt;
    Acknowledging();
    Deleting();
    var w := World(ACKED, RUNNING);
    assert Step(World(OPENED, RUNNING), Reports(3, ACK)) == w;
    Before(w, DELETES, []);
    assert Run(w, [DELETES]) == World(ACKED, DELETED) by { assert [DELETES] == [DELETES] + []; }
    NothingFound();
  }

  lemma MemoryRemembers()
    ensures
      var memory := S.Run(S.Initial(map[9 := Attempt(1, 2, PendingBootstrap, false)]),
                          [S.BeginOp(3, RECORD, 1, 2), S.ConsumeOp(CLAIMS.input), S.ReportOp(ACK)]);
      Report(memory, ACK) == (memory, EventDuplicate)
  {
    var ops := [S.BeginOp(3, RECORD, 1, 2), S.ConsumeOp(CLAIMS.input), S.ReportOp(ACK)];
    var s0 := S.Initial(map[9 := Attempt(1, 2, PendingBootstrap, false)]);
    var s1 := S.Step(s0, ops[0]);
    var s2 := S.Step(s1, ops[1]);
    var s3 := S.Step(s2, ops[2]);
    assert ops[1..][0] == ops[1] && ops[1..][1..][0] == ops[2];
    assert ops[1..][1..] == ops[2..] && ops[2..][1..] == [];
    assert S.Run(s0, ops) == S.Run(s1, ops[1..]) == S.Run(s2, ops[2..]) == S.Run(s3, []);
  }

  // ---------------------------------------------------------------- a report that is stored and lost

  const HEARTBEAT := SessionEvent(Heartbeat, 11, 9, 1, 62, 41, 80)
  const BEATEN :=
    D.Rows(map[3 := RECORD.(session := Some(SESSION), lastSequence := 1)],
           map[D.SlotKey(11, 0) := D.Slot(Ack, 61), D.SlotKey(11, 1) := D.Slot(Heartbeat, 62)])

  lemma Beating()
    ensures D.Apply(ACKED, HEARTBEAT, LookupOf(DELETED, 9)) == (BEATEN, D.LostBinding)
    ensures D.Apply(BEATEN, HEARTBEAT, LookupOf(DELETED, 9)) == (BEATEN, D.Answered(EventConflict))
  {
    NothingFound();
    assert !FindsAttempt(DELETED, 9, false);
    var record := RECORD.(session := Some(SESSION), lastSequence := 0);
    assert D.Claimed(ACKED, 3, 11) && forall id :: D.Claimed(ACKED, id, 11) ==> id == 3;
    assert Classify(record, HEARTBEAT) == None && D.Insertable(record, HEARTBEAT);
    assert ACKED.bootstraps[3 := Advanced(record, HEARTBEAT)] == BEATEN.bootstraps;
    assert D.InsertEvent(ACKED, 3, HEARTBEAT).0 == BEATEN;
  }

  /** A heartbeat that arrives after the user deleted the job is stored, but its call throws, and sending it again is a
      conflict. */
  lemma DeletedJobLosesReport() returns (before: seq<Op>)
    ensures
      var w := Run(World(D.NO_ROWS, T.EMPTY), before);
      var (rows, answer) := D.Apply(w.rows, HEARTBEAT, LookupOf(w.tables, 9));
      && answer == D.LostBinding && D.SlotOf(HEARTBEAT) in rows.events
      && D.Apply(rows, HEARTBEAT, LookupOf(w.tables, 9)) == (rows, D.Answered(EventConflict))
  {
    var opening := [OnTables(W.CREATED)] + ([OnTables(W.INGESTED)] + ([OnTables(W.CLAIMED)] + ([BOOTSTRAPS] + ([CLAIMS] + []))));
    before := opening + ([Reports(3, ACK)] + ([DELETES] + []));
    hide Run, Step;
    AcknowledgedRun();
    RunThen(World(D.NO_ROWS, T.EMPTY), opening, [Reports(3, ACK)] + ([DELETES] + []));
    Before(World(OPENED, RUNNING), Reports(3, ACK), [DELETES] + []);
    AckThenDelete();
    Before(World(ACKED, RUNNING), DELETES, []);
    assert Run(World(ACKED, DELETED), []) == World(ACKED, DELETED) by { RunNone(World(ACKED, DELETED)); }
    Beating();
  }

  lemma AckThenDelete()
    ensures Step(World(OPENED, RUNNING), Reports(3, ACK)) == World(ACKED, RUNNING)
    ensures Step(World(ACKED, RUNNING), DELETES) == World(ACKED, DELETED)
  {
    hide T.Step, D.InsertEvent, R.RunBatch;
    Acknowledging();
    Deleting();
  }

  lemma RunNone(w: World)
    ensures Run(w, []) == w
  {
  }

  lemma {:induction false} RunThen(w: World, ops: seq<Op>, more: seq<Op>)
    ensures Run(w, ops + more) == Run(Run(w, ops), more)
    decreases ops
  {
    hide Step;
    if ops == [] {
      assert ops + more == more;
    } else {
      assert (ops + more)[1..] == ops[1..] + more;
      RunThen(Step(w, ops[0]), ops[1..], more);
    }
  }
}

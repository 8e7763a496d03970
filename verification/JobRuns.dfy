/** Whole runs of batches on the D1 tables: whichever batches of the two providers, the worker, the user and the
    queue interleave, at most one attempt is active and no job disagrees with its attempt. */
module JobRuns {
  import opened ControllerTypes
  import opened JobTables
  import opened JobBatches
  import opened JobRows
  import C = CloudRunBatches
  import R = RunpodBatches
  import W = WebBatches

  // ---------------------------------------------------------------- one batch on the tables

  function Get<V>(rows: map<int, V>, id: int): Option<V> {
    if id in rows then Some(rows[id]) else None
  }

  function Set<V>(rows: map<int, V>, id: int, row: Option<V>): map<int, V> {
    if row.Some? then rows[id := row.value] else rows
  }

  function SliceOf(t: Tables, j: JobId, a: AttemptId): Slice {
    Slice(Get(t.jobs, j), Get(t.attempts, a), Get(t.executions, a))
  }

  function Put(t: Tables, j: JobId, a: AttemptId, s: Slice): Tables {
    Tables(Set(t.jobs, j, s.job), Set(t.attempts, a, s.attempt), Set(t.executions, a, s.execution))
  }

  predicate OthersIdle(attempts: map<AttemptId, AttemptRow>, a: AttemptId) {
    forall b :: b in attempts && b != a ==> !IsActive(attempts[b].status)
  }

  predicate GenerationFree(attempts: map<AttemptId, AttemptRow>, j: JobId, generation: int) {
    forall b :: b in attempts && attempts[b].jobId == j ==> attempts[b].generation != generation
  }

  function CurrentAttempt(t: Tables, j: JobId): Option<AttemptRow> {
    if j in t.jobs && t.jobs[j].active.Some? then Get(t.attempts, t.jobs[j].active.value) else None
  }

  function ContextOf(t: Tables, j: JobId, a: AttemptId, now: Time): Context {
    var current := CurrentAttempt(t, j);
    Context(j, a, now, OthersIdle(t.attempts, a), current, GenerationFree(t.attempts, j, 1),
            current.Some? ==> GenerationFree(t.attempts, j, current.value.generation + 1))
  }

  function RunBatch(t: Tables, j: JobId, a: AttemptId, now: Time, b: Batch): Tables {
    Put(t, j, a, ApplyAll(ContextOf(t, j, a, now), SliceOf(t, j, a), Statements(b)))
  }

  /** What the guards of a batch see of the other rows: that no other attempt is under way, the job's active attempt, and which
      generations of the job are still free. */
  lemma GuardsSee(t: Tables, j: JobId, a: AttemptId, now: Time)
    ensures
      var c := ContextOf(t, j, a, now);
      && c.job == j && c.attempt == a && c.now == now
      && (c.othersIdle <==>
            forall b :: b in t.attempts && b != a ==> t.attempts[b].status !in {Submitting, AttemptRunning, CancelRequested})
      && (c.current ==
            if j in t.jobs && t.jobs[j].active.Some? && t.jobs[j].active.value in t.attempts
            then Some(t.attempts[t.jobs[j].active.value]) else None)
      && (c.generationOneFree <==>
            forall b :: b in t.attempts && t.attempts[b].jobId == j ==> t.attempts[b].generation != 1)
      && (c.current.Some? ==>
            (c.nextGenerationFree <==>
               forall b :: b in t.attempts && t.attempts[b].jobId == j ==>
                 t.attempts[b].generation != c.current.value.generation + 1))
  {
  }

  /** A batch leaves every other row alone, and puts the three it has made in their places. */
  lemma BatchWrites(t: Tables, j: JobId, a: AttemptId, now: Time, b: Batch)
    ensures
      var s' := ApplyAll(ContextOf(t, j, a, now), SliceOf(t, j, a), Statements(b));
      RunBatch(t, j, a, now, b) == Tables(
        if s'.job.Some? then t.jobs[j := s'.job.value] else t.jobs,
        if s'.attempt.Some? then t.attempts[a := s'.attempt.value] else t.attempts,
        if s'.execution.Some? then t.executions[a := s'.execution.value] else t.executions)
  {
    hide ApplyAll, Statements, ContextOf;
  }

  /** An execution row only stands beside its attempt's row. */
  predicate Paired(t: Tables) {
    forall a :: a in t.executions ==> a in t.attempts
  }

  lemma PutGet(t: Tables, j: JobId, a: AttemptId, s: Slice)
    requires Grows(SliceOf(t, j, a), s)
    ensures SliceOf(Put(t, j, a, s), j, a) == s
  {
  }

  lemma PutPut(t: Tables, j: JobId, a: AttemptId, s: Slice, s': Slice)
    requires Grows(s, s')
    ensures Put(Put(t, j, a, s), j, a, s') == Put(t, j, a, s')
  {
  }

  // ---------------------------------------------------------------- the database

  class Database {
    var jobs: map<JobId, JobRow>
    var attempts: map<AttemptId, AttemptRow>
    var executions: map<AttemptId, ExecRow>

    constructor (t: Tables)
      ensures Value() == t
    {
      jobs := t.jobs;
      attempts := t.attempts;
      executions := t.executions;
    }

    function Value(): Tables
      reads this
    {
      Tables(jobs, attempts, executions)
    }

    /** One statement: the rows it leaves replace the old ones. */
    method Execute(c: Context, ghost rows: Slice, stmt: Statement) returns (matched: bool, ghost left: Slice)
      requires SliceOf(Value(), c.job, c.attempt) == rows
      modifies this
      ensures (left, matched) == Apply(c, rows, stmt)
      ensures Value() == Put(old(Value()), c.job, c.attempt, left)
    {
      var result := Apply(c, SliceOf(Value(), c.job, c.attempt), stmt);
      if result.0.job.Some? { jobs := jobs[c.job := result.0.job.value]; }
      if result.0.attempt.Some? { attempts := attempts[c.attempt := result.0.attempt.value]; }
      if result.0.execution.Some? { executions := executions[c.attempt := result.0.execution.value]; }
      left, matched := result.0, result.1;
    }

    /** All statements in order; the context is what held when the batch began. */
    method RunAll(c: Context, statements: seq<Statement>) returns (succeeded: bool)
      requires Paired(Value())
      modifies this
      ensures Value() == Put(old(Value()), c.job, c.attempt,
                             ApplyAll(c, SliceOf(old(Value()), c.job, c.attempt), statements))
      ensures succeeded == AllMatch(c, SliceOf(old(Value()), c.job, c.attempt), statements)
    {
      ghost var first := SliceOf(Value(), c.job, c.attempt);
      ghost var rows := first;
      succeeded := true;
      var i := 0;
      while i < |statements|
        invariant 0 <= i <= |statements|
        invariant Stands(old(Value()), Value(), c.job, c.attempt, first, rows)
        invariant Agree(c, first, statements, rows, statements[i..], succeeded)
      {
        PutGet(old(Value()), c.job, c.attempt, rows);
        var matched, left := Execute(c, rows, statements[i]);
        StandsAfter(old(Value()), c, first, rows, statements[i], left, matched);
        AgreeAfter(c, first, statements, rows, i, succeeded, left, matched);
        rows := left;
        succeeded := succeeded && matched;
        i := i + 1;
      }
      assert statements[i..] == [];
    }

    /** `database.batch`: one atomic step; true when every statement matched a row. */
    method Submit(j: JobId, a: AttemptId, now: Time, b: Batch) returns (succeeded: bool)
      requires Paired(Value())
      modifies this
      ensures Value() == RunBatch(old(Value()), j, a, now, b)
      ensures succeeded ==
        AllMatch(ContextOf(old(Value()), j, a, now), SliceOf(old(Value()), j, a), Statements(b))
    {
      var c := ContextOf(Value(), j, a, now);
      succeeded := RunAll(c, Statements(b));
    }
  }

  /** In the middle of a batch the tables are the old ones with these rows put in. */
  predicate Stands(start: Tables, now: Tables, j: JobId, a: AttemptId, first: Slice, rows: Slice) {
    && now == Put(start, j, a, rows)
    && Grows(first, rows) && first == SliceOf(start, j, a)
    && (rows.attempt == None ==> rows.execution == None)
  }

  /** What is left to run takes the rows to where the whole batch takes the first ones. */
  predicate Agree(c: Context, first: Slice, all: seq<Statement>, rows: Slice, rest: seq<Statement>, succeeded: bool) {
    && ApplyAll(c, rows, rest) == ApplyAll(c, first, all)
    && AllMatch(c, first, all) == (succeeded && AllMatch(c, rows, rest))
  }

  lemma StandsAfter(start: Tables, c: Context, first: Slice, rows: Slice, stmt: Statement, left: Slice, matched: bool)
    requires Stands(start, Put(start, c.job, c.attempt, rows), c.job, c.attempt, first, rows)
    requires (left, matched) == Apply(c, rows, stmt)
    ensures Stands(start, Put(Put(start, c.job, c.attempt, rows), c.job, c.attempt, left), c.job, c.attempt, first, left)
  {
    ApplyGrows(c, rows, stmt);
    PutPut(start, c.job, c.attempt, rows, left);
  }

  lemma AgreeAfter(c: Context, first: Slice, all: seq<Statement>, rows: Slice, i: int, succeeded: bool,
                   left: Slice, matched: bool)
    requires 0 <= i < |all| && Agree(c, first, all, rows, all[i..], succeeded)
    requires (left, matched) == Apply(c, rows, all[i])
    ensures Agree(c, first, all, left, all[i + 1..], succeeded && matched)
  {
    assert all[i..][0] == all[i] && all[i..][1..] == all[i + 1..];
  }

  // ---------------------------------------------------------------- the invariant of the tables

  /** At most one attempt of the whole table is SUBMITTING, RUNNING or CANCEL_REQUESTED. */
  predicate AtMostOneActive(attempts: map<AttemptId, AttemptRow>) {
    forall x, y :: x in attempts && y in attempts && IsActive(attempts[x].status) && IsActive(attempts[y].status) ==>
      x == y
  }

  predicate Owned(t: Tables, a: AttemptId)
    requires a in t.attempts
  {
    t.attempts[a].jobId in t.jobs && AttemptOk(t.jobs[t.attempts[a].jobId], t.attempts[a], Get(t.executions, a))
  }

  /** The active attempt of a job is one of its own. */
  predicate ActiveKnown(t: Tables, j: JobId)
    requires j in t.jobs
  {
    var active := t.jobs[j].active;
    active.Some? ==> active.value in t.attempts && t.attempts[active.value].jobId == j
  }

  predicate JobAgrees(t: Tables, j: JobId)
    requires j in t.jobs
  {
    var active := t.jobs[j].active;
    active.Some? && active.value in t.attempts ==> Agrees(t.jobs[j], t.attempts[active.value])
  }

  /** What holds whatever the callers of batches read before. */
  predicate TablesOk(t: Tables) {
    && Paired(t) && AtMostOneActive(t.attempts)
    && (forall a :: a in t.attempts ==> Owned(t, a))
    && (forall j :: j in t.jobs ==> ActiveKnown(t, j))
  }

  /** What holds as long as they read the job they name just before. */
  predicate Inv(t: Tables) {
    TablesOk(t) && (forall j :: j in t.jobs ==> JobAgrees(t, j))
  }

  /** A batch names an attempt together with its own job, or an id that is not used yet. */
  predicate Bound(t: Tables, j: JobId, a: AttemptId) {
    a in t.attempts ==> t.attempts[a].jobId == j
  }

  predicate Fresh(t: Tables, now: Time) {
    && (forall j :: j in t.jobs ==> t.jobs[j].updatedAt != now)
    && (forall a :: a in t.attempts ==> t.attempts[a].updatedAt != now && t.attempts[a].createdAt != now)
    && (forall a :: a in t.executions ==> t.executions[a].updatedAt != now)
  }

  lemma RowsFromTables(t: Tables, j: JobId, a: AttemptId, now: Time)
    requires TablesOk(t) && Bound(t, j, a)
    ensures RowsOk(ContextOf(t, j, a, now), SliceOf(t, j, a))
  {
    assert a in t.attempts ==> Owned(t, a);
    assert j in t.jobs ==> ActiveKnown(t, j);
  }

  lemma SliceFromInv(t: Tables, j: JobId, a: AttemptId, now: Time)
    requires Inv(t) && Bound(t, j, a) && Fresh(t, now)
    ensures SliceOk(ContextOf(t, j, a, now), SliceOf(t, j, a)) && FreshSlice(SliceOf(t, j, a), now)
  {
    RowsFromTables(t, j, a, now);
    assert j in t.jobs ==> JobAgrees(t, j);
  }

  lemma ExclusionKept(t: Tables, j: JobId, a: AttemptId, now: Time, s: Slice)
    requires AtMostOneActive(t.attempts) && RowsStep(ContextOf(t, j, a, now), SliceOf(t, j, a), s)
    ensures AtMostOneActive(Put(t, j, a, s).attempts)
  {
  }

  lemma OwnedKept(t: Tables, j: JobId, a: AttemptId, now: Time, s: Slice, x: AttemptId)
    requires TablesOk(t) && Bound(t, j, a) && RowsStep(ContextOf(t, j, a, now), SliceOf(t, j, a), s)
    requires x in Put(t, j, a, s).attempts
    ensures Owned(Put(t, j, a, s), x)
  {
    if x != a {
      assert Owned(t, x);
      assert t.attempts[x].jobId == j ==> s.job.value.active in {t.jobs[j].active, Some(a)};
    }
  }

  lemma ActiveKnownKept(t: Tables, j: JobId, a: AttemptId, now: Time, s: Slice, k: JobId)
    requires TablesOk(t) && Bound(t, j, a) && RowsStep(ContextOf(t, j, a, now), SliceOf(t, j, a), s)
    requires k in Put(t, j, a, s).jobs
    ensures ActiveKnown(Put(t, j, a, s), k)
  {
    assert k in t.jobs && ActiveKnown(t, k);
  }

  lemma JobAgreesKept(t: Tables, j: JobId, a: AttemptId, now: Time, s: Slice, k: JobId)
    requires Inv(t) && Bound(t, j, a) && SliceStep(ContextOf(t, j, a, now), SliceOf(t, j, a), s)
    requires k in Put(t, j, a, s).jobs
    ensures JobAgrees(Put(t, j, a, s), k)
  {
    assert k in t.jobs && ActiveKnown(t, k) && JobAgrees(t, k);
  }

  lemma StepKeepsTables(t: Tables, j: JobId, a: AttemptId, now: Time, s: Slice)
    requires TablesOk(t) && Bound(t, j, a)
    requires RowsStep(ContextOf(t, j, a, now), SliceOf(t, j, a), s) && Grows(SliceOf(t, j, a), s)
    ensures TablesOk(Put(t, j, a, s)) && SliceOf(Put(t, j, a, s), j, a) == s
  {
    var t' := Put(t, j, a, s);
    PutGet(t, j, a, s);
    ExclusionKept(t, j, a, now, s);
    forall x | x in t'.attempts ensures Owned(t', x) { OwnedKept(t, j, a, now, s, x); }
    forall k | k in t'.jobs ensures ActiveKnown(t', k) { ActiveKnownKept(t, j, a, now, s, k); }
  }

  /** Any batch bound to an attempt and its job, whatever its caller read before, keeps the tables: exclusion, the fit of
      every execution and the ownership of every attempt. */
  lemma BatchKeepsTables(t: Tables, j: JobId, a: AttemptId, now: Time, b: Batch)
    requires TablesOk(t) && Bound(t, j, a)
    ensures TablesOk(RunBatch(t, j, a, now, b))
    ensures RowsStep(ContextOf(t, j, a, now), SliceOf(t, j, a), SliceOf(RunBatch(t, j, a, now, b), j, a))
    ensures Grows(SliceOf(t, j, a), ApplyAll(ContextOf(t, j, a, now), SliceOf(t, j, a), Statements(b)))
  {
    hide RowsOk, RowsStep, ApplyAll, Statements;
    var c, s := ContextOf(t, j, a, now), SliceOf(t, j, a);
    RowsFromTables(t, j, a, now);
    BatchKeepsRows(c, s, b);
    RowsGrow(c, s, ApplyAll(c, s, Statements(b)));
    StepKeepsTables(t, j, a, now, ApplyAll(c, s, Statements(b)));
  }

  /** A fresh batch whose caller read the job just before keeps the job's agreement with its attempt, too. */
  lemma BatchKeepsInv(t: Tables, j: JobId, a: AttemptId, now: Time, b: Batch)
    requires Inv(t) && Bound(t, j, a) && Fresh(t, now)
    requires Snapshot(ContextOf(t, j, a, now), SliceOf(t, j, a), b)
    ensures Inv(RunBatch(t, j, a, now, b))
  {
    hide RowsOk, JobOk, ApplyAll, Statements;
    var c, s := ContextOf(t, j, a, now), SliceOf(t, j, a);
    SliceFromInv(t, j, a, now);
    BatchKeeps(c, s, b);
    BatchKeepsTables(t, j, a, now, b);
    var t' := RunBatch(t, j, a, now, b);
    forall k | k in t'.jobs ensures JobAgrees(t', k) { JobAgreesKept(t, j, a, now, ApplyAll(c, s, Statements(b)), k); }
  }

  lemma BatchKeeps(c: Context, s: Slice, b: Batch)
    requires SliceOk(c, s) && FreshSlice(s, c.now) && Snapshot(c, s, b)
    ensures SliceStep(c, s, ApplyAll(c, s, Statements(b)))
  {
    if IsCloud(b) { CloudBatchKeeps(c, s, b); } else { OtherBatchKeeps(c, s, b); }
  }
}

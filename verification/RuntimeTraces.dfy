/** Whole traces of begins, claims and reports on both session stores: operation by operation the same verdicts, but for
    what the SQL store's attempt query does not find. */
module RuntimeTraces {
  import opened ControllerTypes
  import opened RuntimeStore
  import opened RuntimeSessions
  import D = RuntimeD1

  /** `running` and `lookup` are what the SQL store finds of the attempt. */
  datatype Call =
    | Beginning(id: BootstrapId, record: Bootstrap, jobId: JobId, attemptId: int, running: bool)
    | Claiming(input: ClaimInput)
    | Reporting(event: SessionEvent, lookup: D.Lookup)

  function OpOf(call: Call): Op {
    match call
    case Beginning(id, record, jobId, attemptId, _) => BeginOp(id, record, jobId, attemptId)
    case Claiming(input) => ConsumeOp(input)
    case Reporting(e, _) => ReportOp(e)
  }

  function BeginVerdict(outcome: BeginOutcome): D.Verdict {
    match outcome case BeginAccepted => D.Taken case BeginDuplicate(_) => D.Replayed case _ => D.Refused
  }

  function ClaimVerdict(outcome: ClaimOutcome): D.Verdict {
    match outcome case ClaimAccepted(_) => D.Taken case ClaimDuplicate(_) => D.Replayed case _ => D.Refused
  }

  /** What the in-memory store answers, seen through what the attempt query finds. */
  function MemoryVerdict(s: State, call: Call): D.Verdict {
    match call
    case Beginning(id, record, jobId, attemptId, _) => BeginVerdict(Begin(s, id, record, jobId, attemptId).1)
    case Claiming(input) => ClaimVerdict(Consume(s, input).1)
    case Reporting(e, lookup) => D.Seen(D.VerdictOf(Report(s, e).1), lookup)
  }

  ghost function RowsAfter(d: D.Rows, call: Call): (D.Rows, D.Verdict) {
    match call
    case Beginning(id, record, _, _, running) =>
      var (d', outcome) := D.BeginRow(d, id, record, running); (d', BeginVerdict(outcome))
    case Claiming(input) =>
      var (d', outcome) := D.ClaimRow(d, input); (d', ClaimVerdict(outcome))
    case Reporting(e, lookup) =>
      var (d', answer) := D.Apply(d, e, lookup); (d', D.AnswerVerdict(answer))
  }

  // ---------------------------------------------------------------- what holds between calls

  /** An attempt waits for its session exactly while no bootstrap of its handle has one. */
  predicate WaitsUnclaimed(s: State) {
    forall h :: h in s.attempts ==> (s.attempts[h].status == PendingBootstrap <==> !Claimed(s.bootstraps, h))
  }

  predicate Claimed(bootstraps: map<BootstrapId, Bootstrap>, handle: Handle) {
    exists id :: id in bootstraps && bootstraps[id].executionHandle == handle && bootstraps[id].session.Some?
  }

  ghost predicate Paired(s: State, d: D.Rows, log: seq<Entry>) {
    D.Related(s, d, log) && WaitsUnclaimed(s)
  }

  /** The SQL store finds the attempt exactly when the in-memory one holds it. */
  predicate SeesAttempt(s: State, call: Call)
    requires call.Beginning?
  {
    call.running <==>
      && call.record.executionHandle in s.attempts
      && s.attempts[call.record.executionHandle].jobId == call.jobId
      && s.attempts[call.record.executionHandle].attemptId == call.attemptId
  }

  /** The caller begins with an unclaimed record, for a handle that has no bootstrap yet if the begin is accepted, and the
      SQL store finds the attempt exactly when the in-memory one holds it; session ids are fresh and numbers not negative. */
  ghost predicate Permitted(s: State, log: seq<Entry>, call: Call) {
    && Legal(s, log, OpOf(call))
    && match call
       case Beginning(_, _, _, _, _) => BeginsAnew(s, OpOf(call)) && SeesAttempt(s, call)
       case Claiming(_) => true
       case Reporting(e, _) => e.sequence >= 0
  }

  // ---------------------------------------------------------------- one call

  lemma BeginAgrees(s: State, d: D.Rows, log: seq<Entry>, call: Call)
    requires Paired(s, d, log) && Permitted(s, log, call) && call.Beginning?
    ensures RowsAfter(d, call).1 == MemoryVerdict(s, call)
    ensures RowsAfter(d, call).0.bootstraps == Step(s, OpOf(call)).bootstraps
  {
    hide Inv, D.RowsOk;
    assert D.HandleClaimed(d, call.record.executionHandle) <==> Claimed(s.bootstraps, call.record.executionHandle);
  }

  /** Of the three conditions on a begin the first is exact: with the same attempt in sight, the two stores answer an
      unclaimed begin alike if and only if it is not accepted in memory for a handle that has a bootstrap already. */
  lemma BeginAgreesExactly(s: State, d: D.Rows, log: seq<Entry>, call: Call)
    requires Paired(s, d, log) && call.Beginning? && Legal(s, log, OpOf(call)) && SeesAttempt(s, call)
    ensures RowsAfter(d, call).1 == MemoryVerdict(s, call) <==> BeginsAnew(s, OpOf(call))
  {
    hide Inv, D.RowsOk;
    assert D.HandleClaimed(d, call.record.executionHandle) <==> Claimed(s.bootstraps, call.record.executionHandle);
  }

  lemma BeginKeepsWaiting(s: State, op: Op)
    requires WaitsUnclaimed(s) && op.BeginOp? && Unclaimed(op.record)
    ensures WaitsUnclaimed(Step(s, op))
  {
    var s' := Step(s, op);
    forall h | h in s'.attempts ensures Claimed(s'.bootstraps, h) <==> Claimed(s.bootstraps, h) {
      if Claimed(s.bootstraps, h) {
        var id :| id in s.bootstraps && s.bootstraps[id].executionHandle == h && s.bootstraps[id].session.Some?;
        assert id in s'.bootstraps && s'.bootstraps[id] == s.bootstraps[id];
      }
    }
  }

  /** A session id that is not used in memory is not used in the rows either. */
  lemma FreshSession(s: State, d: D.Rows, log: seq<Entry>, session: SessionId)
    requires D.Related(s, d, log) && forall id :: !HasSession(s, id, session)
    ensures forall id :: id in d.bootstraps ==> !D.Claimed(d, id, session)
  {
    forall id | id in d.bootstraps ensures !D.Claimed(d, id, session) { assert !HasSession(s, id, session); }
  }

  lemma ClaimAlike(s: State, d: D.Rows, input: ClaimInput)
    requires d.bootstraps == s.bootstraps && D.SessionFree(d, input.session.id)
    requires
      input.bootstrap in s.bootstraps && s.bootstraps[input.bootstrap].session == None ==>
        s.bootstraps[input.bootstrap].revokedAt == None
    ensures D.ClaimRow(d, input).1 == Consume(s, input).1
    ensures D.ClaimRow(d, input).0.bootstraps == Consume(s, input).0.bootstraps
  {
    hide D.SessionFree;
  }

  lemma ClaimAgrees(s: State, d: D.Rows, log: seq<Entry>, call: Call)
    requires Paired(s, d, log) && Permitted(s, log, call) && call.Claiming?
    ensures D.ClaimRow(d, call.input).1 == Consume(s, call.input).1
    ensures D.ClaimRow(d, call.input).0.bootstraps == Consume(s, call.input).0.bootstraps
  {
    FreshSession(s, d, log, call.input.session.id);
    if call.input.bootstrap in s.bootstraps { assert BootstrapOk(s, log, call.input.bootstrap); }
    hide D.RowsOk, D.Claimed, OrderOk, UniqueSessions, EventsLogged, SessionOk, WaitsUnclaimed, HasSession, D.ClaimRow, Consume;
    ClaimAlike(s, d, call.input);
  }

  lemma ClaimKeepsWaiting(s: State, log: seq<Entry>, input: ClaimInput)
    requires Inv(s, log) && WaitsUnclaimed(s)
    ensures WaitsUnclaimed(Consume(s, input).0)
  {
    var s' := Consume(s, input).0;
    if Consume(s, input).1.ClaimAccepted? {
      assert BootstrapOk(s, log, input.bootstrap);
      forall h | h in s'.attempts ensures s'.attempts[h].status == PendingBootstrap <==> !Claimed(s'.bootstraps, h) {
        assert input.bootstrap in s'.bootstraps && s'.bootstraps[input.bootstrap].session.Some?;
        ClaimedElsewhere(s.bootstraps, s'.bootstraps, input.bootstrap, h);
      }
    }
  }

  /** Bootstraps that differ in one of another handle leave this handle as claimed as it was. */
  lemma ClaimedElsewhere(before: map<BootstrapId, Bootstrap>, after: map<BootstrapId, Bootstrap>, id: BootstrapId, handle: Handle)
    requires id in before && after.Keys == before.Keys
    requires forall x :: x in before && x != id ==> after[x] == before[x]
    requires after[id].executionHandle == before[id].executionHandle
    ensures before[id].executionHandle != handle ==> (Claimed(after, handle) <==> Claimed(before, handle))
    ensures after[id].session == before[id].session ==> (Claimed(after, handle) <==> Claimed(before, handle))
  {
    if Claimed(before, handle) {
      var x :| x in before && before[x].executionHandle == handle && before[x].session.Some?;
      assert x in after;
    }
  }

  lemma ReportKeepsWaiting(s: State, log: seq<Entry>, e: SessionEvent)
    requires Inv(s, log) && WaitsUnclaimed(s)
    ensures WaitsUnclaimed(Report(s, e).0)
  {
    var s' := Report(s, e).0;
    if Report(s, e).1 == EventAccepted {
      AcceptedExtends(s, log, e);
      var id := Find(s, e.session).value;
      assert Claimed(s.bootstraps, s.bootstraps[id].executionHandle);
      forall h | h in s'.attempts ensures s'.attempts[h].status == PendingBootstrap <==> !Claimed(s'.bootstraps, h) {
        ClaimedElsewhere(s.bootstraps, s'.bootstraps, id, h);
      }
    }
  }

  lemma RowsStayOk(s: State, d: D.Rows, log: seq<Entry>, call: Call)
    requires Paired(s, d, log) && !call.Reporting?
    ensures D.RowsOk(RowsAfter(d, call).0, log)
  {
    match call
    case Beginning(id, record, _, _, running) => D.BootstrapKeeps(d, log, id, record, running);
    case Claiming(input) => D.ConsumeKeeps(d, log, input);
  }

  lemma CallAgrees(s: State, d: D.Rows, log: seq<Entry>, call: Call)
    requires Paired(s, d, log) && Permitted(s, log, call)
    ensures RowsAfter(d, call).1 == MemoryVerdict(s, call)
    ensures Paired(Step(s, OpOf(call)), RowsAfter(d, call).0, LogAfter(s, OpOf(call), log))
  {
    StepKeepsInv(s, log, OpOf(call));
    match call
    case Beginning(_, _, _, _, _) =>
      BeginAgrees(s, d, log, call);
      BeginKeepsWaiting(s, OpOf(call));
      RowsStayOk(s, d, log, call);
    case Claiming(input) =>
      ClaimAgrees(s, d, log, call);
      ClaimKeepsWaiting(s, log, input);
      RowsStayOk(s, d, log, call);
    case Reporting(e, lookup) =>
      D.StoresAgree(s, d, log, e, lookup);
      D.StoresStayRelated(s, d, log, e, lookup);
      ReportKeepsWaiting(s, log, e);
  }

  // ---------------------------------------------------------------- whole traces

  ghost predicate PermittedTrace(s: State, log: seq<Entry>, calls: seq<Call>)
    decreases calls
  {
    calls == [] ||
    (Permitted(s, log, calls[0]) && PermittedTrace(Step(s, OpOf(calls[0])), LogAfter(s, OpOf(calls[0]), log), calls[1..]))
  }

  function MemoryVerdicts(s: State, calls: seq<Call>): seq<D.Verdict>
    decreases calls
  {
    if calls == [] then [] else [MemoryVerdict(s, calls[0])] + MemoryVerdicts(Step(s, OpOf(calls[0])), calls[1..])
  }

  ghost function RowVerdicts(d: D.Rows, calls: seq<Call>): seq<D.Verdict>
    decreases calls
  {
    if calls == [] then []
    else var (d', verdict) := RowsAfter(d, calls[0]); [verdict] + RowVerdicts(d', calls[1..])
  }

  lemma {:induction false} TraceAgrees(s: State, d: D.Rows, log: seq<Entry>, calls: seq<Call>)
    requires Paired(s, d, log) && PermittedTrace(s, log, calls)
    ensures RowVerdicts(d, calls) == MemoryVerdicts(s, calls)
    decreases calls
  {
    hide Paired, Permitted, RowsAfter, MemoryVerdict, Step, LogAfter;
    if calls != [] {
      CallAgrees(s, d, log, calls[0]);
      TraceAgrees(Step(s, OpOf(calls[0])), RowsAfter(d, calls[0]).0, LogAfter(s, OpOf(calls[0]), log), calls[1..]);
    }
  }

  /** From empty stores whose attempts all wait for their session, every permitted trace gets the same verdicts from both
      stores, call by call, except that the SQL store throws for a report whose attempt it cannot read back, and refuses a
      replay whose attempt it no longer finds. */
  lemma SessionStoresAgree(attempts: map<Handle, Attempt>, calls: seq<Call>)
    requires forall h :: h in attempts ==> attempts[h].status == PendingBootstrap
    requires PermittedTrace(Initial(attempts), [], calls)
    ensures RowVerdicts(D.NO_ROWS, calls) == MemoryVerdicts(Initial(attempts), calls)
  {
    TraceAgrees(Initial(attempts), D.NO_ROWS, [], calls);
  }
}

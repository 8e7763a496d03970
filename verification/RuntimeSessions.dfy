/** The language a worker session speaks: which reports the store accepts over a whole run, and that any of them
    may be replayed at any later time. */
module RuntimeSessions {
  import opened ControllerTypes
  import opened RuntimeStore

  datatype Op =
    | BeginOp(id: BootstrapId, record: Bootstrap, jobId: JobId, attemptId: int)
    | ConsumeOp(input: ClaimInput)
    | ReportOp(event: SessionEvent)

  /** An accepted report, as the run remembers it. */
  datatype Entry = Entry(key: EventKey, digest: Digest)

  /** The reports of one session in the order of their acceptance. */
  function Reports(log: seq<Entry>, session: SessionId): (p: seq<Entry>)
    ensures forall i :: 0 <= i < |p| ==> p[i] in log && p[i].key.session == session
    ensures forall e :: e in log && e.key.session == session ==> e in p
  {
    if log == [] then []
    else
      var rest := Reports(log[..|log| - 1], session);
      var last := log[|log| - 1];
      if last.key.session == session then rest + [last] else rest
  }

  lemma ReportsAppend(log: seq<Entry>, e: Entry, session: SessionId)
    ensures Reports(log + [e], session)
         == if e.key.session == session then Reports(log, session) + [e] else Reports(log, session)
  {
    assert (log + [e])[..|log|] == log;
  }

  lemma {:induction false} NoReports(log: seq<Entry>, session: SessionId)
    requires forall e :: e in log ==> e.key.session != session
    ensures Reports(log, session) == []
  {
    if log != [] {
      assert log[|log| - 1] in log;
      NoReports(log[..|log| - 1], session);
    }
  }

  /** Numbered 0, 1, 2 and so on, without a gap. */
  predicate Numbered(p: seq<Entry>) {
    forall i :: 0 <= i < |p| ==> p[i].key.sequence == i
  }

  /** `ack heartbeat* terminal?`, or `terminal` alone. */
  predicate WellSpoken(p: seq<Entry>) {
    && (p != [] ==> p[0].key.kind in {Ack, TerminalReport})
    && (forall i :: 0 < i < |p| ==> p[i].key.kind in {Heartbeat, TerminalReport})
    && (forall i :: 0 <= i < |p| - 1 ==> p[i].key.kind != TerminalReport)
  }

  predicate Ended(p: seq<Entry>) {
    p != [] && p[|p| - 1].key.kind == TerminalReport
  }

  /** The bootstrap knows exactly how far its session has come, and is revoked exactly when it has ended. */
  predicate SessionOk(b: Bootstrap, p: seq<Entry>) {
    && b.lastSequence == |p| - 1
    && Numbered(p) && WellSpoken(p)
    && (b.revokedAt.Some? <==> Ended(p))
  }

  predicate Unclaimed(b: Bootstrap) {
    b.session == None && b.lastSequence == -1 && b.revokedAt == None && b.terminalDigest == None
  }

  predicate OrderOk(s: State) {
    && (forall i, j :: 0 <= i < j < |s.order| ==> s.order[i] != s.order[j])
    && (forall i :: 0 <= i < |s.order| ==> s.order[i] in s.bootstraps)
    && (forall id :: id in s.bootstraps ==> id in s.order)
  }

  ghost predicate UniqueSessions(s: State) {
    forall x, y, session :: HasSession(s, x, session) && HasSession(s, y, session) ==> x == y
  }

  predicate EventsLogged(s: State, log: seq<Entry>) {
    && (forall k :: k in s.events ==> Entry(k, s.events[k]) in log)
    && (forall e :: e in log ==> e.key in s.events && s.events[e.key] == e.digest)
  }

  predicate BootstrapOk(s: State, log: seq<Entry>, id: BootstrapId)
    requires id in s.bootstraps
  {
    var b := s.bootstraps[id];
    && b.executionHandle in s.attempts
    && match b.session
       case None => Unclaimed(b)
       case Some(session) => SessionOk(b, Reports(log, session.id))
  }

  ghost predicate Inv(s: State, log: seq<Entry>) {
    && OrderOk(s) && UniqueSessions(s) && EventsLogged(s, log)
    && (forall id :: id in s.bootstraps ==> BootstrapOk(s, log, id))
    && (forall e :: e in log ==> Find(s, e.key.session).Some?)
  }

  function Step(s: State, op: Op): State {
    match op
    case BeginOp(id, record, jobId, attemptId) => Begin(s, id, record, jobId, attemptId).0
    case ConsumeOp(input) => Consume(s, input).0
    case ReportOp(e) => Report(s, e).0
  }

  function LogAfter(s: State, op: Op, log: seq<Entry>): seq<Entry> {
    if op.ReportOp? && Report(s, op.event).1 == EventAccepted then log + [Entry(KeyOf(op.event), op.event.digest)]
    else log
  }

  /** The service begins with an unclaimed record, and no session id has been used before. */
  ghost predicate Legal(s: State, log: seq<Entry>, op: Op) {
    match op
    case BeginOp(_, record, _, _) => Unclaimed(record)
    case ConsumeOp(input) =>
      && (forall id :: !HasSession(s, id, input.session.id))
      && (forall e :: e in log ==> e.key.session != input.session.id)
    case ReportOp(_) => true
  }

  // ---------------------------------------------------------------- finding a session

  lemma {:induction false} FindsIt(s: State, session: SessionId, from: nat, id: BootstrapId)
    requires UniqueSessions(s) && from <= |s.order|
    ensures FindFrom(s, session, from) == Some(id) ==> HasSession(s, id, session)
    ensures HasSession(s, id, session) && id in s.order[from..] ==> FindFrom(s, session, from) == Some(id)
    decreases |s.order| - from
  {
    if from < |s.order| {
      if !HasSession(s, s.order[from], session) {
        FindsIt(s, session, from + 1, id);
      }
      assert s.order[from..] == [s.order[from]] + s.order[from + 1..];
    }
  }

  lemma FindExact(s: State, session: SessionId, id: BootstrapId)
    requires UniqueSessions(s) && OrderOk(s)
    ensures Find(s, session) == Some(id) <==> HasSession(s, id, session)
  {
    FindsIt(s, session, 0, id);
    assert s.order[0..] == s.order;
    assert id in s.bootstraps ==> id in s.order;
  }

  /** Where no session moves to another bootstrap, each is found where it was. */
  lemma SessionsStayFound(s: State, s': State, other: SessionId)
    requires OrderOk(s) && UniqueSessions(s) && OrderOk(s') && UniqueSessions(s')
    requires forall x, session :: HasSession(s', x, session) <==> HasSession(s, x, session)
    requires Find(s, other).Some?
    ensures Find(s', other) == Find(s, other)
  {
    var b := Find(s, other).value;
    FindExact(s, other, b);
    FindExact(s', other, b);
  }

  // ---------------------------------------------------------------- every operation keeps the invariant

  lemma BeginKeepsInv(s: State, log: seq<Entry>, id: BootstrapId, record: Bootstrap, jobId: JobId, attemptId: int)
    requires Inv(s, log) && Unclaimed(record)
    ensures Inv(Begin(s, id, record, jobId, attemptId).0, log)
  {
    var (s', outcome) := Begin(s, id, record, jobId, attemptId);
    if outcome == BeginAccepted {
      assert forall x, session :: HasSession(s', x, session) <==> HasSession(s, x, session);
      assert OrderOk(s') && UniqueSessions(s');
      hide UniqueSessions, OrderOk, HasSession, Find, SessionOk;
      forall e | e in log ensures Find(s', e.key.session).Some? { SessionsStayFound(s, s', e.key.session); }
      forall x | x in s'.bootstraps ensures BootstrapOk(s', log, x) {
        if x != id { assert BootstrapOk(s, log, x); }
      }
    }
  }

  lemma ConsumeKeepsUnique(s: State, log: seq<Entry>, input: ClaimInput)
    requires UniqueSessions(s) && Legal(s, log, ConsumeOp(input)) && Consume(s, input).1.ClaimAccepted?
    requires input.bootstrap in s.bootstraps && s.bootstraps[input.bootstrap].session == None
    ensures UniqueSessions(Consume(s, input).0)
    ensures forall x, session :: HasSession(s, x, session) ==> HasSession(Consume(s, input).0, x, session)
  {
    var s' := Consume(s, input).0;
    assert forall x, session :: HasSession(s', x, session) && session != input.session.id ==> HasSession(s, x, session);
    forall x | HasSession(s', x, input.session.id) ensures x == input.bootstrap {
      assert !HasSession(s, x, input.session.id);
    }
  }

  lemma ConsumeKeepsInv(s: State, log: seq<Entry>, input: ClaimInput)
    requires Inv(s, log) && Legal(s, log, ConsumeOp(input))
    ensures Inv(Consume(s, input).0, log)
  {
    var (s', outcome) := Consume(s, input);
    if outcome.ClaimAccepted? {
      assert BootstrapOk(s, log, input.bootstrap);
      ConsumeKeepsUnique(s, log, input);
      hide UniqueSessions, HasSession, Find;
      forall e | e in log ensures Find(s', e.key.session).Some? {
        var b := Find(s, e.key.session).value;
        FindExact(s, e.key.session, b);
        FindExact(s', e.key.session, b);
      }
      NoReports(log, input.session.id);
      forall x | x in s'.bootstraps ensures BootstrapOk(s', log, x) {
        assert BootstrapOk(s, log, x);
      }
    }
  }

  /** A report that is not refused is well placed after what its session has said so far. */
  lemma SessionExtends(b: Bootstrap, p: seq<Entry>, e: SessionEvent)
    requires SessionOk(b, p) && Classify(b, e) == None
    ensures SessionOk(Advanced(b, e), p + [Entry(KeyOf(e), e.digest)])
  {
  }

  /** Accepting a report extends its own session by one well-placed entry and no other session. */
  lemma AcceptedExtends(s: State, log: seq<Entry>, e: SessionEvent)
    requires Inv(s, log) && Report(s, e).1 == EventAccepted
    ensures
      var id := Find(s, e.session).value;
      && id in s.bootstraps && HasSession(s, id, e.session)
      && SessionOk(Advanced(s.bootstraps[id], e), Reports(log, e.session) + [Entry(KeyOf(e), e.digest)])
  {
    var id := Find(s, e.session).value;
    FindExact(s, e.session, id);
    assert BootstrapOk(s, log, id);
    hide SessionOk, Classify, Advanced, OrderOk, UniqueSessions, EventsLogged, Find;
    SessionExtends(s.bootstraps[id], Reports(log, e.session), e);
  }

  lemma ReportKeepsSessions(s: State, log: seq<Entry>, e: SessionEvent)
    requires Inv(s, log) && Report(s, e).1 == EventAccepted
    ensures
      var s' := Report(s, e).0;
      && OrderOk(s') && UniqueSessions(s')
      && (forall x, session :: HasSession(s', x, session) <==> HasSession(s, x, session))
  {
    AcceptedExtends(s, log, e);
    var s' := Report(s, e).0;
    assert forall x, session :: HasSession(s', x, session) <==> HasSession(s, x, session);
  }

  lemma ReportKeepsBootstrap(s: State, log: seq<Entry>, e: SessionEvent, x: BootstrapId)
    requires Inv(s, log) && Report(s, e).1 == EventAccepted
    requires x in Report(s, e).0.bootstraps
    ensures BootstrapOk(Report(s, e).0, log + [Entry(KeyOf(e), e.digest)], x)
  {
    AcceptedExtends(s, log, e);
    assert BootstrapOk(s, log, x);
    hide SessionOk, OrderOk, EventsLogged, Find, Classify;
    if s.bootstraps[x].session.Some? {
      ReportsAppend(log, Entry(KeyOf(e), e.digest), s.bootstraps[x].session.value.id);
      assert HasSession(s, x, s.bootstraps[x].session.value.id);
    }
  }

  lemma ReportKeepsEvents(s: State, log: seq<Entry>, e: SessionEvent)
    requires EventsLogged(s, log) && Report(s, e).1 == EventAccepted
    ensures EventsLogged(Report(s, e).0, log + [Entry(KeyOf(e), e.digest)])
  {
  }

  lemma ReportKeepsInv(s: State, log: seq<Entry>, e: SessionEvent)
    requires Inv(s, log)
    ensures Inv(Report(s, e).0, LogAfter(s, ReportOp(e), log))
  {
    var (s', outcome) := Report(s, e);
    if outcome == EventAccepted {
      var log' := log + [Entry(KeyOf(e), e.digest)];
      AcceptedExtends(s, log, e);
      ReportKeepsSessions(s, log, e);
      ReportKeepsEvents(s, log, e);
      forall other | other in log' ensures Find(s', other.key.session).Some? {
        SessionsStayFound(s, s', other.key.session);
      }
      forall x | x in s'.bootstraps ensures BootstrapOk(s', log', x) { ReportKeepsBootstrap(s, log, e, x); }
    }
  }

  lemma StepKeepsInv(s: State, log: seq<Entry>, op: Op)
    requires Inv(s, log) && Legal(s, log, op)
    ensures Inv(Step(s, op), LogAfter(s, op, log))
  {
    match op
    case BeginOp(id, record, jobId, attemptId) => BeginKeepsInv(s, log, id, record, jobId, attemptId);
    case ConsumeOp(input) => ConsumeKeepsInv(s, log, input);
    case ReportOp(e) => ReportKeepsInv(s, log, e);
  }

  // ---------------------------------------------------------------- whole runs

  ghost predicate LegalRun(s: State, log: seq<Entry>, ops: seq<Op>)
    decreases ops
  {
    ops == [] || (Legal(s, log, ops[0]) && LegalRun(Step(s, ops[0]), LogAfter(s, ops[0], log), ops[1..]))
  }

  function Run(s: State, ops: seq<Op>): State
    decreases ops
  {
    if ops == [] then s else Run(Step(s, ops[0]), ops[1..])
  }

  function RunLog(s: State, log: seq<Entry>, ops: seq<Op>): seq<Entry>
    decreases ops
  {
    if ops == [] then log else RunLog(Step(s, ops[0]), LogAfter(s, ops[0], log), ops[1..])
  }

  lemma {:induction false} RunKeepsInv(s: State, log: seq<Entry>, ops: seq<Op>)
    requires Inv(s, log) && LegalRun(s, log, ops)
    ensures Inv(Run(s, ops), RunLog(s, log, ops)) && log <= RunLog(s, log, ops)
    decreases ops
  {
    if ops != [] {
      StepKeepsInv(s, log, ops[0]);
      RunKeepsInv(Step(s, ops[0]), LogAfter(s, ops[0], log), ops[1..]);
    }
  }

  function Initial(attempts: map<Handle, Attempt>): State {
    State(attempts, map[], [], map[])
  }

  /** Over any run the accepted reports of a session are numbered 0 to `lastSequence` without gaps, read
      `ack heartbeat* terminal?` or a lone `terminal`, and the session is revoked exactly when they end in a
      terminal report. */
  lemma SessionLanguage(attempts: map<Handle, Attempt>, ops: seq<Op>, id: BootstrapId)
    requires LegalRun(Initial(attempts), [], ops)
    ensures
      var s := Run(Initial(attempts), ops);
      var log := RunLog(Initial(attempts), [], ops);
      id in s.bootstraps && s.bootstraps[id].session.Some? ==>
        var p := Reports(log, s.bootstraps[id].session.value.id);
        && Numbered(p) && WellSpoken(p) && |p| == s.bootstraps[id].lastSequence + 1
        && (s.bootstraps[id].revokedAt.Some? <==> Ended(p))
  {
    RunKeepsInv(Initial(attempts), [], ops);
    var s := Run(Initial(attempts), ops);
    assert id in s.bootstraps ==> BootstrapOk(s, RunLog(Initial(attempts), [], ops), id);
  }

  /** Each number of a session has exactly one kind and one digest. */
  lemma OneReportPerNumber(attempts: map<Handle, Attempt>, ops: seq<Op>, x: Entry, y: Entry)
    requires LegalRun(Initial(attempts), [], ops)
    requires x in RunLog(Initial(attempts), [], ops) && y in RunLog(Initial(attempts), [], ops)
    requires x.key.session == y.key.session && x.key.sequence == y.key.sequence
    ensures x == y
  {
    RunKeepsInv(Initial(attempts), [], ops);
    var s, log := Run(Initial(attempts), ops), RunLog(Initial(attempts), [], ops);
    var id := Find(s, x.key.session).value;
    FindExact(s, x.key.session, id);
    assert BootstrapOk(s, log, id);
    var p := Reports(log, x.key.session);
    assert x in p && y in p;
  }

  /** Replaying an accepted report at any later time, even after the terminal report or the session's expiry and
      whatever token comes with it, answers "duplicate" and changes nothing. */
  lemma ReplayIsDuplicate(s: State, log: seq<Entry>, first: SessionEvent, ops: seq<Op>, again: SessionEvent)
    requires Inv(s, log) && Report(s, first).1 == EventAccepted
    requires LegalRun(Report(s, first).0, LogAfter(s, ReportOp(first), log), ops)
    requires KeyOf(again) == KeyOf(first) && again.digest == first.digest
    ensures
      var later := Run(Report(s, first).0, ops);
      Report(later, again) == (later, EventDuplicate)
  {
    var s1, log1 := Report(s, first).0, LogAfter(s, ReportOp(first), log);
    var later, log' := Run(s1, ops), RunLog(s1, log1, ops);
    StepKeepsInv(s, log, ReportOp(first));
    RunKeepsInv(s1, log1, ops);
    var entry := Entry(KeyOf(first), first.digest);
    assert entry in log1;
    assert entry in log';
    var id := Find(later, first.session).value;
    FindExact(later, first.session, id);
    assert BootstrapOk(later, log', id);
  }

  // ---------------------------------------------------------------- one bootstrap, hence one session, per handle

  predicate HandleHeld(bootstraps: map<BootstrapId, Bootstrap>, handle: Handle) {
    exists id :: id in bootstraps && bootstraps[id].executionHandle == handle
  }

  predicate OnePerHandle(bootstraps: map<BootstrapId, Bootstrap>) {
    forall x, y ::
      x in bootstraps && y in bootstraps && bootstraps[x].executionHandle == bootstraps[y].executionHandle ==> x == y
  }

  /** A begin that is accepted is the first one of its handle. */
  predicate BeginsAnew(s: State, op: Op) {
    op.BeginOp? && Begin(s, op.id, op.record, op.jobId, op.attemptId).1 == BeginAccepted ==>
      !HandleHeld(s.bootstraps, op.record.executionHandle)
  }

  predicate AlwaysAnew(s: State, ops: seq<Op>)
    decreases ops
  {
    ops == [] || (BeginsAnew(s, ops[0]) && AlwaysAnew(Step(s, ops[0]), ops[1..]))
  }

  /** An operation keeps one bootstrap per handle exactly when it does not begin a second one. */
  lemma StepKeepsOneExactly(s: State, op: Op)
    requires OnePerHandle(s.bootstraps)
    ensures OnePerHandle(Step(s, op).bootstraps) <==> BeginsAnew(s, op)
  {
    var s' := Step(s, op);
    if !BeginsAnew(s, op) {
      var x :| x in s.bootstraps && s.bootstraps[x].executionHandle == op.record.executionHandle;
      assert x in s'.bootstraps && op.id in s'.bootstraps && x != op.id;
    }
  }

  /** Bootstraps stay with their handles, so a handle that has two keeps two. */
  lemma StepKeepsHandles(s: State, op: Op)
    ensures forall id :: id in s.bootstraps ==>
      id in Step(s, op).bootstraps && Step(s, op).bootstraps[id].executionHandle == s.bootstraps[id].executionHandle
    ensures !OnePerHandle(s.bootstraps) ==> !OnePerHandle(Step(s, op).bootstraps)
  {
    var s' := Step(s, op);
    if !OnePerHandle(s.bootstraps) {
      var x, y :|
        x in s.bootstraps && y in s.bootstraps && s.bootstraps[x].executionHandle == s.bootstraps[y].executionHandle && x != y;
      assert x in s'.bootstraps && y in s'.bootstraps;
    }
  }

  lemma {:induction false} TwoStayTwo(s: State, ops: seq<Op>)
    requires !OnePerHandle(s.bootstraps)
    ensures !OnePerHandle(Run(s, ops).bootstraps)
    decreases ops
  {
    if ops != [] {
      StepKeepsHandles(s, ops[0]);
      TwoStayTwo(Step(s, ops[0]), ops[1..]);
    }
  }

  /** Over any run: each handle has at most one bootstrap exactly when no begin was ever accepted for a handle that
      already had one. */
  lemma {:induction false} OneBootstrapExactly(s: State, ops: seq<Op>)
    requires OnePerHandle(s.bootstraps)
    ensures OnePerHandle(Run(s, ops).bootstraps) <==> AlwaysAnew(s, ops)
    decreases ops
  {
    if ops != [] {
      StepKeepsOneExactly(s, ops[0]);
      if BeginsAnew(s, ops[0]) {
        OneBootstrapExactly(Step(s, ops[0]), ops[1..]);
      } else {
        TwoStayTwo(Step(s, ops[0]), ops[1..]);
      }
    }
  }

  /** Then each handle has at most one session. */
  lemma OneSessionWhenAnew(attempts: map<Handle, Attempt>, ops: seq<Op>, x: BootstrapId, y: BootstrapId,
                           first: SessionId, second: SessionId)
    requires AlwaysAnew(Initial(attempts), ops)
    ensures
      var s := Run(Initial(attempts), ops);
      (HasSession(s, x, first) && HasSession(s, y, second)
       && s.bootstraps[x].executionHandle == s.bootstraps[y].executionHandle) ==> x == y && first == second
  {
    OneBootstrapExactly(Initial(attempts), ops);
  }

  // ---------------------------------------------------------------- two sessions for one handle

  /** Nothing in this store ties a handle to one bootstrap: two bootstraps begun before either is claimed both
      get a session, so one execution handle has two. */
  lemma TwoSessionsForOneHandle() returns (attempts: map<Handle, Attempt>, ops: seq<Op>)
    ensures
      var s := Run(Initial(attempts), ops);
      && 1 in s.bootstraps && 2 in s.bootstraps
      && s.bootstraps[1].executionHandle == s.bootstraps[2].executionHandle
      && HasSession(s, 1, 11) && HasSession(s, 2, 12)
  {
    attempts := map[7 := Attempt(3, 4, PendingBootstrap, false)];
    var first := Bootstrap(21, 7, 31, 100, None, -1, None, None);
    var second := Bootstrap(22, 7, 32, 100, None, -1, None, None);
    ops := [BeginOp(1, first, 3, 4), BeginOp(2, second, 3, 4),
            ConsumeOp(ClaimInput(1, 7, 31, 50, Session(11, 41, 50, 90, 51))),
            ConsumeOp(ClaimInput(2, 7, 32, 50, Session(12, 42, 50, 90, 52)))];
    var s0 := Initial(attempts);
    var s1 := Step(s0, ops[0]);
    var s2 := Step(s1, ops[1]);
    var s3 := Step(s2, ops[2]);
    var s4 := Step(s3, ops[3]);
    assert ops[1..][0] == ops[1] && ops[1..][1..] == ops[2..] && ops[2..][1..] == ops[3..] && ops[3..][1..] == [];
    assert Run(s0, ops) == Run(s1, ops[1..]) == Run(s2, ops[2..]) == Run(s3, ops[3..]) == Run(s4, []);
  }
}

/** When a session store answers what: each call of both stores told by the rows it finds, with every code written out. */
module RuntimeTable {
  import opened ControllerTypes
  import opened RuntimeStore
  import opened RuntimeSessions
  import D = RuntimeD1
  import J = JobTables
  import P = RuntimeReplay
  import K = RuntimeCalls

  // ---------------------------------------------------------------- the in-memory store

  /** The attempt of the handle waits for its bootstrap and is the one the caller means. */
  predicate Waits(s: State, handle: Handle, jobId: JobId, attemptId: int) {
    && handle in s.attempts && s.attempts[handle].status == PendingBootstrap
    && s.attempts[handle].jobId == jobId && s.attempts[handle].attemptId == attemptId
  }

  predicate SameBegin(existing: Bootstrap, record: Bootstrap) {
    existing.requestDigest == record.requestDigest && existing.executionHandle == record.executionHandle
  }

  lemma BeginAnswers(s: State, id: BootstrapId, record: Bootstrap, jobId: JobId, attemptId: int)
    ensures
      var (s', outcome) := Begin(s, id, record, jobId, attemptId);
      var known, waits := id in s.bootstraps, Waits(s, record.executionHandle, jobId, attemptId);
      && (outcome.BeginDuplicate? <==> known && SameBegin(s.bootstraps[id], record))
      && (outcome.BeginDuplicate? ==> outcome.record == s.bootstraps[id])
      && (outcome == BeginConflict <==> known && !SameBegin(s.bootstraps[id], record))
      && (outcome == BeginNotFound <==> !known && !waits)
      && (outcome == BeginAccepted <==> !known && waits)
      && s' == (if !known && waits
                then State(s.attempts, s.bootstraps[id := record], s.order + [id], s.events) else s)
  {
  }

  /** The claim names the bootstrap's handle and challenge. */
  predicate Addressed(record: Bootstrap, input: ClaimInput) {
    record.executionHandle == input.executionHandle && record.challengeId == input.challengeId
  }

  predicate ClaimedAlike(record: Bootstrap, input: ClaimInput) {
    record.session.Some? && record.session.value.claimDigest == input.session.claimDigest
  }

  /** How a claim of this bootstrap is answered before anything is written. */
  predicate ClaimTold(record: Bootstrap, input: ClaimInput, outcome: ClaimOutcome) {
    && (outcome.ClaimDuplicate? <==> Addressed(record, input) && ClaimedAlike(record, input))
    && (outcome.ClaimDuplicate? ==> outcome.record == record)
    && (outcome == ClaimExpired <==>
          Addressed(record, input) && record.session == None && record.challengeExpiresAt <= input.now)
    && (outcome.ClaimAccepted? ==>
          Addressed(record, input) && record.session == None && input.now < record.challengeExpiresAt)
    && outcome != ClaimNotFound
  }

  lemma ConsumeAnswers(s: State, input: ClaimInput)
    ensures
      var (s', outcome) := Consume(s, input);
      && (outcome == ClaimNotFound <==> input.bootstrap !in s.bootstraps)
      && (input.bootstrap in s.bootstraps ==>
            var record := s.bootstraps[input.bootstrap];
            && ClaimTold(record, input, outcome)
            && (outcome == ClaimConflict <==>
                  !Addressed(record, input) || (record.session.Some? && !ClaimedAlike(record, input)))
            && (outcome.ClaimAccepted? ==> outcome.record == record.(session := Some(input.session))))
      && (!outcome.ClaimAccepted? ==> s' == s)
  {
  }

  /** An accepted claim stores its session, and the attempt of the handle runs. */
  lemma ConsumeStores(s: State, input: ClaimInput)
    requires Consume(s, input).1.ClaimAccepted?
    ensures
      var s' := Consume(s, input).0;
      var record := s.bootstraps[input.bootstrap];
      var handle := record.executionHandle;
      && s'.bootstraps == s.bootstraps[input.bootstrap := record.(session := Some(input.session))]
      && s'.order == s.order && s'.events == s.events
      && s'.attempts == (if handle in s.attempts then s.attempts[handle := s.attempts[handle].(status := RunningWorker)]
                         else s.attempts)
  {
  }

  /** The bootstrap opened this session. */
  predicate Opened(bootstraps: map<BootstrapId, Bootstrap>, id: BootstrapId, session: SessionId) {
    id in bootstraps && bootstraps[id].session.Some? && bootstraps[id].session.value.id == session
  }

  /** The report carries the session's handle and token. */
  predicate Owned(record: Bootstrap, e: SessionEvent) {
    record.executionHandle == e.executionHandle && record.session.Some? && record.session.value.tokenHash == e.tokenHash
  }

  predicate Over(record: Bootstrap, e: SessionEvent) {
    record.revokedAt.Some? || (record.session.Some? && record.session.value.expiresAt <= e.now)
  }

  /** The next number of the session: an ack is its first report and a heartbeat is not. */
  predicate Next(record: Bootstrap, e: SessionEvent) {
    && e.sequence == record.lastSequence + 1
    && (e.kind == Ack ==> e.sequence == 0)
    && (e.kind == Heartbeat ==> e.sequence > 0)
  }

  /** Why a report of this session is refused, if it is. */
  lemma ClassifiesExactly(record: Bootstrap, e: SessionEvent)
    requires record.lastSequence >= -1
    ensures Classify(record, e) == Some(EventRejected) <==> !Owned(record, e)
    ensures Classify(record, e) == Some(EventExpired) <==> Owned(record, e) && Over(record, e)
    ensures Classify(record, e) == Some(EventStale) <==> Owned(record, e) && !Over(record, e) && !Next(record, e)
    ensures Classify(record, e) == None <==> Owned(record, e) && !Over(record, e) && Next(record, e)
  {
  }

  function Key(e: SessionEvent): EventKey {
    EventKey(e.session, e.kind, e.sequence)
  }

  /** What an accepted report makes of its bootstrap: its number is the last one, and a terminal report ends the session. */
  function Told(record: Bootstrap, e: SessionEvent): Bootstrap {
    if e.kind == TerminalReport then
      record.(lastSequence := e.sequence, revokedAt := Some(e.now), terminalDigest := Some(e.digest))
    else record.(lastSequence := e.sequence)
  }

  /** A report of a session in any state that calls can reach. */
  lemma ReportAnswers(s: State, log: seq<Entry>, e: SessionEvent, id: BootstrapId)
    requires Inv(s, log) && Opened(s.bootstraps, id, e.session)
    ensures
      var (s', outcome) := Report(s, e);
      var record, known := s.bootstraps[id], Key(e) in s.events;
      && (outcome == EventDuplicate <==> known && s.events[Key(e)] == e.digest)
      && (outcome == EventConflict <==> known && s.events[Key(e)] != e.digest)
      && (outcome == EventRejected <==> !known && !Owned(record, e))
      && (outcome == EventExpired <==> !known && Owned(record, e) && Over(record, e))
      && (outcome == EventStale <==> !known && Owned(record, e) && !Over(record, e) && !Next(record, e))
      && (outcome == EventAccepted <==> !known && Owned(record, e) && !Over(record, e) && Next(record, e))
      && (outcome != EventAccepted ==> s' == s)
  {
    FindExact(s, e.session, id);
    assert BootstrapOk(s, log, id);
    SessionKnown(s, log, id);
    ClassifiesExactly(s.bootstraps[id], e);
    hide Inv, Find, Classify, Owned, Over, Next, BootstrapOk, HasSession;
  }

  lemma SessionKnown(s: State, log: seq<Entry>, id: BootstrapId)
    requires id in s.bootstraps && BootstrapOk(s, log, id)
    ensures s.bootstraps[id].executionHandle in s.attempts && s.bootstraps[id].lastSequence >= -1
  {
  }

  lemma ReportStores(s: State, log: seq<Entry>, e: SessionEvent, id: BootstrapId)
    requires Inv(s, log) && Opened(s.bootstraps, id, e.session) && Report(s, e).1 == EventAccepted
    ensures
      var s', handle := Report(s, e).0, s.bootstraps[id].executionHandle;
      && s'.bootstraps == s.bootstraps[id := Told(s.bootstraps[id], e)]
      && s'.events == s.events[Key(e) := e.digest] && s'.order == s.order
      && handle in s.attempts
      && s'.attempts == s.attempts[handle :=
           if e.kind == TerminalReport then s.attempts[handle].(status := TerminalReported) else s.attempts[handle]]
  {
    FindExact(s, e.session, id);
    assert BootstrapOk(s, log, id);
    SessionKnown(s, log, id);
    hide Inv, Find, Classify, BootstrapOk, HasSession;
  }

  /** A report of a session that no bootstrap has is rejected. */
  lemma UnknownIsRejected(s: State, log: seq<Entry>, e: SessionEvent)
    requires Inv(s, log) && forall id :: !Opened(s.bootstraps, id, e.session)
    ensures Report(s, e) == (s, EventRejected)
  {
    if Find(s, e.session).Some? {
      var id := Find(s, e.session).value;
      FindExact(s, e.session, id);
      assert Opened(s.bootstraps, id, e.session);
    }
  }

  // ---------------------------------------------------------------- the SQL store

  /** A bootstrap of the handle has a session. */
  predicate HandleHasSession(d: D.Rows, handle: Handle) {
    exists id :: id in d.bootstraps && d.bootstraps[id].executionHandle == handle && d.bootstraps[id].session.Some?
  }

  predicate HandleHasBootstrap(d: D.Rows, handle: Handle) {
    exists id :: id in d.bootstraps && d.bootstraps[id].executionHandle == handle
  }

  lemma RowBeginAnswers(d: D.Rows, id: BootstrapId, record: Bootstrap, running: bool)
    requires record.session == None && record.lastSequence == -1 && record.revokedAt == None && record.terminalDigest == None
    ensures
      var (d', outcome) := D.BeginRow(d, id, record, running);
      var known, handle := id in d.bootstraps, record.executionHandle;
      && (outcome.BeginDuplicate? <==> known && SameBegin(d.bootstraps[id], record))
      && (outcome.BeginDuplicate? ==> outcome.record == d.bootstraps[id])
      && (outcome == BeginNotFound <==> !known && (!running || HandleHasSession(d, handle)))
      && (outcome == BeginAccepted <==> !known && running && !HandleHasBootstrap(d, handle))
      && d' == (if outcome == BeginAccepted then D.Rows(d.bootstraps[id := record], d.events) else d)
  {
    assert HandleHasSession(d, record.executionHandle) <==> D.HandleClaimed(d, record.executionHandle);
    assert HandleHasBootstrap(d, record.executionHandle) <==> D.HandleTaken(d, record.executionHandle);
  }

  /** No bootstrap has this session id. */
  predicate Unused(d: D.Rows, session: SessionId) {
    forall id :: id in d.bootstraps && d.bootstraps[id].session.Some? ==> d.bootstraps[id].session.value.id != session
  }

  lemma RowClaimAnswers(d: D.Rows, input: ClaimInput)
    ensures
      var (d', outcome) := D.ClaimRow(d, input);
      && (outcome == ClaimNotFound <==> input.bootstrap !in d.bootstraps)
      && (input.bootstrap in d.bootstraps ==>
            var record := d.bootstraps[input.bootstrap];
            && ClaimTold(record, input, outcome)
            && (outcome.ClaimAccepted? <==>
                  && Addressed(record, input) && record.session == None && input.now < record.challengeExpiresAt
                  && record.revokedAt == None && Unused(d, input.session.id))
            && (outcome.ClaimAccepted? ==> outcome.record == record.(session := Some(input.session)))
            && d' == (if outcome.ClaimAccepted?
                      then D.Rows(d.bootstraps[input.bootstrap := record.(session := Some(input.session))], d.events) else d))
      && (input.bootstrap !in d.bootstraps ==> d' == d)
  {
    UnusedIsFree(d, input.session.id);
    hide D.SessionFree, Unused;
  }

  /** A report of a session in any rows that statements can reach: `active` and `replay` say whether the attempt query finds the
      attempt of the handle now, and again for a replay. */
  lemma RowReportAnswers(d: D.Rows, log: seq<Entry>, e: SessionEvent, id: BootstrapId, active: bool, replay: bool)
    requires D.RowsOk(d, log) && Opened(d.bootstraps, id, e.session) && e.sequence >= 0
    ensures
      var (d', answer) := D.Apply(d, e, D.Lookup(active, replay));
      var record, slot := d.bootstraps[id], D.SlotKey(e.session, e.sequence);
      var known := slot in d.events;
      var taken := !known && Owned(record, e) && !Over(record, e) && Next(record, e);
      && (answer == D.Answered(EventDuplicate) <==> known && d.events[slot] == D.Slot(e.kind, e.digest) && replay)
      && (answer == D.Answered(EventConflict) <==> known && !(d.events[slot] == D.Slot(e.kind, e.digest) && replay))
      && (answer == D.Answered(EventRejected) <==> !known && !Owned(record, e))
      && (answer == D.Answered(EventExpired) <==> !known && Owned(record, e) && Over(record, e))
      && (answer == D.Answered(EventStale) <==> !known && Owned(record, e) && !Over(record, e) && !Next(record, e))
      && (answer == D.Answered(EventAccepted) <==> taken && active)
      && (answer == D.LostBinding <==> taken && !active)
      && d' == (if taken then
                  D.Rows(d.bootstraps[id := Told(record, e)], d.events[slot := D.Slot(e.kind, e.digest)]) else d)
  {
    var lookup := D.Lookup(active, replay);
    assert D.RowOk(d, log, id);
    if D.SlotOf(e) !in d.events {
      D.AppliesToOne(d, log, e, id, lookup);
      ClassifiesExactly(d.bootstraps[id], e);
      D.InsertableExactly(d.bootstraps[id], e);
    }
    hide D.RowsOk, Classify, D.Insertable, Owned, Over, Next, D.RowOk;
  }

  // ---------------------------------------------------------------- the attempt query

  /** The active attempt of an undeleted job with a source, sent to Cloud Run under this handle. */
  predicate SentUnder(t: J.Tables, a: J.AttemptId, handle: Handle) {
    && a in t.executions && a in t.attempts && t.attempts[a].jobId in t.jobs
    && t.executions[a].provider == J.CloudRun && t.executions[a].handle == Some(handle)
    && t.attempts[a].provider == Some(J.CloudRun)
    && t.jobs[t.attempts[a].jobId].active == Some(a)
    && t.jobs[t.attempts[a].jobId].deletedAt == None && t.jobs[t.attempts[a].jobId].sourceEtag.Some?
  }

  predicate EndedAlike(attempt: J.AttemptStatus, job: J.JobStatus) {
    || (attempt == J.AttemptCompleted && job == J.JobCompleted)
    || (attempt == J.AttemptFailed && job == J.JobFailed)
    || (attempt == J.AttemptCancelled && job == J.JobCancelled)
  }

  /** The query finds an attempt while execution, attempt and job are under way; for a replay it also finds one that has ended, if its
      job has ended alike. */
  lemma AttemptQueryFinds(t: J.Tables, a: J.AttemptId, handle: Handle, replay: bool)
    ensures P.Found(t, a, handle, replay) <==>
      && SentUnder(t, a, handle)
      && var execution, attempt, job := t.executions[a].status, t.attempts[a].status, t.jobs[t.attempts[a].jobId].status;
         || (&& execution in {J.ExecCreating, J.ExecActive, J.ExecCancelRequested}
             && attempt in {J.Submitting, J.AttemptRunning, J.CancelRequested}
             && job in {J.JobSubmitting, J.JobRunning, J.JobCancelRequested})
         || (replay && execution == J.ExecTerminal && EndedAlike(attempt, job))
  {
  }

  /** The join of the bootstrap insert finds execution, attempt and job running, bound to each other and to the handle. */
  lemma InsertJoins(t: J.Tables, j: JobId, a: J.AttemptId, handle: Handle)
    ensures P.MarkedRunning(t, j, a, handle) <==>
      && a in t.executions && t.executions[a].provider == J.CloudRun && t.executions[a].handle == Some(handle)
      && a in t.attempts && t.attempts[a].jobId == j && j in t.jobs && t.jobs[j].active == Some(a)
      && t.executions[a].status == J.ExecActive && t.attempts[a].status == J.AttemptRunning && t.jobs[j].status == J.JobRunning
  {
  }

  /** A bootstrap begins only for an attempt that the query finds now, that nobody has asked to cancel, and whose handle has no
      session yet. */
  lemma AwaitsExactly(w: P.World, input: K.BeginInput)
    ensures K.Awaits(w, input) <==>
      && P.Found(w.tables, input.attemptId, input.record.executionHandle, false)
      && w.tables.attempts[input.attemptId].jobId == input.jobId
      && w.tables.executions[input.attemptId].status != J.ExecCancelRequested
      && w.tables.attempts[input.attemptId].status != J.CancelRequested
      && w.tables.jobs[input.jobId].status != J.JobCancelRequested
      && !HandleHasSession(w.rows, input.record.executionHandle)
  {
    assert HandleHasSession(w.rows, input.record.executionHandle) <==> D.HandleClaimed(w.rows, input.record.executionHandle);
  }

  // ---------------------------------------------------------------- calls with others in between

  /** A claim is answered from its first read, and changes nothing, unless that shows its own open challenge. */
  lemma ClaimCallTold(w: P.World, input: ClaimInput, first: seq<P.Op>, second: seq<P.Op>)
    ensures input.bootstrap !in w.rows.bootstraps ==>
      K.ClaimAmid(w, input, first, second) == (w, K.ClaimAnswered(ClaimNotFound))
    ensures input.bootstrap in w.rows.bootstraps ==>
      var record := w.rows.bootstraps[input.bootstrap];
      !(Addressed(record, input) && record.session == None && input.now < record.challengeExpiresAt) ==>
        var (w', answer) := K.ClaimAmid(w, input, first, second);
        && w' == w && answer.ClaimAnswered? && ClaimTold(record, input, answer.outcome)
        && (answer.outcome == ClaimConflict <==>
              !Addressed(record, input) || (record.session.Some? && !ClaimedAlike(record, input)))
  {
    hide P.Run, D.SessionFree;
  }

  /** A claim that its first read does not answer tries its update on what `first` has left, and is answered from what `second` has
      left after it. */
  lemma ClaimCallAnswers(w: P.World, input: ClaimInput, first: seq<P.Op>, second: seq<P.Op>)
    requires input.bootstrap in w.rows.bootstraps
    requires Addressed(w.rows.bootstraps[input.bootstrap], input)
    requires w.rows.bootstraps[input.bootstrap].session == None
    requires input.now < w.rows.bootstraps[input.bootstrap].challengeExpiresAt
    ensures
      var (w', answer) := K.ClaimAmid(w, input, first, second);
      var w1 := P.Run(w, first);
      var d := w1.rows;
      var fits :=
        && input.bootstrap in d.bootstraps
        && var row := d.bootstraps[input.bootstrap];
           && Addressed(row, input) && row.session == None && row.revokedAt == None && input.now < row.challengeExpiresAt;
      if fits && !Unused(d, input.session.id) then w' == w1 && answer == K.SessionIdInUse
      else
        && w' == P.Run(
             if fits then
               w1.(rows := D.Rows(d.bootstraps[input.bootstrap :=
                                    d.bootstraps[input.bootstrap].(session := Some(input.session))], d.events))
             else w1, second)
        && answer.ClaimAnswered? && RereadTold(w'.rows, input, fits, answer.outcome)
  {
    var w1 := P.Run(w, first);
    UnusedIsFree(w1.rows, input.session.id);
    hide P.Run, Unused, D.SessionFree;
    assert K.Refusal(w.rows.bootstraps[input.bootstrap], input) == None;
  }

  lemma UnusedIsFree(d: D.Rows, session: SessionId)
    ensures Unused(d, session) <==> D.SessionFree(d, session)
  {
    if D.SessionFree(d, session) {
      forall id | id in d.bootstraps && d.bootstraps[id].session.Some? ensures d.bootstraps[id].session.value.id != session {
        assert !D.Claimed(d, id, session);
      }
    }
  }

  /** The last read of a claim: its own session if it has stored it, that of an equal claim, or why there is none. */
  predicate RereadTold(d: D.Rows, input: ClaimInput, stored: bool, outcome: ClaimOutcome) {
    if input.bootstrap !in d.bootstraps then outcome == ClaimNotFound
    else
      var record := d.bootstraps[input.bootstrap];
      if stored then outcome == ClaimAccepted(record)
      else if ClaimedAlike(record, input) then outcome == ClaimDuplicate(record)
      else if record.challengeExpiresAt <= input.now then outcome == ClaimExpired
      else outcome == ClaimConflict
  }

  /** A begin whose batch inserts nothing is answered from what the others have left: the same request stored by then is a duplicate, another
      one under its id or any bootstrap of its handle a conflict, and otherwise the attempt is gone. */
  lemma BeginCallAnswers(w: P.World, input: K.BeginInput, first: seq<P.Op>, second: seq<P.Op>, third: seq<P.Op>,
                         fourth: seq<P.Op>)
    requires input.id !in w.rows.bootstraps && input.record.session == None && input.record.lastSequence == -1
    requires input.record.revokedAt == None && input.record.terminalDigest == None
    ensures
      var (w', outcome) := K.BeginAmid(w, input, first, second, third, fourth);
      var w1 := P.Run(w, first);
      var w2 := P.Run(w1, second);
      var w3 := P.Run(P.Step(w2, K.BeginBatch(input)), third);
      if !K.Awaits(w1, input) then w' == w1 && outcome == BeginNotFound
      else if K.Inserts(w2, input) then w' == w3 && outcome == BeginAccepted
      else if input.id in w3.rows.bootstraps then
        w' == w3 && outcome == (if SameBegin(w3.rows.bootstraps[input.id], input.record)
                                then BeginDuplicate(w3.rows.bootstraps[input.id]) else BeginConflict)
      else
        && w' == P.Run(w3, fourth)
        && outcome == (if HandleHasBootstrap(w'.rows, input.record.executionHandle) then BeginConflict else BeginNotFound)
  {
    hide P.Run, P.Step, K.Awaits, K.Inserts;
    var w3 := P.Run(P.Step(P.Run(P.Run(w, first), second), K.BeginBatch(input)), third);
    assert HandleHasBootstrap(P.Run(w3, fourth).rows, input.record.executionHandle)
      <==> D.HandleTaken(P.Run(w3, fourth).rows, input.record.executionHandle);
  }

  /** Why a report finds no place in these rows, if it finds none. */
  ghost function Obstacle(d: D.Rows, e: SessionEvent): Option<EventOutcome> {
    match K.SessionRow(d, e.session)
    case None => Some(EventRejected)
    case Some(id) =>
      if !Owned(d.bootstraps[id], e) then Some(EventRejected)
      else if Over(d.bootstraps[id], e) then Some(EventExpired)
      else if !Next(d.bootstraps[id], e) then Some(EventStale)
      else None
  }

  lemma ObstacleStands(d: D.Rows, e: SessionEvent)
    requires P.Sound(d) && e.sequence >= 0
    ensures Obstacle(d, e) == K.Standing(d, e)
    ensures K.Stores(d, e) <==> Obstacle(d, e) == None && !Taken(d, e)
  {
    var log :| D.RowsOk(d, log);
    var row := K.SessionRow(d, e.session);
    if row.Some? {
      assert D.RowOk(d, log, row.value);
      ClassifiesExactly(d.bootstraps[row.value], e);
      D.InsertableExactly(d.bootstraps[row.value], e);
    }
  }

  /** The rows once the report is stored. */
  ghost function Storing(w: P.World, e: SessionEvent): P.World
    requires Obstacle(w.rows, e) == None
  {
    var id := K.SessionRow(w.rows, e.session).value;
    w.(rows := D.Rows(w.rows.bootstraps[id := Told(w.rows.bootstraps[id], e)],
                      w.rows.events[D.SlotKey(e.session, e.sequence) := D.Slot(e.kind, e.digest)]))
  }

  predicate Taken(d: D.Rows, e: SessionEvent) {
    D.SlotKey(e.session, e.sequence) in d.events
  }

  /** A report whose number is taken: the same report is a duplicate if the attempt query still finds its attempt, any other a conflict. */
  predicate TakenTold(w: P.World, e: SessionEvent, meanwhile: seq<P.Op>, w': P.World, answer: D.Answer)
    requires Taken(w.rows, e)
  {
    if w.rows.events[D.SlotKey(e.session, e.sequence)] == D.Slot(e.kind, e.digest) then
      && w' == P.Run(w, meanwhile)
      && answer == D.Answered(if P.FindsAttempt(w'.tables, e.executionHandle, true) then EventDuplicate else EventConflict)
    else w' == w && answer == D.Answered(EventConflict)
  }

  /** A report that its number does not answer is refused for what stands against it, or stored; if others have changed that before its
      insert, it is answered from what they have left. */
  ghost predicate ReportTold(w: P.World, e: SessionEvent, first: seq<P.Op>, second: seq<P.Op>, third: seq<P.Op>,
                             fourth: seq<P.Op>, w': P.World, answer: D.Answer) {
    var w1 := P.Run(w, first);
    var w2 := P.Run(w1, second);
    var w3 := P.Run(w2, third);
    if Taken(w.rows, e) then TakenTold(w, e, first, w', answer)
    else if Obstacle(w1.rows, e).Some? then w' == w1 && answer == D.Answered(Obstacle(w1.rows, e).value)
    else if Obstacle(w2.rows, e) == None && !Taken(w2.rows, e) then
      && w' == P.Run(Storing(w2, e), third)
      && answer == (if P.FindsAttempt(w'.tables, e.executionHandle, false) then D.Answered(EventAccepted) else D.LostBinding)
    else if Taken(w3.rows, e) then TakenTold(w3, e, fourth, w', answer)
    else
      && w' == P.Run(w3, fourth)
      && answer == D.Answered(if Obstacle(w'.rows, e).Some? then Obstacle(w'.rows, e).value else EventRejected)
  }

  lemma ReplayIsTold(w: P.World, e: SessionEvent, meanwhile: seq<P.Op>)
    requires Taken(w.rows, e)
    ensures
      var (w', answer) := K.ReplayAmid(w, e, meanwhile);
      TakenTold(w, e, meanwhile, w', answer)
  {
    hide P.Run, P.FindsAttempt;
  }

  lemma AllSound(w: P.World, first: seq<P.Op>, second: seq<P.Op>, third: seq<P.Op>, fourth: seq<P.Op>)
    requires P.Sound(w.rows)
    ensures
      var w1 := P.Run(w, first);
      var w2 := P.Run(w1, second);
      var w3 := P.Run(w2, third);
      P.Sound(w1.rows) && P.Sound(w2.rows) && P.Sound(w3.rows) && P.Sound(P.Run(w3, fourth).rows)
  {
    hide P.Run, P.Sound;
    P.RunKeepsSound(w, first);
    P.RunKeepsSound(P.Run(w, first), second);
    P.RunKeepsSound(P.Run(P.Run(w, first), second), third);
    P.RunKeepsSound(P.Run(P.Run(P.Run(w, first), second), third), fourth);
  }

  /** The report reaches its insert and stores it. */
  lemma ReportStored(w: P.World, e: SessionEvent, first: seq<P.Op>, second: seq<P.Op>, third: seq<P.Op>, fourth: seq<P.Op>)
    requires !Taken(w.rows, e) && Obstacle(P.Run(w, first).rows, e) == K.Standing(P.Run(w, first).rows, e) == None
    requires Obstacle(P.Run(P.Run(w, first), second).rows, e) == None && !Taken(P.Run(P.Run(w, first), second).rows, e)
    requires K.Stores(P.Run(P.Run(w, first), second).rows, e)
    ensures
      var (w', answer) := K.ReportAmid(w, e, first, second, third, fourth);
      ReportTold(w, e, first, second, third, fourth, w', answer)
  {
    hide P.Run, P.FindsAttempt, K.Standing, Obstacle, K.Stores, K.ReplayAmid, TakenTold, Storing, K.EventOp, P.Step;
    StoringIsStep(P.Run(P.Run(w, first), second), e);
  }

  /** The report reaches its insert, and others have been faster. */
  lemma ReportLate(w: P.World, e: SessionEvent, first: seq<P.Op>, second: seq<P.Op>, third: seq<P.Op>, fourth: seq<P.Op>)
    requires !Taken(w.rows, e) && Obstacle(P.Run(w, first).rows, e) == K.Standing(P.Run(w, first).rows, e) == None
    requires !(Obstacle(P.Run(P.Run(w, first), second).rows, e) == None && !Taken(P.Run(P.Run(w, first), second).rows, e))
    requires !K.Stores(P.Run(P.Run(w, first), second).rows, e)
    requires
      var d := P.Run(P.Run(P.Run(P.Run(w, first), second), third), fourth).rows;
      Obstacle(d, e) == K.Standing(d, e)
    ensures
      var (w', answer) := K.ReportAmid(w, e, first, second, third, fourth);
      ReportTold(w, e, first, second, third, fourth, w', answer)
  {
    hide P.Run, P.FindsAttempt, K.Standing, Obstacle, K.Stores, K.ReplayAmid, TakenTold, Storing, K.EventOp, P.Step;
    var w3 := P.Run(P.Run(P.Run(w, first), second), third);
    if Taken(w3.rows, e) { ReplayIsTold(w3, e, fourth); }
  }

  lemma ReportRefused(w: P.World, e: SessionEvent, first: seq<P.Op>, second: seq<P.Op>, third: seq<P.Op>, fourth: seq<P.Op>)
    requires !Taken(w.rows, e) && Obstacle(P.Run(w, first).rows, e) == K.Standing(P.Run(w, first).rows, e)
    requires Obstacle(P.Run(w, first).rows, e).Some?
    ensures
      var (w', answer) := K.ReportAmid(w, e, first, second, third, fourth);
      ReportTold(w, e, first, second, third, fourth, w', answer)
  {
    hide P.Run, P.FindsAttempt, K.Standing, Obstacle, K.Stores, K.ReplayAmid, TakenTold, Storing, K.EventOp, P.Step;
  }

  lemma ReportReplayed(w: P.World, e: SessionEvent, first: seq<P.Op>, second: seq<P.Op>, third: seq<P.Op>, fourth: seq<P.Op>)
    requires Taken(w.rows, e)
    ensures
      var (w', answer) := K.ReportAmid(w, e, first, second, third, fourth);
      ReportTold(w, e, first, second, third, fourth, w', answer)
  {
    hide P.Run, P.FindsAttempt, K.Standing, Obstacle, K.Stores, K.ReplayAmid, TakenTold, Storing, K.EventOp, P.Step;
    ReplayIsTold(w, e, first);
  }

  lemma ReportCallAnswers(w: P.World, e: SessionEvent, first: seq<P.Op>, second: seq<P.Op>, third: seq<P.Op>, fourth: seq<P.Op>)
    requires P.Sound(w.rows) && e.sequence >= 0
    ensures
      var (w', answer) := K.ReportAmid(w, e, first, second, third, fourth);
      ReportTold(w, e, first, second, third, fourth, w', answer)
  {
    hide *;
    var w1 := P.Run(w, first);
    var w2 := P.Run(w1, second);
    AllSound(w, first, second, third, fourth);
    ObstacleStands(w1.rows, e);
    ObstacleStands(w2.rows, e);
    ObstacleStands(P.Run(P.Run(w2, third), fourth).rows, e);
    if Taken(w.rows, e) { ReportReplayed(w, e, first, second, third, fourth); }
    else if Obstacle(w1.rows, e).Some? { ReportRefused(w, e, first, second, third, fourth); }
    else if K.Stores(w2.rows, e) { ReportStored(w, e, first, second, third, fourth); }
    else { ReportLate(w, e, first, second, third, fourth); }
  }

  lemma StoringIsStep(w: P.World, e: SessionEvent)
    requires Obstacle(w.rows, e) == None && K.Stores(w.rows, e)
    ensures P.Step(w, K.EventOp(w.rows, e)) == Storing(w, e)
  {
  }
}

/** The SQL session store's calls as they really run: several reads and one guarded statement, with any operations of other
    calls, on sessions and job tables alike, before each of them but the first. */
module RuntimeCalls {
  import opened ControllerTypes
  import opened JobTables
  import opened RuntimeStore
  import opened RuntimeReplay
  import opened Sets
  import D = RuntimeD1
  import B = JobBatches
  import R = JobRuns
  import S = RuntimeSessions

  // ---------------------------------------------------------------- beginBootstrap

  datatype BeginInput = BeginInput(
    id: BootstrapId, record: Bootstrap, jobId: JobId, attemptId: AttemptId, now: Time, controllerVersion: int)

  function Replayed(existing: Bootstrap, record: Bootstrap): BeginOutcome {
    if existing.requestDigest == record.requestDigest && existing.executionHandle == record.executionHandle
    then BeginDuplicate(existing) else BeginConflict
  }

  /** The attempt query finds this attempt, nobody asked to cancel it, and its handle has no session yet. */
  predicate Awaits(w: World, input: BeginInput) {
    var a, handle := input.attemptId, input.record.executionHandle;
    && Found(w.tables, a, handle, false) && w.tables.attempts[a].jobId == input.jobId
    && w.tables.executions[a].status != ExecCancelRequested && w.tables.attempts[a].status != CancelRequested
    && w.tables.jobs[input.jobId].status != JobCancelRequested
    && !D.HandleClaimed(w.rows, handle)
  }

  function BeginBatch(input: BeginInput): Op {
    Bootstraps(input.jobId, input.attemptId, input.now, input.controllerVersion, input.id, input.record)
  }

  /** The tables just after the batch of a begin. */
  function TablesAfter(w: World, input: BeginInput): Tables {
    R.RunBatch(w.tables, input.jobId, input.attemptId, input.now,
               B.BeginBootstrap(input.record.executionHandle, input.controllerVersion))
  }

  /** Did the last statement of the batch insert the bootstrap? */
  predicate Inserts(w: World, input: BeginInput) {
    D.InsertBootstrap(w.rows, input.id, input.record,
                      MarkedRunning(TablesAfter(w, input), input.jobId, input.attemptId, input.record.executionHandle)).1
  }

  function BeginAmid(w: World, input: BeginInput, first: seq<Op>, second: seq<Op>, third: seq<Op>, fourth: seq<Op>)
    : (World, BeginOutcome)
  {
    if input.id in w.rows.bootstraps then (w, Replayed(w.rows.bootstraps[input.id], input.record))
    else
      var w1 := Run(w, first);
      if !Awaits(w1, input) then (w1, BeginNotFound)
      else if !S.Unclaimed(input.record) then (w1, BeginConflict)
      else
        var w2 := Run(w1, second);
        var w3 := Run(Step(w2, BeginBatch(input)), third);
        if Inserts(w2, input) then (w3, BeginAccepted)
        else if input.id in w3.rows.bootstraps then (w3, Replayed(w3.rows.bootstraps[input.id], input.record))
        else
          var w4 := Run(w3, fourth);
          (w4, if D.HandleTaken(w4.rows, input.record.executionHandle) then BeginConflict else BeginNotFound)
  }

  // ---------------------------------------------------------------- consumeChallenge

  /** `SessionIdInUse`: the update violates the UNIQUE session id and the call throws. */
  datatype ClaimAnswer = ClaimAnswered(outcome: ClaimOutcome) | SessionIdInUse

  function Refusal(existing: Bootstrap, input: ClaimInput): Option<ClaimOutcome> {
    if existing.executionHandle != input.executionHandle || existing.challengeId != input.challengeId then Some(ClaimConflict)
    else if existing.session.Some? then
      Some(if existing.session.value.claimDigest == input.session.claimDigest then ClaimDuplicate(existing) else ClaimConflict)
    else if existing.challengeExpiresAt <= input.now then Some(ClaimExpired)
    else None
  }

  /** What the call answers from its second read. */
  function Reread(d: D.Rows, input: ClaimInput, updated: bool): ClaimOutcome {
    if input.bootstrap !in d.bootstraps then ClaimNotFound
    else
      var current := d.bootstraps[input.bootstrap];
      if updated then ClaimAccepted(current)
      else if current.session.Some? && current.session.value.claimDigest == input.session.claimDigest
      then ClaimDuplicate(current)
      else if current.challengeExpiresAt <= input.now then ClaimExpired
      else ClaimConflict
  }

  /** The WHERE clause of the update, but for the UNIQUE session id. */
  predicate Claimable(d: D.Rows, input: ClaimInput) {
    && input.bootstrap in d.bootstraps
    && var row := d.bootstraps[input.bootstrap];
       && row.executionHandle == input.executionHandle && row.challengeId == input.challengeId
       && row.challengeExpiresAt > input.now && row.session == None && row.revokedAt == None
  }

  function ClaimAmid(w: World, input: ClaimInput, first: seq<Op>, second: seq<Op>): (World, ClaimAnswer) {
    if input.bootstrap !in w.rows.bootstraps then (w, ClaimAnswered(ClaimNotFound))
    else match Refusal(w.rows.bootstraps[input.bootstrap], input)
      case Some(outcome) => (w, ClaimAnswered(outcome))
      case None =>
        var w1 := Run(w, first);
        if Claimable(w1.rows, input) && !D.SessionFree(w1.rows, input.session.id) then (w1, SessionIdInUse)
        else
          var w2 := Run(Step(w1, Claims(input)), second);
          (w2, ClaimAnswered(Reread(w2.rows, input, Claimable(w1.rows, input))))
  }

  // ---------------------------------------------------------------- applySessionEvent

  /** The row that the UNIQUE index on session ids finds. */
  ghost function SessionRow(d: D.Rows, session: SessionId): (row: Option<BootstrapId>)
    ensures row.Some? ==> D.Claimed(d, row.value, session)
    ensures row == None ==> forall id :: !D.Claimed(d, id, session)
  {
    if exists id :: D.Claimed(d, id, session) then
      var id :| D.Claimed(d, id, session);
      Some(id)
    else None
  }

  predicate SameSlot(d: D.Rows, e: SessionEvent) {
    D.SlotOf(e) in d.events && d.events[D.SlotOf(e)] == D.Slot(e.kind, e.digest)
  }

  /** What the call answers from the bootstrap it reads, if anything. */
  ghost function Standing(d: D.Rows, e: SessionEvent): Option<EventOutcome> {
    match SessionRow(d, e.session)
    case None => Some(EventRejected)
    case Some(id) => Classify(d.bootstraps[id], e)
  }

  ghost function EventOp(d: D.Rows, e: SessionEvent): Op {
    Reports(if SessionRow(d, e.session).Some? then SessionRow(d, e.session).value else 0, e)
  }

  ghost predicate Stores(d: D.Rows, e: SessionEvent) {
    SessionRow(d, e.session).Some? && D.InsertEvent(d, SessionRow(d, e.session).value, e).1
  }

  /** A slot that is taken: a replay asks the attempt query, anything else is a conflict at once. */
  function ReplayAmid(w: World, e: SessionEvent, meanwhile: seq<Op>): (World, D.Answer) {
    if SameSlot(w.rows, e) then
      var w' := Run(w, meanwhile);
      (w', D.Answered(if FindsAttempt(w'.tables, e.executionHandle, true) then EventDuplicate else EventConflict))
    else (w, D.Answered(EventConflict))
  }

  ghost function ReportAmid(w: World, e: SessionEvent, first: seq<Op>, second: seq<Op>, third: seq<Op>, fourth: seq<Op>)
    : (World, D.Answer)
  {
    if D.SlotOf(e) in w.rows.events then ReplayAmid(w, e, first)
    else
      var w1 := Run(w, first);
      match Standing(w1.rows, e)
      case Some(refusal) => (w1, D.Answered(refusal))
      case None =>
        var w2 := Run(w1, second);
        if Stores(w2.rows, e) then
          var w3 := Run(Step(w2, EventOp(w2.rows, e)), third);
          (w3, if FindsAttempt(w3.tables, e.executionHandle, false) then D.Answered(EventAccepted) else D.LostBinding)
        else
          var w3 := Run(w2, third);
          if D.SlotOf(e) in w3.rows.events then ReplayAmid(w3, e, fourth)
          else
            var w4 := Run(w3, fourth);
            (w4, D.Answered(if Standing(w4.rows, e).Some? then Standing(w4.rows, e).value else EventRejected))
  }

  // ---------------------------------------------------------------- the store

  class D1CloudRunRuntimeStore {
    var bootstraps: map<BootstrapId, Bootstrap>
    var events: map<D.SlotKey, D.Slot>
    var tables: Tables

    constructor (tables: Tables)
      ensures Value() == World(D.NO_ROWS, tables) && Sound(Value().rows)
    {
      bootstraps := map[];
      events := map[];
      this.tables := tables;
      new;
      EmptySound();
    }

    function Value(): World
      reads this
    {
      World(D.Rows(bootstraps, events), tables)
    }

    method Set(w: World)
      modifies this
      ensures Value() == w
    {
      bootstraps, events, tables := w.rows.bootstraps, w.rows.events, w.tables;
    }

    /** What other calls do while this one waits. */
    method Meanwhile(ops: seq<Op>)
      requires Sound(Value().rows)
      modifies this
      ensures Value() == Run(old(Value()), ops) && Sound(Value().rows)
    {
      RunKeepsSound(Value(), ops);
      Set(Run(Value(), ops));
    }

    /** One statement or batch of this call. */
    method Perform(op: Op)
      requires Sound(Value().rows)
      modifies this
      ensures Value() == Step(old(Value()), op) && Sound(Value().rows)
    {
      StepKeepsSound(Value(), op);
      Set(Step(Value(), op));
    }

    /** SELECT by session id. */
    method FindSession(session: SessionId) returns (row: Option<BootstrapId>)
      requires Sound(Value().rows)
      ensures row == SessionRow(Value().rows, session)
    {
      row := None;
      var todo := bootstraps.Keys;
      while todo != {} && row == None
        invariant todo <= bootstraps.Keys
        invariant row.Some? ==> D.Claimed(Value().rows, row.value, session)
        invariant row == None ==> forall id :: id in bootstraps && id !in todo ==> !D.Claimed(Value().rows, id, session)
        decreases todo
      {
        var id := Choose(todo);
        todo := todo - {id};
        if bootstraps[id].session.Some? && bootstraps[id].session.value.id == session { row := Some(id); }
      }
      OneRow(Value().rows, session, row);
    }

    method BeginBootstrap(input: BeginInput, first: seq<Op>, second: seq<Op>, third: seq<Op>, fourth: seq<Op>)
      returns (outcome: BeginOutcome)
      requires Sound(Value().rows)
      modifies this
      ensures Sound(Value().rows)
      ensures (Value(), outcome) == BeginAmid(old(Value()), input, first, second, third, fourth)
    {
      hide Sound, Run, Step, Awaits, Inserts, D.HandleTaken, Replayed;
      if input.id in bootstraps { return Replayed(bootstraps[input.id], input.record); }
      Meanwhile(first);
      if !Awaits(Value(), input) { return BeginNotFound; }
      if !S.Unclaimed(input.record) { return BeginConflict; }
      Meanwhile(second);
      var inserted := Inserts(Value(), input);
      Perform(BeginBatch(input));
      Meanwhile(third);
      if inserted { return BeginAccepted; }
      if input.id in bootstraps { return Replayed(bootstraps[input.id], input.record); }
      Meanwhile(fourth);
      outcome := if D.HandleTaken(Value().rows, input.record.executionHandle) then BeginConflict else BeginNotFound;
    }

    method ConsumeChallenge(input: ClaimInput, first: seq<Op>, second: seq<Op>) returns (answer: ClaimAnswer)
      requires Sound(Value().rows)
      modifies this
      ensures Sound(Value().rows)
      ensures (Value(), answer) == ClaimAmid(old(Value()), input, first, second)
    {
      hide Sound, Run, Step, D.SessionFree, Claimable;
      if input.bootstrap !in bootstraps { return ClaimAnswered(ClaimNotFound); }
      var existing := bootstraps[input.bootstrap];
      if existing.executionHandle != input.executionHandle || existing.challengeId != input.challengeId {
        return ClaimAnswered(ClaimConflict);
      }
      if existing.session.Some? {
        if existing.session.value.claimDigest == input.session.claimDigest { return ClaimAnswered(ClaimDuplicate(existing)); }
        return ClaimAnswered(ClaimConflict);
      }
      if existing.challengeExpiresAt <= input.now { return ClaimAnswered(ClaimExpired); }
      Meanwhile(first);
      var updated := Claimable(Value().rows, input);
      if updated && !D.SessionFree(Value().rows, input.session.id) { return SessionIdInUse; }
      Perform(Claims(input));
      Meanwhile(second);
      answer := ClaimAnswered(Reread(Value().rows, input, updated));
    }

    method ReplayResult(e: SessionEvent, meanwhile: seq<Op>) returns (answer: D.Answer)
      requires Sound(Value().rows)
      modifies this
      ensures Sound(Value().rows)
      ensures (Value(), answer) == ReplayAmid(old(Value()), e, meanwhile)
    {
      if D.SlotOf(e) !in events || events[D.SlotOf(e)].kind != e.kind || events[D.SlotOf(e)].digest != e.digest {
        return D.Answered(EventConflict);
      }
      Meanwhile(meanwhile);
      answer := D.Answered(if FindsAttempt(tables, e.executionHandle, true) then EventDuplicate else EventConflict);
    }

    method ClassifySessionState(e: SessionEvent) returns (refusal: Option<EventOutcome>)
      requires Sound(Value().rows)
      ensures refusal == Standing(Value().rows, e)
    {
      var row := FindSession(e.session);
      if row == None { return Some(EventRejected); }
      var record := bootstraps[row.value];
      if record.executionHandle != e.executionHandle || record.session.value.tokenHash != e.tokenHash {
        return Some(EventRejected);
      }
      if record.session.value.expiresAt <= e.now || record.revokedAt.Some? { return Some(EventExpired); }
      if e.sequence != record.lastSequence + 1 { return Some(EventStale); }
      if
        || (record.lastSequence == -1 && e.kind == Heartbeat)
        || (record.lastSequence >= 0 && e.kind == Ack)
        || (e.kind == Ack && e.sequence != 0)
      {
        return Some(EventStale);
      }
      refusal := None;
    }

    method ApplySessionEvent(e: SessionEvent, first: seq<Op>, second: seq<Op>, third: seq<Op>, fourth: seq<Op>)
      returns (answer: D.Answer)
      requires Sound(Value().rows)
      modifies this
      ensures Sound(Value().rows)
      ensures (Value(), answer) == ReportAmid(old(Value()), e, first, second, third, fourth)
    {
      hide Sound, Run, Step, Standing, ReplayAmid, FindsAttempt, D.InsertEvent;
      if D.SlotOf(e) in events {
        answer := ReplayResult(e, first);
        return;
      }
      Meanwhile(first);
      var refusal := ClassifySessionState(e);
      if refusal.Some? { return D.Answered(refusal.value); }
      Meanwhile(second);
      var row := FindSession(e.session);
      if row.Some? && D.InsertEvent(Value().rows, row.value, e).1 {
        Perform(Reports(row.value, e));
        Meanwhile(third);
        return if FindsAttempt(tables, e.executionHandle, false) then D.Answered(EventAccepted) else D.LostBinding;
      }
      Meanwhile(third);
      if D.SlotOf(e) in events {
        answer := ReplayResult(e, fourth);
        return;
      }
      Meanwhile(fourth);
      var current := ClassifySessionState(e);
      answer := D.Answered(if current.Some? then current.value else EventRejected);
    }
  }

  /** A session id is in one row at most, so whichever search finds it finds the same. */
  lemma OneRow(d: D.Rows, session: SessionId, row: Option<BootstrapId>)
    requires Sound(d)
    requires row.Some? ==> D.Claimed(d, row.value, session)
    requires row == None ==> forall id :: !D.Claimed(d, id, session)
    ensures row == SessionRow(d, session)
  {
    var log :| D.RowsOk(d, log);
  }

  // ---------------------------------------------------------------- what other calls cannot take back

  lemma StepKeepsSession(w: World, op: Op, id: BootstrapId)
    ensures D.SessionKept(w.rows, Step(w, op).rows, id)
    ensures
      id in w.rows.bootstraps ==>
        Step(w, op).rows.bootstraps[id].executionHandle == w.rows.bootstraps[id].executionHandle
  {
    hide B.ApplyAll, B.Statements, MarkedRunning;
  }

  lemma {:induction false} RunKeepsSession(w: World, ops: seq<Op>, id: BootstrapId)
    ensures D.SessionKept(w.rows, Run(w, ops).rows, id)
    ensures
      id in w.rows.bootstraps ==>
        Run(w, ops).rows.bootstraps[id].executionHandle == w.rows.bootstraps[id].executionHandle
    decreases ops
  {
    hide Step;
    if ops != [] {
      StepKeepsSession(w, ops[0], id);
      RunKeepsSession(Step(w, ops[0]), ops[1..], id);
    }
  }

  /** The session a bootstrap has, if any. */
  function SessionOf(d: D.Rows, id: BootstrapId): Option<Session> {
    if id in d.bootstraps then d.bootstraps[id].session else None
  }

  predicate Succeeds(answer: ClaimAnswer) {
    answer.ClaimAnswered? && (answer.outcome.ClaimAccepted? || answer.outcome.ClaimDuplicate?)
  }

  /** Whatever other calls do in between, a claim that succeeds answers with a session opened under its own claim digest that
      the bootstrap keeps; one that is accepted opened its own session on a bootstrap that had none; and one that is not
      accepted leaves everything as the others left it. */
  lemma ClaimsAnswerTruly(w: World, input: ClaimInput, first: seq<Op>, second: seq<Op>)
    ensures
      var (w', answer) := ClaimAmid(w, input, first, second);
      && (Succeeds(answer) ==>
            && answer.outcome.record.session.Some?
            && answer.outcome.record.session.value.claimDigest == input.session.claimDigest
            && answer.outcome.record.executionHandle == input.executionHandle
            && SessionOf(w'.rows, input.bootstrap) == answer.outcome.record.session)
      && (Succeeds(answer) && answer.outcome.ClaimAccepted? ==>
            && answer.outcome.record.session == Some(input.session)
            && SessionOf(w.rows, input.bootstrap) == None && SessionOf(Run(w, first).rows, input.bootstrap) == None)
      && (!(Succeeds(answer) && answer.outcome.ClaimAccepted?) ==>
            w' in {w, Run(w, first), Run(Run(w, first), second)})
  {
    hide Run, D.SessionFree;
    if input.bootstrap in w.rows.bootstraps && Refusal(w.rows.bootstraps[input.bootstrap], input) == None {
      var w1 := Run(w, first);
      RunKeepsSession(w, first, input.bootstrap);
      RunKeepsSession(Step(w1, Claims(input)), second, input.bootstrap);
    }
  }

  /** With nothing in between and a session id not in use, the call is the step the traces compare with the in-memory
      store. */
  lemma ClaimAlone(w: World, input: ClaimInput)
    requires D.SessionFree(w.rows, input.session.id)
    ensures
      var (rows, outcome) := D.ClaimRow(w.rows, input);
      ClaimAmid(w, input, [], []) == (w.(rows := rows), ClaimAnswered(outcome))
  {
    hide D.SessionFree;
  }

  lemma StepKeepsEvents(w: World, op: Op)
    ensures D.SlotsKept(w.rows, Step(w, op).rows)
  {
    RuntimeReplay.StepKeepsSlots(w, op);
  }

  /** The report is stored by this call, or has been before. */
  predicate Reported(answer: D.Answer) {
    answer in {D.Answered(EventAccepted), D.Answered(EventDuplicate), D.LostBinding}
  }

  lemma InsertedSlot(d: D.Rows, id: BootstrapId, e: SessionEvent)
    requires D.InsertEvent(d, id, e).1
    ensures SameSlot(D.InsertEvent(d, id, e).0, e)
  {
  }

  lemma SlotsStay(w: World, ops: seq<Op>, e: SessionEvent)
    ensures D.SlotOf(e) in w.rows.events ==> D.SlotOf(e) in Run(w, ops).rows.events
    ensures SameSlot(w.rows, e) ==> SameSlot(Run(w, ops).rows, e)
  {
    RuntimeReplay.RunKeepsSlots(w, ops);
  }

  lemma ReplayAnswersTruly(w: World, e: SessionEvent, meanwhile: seq<Op>)
    ensures
      var (w', answer) := ReplayAmid(w, e, meanwhile);
      && w' in {w, Run(w, meanwhile)} && answer in {D.Answered(EventDuplicate), D.Answered(EventConflict)}
      && (answer == D.Answered(EventDuplicate) ==>
            SameSlot(w'.rows, e) && FindsAttempt(w'.tables, e.executionHandle, true))
  {
    hide Run, FindsAttempt, SameSlot;
    SlotsStay(w, meanwhile, e);
  }

  /** Whatever other calls do in between: a report answered "accepted" or lost is stored under its number with its kind and
      digest, and nothing was before; one answered "duplicate" is stored so as well, and the attempt query just found its
      attempt; and any answer but "accepted" and lost leaves everything as the others left it. */
  lemma ReportsAnswerTruly(w: World, e: SessionEvent, first: seq<Op>, second: seq<Op>, third: seq<Op>, fourth: seq<Op>)
    ensures
      var (w', answer) := ReportAmid(w, e, first, second, third, fourth);
      var w2 := Run(Run(w, first), second);
      && (Reported(answer) ==> SameSlot(w'.rows, e))
      && (answer in {D.Answered(EventAccepted), D.LostBinding} ==> D.SlotOf(e) !in w.rows.events && D.SlotOf(e) !in w2.rows.events)
      && (answer == D.Answered(EventDuplicate) ==> FindsAttempt(w'.tables, e.executionHandle, true))
      && (answer !in {D.Answered(EventAccepted), D.LostBinding} ==>
            w' in {w, Run(w, first), w2, Run(w2, third), Run(Run(w2, third), fourth)})
  {
    hide Run, FindsAttempt, Standing, ReplayAmid;
    if D.SlotOf(e) in w.rows.events {
      ReplayAnswersTruly(w, e, first);
    } else {
      var w2 := Run(Run(w, first), second);
      SlotsStay(w, first, e);
      StandingRefuses(Run(w, first).rows, e);
      if Standing(Run(w, first).rows, e) == None {
        if Stores(w2.rows, e) {
          StoredNew(w2, e, third);
        } else {
          ReplayAnswersTruly(Run(w2, third), e, fourth);
          StandingRefuses(Run(Run(w2, third), fourth).rows, e);
        }
      }
    }
  }

  lemma StandingRefuses(d: D.Rows, e: SessionEvent)
    ensures Standing(d, e).Some? ==> Standing(d, e).value in {EventRejected, EventExpired, EventStale}
  {
  }

  lemma StoredNew(w: World, e: SessionEvent, ops: seq<Op>)
    requires Stores(w.rows, e)
    ensures D.SlotOf(e) !in w.rows.events && SameSlot(Run(Step(w, EventOp(w.rows, e)), ops).rows, e)
  {
    InsertedSlot(w.rows, SessionRow(w.rows, e.session).value, e);
    SlotsStay(Step(w, EventOp(w.rows, e)), ops, e);
  }

  /** With nothing in between, the call is the step the traces compare with the in-memory store. */
  lemma ReportAlone(w: World, e: SessionEvent)
    requires Sound(w.rows) && e.sequence >= 0
    ensures
      var (rows, answer) := D.Apply(w.rows, e, LookupOf(w.tables, e.executionHandle));
      ReportAmid(w, e, [], [], [], []) == (w.(rows := rows), answer)
  {
    hide FindsAttempt, D.InsertEvent;
    var log :| D.RowsOk(w.rows, log);
    if D.SlotOf(e) !in w.rows.events && exists id :: D.Claimed(w.rows, id, e.session) {
      var id := SessionRow(w.rows, e.session).value;
      assert D.RowOk(w.rows, log, id);
      D.AppliesToOne(w.rows, log, e, id, LookupOf(w.tables, e.executionHandle));
      InsertedWhenInTurn(w.rows, id, e);
    }
  }

  lemma InsertedWhenInTurn(d: D.Rows, id: BootstrapId, e: SessionEvent)
    requires D.Claimed(d, id, e.session) && d.bootstraps[id].lastSequence >= -1 && e.sequence >= 0
    requires D.SlotOf(e) !in d.events
    ensures Classify(d.bootstraps[id], e) == None <==> D.InsertEvent(d, id, e).1
  {
    D.InsertableExactly(d.bootstraps[id], e);
  }

  lemma BatchIsAccepted(w: World, input: BeginInput, third: seq<Op>)
    requires Sound(w.rows) && Inserts(w, input)
    ensures
      var w' := Run(Step(w, BeginBatch(input)), third);
      var handle := input.record.executionHandle;
      && MarkedRunning(TablesAfter(w, input), input.jobId, input.attemptId, handle) && !D.HandleTaken(w.rows, handle)
      && input.id in w'.rows.bootstraps && w'.rows.bootstraps[input.id].executionHandle == handle
      && forall id :: id in w'.rows.bootstraps && w'.rows.bootstraps[id].executionHandle == handle ==> id == input.id
  {
    StepKeepsSound(w, BeginBatch(input));
    RunKeepsSound(Step(w, BeginBatch(input)), third);
    hide Run, Sound, MarkedRunning, TablesAfter, Step;
    BatchInserts(w, input);
    RunKeepsSession(Step(w, BeginBatch(input)), third, input.id);
    OnlyOne(Run(Step(w, BeginBatch(input)), third).rows, input.id);
  }

  /** Whatever other calls do in between, a begin is accepted only when its batch finds execution, attempt and job running and
      no bootstrap of the handle, and from then on its record is the one bootstrap of the handle; a duplicate names the stored
      bootstrap of the same request. */
  lemma BeginsAnswerTruly(w: World, input: BeginInput, first: seq<Op>, second: seq<Op>, third: seq<Op>, fourth: seq<Op>)
    requires Sound(w.rows)
    ensures
      var (w', outcome) := BeginAmid(w, input, first, second, third, fourth);
      var w2 := Run(Run(w, first), second);
      var handle := input.record.executionHandle;
      && (outcome == BeginAccepted ==>
            && MarkedRunning(TablesAfter(w2, input), input.jobId, input.attemptId, handle)
            && !D.HandleTaken(w2.rows, handle)
            && input.id in w'.rows.bootstraps && w'.rows.bootstraps[input.id].executionHandle == handle
            && forall id :: id in w'.rows.bootstraps && w'.rows.bootstraps[id].executionHandle == handle ==> id == input.id)
      && (outcome.BeginDuplicate? ==>
            && input.id in w'.rows.bootstraps && w'.rows.bootstraps[input.id] == outcome.record
            && outcome.record.requestDigest == input.record.requestDigest
            && outcome.record.executionHandle == handle)
  {
    hide Run, Sound, Awaits, MarkedRunning, TablesAfter, Step, D.HandleTaken, Inserts;
    var w2 := Run(Run(w, first), second);
    RunKeepsSound(w, first);
    RunKeepsSound(Run(w, first), second);
    if Inserts(w2, input) { BatchIsAccepted(w2, input, third); }
  }

  lemma BatchInserts(w: World, input: BeginInput)
    requires Inserts(w, input)
    ensures
      var d := Step(w, BeginBatch(input)).rows;
      input.id in d.bootstraps && d.bootstraps[input.id].executionHandle == input.record.executionHandle
  {
    hide R.RunBatch, MarkedRunning;
  }

  lemma OnlyOne(d: D.Rows, id: BootstrapId)
    requires Sound(d) && id in d.bootstraps
    ensures forall other ::
      other in d.bootstraps && d.bootstraps[other].executionHandle == d.bootstraps[id].executionHandle ==> other == id
  {
    var log :| D.RowsOk(d, log);
    forall other | other in d.bootstraps && d.bootstraps[other].executionHandle == d.bootstraps[id].executionHandle
      ensures other == id
    {
      assert D.SameHandle(d.bootstraps[other], d.bootstraps[id]);
    }
  }

  /** With nothing in between, the call has the rows and the verdict of the step the traces compare with the in-memory
      store, where `running` says that the attempt awaits its worker and the batch finds it running. */
  lemma BeginAlone(w: World, input: BeginInput)
    ensures
      var running := Awaits(w, input)
        && MarkedRunning(TablesAfter(w, input), input.jobId, input.attemptId, input.record.executionHandle);
      var (w', outcome) := BeginAmid(w, input, [], [], [], []);
      var (rows, expected) := D.BeginRow(w.rows, input.id, input.record, running);
      && w'.rows == rows
      && (outcome == BeginAccepted <==> expected == BeginAccepted)
      && (outcome.BeginDuplicate? <==> expected.BeginDuplicate?)
      && (outcome.BeginDuplicate? ==> outcome == expected)
  {
    hide MarkedRunning, TablesAfter, Found;
    assert Step(w, BeginBatch(input)).rows
        == D.InsertBootstrap(w.rows, input.id, input.record,
                             MarkedRunning(TablesAfter(w, input), input.jobId, input.attemptId, input.record.executionHandle)).0
      by { BatchRows(w, input); }
  }

  lemma BatchRows(w: World, input: BeginInput)
    ensures Step(w, BeginBatch(input)).rows
         == D.InsertBootstrap(w.rows, input.id, input.record,
                              MarkedRunning(TablesAfter(w, input), input.jobId, input.attemptId, input.record.executionHandle)).0
  {
    hide R.RunBatch, MarkedRunning;
  }
}

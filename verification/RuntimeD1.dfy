/** The D1 session store: the same protocol on two tables, where every write is one guarded statement and a trigger
    advances the bootstrap after each event.  Checks made before a statement can only keep it from running, so the
    statements alone decide what any interleaving of workers can reach. */
module RuntimeD1 {
  import opened ControllerTypes
  import opened RuntimeStore
  import opened RuntimeSessions

  datatype SlotKey = SlotKey(session: SessionId, sequence: int)
  datatype Slot = Slot(kind: EventKind, digest: Digest)

  datatype Rows = Rows(bootstraps: map<BootstrapId, Bootstrap>, events: map<SlotKey, Slot>)

  function SlotOf(e: SessionEvent): SlotKey {
    SlotKey(e.session, e.sequence)
  }

  predicate Claimed(d: Rows, id: BootstrapId, session: SessionId) {
    id in d.bootstraps && d.bootstraps[id].session.Some? && d.bootstraps[id].session.value.id == session
  }

  // ---------------------------------------------------------------- the statements

  predicate HandleTaken(d: Rows, handle: Handle) {
    HandleHeld(d.bootstraps, handle)
  }

  /** INSERT_BOOTSTRAP: `running` is what the join on execution, attempt and job found. */
  function InsertBootstrap(d: Rows, id: BootstrapId, record: Bootstrap, running: bool): (Rows, bool) {
    if running && Unclaimed(record) && id !in d.bootstraps && !HandleTaken(d, record.executionHandle)
    then (d.(bootstraps := d.bootstraps[id := record]), true)
    else (d, false)
  }

  /** CONSUME_CHALLENGE; a session id already in use violates its UNIQUE column and changes nothing. */
  function ConsumeRow(d: Rows, input: ClaimInput): (Rows, bool) {
    if
      && input.bootstrap in d.bootstraps
      && d.bootstraps[input.bootstrap].executionHandle == input.executionHandle
      && d.bootstraps[input.bootstrap].challengeId == input.challengeId
      && d.bootstraps[input.bootstrap].challengeExpiresAt > input.now
      && d.bootstraps[input.bootstrap].session == None
      && d.bootstraps[input.bootstrap].revokedAt == None
      && SessionFree(d, input.session.id)
    then
      (d.(bootstraps := d.bootstraps[input.bootstrap :=
            d.bootstraps[input.bootstrap].(session := Some(input.session))]), true)
    else (d, false)
  }

  predicate SessionFree(d: Rows, session: SessionId) {
    forall id :: id in d.bootstraps ==> !Claimed(d, id, session)
  }

  /** The WHERE clause of the event insert for one bootstrap row. */
  predicate Insertable(record: Bootstrap, e: SessionEvent) {
    && record.session.Some? && record.session.value.id == e.session
    && record.executionHandle == e.executionHandle
    && record.session.value.tokenHash == e.tokenHash
    && record.session.value.expiresAt > e.now
    && record.revokedAt == None
    && record.lastSequence == e.sequence - 1
    && (|| (e.kind == Ack && e.sequence == 0 && record.lastSequence == -1)
        || (e.kind == Heartbeat && e.sequence > 0 && record.lastSequence >= 0)
        || e.kind == TerminalReport)
  }

  /** INSERT into events with its trigger; `id` is the bootstrap whose session the event names. */
  function InsertEvent(d: Rows, id: BootstrapId, e: SessionEvent): (Rows, bool) {
    if id in d.bootstraps && Insertable(d.bootstraps[id], e) && SlotOf(e) !in d.events
    then
      (Rows(d.bootstraps[id := Advanced(d.bootstraps[id], e)], d.events[SlotOf(e) := Slot(e.kind, e.digest)]), true)
    else (d, false)
  }

  // ---------------------------------------------------------------- what holds between statements

  datatype Statement =
    | Bootstrapping(id: BootstrapId, record: Bootstrap, running: bool)
    | Consuming(input: ClaimInput)
    | Reporting(id: BootstrapId, event: SessionEvent)

  function Execute(d: Rows, stmt: Statement): Rows {
    match stmt
    case Bootstrapping(id, record, running) => InsertBootstrap(d, id, record, running).0
    case Consuming(input) => ConsumeRow(d, input).0
    case Reporting(id, e) => InsertEvent(d, id, e).0
  }

  function LogOf(d: Rows, stmt: Statement, log: seq<Entry>): seq<Entry> {
    if stmt.Reporting? && InsertEvent(d, stmt.id, stmt.event).1
    then log + [Entry(KeyOf(stmt.event), stmt.event.digest)] else log
  }

  predicate SameHandle(left: Bootstrap, right: Bootstrap) {
    left.executionHandle == right.executionHandle
  }

  predicate OneBootstrapPerHandle(d: Rows) {
    forall x, y :: x in d.bootstraps && y in d.bootstraps && SameHandle(d.bootstraps[x], d.bootstraps[y]) ==> x == y
  }

  ghost predicate OneBootstrapPerSession(d: Rows) {
    forall x, y, session :: Claimed(d, x, session) && Claimed(d, y, session) ==> x == y
  }

  predicate SlotsLogged(d: Rows, log: seq<Entry>) {
    && (forall k :: k in d.events ==> Entry(EventKey(k.session, d.events[k].kind, k.sequence), d.events[k].digest) in log)
    && (forall e :: e in log ==>
          var k := SlotKey(e.key.session, e.key.sequence);
          k in d.events && d.events[k] == Slot(e.key.kind, e.digest))
  }

  predicate RowOk(d: Rows, log: seq<Entry>, id: BootstrapId)
    requires id in d.bootstraps
  {
    match d.bootstraps[id].session
    case None => Unclaimed(d.bootstraps[id])
    case Some(session) => SessionOk(d.bootstraps[id], Reports(log, session.id))
  }

  ghost predicate RowsOk(d: Rows, log: seq<Entry>) {
    && OneBootstrapPerHandle(d) && OneBootstrapPerSession(d) && SlotsLogged(d, log)
    && (forall id :: id in d.bootstraps ==> RowOk(d, log, id))
    && (forall e :: e in log ==> exists id :: Claimed(d, id, e.key.session))
  }

  lemma BootstrapKeeps(d: Rows, log: seq<Entry>, id: BootstrapId, record: Bootstrap, running: bool)
    requires RowsOk(d, log)
    ensures RowsOk(InsertBootstrap(d, id, record, running).0, log)
  {
    var (d', inserted) := InsertBootstrap(d, id, record, running);
    if inserted {
      assert forall x, session :: Claimed(d', x, session) <==> Claimed(d, x, session);
      forall x | x in d'.bootstraps ensures RowOk(d', log, x) { if x != id { assert RowOk(d, log, x); } }
    }
  }

  /** Claiming a bootstrap for a free session leaves every other claim as it was. */
  lemma ConsumeKeepsClaims(d: Rows, input: ClaimInput)
    requires OneBootstrapPerSession(d) && ConsumeRow(d, input).1
    ensures OneBootstrapPerSession(ConsumeRow(d, input).0)
    ensures forall x, session :: Claimed(d, x, session) ==> Claimed(ConsumeRow(d, input).0, x, session)
  {
    var d' := ConsumeRow(d, input).0;
    assert forall x, session :: session != input.session.id ==> (Claimed(d', x, session) <==> Claimed(d, x, session));
    assert forall x :: Claimed(d', x, input.session.id) <==> x == input.bootstrap;
  }

  lemma ConsumeKeepsRow(d: Rows, log: seq<Entry>, input: ClaimInput, x: BootstrapId)
    requires x in d.bootstraps && RowOk(d, log, x) && ConsumeRow(d, input).1
    requires forall e :: e in log ==> e.key.session != input.session.id
    ensures RowOk(ConsumeRow(d, input).0, log, x)
  {
    hide Claimed, SessionFree;
    NoReports(log, input.session.id);
  }

  lemma ConsumeKeeps(d: Rows, log: seq<Entry>, input: ClaimInput)
    requires RowsOk(d, log)
    ensures RowsOk(ConsumeRow(d, input).0, log)
  {
    var (d', consumed) := ConsumeRow(d, input);
    if consumed {
      ConsumeKeepsClaims(d, input);
      hide Claimed, OneBootstrapPerSession, RowOk;
      forall x | x in d'.bootstraps ensures RowOk(d', log, x) { ConsumeKeepsRow(d, log, input, x); }
    }
  }

  lemma ReportExtends(d: Rows, log: seq<Entry>, id: BootstrapId, e: SessionEvent)
    requires id in d.bootstraps && RowOk(d, log, id) && Insertable(d.bootstraps[id], e)
    ensures SessionOk(Advanced(d.bootstraps[id], e), Reports(log, e.session) + [Entry(KeyOf(e), e.digest)])
  {
  }

  lemma ReportKeepsRow(d: Rows, log: seq<Entry>, id: BootstrapId, e: SessionEvent, x: BootstrapId)
    requires RowsOk(d, log) && InsertEvent(d, id, e).1 && x in InsertEvent(d, id, e).0.bootstraps
    ensures RowOk(InsertEvent(d, id, e).0, log + [Entry(KeyOf(e), e.digest)], x)
  {
    assert RowOk(d, log, x);
    if x == id {
      ReportExtends(d, log, id, e);
    }
    if d.bootstraps[x].session.Some? {
      ReportsAppend(log, Entry(KeyOf(e), e.digest), d.bootstraps[x].session.value.id);
      assert Claimed(d, x, d.bootstraps[x].session.value.id) && Claimed(d, id, e.session);
    }
  }

  lemma ReportKeepsSlots(d: Rows, log: seq<Entry>, id: BootstrapId, e: SessionEvent)
    requires SlotsLogged(d, log) && InsertEvent(d, id, e).1
    ensures SlotsLogged(InsertEvent(d, id, e).0, log + [Entry(KeyOf(e), e.digest)])
  {
  }

  lemma ReportKeepsClaims(d: Rows, log: seq<Entry>, id: BootstrapId, e: SessionEvent)
    requires RowsOk(d, log) && InsertEvent(d, id, e).1
    ensures
      var d' := InsertEvent(d, id, e).0;
      && OneBootstrapPerHandle(d') && OneBootstrapPerSession(d')
      && (forall other :: other in log + [Entry(KeyOf(e), e.digest)] ==> exists x :: Claimed(d', x, other.key.session))
  {
    var d' := InsertEvent(d, id, e).0;
    assert forall x, session :: Claimed(d', x, session) <==> Claimed(d, x, session);
    assert Claimed(d', id, e.session);
  }

  lemma ReportKeeps(d: Rows, log: seq<Entry>, id: BootstrapId, e: SessionEvent)
    requires RowsOk(d, log)
    ensures RowsOk(InsertEvent(d, id, e).0, LogOf(d, Reporting(id, e), log))
  {
    var (d', inserted) := InsertEvent(d, id, e);
    if inserted {
      var log' := log + [Entry(KeyOf(e), e.digest)];
      ReportKeepsSlots(d, log, id, e);
      ReportKeepsClaims(d, log, id, e);
      forall x | x in d'.bootstraps ensures RowOk(d', log', x) { ReportKeepsRow(d, log, id, e, x); }
    }
  }

  lemma ExecuteKeeps(d: Rows, log: seq<Entry>, stmt: Statement)
    requires RowsOk(d, log)
    ensures RowsOk(Execute(d, stmt), LogOf(d, stmt, log))
  {
    match stmt
    case Bootstrapping(id, record, running) => BootstrapKeeps(d, log, id, record, running);
    case Consuming(input) => ConsumeKeeps(d, log, input);
    case Reporting(id, e) => ReportKeeps(d, log, id, e);
  }

  /** Once claimed, a bootstrap keeps its session. */
  predicate SessionKept(d: Rows, d': Rows, id: BootstrapId) {
    id in d.bootstraps ==>
      && id in d'.bootstraps
      && (d.bootstraps[id].session.Some? ==> d'.bootstraps[id].session == d.bootstraps[id].session)
  }

  lemma ExecuteKeepsSession(d: Rows, stmt: Statement, id: BootstrapId)
    ensures SessionKept(d, Execute(d, stmt), id)
  {
  }

  function Run(d: Rows, statements: seq<Statement>): Rows
    decreases statements
  {
    if statements == [] then d else Run(Execute(d, statements[0]), statements[1..])
  }

  function RunLog(d: Rows, log: seq<Entry>, statements: seq<Statement>): seq<Entry>
    decreases statements
  {
    if statements == [] then log
    else RunLog(Execute(d, statements[0]), LogOf(d, statements[0], log), statements[1..])
  }

  lemma {:induction false} RunKeeps(d: Rows, log: seq<Entry>, statements: seq<Statement>)
    requires RowsOk(d, log)
    ensures RowsOk(Run(d, statements), RunLog(d, log, statements))
    decreases statements
  {
    if statements != [] {
      ExecuteKeeps(d, log, statements[0]);
      RunKeeps(Execute(d, statements[0]), LogOf(d, statements[0], log), statements[1..]);
    }
  }

  /** Whatever runs afterwards, a claimed bootstrap keeps its session id, token hash and expiry. */
  lemma {:induction false} SessionsAreForever(d: Rows, statements: seq<Statement>, id: BootstrapId)
    ensures SessionKept(d, Run(d, statements), id)
    decreases statements
  {
    if statements != [] {
      ExecuteKeepsSession(d, statements[0], id);
      SessionsAreForever(Execute(d, statements[0]), statements[1..], id);
    }
  }

  const NO_ROWS := Rows(map[], map[])

  /** Under any interleaving of statements each execution handle has at most one bootstrap, hence at most one
      session, and every session speaks the same language as in the in-memory store. */
  lemma OneSessionPerHandle(statements: seq<Statement>, x: BootstrapId, y: BootstrapId)
    ensures
      var d := Run(NO_ROWS, statements);
      var log := RunLog(NO_ROWS, [], statements);
      && (x in d.bootstraps && y in d.bootstraps && SameHandle(d.bootstraps[x], d.bootstraps[y]) ==> x == y)
      && (x in d.bootstraps && d.bootstraps[x].session.Some? ==>
            var p := Reports(log, d.bootstraps[x].session.value.id);
            && Numbered(p) && WellSpoken(p) && |p| == d.bootstraps[x].lastSequence + 1
            && (d.bootstraps[x].revokedAt.Some? <==> Ended(p)))
  {
    RunKeeps(NO_ROWS, [], statements);
    var d := Run(NO_ROWS, statements);
    assert x in d.bootstraps ==> RowOk(d, RunLog(NO_ROWS, [], statements), x);
  }

  // ---------------------------------------------------------------- the store's answers

  /** A bootstrap of the handle has a session: its attempt no longer waits for one. */
  predicate HandleClaimed(d: Rows, handle: Handle) {
    exists id :: id in d.bootstraps && d.bootstraps[id].executionHandle == handle && d.bootstraps[id].session.Some?
  }

  /** `beginBootstrap`; `running` is whether the attempt is read as the caller saw it and marked as running. */
  function BeginRow(d: Rows, id: BootstrapId, record: Bootstrap, running: bool): (Rows, BeginOutcome) {
    if id in d.bootstraps then
      var existing := d.bootstraps[id];
      (d, if existing.requestDigest == record.requestDigest && existing.executionHandle == record.executionHandle
          then BeginDuplicate(existing) else BeginConflict)
    else if !running || HandleClaimed(d, record.executionHandle) then (d, BeginNotFound)
    else
      var (d', inserted) := InsertBootstrap(d, id, record, running);
      (d', if inserted then BeginAccepted else BeginConflict)
  }

  /** `consumeChallenge`. */
  function ClaimRow(d: Rows, input: ClaimInput): (Rows, ClaimOutcome) {
    if input.bootstrap !in d.bootstraps then (d, ClaimNotFound)
    else
      var existing := d.bootstraps[input.bootstrap];
      if existing.executionHandle != input.executionHandle || existing.challengeId != input.challengeId
      then (d, ClaimConflict)
      else if existing.session.Some? then
        (d, if existing.session.value.claimDigest == input.session.claimDigest then ClaimDuplicate(existing)
            else ClaimConflict)
      else if existing.challengeExpiresAt <= input.now then (d, ClaimExpired)
      else
        var (d', consumed) := ConsumeRow(d, input);
        (d', if consumed then ClaimAccepted(d'.bootstraps[input.bootstrap]) else ClaimConflict)
  }

  /** What the attempt query finds for the event's handle: while the attempt is active, and for a replay. */
  datatype Lookup = Lookup(active: bool, replay: bool)

  /** `LostBinding`: the event is stored, but the attempt cannot be read back and the call throws. */
  datatype Answer = Answered(outcome: EventOutcome) | LostBinding

  /** `applySessionEvent` with nothing in between. */
  ghost function Apply(d: Rows, e: SessionEvent, lookup: Lookup): (Rows, Answer) {
    if SlotOf(e) in d.events then
      (d, Answered(if d.events[SlotOf(e)] == Slot(e.kind, e.digest) && lookup.replay then EventDuplicate else EventConflict))
    else if !exists id :: Claimed(d, id, e.session) then (d, Answered(EventRejected))
    else
      var id :| Claimed(d, id, e.session);
      match Classify(d.bootstraps[id], e)
      case Some(refusal) => (d, Answered(refusal))
      case None => (InsertEvent(d, id, e).0, if lookup.active then Answered(EventAccepted) else LostBinding)
  }

  // ---------------------------------------------------------------- accepted reports are replayed

  /** What a number was used for is never changed. */
  predicate SlotsKept(d: Rows, d': Rows) {
    forall k :: k in d.events ==> k in d'.events && d'.events[k] == d.events[k]
  }

  lemma {:induction false} RunKeepsSlots(d: Rows, statements: seq<Statement>)
    ensures SlotsKept(d, Run(d, statements))
    decreases statements
  {
    if statements != [] { RunKeepsSlots(Execute(d, statements[0]), statements[1..]); }
  }

  /** Replaying an accepted report at any later time changes nothing; it is answered "duplicate" if the attempt can be
      read back then, and "conflict" if not. */
  lemma ReplayExactly(d: Rows, id: BootstrapId, first: SessionEvent, statements: seq<Statement>, again: SessionEvent,
                      lookup: Lookup)
    requires InsertEvent(d, id, first).1
    requires KeyOf(again) == KeyOf(first) && again.digest == first.digest
    ensures
      var later := Run(InsertEvent(d, id, first).0, statements);
      Apply(later, again, lookup) == (later, Answered(if lookup.replay then EventDuplicate else EventConflict))
  {
    RunKeepsSlots(InsertEvent(d, id, first).0, statements);
  }

  // ---------------------------------------------------------------- agreement with the in-memory store

  /** Both stores hold the same bootstraps and have accepted the same reports. */
  ghost predicate Related(s: State, d: Rows, log: seq<Entry>) {
    && Inv(s, log) && RowsOk(d, log) && s.bootstraps == d.bootstraps
  }

  lemma InsertableExactly(record: Bootstrap, e: SessionEvent)
    requires record.session.Some? && record.session.value.id == e.session && record.lastSequence >= -1
    requires e.sequence >= 0
    ensures Insertable(record, e) <==> Classify(record, e) == None
  {
  }

  lemma KeysMatch(s: State, d: Rows, log: seq<Entry>, e: SessionEvent)
    requires EventsLogged(s, log) && SlotsLogged(d, log)
    ensures KeyOf(e) in s.events <==> SlotOf(e) in d.events && d.events[SlotOf(e)].kind == e.kind
    ensures KeyOf(e) in s.events ==> s.events[KeyOf(e)] == d.events[SlotOf(e)].digest
  {
    if SlotOf(e) in d.events && d.events[SlotOf(e)].kind == e.kind {
      assert Entry(KeyOf(e), d.events[SlotOf(e)].digest) in log;
    }
  }

  lemma AcceptsAlike(s: State, d: Rows, log: seq<Entry>, e: SessionEvent, id: BootstrapId)
    requires Related(s, d, log) && e.sequence >= 0
    requires Claimed(d, id, e.session) && SlotOf(e) !in d.events
    ensures Find(s, e.session) == Some(id)
    ensures Report(s, e).1 == EventAccepted <==> Classify(d.bootstraps[id], e) == None
    ensures Report(s, e).1 != EventDuplicate
    ensures Classify(d.bootstraps[id], e) == None ==>
      InsertEvent(d, id, e).1 && Report(s, e).0.bootstraps == InsertEvent(d, id, e).0.bootstraps
  {
    assert HasSession(s, id, e.session);
    FindExact(s, e.session, id);
    assert BootstrapOk(s, log, id) && RowOk(d, log, id);
    InsertableExactly(d.bootstraps[id], e);
    KeysMatch(s, d, log, e);
  }

  lemma NumberTaken(b: Bootstrap, p: seq<Entry>, entry: Entry)
    requires SessionOk(b, p) && entry in p
    ensures entry.key.sequence <= b.lastSequence
  {
  }

  /** A number that is taken belongs to the one bootstrap of its session, and lies behind it. */
  lemma SlotBehind(s: State, d: Rows, log: seq<Entry>, e: SessionEvent) returns (id: BootstrapId)
    requires Related(s, d, log) && SlotOf(e) in d.events
    ensures Find(s, e.session) == Some(id) && id in s.bootstraps && s.bootstraps[id].executionHandle in s.attempts
    ensures e.sequence <= s.bootstraps[id].lastSequence
  {
    var slot := d.events[SlotOf(e)];
    var entry := Entry(EventKey(e.session, slot.kind, e.sequence), slot.digest);
    assert entry in log;
    id := Find(s, entry.key.session).value;
    FindExact(s, e.session, id);
    assert BootstrapOk(s, log, id);
    NumberTaken(s.bootstraps[id], Reports(log, e.session), entry);
  }

  lemma BehindIsNotAccepted(s: State, e: SessionEvent, id: BootstrapId)
    requires Find(s, e.session) == Some(id) && id in s.bootstraps && s.bootstraps[id].executionHandle in s.attempts
    requires e.sequence <= s.bootstraps[id].lastSequence
    ensures Report(s, e).1 != EventAccepted
    ensures Report(s, e).1 == EventDuplicate <==> KeyOf(e) in s.events && s.events[KeyOf(e)] == e.digest
  {
  }

  /** The number is already taken: the same report is a duplicate in both stores, any other is refused by both. */
  lemma SlotTakenAlike(s: State, d: Rows, log: seq<Entry>, e: SessionEvent)
    requires Related(s, d, log) && SlotOf(e) in d.events
    ensures Report(s, e).1 != EventAccepted
    ensures Report(s, e).1 == EventDuplicate <==> d.events[SlotOf(e)] == Slot(e.kind, e.digest)
  {
    var id := SlotBehind(s, d, log, e);
    KeysMatch(s, d, log, e);
    hide *;
    BehindIsNotAccepted(s, e, id);
  }

  lemma UnclaimedAlike(s: State, d: Rows, log: seq<Entry>, e: SessionEvent)
    requires Related(s, d, log) && SlotOf(e) !in d.events && !exists id :: Claimed(d, id, e.session)
    ensures Report(s, e).1 == EventRejected
  {
    KeysMatch(s, d, log, e);
    assert forall id :: HasSession(s, id, e.session) ==> Claimed(d, id, e.session);
    if Find(s, e.session).Some? { FindExact(s, e.session, Find(s, e.session).value); }
  }

  lemma AppliesToOne(d: Rows, log: seq<Entry>, e: SessionEvent, id: BootstrapId, lookup: Lookup)
    requires RowsOk(d, log) && SlotOf(e) !in d.events && Claimed(d, id, e.session)
    ensures Apply(d, e, lookup) == match Classify(d.bootstraps[id], e)
                                   case Some(refusal) => (d, Answered(refusal))
                                   case None => (InsertEvent(d, id, e).0,
                                                 if lookup.active then Answered(EventAccepted) else LostBinding)
  {
    assert forall x :: Claimed(d, x, e.session) ==> x == id;
  }

  /** What the caller learns; the reasons for a refusal may differ between the stores. */
  datatype Verdict = Taken | Replayed | Refused | Thrown

  function VerdictOf(outcome: EventOutcome): Verdict {
    match outcome case EventAccepted => Taken case EventDuplicate => Replayed case _ => Refused
  }

  function AnswerVerdict(answer: Answer): Verdict {
    match answer case Answered(outcome) => VerdictOf(outcome) case LostBinding => Thrown
  }

  /** What the SQL store makes of a verdict of the in-memory one, given what its attempt query finds. */
  function Seen(verdict: Verdict, lookup: Lookup): Verdict {
    if verdict == Taken && !lookup.active then Thrown
    else if verdict == Replayed && !lookup.replay then Refused
    else verdict
  }

  /** Whatever the event: both stores store it or neither does, and the SQL store's answer is the in-memory one's but for
      the attempt it cannot read back. */
  lemma StoresAgree(s: State, d: Rows, log: seq<Entry>, e: SessionEvent, lookup: Lookup)
    requires Related(s, d, log) && e.sequence >= 0
    ensures AnswerVerdict(Apply(d, e, lookup).1) == Seen(VerdictOf(Report(s, e).1), lookup)
    ensures Report(s, e).0.bootstraps == Apply(d, e, lookup).0.bootstraps
  {
    hide Related, RowsOk, Inv, Claimed, InsertEvent;
    if SlotOf(e) in d.events {
      SlotTakenAlike(s, d, log, e);
      assert s.bootstraps == d.bootstraps by { RelatedBootstraps(s, d, log); }
    } else if exists id :: Claimed(d, id, e.session) {
      var id :| Claimed(d, id, e.session);
      RelatedBootstraps(s, d, log);
      AppliesToOne(d, log, e, id, lookup);
      AcceptsAlike(s, d, log, e, id);
    } else {
      RelatedBootstraps(s, d, log);
      UnclaimedAlike(s, d, log, e);
    }
  }

  lemma RelatedBootstraps(s: State, d: Rows, log: seq<Entry>)
    requires Related(s, d, log)
    ensures s.bootstraps == d.bootstraps && Inv(s, log) && RowsOk(d, log)
  {
  }

  /** After any event both stores still hold the same bootstraps and the same accepted reports. */
  lemma StoresStayRelated(s: State, d: Rows, log: seq<Entry>, e: SessionEvent, lookup: Lookup)
    requires Related(s, d, log) && e.sequence >= 0
    ensures Related(Report(s, e).0, Apply(d, e, lookup).0, LogAfter(s, ReportOp(e), log))
  {
    StoresAgree(s, d, log, e, lookup);
    ReportKeepsInv(s, log, e);
    if Report(s, e).1 == EventAccepted {
      AcceptedIsInserted(s, d, log, e, lookup);
    }
  }

  lemma AcceptedIsInserted(s: State, d: Rows, log: seq<Entry>, e: SessionEvent, lookup: Lookup)
    requires Related(s, d, log) && e.sequence >= 0 && Report(s, e).1 == EventAccepted
    ensures RowsOk(Apply(d, e, lookup).0, LogAfter(s, ReportOp(e), log))
  {
    StoresAgree(s, d, log, e, lookup);
    if SlotOf(e) in d.events { SlotTakenAlike(s, d, log, e); }
    if !exists id :: Claimed(d, id, e.session) { UnclaimedAlike(s, d, log, e); }
    var id :| Claimed(d, id, e.session);
    AppliesToOne(d, log, e, id, lookup);
    AcceptsAlike(s, d, log, e, id);
    ReportKeeps(d, log, id, e);
  }
}

/** The worker runtime session protocol over the in-memory store: bootstrap, one claim, then numbered events, any
    of which may be replayed. */
module RuntimeStore {
  import opened ControllerTypes

  type SessionId = int
  type BootstrapId = int
  type Digest = int

  datatype EventKind = Ack | Heartbeat | TerminalReport

  datatype AttemptState = PendingBootstrap | RunningWorker | TerminalReported

  datatype Attempt = Attempt(jobId: JobId, attemptId: int, status: AttemptState, cancelRequested: bool)

  datatype Session = Session(id: SessionId, tokenHash: Digest, issuedAt: Time, expiresAt: Time, claimDigest: Digest)

  datatype Bootstrap = Bootstrap(
    requestDigest: Digest, executionHandle: Handle, challengeId: int, challengeExpiresAt: Time,
    session: Option<Session>, lastSequence: int, revokedAt: Option<Time>, terminalDigest: Option<Digest>)

  datatype EventKey = EventKey(session: SessionId, kind: EventKind, sequence: int)

  /** `order` is the order in which the bootstraps were inserted. */
  datatype State = State(
    attempts: map<Handle, Attempt>, bootstraps: map<BootstrapId, Bootstrap>, order: seq<BootstrapId>,
    events: map<EventKey, Digest>)

  datatype ClaimInput = ClaimInput(
    bootstrap: BootstrapId, executionHandle: Handle, challengeId: int, now: Time, session: Session)

  datatype SessionEvent = SessionEvent(
    kind: EventKind, session: SessionId, executionHandle: Handle, sequence: int, digest: Digest,
    tokenHash: Digest, now: Time)

  datatype BeginOutcome = BeginAccepted | BeginDuplicate(record: Bootstrap) | BeginConflict | BeginNotFound

  datatype ClaimOutcome =
    | ClaimAccepted(record: Bootstrap) | ClaimDuplicate(record: Bootstrap) | ClaimConflict | ClaimExpired | ClaimNotFound

  datatype EventOutcome =
    | EventAccepted | EventDuplicate | EventConflict | EventExpired | EventRejected | EventStale

  // ---------------------------------------------------------------- specification

  function Begin(s: State, id: BootstrapId, record: Bootstrap, jobId: JobId, attemptId: int): (State, BeginOutcome) {
    if id in s.bootstraps then
      var existing := s.bootstraps[id];
      (s, if existing.requestDigest == record.requestDigest && existing.executionHandle == record.executionHandle
          then BeginDuplicate(existing) else BeginConflict)
    else if record.executionHandle !in s.attempts then (s, BeginNotFound)
    else
      var attempt := s.attempts[record.executionHandle];
      if attempt.status != PendingBootstrap || attempt.jobId != jobId || attempt.attemptId != attemptId
      then (s, BeginNotFound)
      else (s.(bootstraps := s.bootstraps[id := record], order := s.order + [id]), BeginAccepted)
  }

  function Consume(s: State, input: ClaimInput): (State, ClaimOutcome) {
    if input.bootstrap !in s.bootstraps then (s, ClaimNotFound)
    else
      var record := s.bootstraps[input.bootstrap];
      if record.executionHandle != input.executionHandle || record.challengeId != input.challengeId
      then (s, ClaimConflict)
      else if record.session.Some? then
        (s, if record.session.value.claimDigest == input.session.claimDigest then ClaimDuplicate(record)
            else ClaimConflict)
      else if record.challengeExpiresAt <= input.now then (s, ClaimExpired)
      else
        var claimed := record.(session := Some(input.session));
        var attempts :=
          if record.executionHandle in s.attempts
          then s.attempts[record.executionHandle := s.attempts[record.executionHandle].(status := RunningWorker)]
          else s.attempts;
        (s.(bootstraps := s.bootstraps[input.bootstrap := claimed], attempts := attempts), ClaimAccepted(claimed))
  }

  predicate HasSession(s: State, id: BootstrapId, session: SessionId) {
    id in s.bootstraps && s.bootstraps[id].session.Some? && s.bootstraps[id].session.value.id == session
  }

  /** The first inserted bootstrap of the session, searching from position `from` on. */
  function FindFrom(s: State, session: SessionId, from: nat): (found: Option<BootstrapId>)
    requires from <= |s.order|
    decreases |s.order| - from
  {
    if from == |s.order| then None
    else if HasSession(s, s.order[from], session) then Some(s.order[from])
    else FindFrom(s, session, from + 1)
  }

  function Find(s: State, session: SessionId): Option<BootstrapId> {
    FindFrom(s, session, 0)
  }

  /** The order in which a session may report: an ack opens it, heartbeats follow, a terminal report ends it. */
  predicate InTurn(record: Bootstrap, kind: EventKind, sequence: int) {
    && sequence == record.lastSequence + 1
    && !(record.lastSequence == -1 && kind == Heartbeat)
    && !(record.lastSequence >= 0 && kind == Ack)
    && !(kind == Ack && sequence != 0)
  }

  function Classify(record: Bootstrap, e: SessionEvent): Option<EventOutcome> {
    if record.executionHandle != e.executionHandle then Some(EventRejected)
    else if record.session == None || record.session.value.tokenHash != e.tokenHash then Some(EventRejected)
    else if record.session.value.expiresAt <= e.now || record.revokedAt.Some? then Some(EventExpired)
    else if !InTurn(record, e.kind, e.sequence) then Some(EventStale)
    else None
  }

  function Advanced(record: Bootstrap, e: SessionEvent): Bootstrap {
    if e.kind == TerminalReport
    then record.(lastSequence := e.sequence, revokedAt := Some(e.now), terminalDigest := Some(e.digest))
    else record.(lastSequence := e.sequence)
  }

  function KeyOf(e: SessionEvent): EventKey {
    EventKey(e.session, e.kind, e.sequence)
  }

  function Report(s: State, e: SessionEvent): (State, EventOutcome) {
    var found := Find(s, e.session);
    if KeyOf(e) in s.events then
      (s, if s.events[KeyOf(e)] == e.digest && found.Some? && found.value in s.bootstraps
             && s.bootstraps[found.value].executionHandle in s.attempts
          then EventDuplicate else EventConflict)
    else if found == None || found.value !in s.bootstraps then (s, EventRejected)
    else
      var record := s.bootstraps[found.value];
      match Classify(record, e)
      case Some(refusal) => (s, refusal)
      case None =>
        if record.executionHandle !in s.attempts then (s, EventRejected)
        else
          var attempt := s.attempts[record.executionHandle];
          (State(
             s.attempts[record.executionHandle :=
               if e.kind == TerminalReport then attempt.(status := TerminalReported) else attempt],
             s.bootstraps[found.value := Advanced(record, e)],
             s.order,
             s.events[KeyOf(e) := e.digest]),
           EventAccepted)
  }

  // ---------------------------------------------------------------- the store

  class InMemoryCloudRunRuntimeStore {
    var attempts: map<Handle, Attempt>
    var bootstraps: map<BootstrapId, Bootstrap>
    var order: seq<BootstrapId>
    var events: map<EventKey, Digest>

    constructor (attempts: map<Handle, Attempt>)
      ensures Value() == State(attempts, map[], [], map[])
    {
      this.attempts := attempts;
      bootstraps := map[];
      order := [];
      events := map[];
    }

    function Value(): State
      reads this
    {
      State(attempts, bootstraps, order, events)
    }

    method BeginBootstrap(id: BootstrapId, record: Bootstrap, jobId: JobId, attemptId: int)
      returns (outcome: BeginOutcome)
      modifies this`bootstraps, this`order
      ensures (Value(), outcome) == Begin(old(Value()), id, record, jobId, attemptId)
    {
      if id in bootstraps {
        var existing := bootstraps[id];
        if existing.requestDigest == record.requestDigest && existing.executionHandle == record.executionHandle {
          return BeginDuplicate(existing);
        }
        return BeginConflict;
      }
      if record.executionHandle !in attempts { return BeginNotFound; }
      var attempt := attempts[record.executionHandle];
      if attempt.status != PendingBootstrap || attempt.jobId != jobId || attempt.attemptId != attemptId {
        return BeginNotFound;
      }
      bootstraps := bootstraps[id := record];
      order := order + [id];
      return BeginAccepted;
    }

    method ConsumeChallenge(input: ClaimInput) returns (outcome: ClaimOutcome)
      modifies this`bootstraps, this`attempts
      ensures (Value(), outcome) == Consume(old(Value()), input)
    {
      if input.bootstrap !in bootstraps { return ClaimNotFound; }
      var record := bootstraps[input.bootstrap];
      if record.executionHandle != input.executionHandle || record.challengeId != input.challengeId {
        return ClaimConflict;
      }
      if record.session.Some? {
        if record.session.value.claimDigest == input.session.claimDigest { return ClaimDuplicate(record); }
        return ClaimConflict;
      }
      if record.challengeExpiresAt <= input.now { return ClaimExpired; }
      var claimed := record.(session := Some(input.session));
      bootstraps := bootstraps[input.bootstrap := claimed];
      if record.executionHandle in attempts {
        attempts := attempts[record.executionHandle := attempts[record.executionHandle].(status := RunningWorker)];
      }
      return ClaimAccepted(claimed);
    }

    method FindBootstrap(session: SessionId) returns (found: Option<BootstrapId>)
      ensures found == Find(Value(), session)
    {
      var i := 0;
      while i < |order|
        invariant 0 <= i <= |order|
        invariant FindFrom(Value(), session, i) == Find(Value(), session)
      {
        var id := order[i];
        if id in bootstraps && bootstraps[id].session.Some? && bootstraps[id].session.value.id == session {
          return Some(id);
        }
        i := i + 1;
      }
      return None;
    }

    method ApplySessionEvent(e: SessionEvent) returns (outcome: EventOutcome)
      modifies this
      ensures (Value(), outcome) == Report(old(Value()), e)
    {
      var key := EventKey(e.session, e.kind, e.sequence);
      var found := FindBootstrap(e.session);
      if key in events {
        if events[key] == e.digest && found.Some? && found.value in bootstraps
           && bootstraps[found.value].executionHandle in attempts {
          return EventDuplicate;
        }
        return EventConflict;
      }
      if found == None || found.value !in bootstraps { return EventRejected; }
      var record := bootstraps[found.value];
      if record.executionHandle != e.executionHandle { return EventRejected; }
      if record.session == None || record.session.value.tokenHash != e.tokenHash { return EventRejected; }
      if record.session.value.expiresAt <= e.now || record.revokedAt.Some? { return EventExpired; }
      if e.sequence != record.lastSequence + 1 { return EventStale; }
      if
        || (record.lastSequence == -1 && e.kind == Heartbeat)
        || (record.lastSequence >= 0 && e.kind == Ack)
        || (e.kind == Ack && e.sequence != 0)
      {
        return EventStale;
      }
      if record.executionHandle !in attempts { return EventRejected; }
      var attempt := attempts[record.executionHandle];
      bootstraps := bootstraps[found.value := Advanced(record, e)];
      events := events[key := e.digest];
      if e.kind == TerminalReport { attempt := attempt.(status := TerminalReported); }
      attempts := attempts[record.executionHandle := attempt];
      return EventAccepted;
    }
  }
}

/** The durable control store: one environment document with cached counters and a pruned list of
    acceptance times, plus one document per execution and per request.  A transaction is one atomic
    step on the database value. */
module FirestoreStore {
  import opened ControllerTypes
  import opened Sets

  const MAX_RECENT_REQUESTS := 120

  datatype EnvironmentDocument = EnvironmentDocument(
    authorization: Authorization,
    activeExecutionHandle: Option<Handle>,
    activeExecutions: int,
    recentAcceptedAt: seq<Time>,
    reservedExecutions: int,
    reservedWorstCaseJpy: int,
    updatedAt: Time)

  datatype Database = Database(
    environment: EnvironmentDocument,
    executions: map<Handle, ControlRecord>,
    requests: map<RequestId, RememberedRequest>)

  // ---------------------------------------------------------------- document schemas

  predicate AuthorizationSchema(a: Authorization) {
    && 0 <= a.maxExecutions <= 100
    && 0 <= a.maxWorstCaseJpy <= 10_000_000
    && 0 <= a.maxRequestsPerMinute <= MAX_RECENT_REQUESTS
    && 0 <= a.worstCaseJpyPerExecution <= 10_000_000
  }

  predicate RecordSchema(r: ControlRecord) {
    && 0 <= r.createAttempts <= 2
    && 0 < r.reservedWorstCaseJpy <= 10_000_000
    && 0 < r.version
  }

  predicate EnvironmentSchema(d: EnvironmentDocument) {
    && AuthorizationSchema(d.authorization)
    && 0 <= d.activeExecutions <= 1
    && |d.recentAcceptedAt| <= MAX_RECENT_REQUESTS
    && 0 <= d.reservedExecutions <= 100
    && 0 <= d.reservedWorstCaseJpy <= 10_000_000
    && (d.activeExecutions == 0 <==> d.activeExecutionHandle == None)
    && d.activeExecutions <= d.reservedExecutions <= d.authorization.maxExecutions
    && d.reservedWorstCaseJpy == d.reservedExecutions * d.authorization.worstCaseJpyPerExecution
    && d.reservedWorstCaseJpy <= d.authorization.maxWorstCaseJpy
  }

  predicate AdmitInputSchema(i: AdmitCreateInput) {
    && i.request.action == Create
    && i.now < i.provisioningDeadline < i.recordExpiresAt
  }

  predicate ClaimInputSchema(i: ClaimRequestInput) {
    && i.request.action != Create
    && 0 <= i.expectedVersion
  }

  /** `parseRecordDocument`: the stored record must be well formed and bound to its path. */
  predicate RecordParses(r: ControlRecord, handle: Handle) {
    RecordSchema(r) && r.executionHandle == handle
  }

  // ---------------------------------------------------------------- transactions

  /** The acceptance times later than `windowStart`, in their stored order. */
  function PruneRecent(recent: seq<Time>, windowStart: Time): (kept: seq<Time>)
    ensures |kept| <= |recent|
  {
    if recent == [] then []
    else
      var rest := PruneRecent(recent[..|recent| - 1], windowStart);
      var last := recent[|recent| - 1];
      if last > windowStart then rest + [last] else rest
  }

  /** Would accepting one more create at `now` exceed what the environment document still allows? */
  predicate OverBudget(d: EnvironmentDocument, now: Time) {
    || d.authorization.validUntil < now
    || d.activeExecutions != 0
    || d.activeExecutionHandle != None
    || d.reservedExecutions >= d.authorization.maxExecutions
    || d.authorization.worstCaseJpyPerExecution <= 0
    || d.reservedWorstCaseJpy + d.authorization.worstCaseJpyPerExecution > d.authorization.maxWorstCaseJpy
  }

  predicate OverRate(d: EnvironmentDocument, recent: seq<Time>) {
    d.authorization.maxRequestsPerMinute <= 0 || |recent| >= d.authorization.maxRequestsPerMinute
  }

  function Admit(auth: Authorization, db: Database, input: AdmitCreateInput): (Database, StoreOutcome) {
    var request := input.request;
    if !AdmitInputSchema(input) then (db, Throws)
    else if request.environment != auth.environment then (db, EnvironmentMismatch)
    else if !EnvironmentSchema(db.environment) then (db, Throws)
    else if db.environment.authorization != auth then (db, EnvironmentMismatch)
    else if request.requestId in db.requests then
      if db.requests[request.requestId].request == request && request.executionHandle in db.executions then
        var record := db.executions[request.executionHandle];
        if RecordParses(record, request.executionHandle) && record.bootstrapRequestId == request.requestId
        then (db, Duplicate(record))
        else (db, Throws)
      else (db, Conflict)
    else if request.executionHandle in db.executions then (db, Conflict)
    else
      var recent := PruneRecent(db.environment.recentAcceptedAt, input.now - RATE_WINDOW_MS);
      if OverBudget(db.environment, input.now) then (db, BudgetExhausted)
      else if OverRate(db.environment, recent) then (db, RateLimited)
      else
        var jpy := db.environment.authorization.worstCaseJpyPerExecution;
        var record := NewRecord(input, jpy);
        var environment := db.environment.(
          activeExecutionHandle := Some(request.executionHandle),
          activeExecutions := 1,
          recentAcceptedAt := recent + [input.now],
          reservedExecutions := db.environment.reservedExecutions + 1,
          reservedWorstCaseJpy := db.environment.reservedWorstCaseJpy + jpy,
          updatedAt := input.now);
        if !RecordSchema(record) || !EnvironmentSchema(environment) then (db, Throws)
        else
          (Database(
             environment,
             db.executions[request.executionHandle := record],
             db.requests[request.requestId := RememberedRequest(request, input.now)]),
           Accepted(record))
  }

  /** A request document must outlive its acceptance, so accepting at or after the record's own expiry
      fails its schema and aborts the transaction. */
  function Claim(auth: Authorization, db: Database, input: ClaimRequestInput): (Database, StoreOutcome) {
    var request := input.request;
    if !ClaimInputSchema(input) then (db, Throws)
    else if request.environment != auth.environment then (db, EnvironmentMismatch)
    else if !EnvironmentSchema(db.environment) then (db, Throws)
    else if db.environment.authorization != auth then (db, EnvironmentMismatch)
    else if request.requestId in db.requests then
      if db.requests[request.requestId].request == request && request.executionHandle in db.executions then
        var record := db.executions[request.executionHandle];
        if RecordParses(record, request.executionHandle) then (db, Duplicate(record)) else (db, Throws)
      else (db, Conflict)
    else if request.executionHandle !in db.executions then (db, NotFound)
    else
      var record := db.executions[request.executionHandle];
      if !RecordParses(record, request.executionHandle) then (db, Throws)
      else if record.environment != request.environment then (db, EnvironmentMismatch)
      else if record.version != input.expectedVersion then (db, Stale(record))
      else
        var recent := PruneRecent(db.environment.recentAcceptedAt, input.now - RATE_WINDOW_MS);
        var environment := db.environment.(recentAcceptedAt := recent + [input.now], updatedAt := input.now);
        if OverRate(db.environment, recent) then (db, RateLimited)
        else if record.expiresAt <= input.now || !EnvironmentSchema(environment) then (db, Throws)
        else
          (db.(environment := environment,
               requests := db.requests[request.requestId := RememberedRequest(request, input.now)]),
           Accepted(record))
  }

  /** The checks Firestore adds to the in-memory compare-and-set. */
  predicate DurableCasGuard(current: ControlRecord, next: ControlRecord) {
    && next.expiresAt == current.expiresAt
    && current.updatedAt <= next.updatedAt
    && current.state != CLEANED
  }

  function CompareAndSet(auth: Authorization, db: Database, expectedVersion: int, next: ControlRecord)
    : (Database, CasOutcome)
  {
    if !RecordSchema(next) then (db, CasThrows)
    else if next.environment != auth.environment then (db, Lost)
    else if !EnvironmentSchema(db.environment) then (db, CasThrows)
    else if db.environment.authorization != auth || next.executionHandle !in db.executions then (db, Lost)
    else
      var current := db.executions[next.executionHandle];
      if !RecordParses(current, next.executionHandle) then (db, CasThrows)
      else if
        || current.version != expectedVersion
        || next.version != expectedVersion + 1
        || !SameIdentity(current, next)
        || !DurableCasGuard(current, next)
        || db.environment.activeExecutions != 1
        || db.environment.activeExecutionHandle != Some(current.executionHandle)
      then (db, Lost)
      else
        var executions := db.executions[next.executionHandle := next];
        if next.state == CLEANED then
          var environment := db.environment.(
            activeExecutionHandle := None, activeExecutions := 0, updatedAt := next.updatedAt);
          if EnvironmentSchema(environment)
          then (db.(environment := environment, executions := executions), Applied)
          else (db, CasThrows)
        else (db.(executions := executions), Applied)
  }

  datatype Listing = Listed(records: seq<ControlRecord>) | ListThrows

  function ListUnclean(auth: Authorization, db: Database, environment: Environment): Listing {
    if environment != auth.environment then Listed([])
    else if !EnvironmentSchema(db.environment) || db.environment.authorization != auth then ListThrows
    else match db.environment.activeExecutionHandle
      case None => if db.environment.activeExecutions != 0 then ListThrows else Listed([])
      case Some(handle) =>
        if db.environment.activeExecutions != 1 || handle !in db.executions then ListThrows
        else
          var record := db.executions[handle];
          if !RecordParses(record, handle) || record.environment != environment || record.state == CLEANED
          then ListThrows
          else Listed([record])
  }

  // ---------------------------------------------------------------- runs

  datatype Op =
    | AdmitOp(admit: AdmitCreateInput)
    | ClaimOp(claim: ClaimRequestInput)
    | CasOp(expectedVersion: int, next: ControlRecord)

  datatype Result = StoreResult(outcome: StoreOutcome) | CasResult(cas: CasOutcome)

  function Apply(auth: Authorization, db: Database, op: Op): (Database, Result) {
    match op
    case AdmitOp(input) => var (db', outcome) := Admit(auth, db, input); (db', StoreResult(outcome))
    case ClaimOp(input) => var (db', outcome) := Claim(auth, db, input); (db', StoreResult(outcome))
    case CasOp(version, next) =>
      var (db', outcome) := CompareAndSet(auth, db, version, next); (db', CasResult(outcome))
  }

  function Initial(auth: Authorization, now: Time): Database {
    Database(EnvironmentDocument(auth, None, 0, [], 0, 0, now), map[], map[])
  }

  function Run(auth: Authorization, db: Database, ops: seq<Op>): Database {
    if ops == [] then db
    else Apply(auth, Run(auth, db, ops[..|ops| - 1]), ops[|ops| - 1]).0
  }

  // ---------------------------------------------------------------- the cached aggregates

  function Active(executions: map<Handle, ControlRecord>): set<Handle> {
    set h | h in executions && executions[h].state != CLEANED
  }

  ghost function ReservedJpy(executions: map<Handle, ControlRecord>, handles: set<Handle>): int
    requires handles <= executions.Keys
  {
    if handles == {} then 0
    else
      var h := Pick(handles);
      executions[h].reservedWorstCaseJpy + ReservedJpy(executions, handles - {h})
  }

  lemma {:induction false} UniformReservation(executions: map<Handle, ControlRecord>, handles: set<Handle>, jpy: int)
    requires handles <= executions.Keys
    requires forall h :: h in handles ==> executions[h].reservedWorstCaseJpy == jpy
    ensures ReservedJpy(executions, handles) == |handles| * jpy
  {
    if handles != {} {
      var h := Pick(handles);
      UniformReservation(executions, handles - {h}, jpy);
      assert |handles| == |handles - {h}| + 1;
    }
  }

  /** Every stored record is well formed, every remembered request names a stored record, and the
      environment document caches exactly what could be recomputed from the records. */
  ghost predicate Inv(auth: Authorization, db: Database) {
    && AuthorizationSchema(auth)
    && db.environment.authorization == auth
    && EnvironmentSchema(db.environment)
    && (forall h :: h in db.executions ==>
          && RecordParses(db.executions[h], h)
          && db.executions[h].environment == auth.environment
          && db.executions[h].reservedWorstCaseJpy == auth.worstCaseJpyPerExecution)
    && (forall id :: id in db.requests ==>
          var request := db.requests[id].request;
          && request.requestId == id
          && request.environment == auth.environment
          && request.executionHandle in db.executions
          && (request.action == Create ==>
                db.executions[request.executionHandle].bootstrapRequestId == id))
    && db.environment.reservedExecutions == |db.executions|
    && ActiveCached(db)
  }

  ghost predicate ActiveCached(db: Database) {
    match db.environment.activeExecutionHandle
    case None => Active(db.executions) == {}
    case Some(h) => Active(db.executions) == {h}
  }

  lemma InitialInv(auth: Authorization, now: Time)
    requires AuthorizationSchema(auth)
    ensures Inv(auth, Initial(auth, now))
  {
  }

  lemma NextReservation(n: int, jpy: int)
    ensures (n + 1) * jpy == n * jpy + jpy
  {
  }

  lemma AdmitKeepsInv(auth: Authorization, db: Database, input: AdmitCreateInput)
    requires Inv(auth, db)
    ensures Inv(auth, Admit(auth, db, input).0)
    ensures Admit(auth, db, input).1 == Throws <==> !AdmitInputSchema(input)
  {
    var (db', outcome) := Admit(auth, db, input);
    NextReservation(db.environment.reservedExecutions, auth.worstCaseJpyPerExecution);
    if outcome.Accepted? {
      assert Active(db'.executions) == {input.request.executionHandle};
    }
  }

  /** Which claims the transaction aborts: those it would accept for a record already expired. */
  predicate ClaimAborts(db: Database, input: ClaimRequestInput)
  {
    && input.request.requestId !in db.requests
    && input.request.executionHandle in db.executions
    && db.executions[input.request.executionHandle].version == input.expectedVersion
    && !OverRate(db.environment, PruneRecent(db.environment.recentAcceptedAt, input.now - RATE_WINDOW_MS))
    && db.executions[input.request.executionHandle].expiresAt <= input.now
  }

  lemma ClaimKeepsInv(auth: Authorization, db: Database, input: ClaimRequestInput)
    requires Inv(auth, db)
    ensures Inv(auth, Claim(auth, db, input).0)
    ensures Claim(auth, db, input).1 == Throws <==>
      !ClaimInputSchema(input) || (input.request.environment == auth.environment && ClaimAborts(db, input))
  {
    var (db', outcome) := Claim(auth, db, input);
    assert outcome.Accepted? ==> Active(db'.executions) == Active(db.executions);
  }

  lemma CasKeepsInv(auth: Authorization, db: Database, expectedVersion: int, next: ControlRecord)
    requires Inv(auth, db)
    ensures Inv(auth, CompareAndSet(auth, db, expectedVersion, next).0)
    ensures CompareAndSet(auth, db, expectedVersion, next).1 == CasThrows <==> !RecordSchema(next)
    ensures CompareAndSet(auth, db, expectedVersion, next).1 == Applied <==>
      && RecordSchema(next) && next.executionHandle in db.executions
      && var current := db.executions[next.executionHandle];
         && current.version == expectedVersion && next.version == expectedVersion + 1
         && SameIdentity(current, next) && DurableCasGuard(current, next)
  {
    var (db', outcome) := CompareAndSet(auth, db, expectedVersion, next);
    if next.executionHandle in db.executions && db.executions[next.executionHandle].state != CLEANED {
      assert next.executionHandle in Active(db.executions);
    }
    if outcome == Applied {
      var h := next.executionHandle;
      assert h in Active(db.executions);
      assert forall k :: k in Active(db'.executions) && k != h ==> k in Active(db.executions);
      assert h in Active(db'.executions) <==> next.state != CLEANED;
      assert db'.executions.Keys == db.executions.Keys;
    }
  }

  lemma ApplyKeepsInv(auth: Authorization, db: Database, op: Op)
    requires Inv(auth, db)
    ensures Inv(auth, Apply(auth, db, op).0)
  {
    match op
    case AdmitOp(input) => AdmitKeepsInv(auth, db, input);
    case ClaimOp(input) => ClaimKeepsInv(auth, db, input);
    case CasOp(version, next) => CasKeepsInv(auth, db, version, next);
  }

  lemma {:induction false} RunKeepsInv(auth: Authorization, db: Database, ops: seq<Op>)
    requires Inv(auth, db)
    ensures Inv(auth, Run(auth, db, ops))
  {
    if ops != [] {
      RunKeepsInv(auth, db, ops[..|ops| - 1]);
      ApplyKeepsInv(auth, Run(auth, db, ops[..|ops| - 1]), ops[|ops| - 1]);
    }
  }

  /** In every reachable state the cached counters equal the recomputed ones, at most one record is not
      CLEANED, and both the number of executions and their worst-case cost stay authorized. */
  lemma CachedAggregatesExact(auth: Authorization, now: Time, ops: seq<Op>)
    requires AuthorizationSchema(auth)
    ensures
      var db := Run(auth, Initial(auth, now), ops);
      && db.environment.activeExecutions == |Active(db.executions)| <= 1
      && (forall h :: db.environment.activeExecutionHandle == Some(h) <==> h in Active(db.executions))
      && db.environment.reservedExecutions == |db.executions| <= auth.maxExecutions
      && db.environment.reservedWorstCaseJpy == ReservedJpy(db.executions, db.executions.Keys)
      && ReservedJpy(db.executions, db.executions.Keys) <= auth.maxWorstCaseJpy
      && |db.environment.recentAcceptedAt| <= MAX_RECENT_REQUESTS
  {
    InitialInv(auth, now);
    RunKeepsInv(auth, Initial(auth, now), ops);
    var db := Run(auth, Initial(auth, now), ops);
    UniformReservation(db.executions, db.executions.Keys, auth.worstCaseJpyPerExecution);
    assert |db.executions.Keys| == |db.executions|;
  }

  /** Of the operations on a reachable state exactly these abort: a malformed input, and a claim that would
      be accepted although the record has expired. No write ever breaks the environment document. */
  lemma AbortsExactly(auth: Authorization, now: Time, ops: seq<Op>, op: Op)
    requires AuthorizationSchema(auth)
    ensures
      var db := Run(auth, Initial(auth, now), ops);
      var result := Apply(auth, db, op).1;
      match op
      case AdmitOp(input) => result == StoreResult(Throws) <==> !AdmitInputSchema(input)
      case ClaimOp(input) => result == StoreResult(Throws) <==>
        !ClaimInputSchema(input) || (input.request.environment == auth.environment && ClaimAborts(db, input))
      case CasOp(_, next) => result == CasResult(CasThrows) <==> !RecordSchema(next)
  {
    InitialInv(auth, now);
    RunKeepsInv(auth, Initial(auth, now), ops);
    var db := Run(auth, Initial(auth, now), ops);
    match op
    case AdmitOp(input) => AdmitKeepsInv(auth, db, input);
    case ClaimOp(input) => ClaimKeepsInv(auth, db, input);
    case CasOp(version, next) => CasKeepsInv(auth, db, version, next);
  }

  /** A create for the handle was accepted under the store's environment. */
  predicate Admitted(db: Database, handle: Handle) {
    exists id :: id in db.requests && db.requests[id].request.action == Create
                 && db.requests[id].request.executionHandle == handle
  }

  predicate AllAdmitted(db: Database) {
    forall h :: h in db.executions ==>
      && db.executions[h].bootstrapRequestId in db.requests
      && db.requests[db.executions[h].bootstrapRequestId].request.action == Create
      && db.requests[db.executions[h].bootstrapRequestId].request.executionHandle == h
  }

  /** A handle has a record exactly when a create for it was accepted. */
  lemma RecordsAreAdmitted(auth: Authorization, db: Database, handle: Handle)
    requires Inv(auth, db) && AllAdmitted(db)
    ensures handle in db.executions <==> Admitted(db, handle)
  {
  }

  lemma ApplyGrows(auth: Authorization, db: Database, op: Op)
    ensures
      var db' := Apply(auth, db, op).0;
      && db.executions.Keys <= db'.executions.Keys
      && (forall id :: id in db.requests ==> id in db'.requests && db'.requests[id] == db.requests[id])
      && (forall h :: h in db.executions && db.executions[h].state == CLEANED ==>
            db'.executions[h] == db.executions[h])
  {
  }

  /** CLEANED is absorbing, and what a request id was accepted for is never forgotten or changed. */
  lemma {:induction false} CleanedIsAbsorbing(auth: Authorization, db: Database, ops: seq<Op>)
    ensures
      var db' := Run(auth, db, ops);
      && db.executions.Keys <= db'.executions.Keys
      && (forall id :: id in db.requests ==> id in db'.requests && db'.requests[id] == db.requests[id])
      && (forall h :: h in db.executions && db.executions[h].state == CLEANED ==>
            db'.executions[h] == db.executions[h])
  {
    if ops != [] {
      CleanedIsAbsorbing(auth, db, ops[..|ops| - 1]);
      ApplyGrows(auth, Run(auth, db, ops[..|ops| - 1]), ops[|ops| - 1]);
    }
  }

  /** Replaying a signed create at any later time answers "duplicate" and changes nothing. */
  lemma CreateReplaysSafely(auth: Authorization, db: Database, first: AdmitCreateInput, ops: seq<Op>, again: AdmitCreateInput)
    requires Inv(auth, db)
    requires Admit(auth, db, first).1.Accepted?
    requires again.request == first.request && AdmitInputSchema(again)
    ensures
      var later := Run(auth, Admit(auth, db, first).0, ops);
      && first.request.executionHandle in later.executions
      && Admit(auth, later, again) == (later, Duplicate(later.executions[first.request.executionHandle]))
  {
    var db1 := Admit(auth, db, first).0;
    AdmitKeepsInv(auth, db, first);
    RunKeepsInv(auth, db1, ops);
    CleanedIsAbsorbing(auth, db1, ops);
    assert first.request.requestId in db1.requests;
  }
}

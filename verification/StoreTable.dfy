/** When each transaction of the durable store answers what, told by the records and requests themselves rather than by the counters it
    caches, with every bound and code written out. */
module StoreTable {
  import opened ControllerTypes
  import opened FirestoreStore

  /** What a document must satisfy to be read or written at all. */
  lemma SchemaBounds(a: Authorization, r: ControlRecord, d: EnvironmentDocument)
    ensures AuthorizationSchema(a) <==>
      && 0 <= a.maxExecutions <= 100 && 0 <= a.maxWorstCaseJpy <= 10_000_000
      && 0 <= a.maxRequestsPerMinute <= 120 && 0 <= a.worstCaseJpyPerExecution <= 10_000_000
    ensures RecordSchema(r) <==> 0 <= r.createAttempts <= 2 && 0 < r.reservedWorstCaseJpy <= 10_000_000 && 0 < r.version
    ensures EnvironmentSchema(d) <==>
      && AuthorizationSchema(d.authorization)
      && 0 <= d.activeExecutions <= 1 && (d.activeExecutions == 0 <==> d.activeExecutionHandle == None)
      && |d.recentAcceptedAt| <= 120 && 0 <= d.reservedExecutions <= 100 && 0 <= d.reservedWorstCaseJpy <= 10_000_000
      && d.activeExecutions <= d.reservedExecutions <= d.authorization.maxExecutions
      && d.reservedWorstCaseJpy == d.reservedExecutions * d.authorization.worstCaseJpyPerExecution
      && d.reservedWorstCaseJpy <= d.authorization.maxWorstCaseJpy
  {
  }

  // ---------------------------------------------------------------- the acceptance times of the last minute

  /** The positions of the times later than this. */
  function Later(times: seq<Time>, start: Time): set<int> {
    set k | 0 <= k < |times| && times[k] > start
  }

  lemma {:induction false} PrunedCounts(times: seq<Time>, start: Time)
    ensures |PruneRecent(times, start)| == |Later(times, start)|
  {
    if times == [] {
      assert Later(times, start) == {};
    } else {
      var last := |times| - 1;
      PrunedCounts(times[..last], start);
      assert Later(times, start) ==
        if times[last] > start then Later(times[..last], start) + {last} else Later(times[..last], start);
    }
  }

  /** So many requests have been accepted in the last minute that no further one may be. */
  predicate TooMany(auth: Authorization, db: Database, now: Time) {
    auth.maxRequestsPerMinute <= 0 || |Later(db.environment.recentAcceptedAt, now - 60_000)| >= auth.maxRequestsPerMinute
  }

  /** The authorization has ended or is used up, or an execution is still there. */
  ghost predicate NoBudget(auth: Authorization, db: Database, now: Time) {
    || auth.validUntil < now
    || (exists h :: h in db.executions && db.executions[h].state != CLEANED)
    || |db.executions| >= auth.maxExecutions
    || auth.worstCaseJpyPerExecution <= 0
    || (|db.executions| + 1) * auth.worstCaseJpyPerExecution > auth.maxWorstCaseJpy
  }

  lemma BudgetRecomputed(auth: Authorization, db: Database, now: Time)
    requires Inv(auth, db)
    ensures OverBudget(db.environment, now) <==> NoBudget(auth, db, now)
  {
    var n, jpy := |db.executions|, auth.worstCaseJpyPerExecution;
    NextReservation(n, jpy);
    assert (exists h :: h in db.executions && db.executions[h].state != CLEANED) <==> Active(db.executions) != {} by {
      if h :| h in db.executions && db.executions[h].state != CLEANED { assert h in Active(db.executions); }
      if Active(db.executions) != {} { var h :| h in Active(db.executions); }
    }
  }

  lemma RateRecomputed(auth: Authorization, db: Database, now: Time)
    requires db.environment.authorization == auth
    ensures OverRate(db.environment, PruneRecent(db.environment.recentAcceptedAt, now - RATE_WINDOW_MS)) <==> TooMany(auth, db, now)
  {
    PrunedCounts(db.environment.recentAcceptedAt, now - 60_000);
  }

  // ---------------------------------------------------------------- admission

  predicate WellFormedCreate(input: AdmitCreateInput) {
    input.request.action == Create && input.now < input.provisioningDeadline < input.recordExpiresAt
  }

  /** Nothing is known yet of the request or of its handle. */
  predicate Unheard(db: Database, request: Request) {
    request.requestId !in db.requests && request.executionHandle !in db.executions
  }

  predicate Replayed(db: Database, request: Request) {
    request.requestId in db.requests && db.requests[request.requestId].request == request
  }

  /** The record of a create accepted now. */
  function Fresh(auth: Authorization, input: AdmitCreateInput): ControlRecord {
    ControlRecord(
      input.request.requestId, input.request.environment, input.request.executionHandle, input.jobId, CREATE_INTENT, 1, 0,
      false, false, false, None, None, None, None, auth.worstCaseJpyPerExecution, input.now, input.now,
      input.provisioningDeadline, input.recordExpiresAt)
  }

  lemma AdmitKnown(auth: Authorization, db: Database, input: AdmitCreateInput)
    requires Inv(auth, db) && WellFormedCreate(input) && input.request.environment == auth.environment
    requires !Unheard(db, input.request)
    ensures
      var outcome, handle := Admit(auth, db, input).1, input.request.executionHandle;
      if Replayed(db, input.request) then handle in db.executions && outcome == Duplicate(db.executions[handle])
      else outcome == Conflict
  {
    hide OverBudget, OverRate;
  }

  lemma AdmitNew(auth: Authorization, db: Database, input: AdmitCreateInput)
    requires Inv(auth, db) && WellFormedCreate(input) && input.request.environment == auth.environment
    requires Unheard(db, input.request)
    ensures
      var outcome := Admit(auth, db, input).1;
      if NoBudget(auth, db, input.now) then outcome == BudgetExhausted
      else if TooMany(auth, db, input.now) then outcome == RateLimited
      else outcome.Accepted?
  {
    assert db.environment.authorization == auth;
    BudgetRecomputed(auth, db, input.now);
    RateRecomputed(auth, db, input.now);
    AdmitKeepsInv(auth, db, input);
    hide NoBudget, OverBudget, TooMany, OverRate, Inv, EnvironmentSchema, RecordSchema, PruneRecent;
  }

  /** A well-formed create of the store's own environment: the same request again is a duplicate, any other of its id or handle a
      conflict; a new one is refused for the budget first and for the rate second, and admitted otherwise. */
  lemma AdmitAnswers(auth: Authorization, db: Database, input: AdmitCreateInput)
    requires Inv(auth, db) && WellFormedCreate(input) && input.request.environment == auth.environment
    ensures
      var request, outcome := input.request, Admit(auth, db, input).1;
      && (outcome.Duplicate? <==> Replayed(db, request))
      && (outcome.Duplicate? ==>
            request.executionHandle in db.executions && outcome.record == db.executions[request.executionHandle])
      && (outcome == Conflict <==> !Replayed(db, request) && !Unheard(db, request))
      && (outcome == BudgetExhausted <==> Unheard(db, request) && NoBudget(auth, db, input.now))
      && (outcome == RateLimited <==>
            Unheard(db, request) && !NoBudget(auth, db, input.now) && TooMany(auth, db, input.now))
      && (outcome.Accepted? <==>
            Unheard(db, request) && !NoBudget(auth, db, input.now) && !TooMany(auth, db, input.now))
  {
    hide Admit, NoBudget, TooMany, Inv;
    if Unheard(db, input.request) { AdmitNew(auth, db, input); } else { AdmitKnown(auth, db, input); }
  }

  lemma AdmitRefuses(auth: Authorization, db: Database, input: AdmitCreateInput)
    requires Inv(auth, db)
    ensures Admit(auth, db, input).1 == Throws <==> !WellFormedCreate(input)
    ensures Admit(auth, db, input).1 == EnvironmentMismatch <==>
      WellFormedCreate(input) && input.request.environment != auth.environment
  {
    AdmitKeepsInv(auth, db, input);
  }

  /** An admitted create adds its record and remembers its request, and takes the slot; any other changes nothing. */
  lemma AdmitStores(auth: Authorization, db: Database, input: AdmitCreateInput)
    requires Inv(auth, db)
    ensures
      var (db', outcome) := Admit(auth, db, input);
      var handle := input.request.executionHandle;
      if outcome.Accepted? then
        && outcome.record == Fresh(auth, input)
        && db'.executions == db.executions[handle := Fresh(auth, input)]
        && db'.requests == db.requests[input.request.requestId := RememberedRequest(input.request, input.now)]
        && db'.environment.activeExecutionHandle == Some(handle)
        && db'.environment.updatedAt == input.now
      else db' == db
  {
  }

  // ---------------------------------------------------------------- claims

  predicate WellFormedClaim(input: ClaimRequestInput) {
    input.request.action != Create && 0 <= input.expectedVersion
  }

  /** The request is new and names the record in its present version. */
  predicate NamesPresent(db: Database, input: ClaimRequestInput) {
    && input.request.requestId !in db.requests && input.request.executionHandle in db.executions
    && db.executions[input.request.executionHandle].version == input.expectedVersion
  }

  lemma ClaimAnswers(auth: Authorization, db: Database, input: ClaimRequestInput)
    requires Inv(auth, db) && WellFormedClaim(input) && input.request.environment == auth.environment
    ensures
      var request, outcome, known := input.request, Claim(auth, db, input).1, input.request.executionHandle in db.executions;
      && (outcome.Duplicate? <==> Replayed(db, request))
      && (outcome.Duplicate? ==> known && outcome.record == db.executions[request.executionHandle])
      && (outcome == Conflict <==> request.requestId in db.requests && !Replayed(db, request))
      && (outcome == NotFound <==> Unheard(db, request))
      && (outcome.Stale? <==> request.requestId !in db.requests && known && !NamesPresent(db, input))
      && (outcome.Stale? ==> outcome.record == db.executions[request.executionHandle])
      && (outcome == RateLimited <==> NamesPresent(db, input) && TooMany(auth, db, input.now))
      && (outcome == Throws <==>
            && NamesPresent(db, input) && !TooMany(auth, db, input.now)
            && db.executions[request.executionHandle].expiresAt <= input.now)
      && (outcome.Accepted? <==>
            && NamesPresent(db, input) && !TooMany(auth, db, input.now)
            && input.now < db.executions[request.executionHandle].expiresAt)
      && (outcome.Accepted? ==> outcome.record == db.executions[request.executionHandle])
  {
    RateRecomputed(auth, db, input.now);
    ClaimKeepsInv(auth, db, input);
    hide TooMany, OverRate, ActiveCached, PruneRecent;
  }

  lemma ClaimRefuses(auth: Authorization, db: Database, input: ClaimRequestInput)
    requires Inv(auth, db)
    ensures !WellFormedClaim(input) ==> Claim(auth, db, input).1 == Throws
    ensures Claim(auth, db, input).1 == EnvironmentMismatch <==>
      WellFormedClaim(input) && input.request.environment != auth.environment
  {
    ClaimKeepsInv(auth, db, input);
  }

  /** An accepted claim remembers its request and counts it; any other changes nothing, and no claim changes a record. */
  lemma ClaimStores(auth: Authorization, db: Database, input: ClaimRequestInput)
    ensures
      var (db', outcome) := Claim(auth, db, input);
      if outcome.Accepted? then
        && db'.executions == db.executions
        && db'.requests == db.requests[input.request.requestId := RememberedRequest(input.request, input.now)]
        && db'.environment == db.environment.(
             recentAcceptedAt := PruneRecent(db.environment.recentAcceptedAt, input.now - 60_000) + [input.now],
             updatedAt := input.now)
      else db' == db
  {
  }

  // ---------------------------------------------------------------- compare-and-set and listing

  /** The next version of this record: who it is and until when it is kept stay, and time does not run backwards. */
  predicate Succeeds(current: ControlRecord, next: ControlRecord) {
    && next.version == current.version + 1
    && next.environment == current.environment && next.bootstrapRequestId == current.bootstrapRequestId
    && next.jobId == current.jobId && next.createdAt == current.createdAt
    && next.reservedWorstCaseJpy == current.reservedWorstCaseJpy && next.expiresAt == current.expiresAt
    && current.updatedAt <= next.updatedAt
  }

  /** A well-formed record replaces the stored one exactly if it succeeds it in the expected version and that one is not CLEANED; a
      record that becomes CLEANED gives the slot free; otherwise nothing changes. */
  lemma CasAnswers(auth: Authorization, db: Database, expectedVersion: int, next: ControlRecord)
    requires Inv(auth, db)
    ensures
      var (db', outcome) := CompareAndSet(auth, db, expectedVersion, next);
      var fits := 0 <= next.createAttempts <= 2 && 0 < next.reservedWorstCaseJpy <= 10_000_000 && 0 < next.version;
      var handle := next.executionHandle;
      && (outcome == CasThrows <==> !fits)
      && (outcome == Applied <==>
            && fits && handle in db.executions && db.executions[handle].version == expectedVersion
            && Succeeds(db.executions[handle], next) && db.executions[handle].state != CLEANED)
      && (outcome == Applied ==> db'.executions == db.executions[handle := next] && db'.requests == db.requests)
      && (outcome == Applied ==>
            db'.environment.activeExecutionHandle == if next.state == CLEANED then None else Some(handle))
      && (outcome != Applied ==> db' == db)
  {
    CasKeepsInv(auth, db, expectedVersion, next);
  }

  /** The reaper is listed the one record that is not CLEANED, if there is one, and nothing of another environment. */
  lemma ListsUnclean(auth: Authorization, db: Database, environment: Environment)
    requires Inv(auth, db)
    ensures
      var listing := ListUnclean(auth, db, environment);
      && listing.Listed?
      && forall h :: h in db.executions ==>
           (db.executions[h] in listing.records <==> environment == auth.environment && db.executions[h].state != CLEANED)
    ensures |ListUnclean(auth, db, environment).records| <= 1
  {
    assert forall h :: h in Active(db.executions) <==> h in db.executions && db.executions[h].state != CLEANED;
  }
}

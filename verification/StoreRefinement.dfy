/** The durable store, which caches counters and prunes acceptance times, answers like the in-memory store,
    which recomputes everything. */
module StoreRefinement {
  import opened ControllerTypes
  import opened Sets
  import F = FirestoreStore
  import M = MemoryStore

  /** Both stores hold the same documents, and the pruned list counts every window still to come. */
  ghost predicate Related(auth: Authorization, auths: M.Authorizations, mem: M.State, db: F.Database, clock: Time) {
    && auths.Of(auth.environment) == auth
    && F.Inv(auth, db)
    && mem.records == db.executions
    && mem.requests == db.requests
    && WindowsAgree(db.environment.recentAcceptedAt, db.requests, auth.environment, clock)
  }

  ghost predicate WindowsAgree(recent: seq<Time>, requests: map<RequestId, RememberedRequest>,
                               environment: Environment, clock: Time) {
    forall w :: clock - RATE_WINDOW_MS <= w ==> WindowAgrees(recent, requests, environment, w)
  }

  ghost predicate WindowAgrees(recent: seq<Time>, requests: map<RequestId, RememberedRequest>,
                               environment: Environment, w: Time) {
    |F.PruneRecent(recent, w)| == |M.Within(requests, environment, w)|
  }

  lemma {:induction false} PruneTwice(recent: seq<Time>, first: Time, second: Time)
    requires first <= second
    ensures F.PruneRecent(F.PruneRecent(recent, first), second) == F.PruneRecent(recent, second)
  {
    if recent != [] {
      PruneTwice(recent[..|recent| - 1], first, second);
      var rest := F.PruneRecent(recent[..|recent| - 1], first);
      var last := recent[|recent| - 1];
      assert (rest + [last])[..|rest|] == rest;
    }
  }

  lemma PruneAppend(recent: seq<Time>, now: Time, w: Time)
    requires now - RATE_WINDOW_MS <= w
    ensures |F.PruneRecent(F.PruneRecent(recent, now - RATE_WINDOW_MS) + [now], w)|
         == |F.PruneRecent(recent, w)| + if now > w then 1 else 0
  {
    var kept := F.PruneRecent(recent, now - RATE_WINDOW_MS);
    PruneTwice(recent, now - RATE_WINDOW_MS, w);
    assert (kept + [now])[..|kept|] == kept;
  }

  lemma RememberCounts(requests: map<RequestId, RememberedRequest>, request: Request, now: Time, w: Time)
    requires request.requestId !in requests
    ensures |M.Within(requests[request.requestId := RememberedRequest(request, now)], request.environment, w)|
         == |M.Within(requests, request.environment, w)| + if now > w then 1 else 0
  {
    var before := M.Within(requests, request.environment, w);
    var after := M.Within(requests[request.requestId := RememberedRequest(request, now)], request.environment, w);
    if now > w {
      assert after == before + {request.requestId};
    } else {
      assert after == before;
    }
  }

  lemma AcceptKeepsWindows(recent: seq<Time>, requests: map<RequestId, RememberedRequest>, request: Request,
                           now: Time, clock: Time)
    requires WindowsAgree(recent, requests, request.environment, clock) && clock <= now
    requires request.requestId !in requests
    ensures WindowsAgree(F.PruneRecent(recent, now - RATE_WINDOW_MS) + [now],
                         requests[request.requestId := RememberedRequest(request, now)],
                         request.environment, now)
  {
    var recent' := F.PruneRecent(recent, now - RATE_WINDOW_MS) + [now];
    var requests' := requests[request.requestId := RememberedRequest(request, now)];
    forall w | now - RATE_WINDOW_MS <= w ensures WindowAgrees(recent', requests', request.environment, w) {
      assert WindowAgrees(recent, requests, request.environment, w);
      PruneAppend(recent, now, w);
      RememberCounts(requests, request, now, w);
    }
  }

  lemma BudgetAgrees(auth: Authorization, mem: M.State, db: F.Database, now: Time)
    requires F.Inv(auth, db) && mem.records == db.executions
    ensures M.OverBudget(auth, mem.records, auth.environment, now) == F.OverBudget(db.environment, now)
  {
    var existing := M.Existing(mem.records, auth.environment);
    assert forall h :: h in db.executions ==> h in existing;
    assert existing == db.executions.Keys;
    assert |db.executions.Keys| == |db.executions|;
    assert M.ActiveIn(mem.records, auth.environment) == F.Active(db.executions);
    F.UniformReservation(db.executions, existing, auth.worstCaseJpyPerExecution);
  }

  lemma AdmitReplaysAlike(auth: Authorization, auths: M.Authorizations, mem: M.State, db: F.Database,
                          input: AdmitCreateInput)
    requires F.Inv(auth, db)
    requires mem.records == db.executions && mem.requests == db.requests
    requires F.AdmitInputSchema(input) && input.request.environment == auth.environment
    requires input.request.requestId in db.requests || input.request.executionHandle in db.executions
    ensures F.Admit(auth, db, input).0 == db && M.Admit(auths, mem, input).0 == mem
    ensures F.Admit(auth, db, input).1 == M.Admit(auths, mem, input).1
  {
  }

  lemma AdmitDecidesAlike(auth: Authorization, auths: M.Authorizations, mem: M.State, db: F.Database,
                          input: AdmitCreateInput)
    requires auths.Of(auth.environment) == auth
    requires db.environment.authorization == auth && F.EnvironmentSchema(db.environment)
    requires mem.records == db.executions && mem.requests == db.requests
    requires WindowAgrees(db.environment.recentAcceptedAt, db.requests, auth.environment, input.now - RATE_WINDOW_MS)
    requires M.OverBudget(auth, mem.records, auth.environment, input.now) == F.OverBudget(db.environment, input.now)
    requires F.AdmitInputSchema(input) && input.request.environment == auth.environment
    requires input.request.requestId !in db.requests && input.request.executionHandle !in db.executions
    requires F.Admit(auth, db, input).1 != Throws
    ensures
      var (mem', answer) := M.Admit(auths, mem, input);
      var (db', answer') := F.Admit(auth, db, input);
      answer == answer' && mem'.records == db'.executions && mem'.requests == db'.requests
  {
  }

  lemma AdmitWindows(auth: Authorization, db: F.Database, clock: Time, input: AdmitCreateInput)
    requires WindowsAgree(db.environment.recentAcceptedAt, db.requests, auth.environment, clock)
    requires input.request.environment == auth.environment && clock <= input.now
    ensures
      var db' := F.Admit(auth, db, input).0;
      WindowsAgree(db'.environment.recentAcceptedAt, db'.requests, auth.environment, input.now)
  {
    if F.Admit(auth, db, input).1.Accepted? {
      AcceptKeepsWindows(db.environment.recentAcceptedAt, db.requests, input.request, input.now, clock);
    }
  }

  lemma AdmitAgrees(auth: Authorization, auths: M.Authorizations, mem: M.State, db: F.Database, clock: Time,
                    input: AdmitCreateInput)
    requires Related(auth, auths, mem, db, clock)
    requires F.AdmitInputSchema(input) && input.request.environment == auth.environment && clock <= input.now
    ensures
      var (mem', answer) := M.Admit(auths, mem, input);
      var (db', answer') := F.Admit(auth, db, input);
      answer == answer' && Related(auth, auths, mem', db', input.now)
  {
    BudgetAgrees(auth, mem, db, input.now);
    assert WindowAgrees(db.environment.recentAcceptedAt, db.requests, auth.environment, input.now - RATE_WINDOW_MS);
    F.AdmitKeepsInv(auth, db, input);
    AdmitWindows(auth, db, clock, input);
    if input.request.requestId in db.requests || input.request.executionHandle in db.executions {
      AdmitReplaysAlike(auth, auths, mem, db, input);
    } else {
      AdmitDecidesAlike(auth, auths, mem, db, input);
    }
  }

  lemma ClaimAnswersAlike(auth: Authorization, auths: M.Authorizations, mem: M.State, db: F.Database,
                          input: ClaimRequestInput)
    requires auths.Of(auth.environment) == auth && F.Inv(auth, db)
    requires mem.records == db.executions && mem.requests == db.requests
    requires WindowAgrees(db.environment.recentAcceptedAt, db.requests, auth.environment, input.now - RATE_WINDOW_MS)
    requires F.ClaimInputSchema(input) && input.request.environment == auth.environment
    ensures
      var (mem', answer) := M.Claim(auths, mem, input);
      var (db', answer') := F.Claim(auth, db, input);
      && (answer == answer' <==> !F.ClaimAborts(db, input))
      && (!F.ClaimAborts(db, input) ==> mem'.records == db'.executions && mem'.requests == db'.requests)
  {
    F.ClaimKeepsInv(auth, db, input);
  }

  lemma ClaimWindows(auth: Authorization, db: F.Database, clock: Time, input: ClaimRequestInput)
    requires WindowsAgree(db.environment.recentAcceptedAt, db.requests, auth.environment, clock)
    requires input.request.environment == auth.environment && clock <= input.now
    ensures
      var db' := F.Claim(auth, db, input).0;
      WindowsAgree(db'.environment.recentAcceptedAt, db'.requests, auth.environment, input.now)
  {
    if F.Claim(auth, db, input).1.Accepted? {
      AcceptKeepsWindows(db.environment.recentAcceptedAt, db.requests, input.request, input.now, clock);
    }
  }

  /** With a sound input and clock, a claim is answered alike by both stores exactly when it is not one that
      would be accepted for an expired record: there the durable store aborts. */
  lemma ClaimAgreesExactly(auth: Authorization, auths: M.Authorizations, mem: M.State, db: F.Database, clock: Time,
                           input: ClaimRequestInput)
    requires Related(auth, auths, mem, db, clock)
    requires F.ClaimInputSchema(input) && input.request.environment == auth.environment && clock <= input.now
    ensures
      var (mem', answer) := M.Claim(auths, mem, input);
      var (db', answer') := F.Claim(auth, db, input);
      && (answer == answer' <==> !F.ClaimAborts(db, input))
      && (!F.ClaimAborts(db, input) ==> Related(auth, auths, mem', db', input.now))
  {
    assert WindowAgrees(db.environment.recentAcceptedAt, db.requests, auth.environment, input.now - RATE_WINDOW_MS);
    ClaimAnswersAlike(auth, auths, mem, db, input);
    ClaimWindows(auth, db, clock, input);
    F.ClaimKeepsInv(auth, db, input);
  }

  /** The durable compare-and-set succeeds exactly when the in-memory one does and the record is well
      formed, not yet CLEANED, keeps its expiry and does not go back in time; the answers are the same exactly when the
      record is well formed and that guard does not stop what the in-memory store would apply. */
  lemma CasAgreesExactly(auth: Authorization, auths: M.Authorizations, mem: M.State, db: F.Database, clock: Time,
                         expectedVersion: int, next: ControlRecord)
    requires Related(auth, auths, mem, db, clock)
    ensures
      var (mem', answer) := M.CompareAndSet(mem, expectedVersion, next);
      var (db', answer') := F.CompareAndSet(auth, db, expectedVersion, next);
      && (answer' == Applied <==>
            && answer == Applied
            && F.RecordSchema(next)
            && F.DurableCasGuard(db.executions[next.executionHandle], next))
      && (answer == answer' <==>
            F.RecordSchema(next) && (answer == Applied ==> F.DurableCasGuard(db.executions[next.executionHandle], next)))
      && (answer == answer' ==> Related(auth, auths, mem', db', clock))
  {
    F.CasKeepsInv(auth, db, expectedVersion, next);
    if next.executionHandle in db.executions && db.executions[next.executionHandle].state != CLEANED {
      assert next.executionHandle in F.Active(db.executions);
    }
  }

  /** The listing the reaper works through: the one active record, as the in-memory filter would find it. */
  lemma ListingAgrees(auth: Authorization, auths: M.Authorizations, mem: M.State, db: F.Database, clock: Time)
    requires Related(auth, auths, mem, db, clock)
    ensures F.ListUnclean(auth, db, auth.environment).Listed?
    ensures
      var listed := F.ListUnclean(auth, db, auth.environment).records;
      && |listed| == |M.ActiveIn(mem.records, auth.environment)|
      && (forall h :: h in M.ActiveIn(mem.records, auth.environment) ==> listed == [mem.records[h]])
  {
    assert M.ActiveIn(mem.records, auth.environment) == F.Active(db.executions);
    if db.environment.activeExecutionHandle.Some? {
      assert db.environment.activeExecutionHandle.value in F.Active(db.executions);
    }
  }

  // ---------------------------------------------------------------- whole traces

  /** The operations the two stores are promised to agree on, given the state they reach. */
  ghost predicate Permitted(auth: Authorization, db: F.Database, clock: Time, op: F.Op) {
    match op
    case AdmitOp(input) =>
      F.AdmitInputSchema(input) && input.request.environment == auth.environment && clock <= input.now
    case ClaimOp(input) =>
      && F.ClaimInputSchema(input) && input.request.environment == auth.environment && clock <= input.now
      && !F.ClaimAborts(db, input)
    case CasOp(_, next) =>
      && F.RecordSchema(next)
      && (next.executionHandle in db.executions ==> F.DurableCasGuard(db.executions[next.executionHandle], next))
  }

  function Clock(clock: Time, op: F.Op): Time {
    match op
    case AdmitOp(input) => input.now
    case ClaimOp(input) => input.now
    case CasOp(_, _) => clock
  }

  ghost predicate PermittedTrace(auth: Authorization, db: F.Database, clock: Time, ops: seq<F.Op>)
    decreases ops
  {
    ops == [] ||
    (Permitted(auth, db, clock, ops[0]) &&
     PermittedTrace(auth, F.Apply(auth, db, ops[0]).0, Clock(clock, ops[0]), ops[1..]))
  }

  function DurableAnswers(auth: Authorization, db: F.Database, ops: seq<F.Op>): seq<F.Result>
    decreases ops
  {
    if ops == [] then []
    else var (db', result) := F.Apply(auth, db, ops[0]); [result] + DurableAnswers(auth, db', ops[1..])
  }

  ghost function MemoryAnswers(auths: M.Authorizations, mem: M.State, ops: seq<F.Op>): seq<F.Result>
    decreases ops
  {
    if ops == [] then []
    else var (mem', result) := M.Apply(auths, mem, ops[0]); [result] + MemoryAnswers(auths, mem', ops[1..])
  }

  lemma StepAgrees(auth: Authorization, auths: M.Authorizations, mem: M.State, db: F.Database, clock: Time, op: F.Op)
    requires Related(auth, auths, mem, db, clock) && Permitted(auth, db, clock, op)
    ensures M.Apply(auths, mem, op).1 == F.Apply(auth, db, op).1
    ensures Related(auth, auths, M.Apply(auths, mem, op).0, F.Apply(auth, db, op).0, Clock(clock, op))
  {
    match op
    case AdmitOp(input) => AdmitAgrees(auth, auths, mem, db, clock, input);
    case ClaimOp(input) => ClaimAgreesExactly(auth, auths, mem, db, clock, input);
    case CasOp(version, next) =>
      CasAgreesExactly(auth, auths, mem, db, clock, version, next);
      F.CasKeepsInv(auth, db, version, next);
  }

  lemma {:induction false} TraceAgrees(auth: Authorization, auths: M.Authorizations, mem: M.State, db: F.Database,
                                       clock: Time, ops: seq<F.Op>)
    requires Related(auth, auths, mem, db, clock) && PermittedTrace(auth, db, clock, ops)
    ensures DurableAnswers(auth, db, ops) == MemoryAnswers(auths, mem, ops)
    decreases ops
  {
    if ops != [] {
      StepAgrees(auth, auths, mem, db, clock, ops[0]);
      TraceAgrees(auth, auths, M.Apply(auths, mem, ops[0]).0, F.Apply(auth, db, ops[0]).0, Clock(clock, ops[0]), ops[1..]);
    }
  }

  /** From empty stores, every permitted trace over one environment gets the same answers, operation by
      operation, from the cached store and from the recomputing one. */
  lemma CachedStoreRefinesRecomputing(auth: Authorization, auths: M.Authorizations, now: Time, ops: seq<F.Op>)
    requires F.AuthorizationSchema(auth) && auths.Of(auth.environment) == auth
    requires PermittedTrace(auth, F.Initial(auth, now), now, ops)
    ensures DurableAnswers(auth, F.Initial(auth, now), ops) == MemoryAnswers(auths, M.State(map[], map[]), ops)
  {
    F.InitialInv(auth, now);
    TraceAgrees(auth, auths, M.State(map[], map[]), F.Initial(auth, now), now, ops);
  }
}

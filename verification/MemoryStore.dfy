/** The in-memory control store: it keeps every record and every request and recomputes budget, activity
    and request rate from them at each call. */
module MemoryStore {
  import opened ControllerTypes
  import opened Sets
  import F = FirestoreStore

  datatype Authorizations = Authorizations(staging: Authorization, production: Authorization) {
    function Of(environment: Environment): Authorization {
      match environment case Staging => staging case Production => production
    }
  }

  datatype State = State(records: map<Handle, ControlRecord>, requests: map<RequestId, RememberedRequest>)

  // ---------------------------------------------------------------- specification

  function Existing(records: map<Handle, ControlRecord>, environment: Environment): set<Handle> {
    set h | h in records && records[h].environment == environment
  }

  function ActiveIn(records: map<Handle, ControlRecord>, environment: Environment): set<Handle> {
    set h | h in records && records[h].environment == environment && records[h].state != CLEANED
  }

  function Within(requests: map<RequestId, RememberedRequest>, environment: Environment, windowStart: Time)
    : set<RequestId>
  {
    set id | id in requests && requests[id].request.environment == environment
             && requests[id].acceptedAt > windowStart
  }

  predicate RateLimitedAt(requests: map<RequestId, RememberedRequest>, environment: Environment, now: Time, max: int) {
    max <= 0 || |Within(requests, environment, now - RATE_WINDOW_MS)| >= max
  }

  ghost predicate OverBudget(auth: Authorization, records: map<Handle, ControlRecord>, environment: Environment, now: Time) {
    var existing := Existing(records, environment);
    || auth.validUntil < now
    || |ActiveIn(records, environment)| >= 1
    || auth.maxExecutions <= |existing|
    || auth.worstCaseJpyPerExecution <= 0
    || F.ReservedJpy(records, existing) + auth.worstCaseJpyPerExecution > auth.maxWorstCaseJpy
  }

  predicate SameRequest(left: Request, right: Request) {
    && left.digest == right.digest
    && left.environment == right.environment
    && left.executionHandle == right.executionHandle
    && left.action == right.action
  }

  function Replay(s: State, request: Request): StoreOutcome
    requires request.requestId in s.requests
  {
    var remembered := s.requests[request.requestId].request;
    if remembered.executionHandle in s.records && SameRequest(remembered, request)
    then Duplicate(s.records[remembered.executionHandle])
    else Conflict
  }

  ghost function Admit(auths: Authorizations, s: State, input: AdmitCreateInput): (State, StoreOutcome) {
    var request := input.request;
    var auth := auths.Of(request.environment);
    if request.requestId in s.requests then (s, Replay(s, request))
    else if request.executionHandle in s.records then (s, Conflict)
    else if auth.environment != request.environment then (s, EnvironmentMismatch)
    else if OverBudget(auth, s.records, request.environment, input.now) then (s, BudgetExhausted)
    else if RateLimitedAt(s.requests, request.environment, input.now, auth.maxRequestsPerMinute) then (s, RateLimited)
    else
      var record := NewRecord(input, auth.worstCaseJpyPerExecution);
      (State(s.records[request.executionHandle := record],
             s.requests[request.requestId := RememberedRequest(request, input.now)]),
       Accepted(record))
  }

  function Claim(auths: Authorizations, s: State, input: ClaimRequestInput): (State, StoreOutcome) {
    var request := input.request;
    if request.requestId in s.requests then (s, Replay(s, request))
    else if request.executionHandle !in s.records then (s, NotFound)
    else
      var record := s.records[request.executionHandle];
      if record.environment != request.environment then (s, EnvironmentMismatch)
      else if record.version != input.expectedVersion then (s, Stale(record))
      else if RateLimitedAt(s.requests, request.environment, input.now,
                            auths.Of(request.environment).maxRequestsPerMinute) then (s, RateLimited)
      else
        (s.(requests := s.requests[request.requestId := RememberedRequest(request, input.now)]), Accepted(record))
  }

  function CompareAndSet(s: State, expectedVersion: int, next: ControlRecord): (State, CasOutcome) {
    if next.executionHandle !in s.records then (s, Lost)
    else
      var current := s.records[next.executionHandle];
      if
        || current.version != expectedVersion
        || next.version != expectedVersion + 1
        || !SameIdentity(current, next)
      then (s, Lost)
      else (s.(records := s.records[next.executionHandle := next]), Applied)
  }

  ghost function Apply(auths: Authorizations, s: State, op: F.Op): (State, F.Result) {
    match op
    case AdmitOp(input) => var (s', outcome) := Admit(auths, s, input); (s', F.StoreResult(outcome))
    case ClaimOp(input) => var (s', outcome) := Claim(auths, s, input); (s', F.StoreResult(outcome))
    case CasOp(version, next) => var (s', outcome) := CompareAndSet(s, version, next); (s', F.CasResult(outcome))
  }

  /** Removing any element, not only the one the definition picks, takes its reservation off the sum. */
  lemma {:induction false} ReservedWithout(records: map<Handle, ControlRecord>, handles: set<Handle>, h: Handle)
    requires handles <= records.Keys && h in handles
    ensures F.ReservedJpy(records, handles)
         == records[h].reservedWorstCaseJpy + F.ReservedJpy(records, handles - {h})
  {
    var p := Pick(handles);
    if p != h {
      ReservedWithout(records, handles - {p}, h);
      ReservedWithout(records, handles - {h}, p);
      assert handles - {p} - {h} == handles - {h} - {p};
    }
  }

  lemma ReservedPlus(records: map<Handle, ControlRecord>, handles: set<Handle>, h: Handle)
    requires handles <= records.Keys && h in records && h !in handles
    ensures F.ReservedJpy(records, handles + {h})
         == F.ReservedJpy(records, handles) + records[h].reservedWorstCaseJpy
  {
    ReservedWithout(records, handles + {h}, h);
    assert handles + {h} - {h} == handles;
  }

  // ---------------------------------------------------------------- the store

  class InMemoryControlStore {
    const authorizations: Authorizations
    var records: map<Handle, ControlRecord>
    var requests: map<RequestId, RememberedRequest>

    constructor (authorizations: Authorizations)
      ensures this.authorizations == authorizations
      ensures Value() == State(map[], map[])
    {
      this.authorizations := authorizations;
      records := map[];
      requests := map[];
    }

    ghost function Value(): State
      reads this
    {
      State(records, requests)
    }

    method CountExisting(environment: Environment) returns (count: int)
      ensures count == |Existing(records, environment)|
    {
      count := 0;
      var todo := records.Keys;
      ghost var all := Existing(records, environment);
      VisitedAll(all, todo);
      while todo != {}
        invariant todo <= records.Keys
        invariant count == |all - todo|
        decreases todo
      {
        var h := Choose(todo);
        Visit(all, todo, h);
        todo := todo - {h};
        if records[h].environment == environment { count := count + 1; }
      }
      VisitedAll(all, todo);
    }

    method CountActive(environment: Environment) returns (count: int)
      ensures count == |ActiveIn(records, environment)|
    {
      count := 0;
      var todo := records.Keys;
      ghost var all := ActiveIn(records, environment);
      VisitedAll(all, todo);
      while todo != {}
        invariant todo <= records.Keys
        invariant count == |all - todo|
        decreases todo
      {
        var h := Choose(todo);
        Visit(all, todo, h);
        todo := todo - {h};
        if records[h].environment == environment && records[h].state != CLEANED { count := count + 1; }
      }
      VisitedAll(all, todo);
    }

    /** The order in which the records are visited does not matter to the sum. */
    method SumReserved(environment: Environment) returns (jpy: int)
      ensures jpy == F.ReservedJpy(records, Existing(records, environment))
    {
      jpy := 0;
      var todo := records.Keys;
      ghost var all := Existing(records, environment);
      VisitedAll(all, todo);
      while todo != {}
        invariant todo <= records.Keys && all <= records.Keys
        invariant jpy == F.ReservedJpy(records, all - todo)
        decreases todo
      {
        var h := Choose(todo);
        Visit(all, todo, h);
        if h in all { ReservedPlus(records, all - todo, h); }
        todo := todo - {h};
        if records[h].environment == environment { jpy := jpy + records[h].reservedWorstCaseJpy; }
      }
      VisitedAll(all, todo);
    }

    method IsRateLimited(environment: Environment, now: Time, maxRequestsPerMinute: int) returns (limited: bool)
      ensures limited == RateLimitedAt(requests, environment, now, maxRequestsPerMinute)
    {
      if maxRequestsPerMinute <= 0 { return true; }
      var count := 0;
      var todo := requests.Keys;
      ghost var all := Within(requests, environment, now - RATE_WINDOW_MS);
      VisitedAll(all, todo);
      while todo != {}
        invariant todo <= requests.Keys
        invariant count == |all - todo|
        decreases todo
      {
        var id := Choose(todo);
        Visit(all, todo, id);
        todo := todo - {id};
        if requests[id].request.environment == environment && requests[id].acceptedAt > now - RATE_WINDOW_MS {
          count := count + 1;
        }
      }
      VisitedAll(all, todo);
      return count >= maxRequestsPerMinute;
    }

    method AdmitCreate(input: AdmitCreateInput) returns (outcome: StoreOutcome)
      modifies this
      ensures (Value(), outcome) == Admit(authorizations, old(Value()), input)
    {
      var request := input.request;
      if request.requestId in requests {
        var remembered := requests[request.requestId].request;
        if remembered.executionHandle in records && SameRequest(remembered, request) {
          return Duplicate(records[remembered.executionHandle]);
        }
        return Conflict;
      }
      if request.executionHandle in records { return Conflict; }
      var auth := authorizations.Of(request.environment);
      if auth.environment != request.environment { return EnvironmentMismatch; }
      var existing := CountExisting(request.environment);
      var active := CountActive(request.environment);
      var jpy := SumReserved(request.environment);
      if
        || auth.validUntil < input.now
        || active >= 1
        || auth.maxExecutions <= existing
        || auth.worstCaseJpyPerExecution <= 0
        || jpy + auth.worstCaseJpyPerExecution > auth.maxWorstCaseJpy
      {
        return BudgetExhausted;
      }
      var limited := IsRateLimited(request.environment, input.now, auth.maxRequestsPerMinute);
      if limited { return RateLimited; }
      var record := NewRecord(input, auth.worstCaseJpyPerExecution);
      records := records[request.executionHandle := record];
      requests := requests[request.requestId := RememberedRequest(request, input.now)];
      return Accepted(record);
    }

    method ClaimRequest(input: ClaimRequestInput) returns (outcome: StoreOutcome)
      modifies this`requests
      ensures (Value(), outcome) == Claim(authorizations, old(Value()), input)
    {
      var request := input.request;
      if request.requestId in requests {
        var remembered := requests[request.requestId].request;
        if remembered.executionHandle in records && SameRequest(remembered, request) {
          return Duplicate(records[remembered.executionHandle]);
        }
        return Conflict;
      }
      if request.executionHandle !in records { return NotFound; }
      var record := records[request.executionHandle];
      if record.environment != request.environment { return EnvironmentMismatch; }
      if record.version != input.expectedVersion { return Stale(record); }
      var auth := authorizations.Of(request.environment);
      var limited := IsRateLimited(request.environment, input.now, auth.maxRequestsPerMinute);
      if limited { return RateLimited; }
      requests := requests[request.requestId := RememberedRequest(request, input.now)];
      return Accepted(record);
    }

    method CompareAndSwap(expectedVersion: int, next: ControlRecord) returns (applied: bool)
      modifies this`records
      ensures (Value(), if applied then Applied else Lost) == CompareAndSet(old(Value()), expectedVersion, next)
    {
      if next.executionHandle !in records { return false; }
      var current := records[next.executionHandle];
      if current.version != expectedVersion || next.version != expectedVersion + 1 || !SameIdentity(current, next) {
        return false;
      }
      records := records[next.executionHandle := next];
      return true;
    }
  }
}

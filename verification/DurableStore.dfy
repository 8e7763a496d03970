/** The Firestore-backed store as an object: each method is one transaction on the documents, and equals the
    step function of `FirestoreStore`. */
module DurableStore {
  import opened ControllerTypes
  import F = FirestoreStore

  class FirestoreControlStore {
    const authorization: Authorization
    var environment: F.EnvironmentDocument
    var executions: map<Handle, ControlRecord>
    var requests: map<RequestId, RememberedRequest>

    constructor (authorization: Authorization, now: Time)
      ensures this.authorization == authorization
      ensures Value() == F.Initial(authorization, now)
    {
      this.authorization := authorization;
      environment := F.EnvironmentDocument(authorization, None, 0, [], 0, 0, now);
      executions := map[];
      requests := map[];
    }

    function Value(): F.Database
      reads this
    {
      F.Database(environment, executions, requests)
    }

    method AdmitCreate(input: AdmitCreateInput) returns (outcome: StoreOutcome)
      modifies this
      ensures (Value(), outcome) == F.Admit(authorization, old(Value()), input)
    {
      var request := input.request;
      if !F.AdmitInputSchema(input) { return Throws; }
      if request.environment != authorization.environment { return EnvironmentMismatch; }
      if !F.EnvironmentSchema(environment) { return Throws; }
      if environment.authorization != authorization { return EnvironmentMismatch; }
      if request.requestId in requests {
        if requests[request.requestId].request != request || request.executionHandle !in executions {
          return Conflict;
        }
        var replayed := executions[request.executionHandle];
        if !F.RecordParses(replayed, request.executionHandle) || replayed.bootstrapRequestId != request.requestId {
          return Throws;
        }
        return Duplicate(replayed);
      }
      if request.executionHandle in executions { return Conflict; }
      var recent := F.PruneRecent(environment.recentAcceptedAt, input.now - RATE_WINDOW_MS);
      if F.OverBudget(environment, input.now) { return BudgetExhausted; }
      if F.OverRate(environment, recent) { return RateLimited; }
      var jpy := environment.authorization.worstCaseJpyPerExecution;
      var record := NewRecord(input, jpy);
      var reserved := environment.(
        activeExecutionHandle := Some(request.executionHandle),
        activeExecutions := 1,
        recentAcceptedAt := recent + [input.now],
        reservedExecutions := environment.reservedExecutions + 1,
        reservedWorstCaseJpy := environment.reservedWorstCaseJpy + jpy,
        updatedAt := input.now);
      if !F.RecordSchema(record) || !F.EnvironmentSchema(reserved) { return Throws; }
      executions := executions[request.executionHandle := record];
      requests := requests[request.requestId := RememberedRequest(request, input.now)];
      environment := reserved;
      return Accepted(record);
    }

    method ClaimRequest(input: ClaimRequestInput) returns (outcome: StoreOutcome)
      modifies this`environment, this`requests
      ensures (Value(), outcome) == F.Claim(authorization, old(Value()), input)
    {
      var request := input.request;
      if !F.ClaimInputSchema(input) { return Throws; }
      if request.environment != authorization.environment { return EnvironmentMismatch; }
      if !F.EnvironmentSchema(environment) { return Throws; }
      if environment.authorization != authorization { return EnvironmentMismatch; }
      if request.requestId in requests {
        if requests[request.requestId].request != request || request.executionHandle !in executions {
          return Conflict;
        }
        var replayed := executions[request.executionHandle];
        if !F.RecordParses(replayed, request.executionHandle) { return Throws; }
        return Duplicate(replayed);
      }
      if request.executionHandle !in executions { return NotFound; }
      var record := executions[request.executionHandle];
      if !F.RecordParses(record, request.executionHandle) { return Throws; }
      if record.environment != request.environment { return EnvironmentMismatch; }
      if record.version != input.expectedVersion { return Stale(record); }
      var recent := F.PruneRecent(environment.recentAcceptedAt, input.now - RATE_WINDOW_MS);
      if F.OverRate(environment, recent) { return RateLimited; }
      var counted := environment.(recentAcceptedAt := recent + [input.now], updatedAt := input.now);
      if record.expiresAt <= input.now || !F.EnvironmentSchema(counted) { return Throws; }
      requests := requests[request.requestId := RememberedRequest(request, input.now)];
      environment := counted;
      return Accepted(record);
    }

    method CompareAndSet(expectedVersion: int, next: ControlRecord) returns (outcome: CasOutcome)
      modifies this`environment, this`executions
      ensures (Value(), outcome) == F.CompareAndSet(authorization, old(Value()), expectedVersion, next)
    {
      if !F.RecordSchema(next) { return CasThrows; }
      if next.environment != authorization.environment { return Lost; }
      if !F.EnvironmentSchema(environment) { return CasThrows; }
      if environment.authorization != authorization || next.executionHandle !in executions { return Lost; }
      var current := executions[next.executionHandle];
      if !F.RecordParses(current, next.executionHandle) { return CasThrows; }
      if
        || current.version != expectedVersion
        || next.version != expectedVersion + 1
        || !SameIdentity(current, next)
        || !F.DurableCasGuard(current, next)
      {
        return Lost;
      }
      if environment.activeExecutions != 1 || environment.activeExecutionHandle != Some(current.executionHandle) {
        return Lost;
      }
      if next.state == CLEANED {
        var freed := environment.(activeExecutionHandle := None, activeExecutions := 0, updatedAt := next.updatedAt);
        if !F.EnvironmentSchema(freed) { return CasThrows; }
        environment := freed;
      }
      executions := executions[next.executionHandle := next];
      return Applied;
    }

    method ListUnclean(environment: Environment) returns (listing: F.Listing)
      ensures listing == F.ListUnclean(authorization, Value(), environment)
    {
      if environment != authorization.environment { return F.Listed([]); }
      var state := this.environment;
      if !F.EnvironmentSchema(state) || state.authorization != authorization { return F.ListThrows; }
      if state.activeExecutionHandle == None {
        if state.activeExecutions != 0 { return F.ListThrows; }
        return F.Listed([]);
      }
      if state.activeExecutions != 1 || state.activeExecutionHandle.value !in executions { return F.ListThrows; }
      var record := executions[state.activeExecutionHandle.value];
      if
        || !F.RecordParses(record, state.activeExecutionHandle.value)
        || record.environment != environment
        || record.state == CLEANED
      {
        return F.ListThrows;
      }
      return F.Listed([record]);
    }
  }
}

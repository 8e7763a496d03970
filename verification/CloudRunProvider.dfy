/** A clock that never runs backwards, and a provider whose reads are truthful or "unavailable" and whose
    mutations take effect at the call or never.  Nobody chooses the answers: the verifier considers them all. */
module CloudRunProvider {
  import opened ControllerTypes
  import opened ControllerPolicy
  import opened Sets

  /** What the provider holds. */
  datatype World = World(jobs: map<JobId, ProviderJob>, executions: map<Uid, ProviderExecution>) {
    predicate Empty(id: JobId) {
      id !in jobs && forall uid :: uid in executions ==> executions[uid].jobRef != id
    }

    predicate Stopped(uid: Uid) {
      uid in executions ==> !StillActive(executions[uid])
    }

    /** The job is there and can be run. */
    predicate Ready(id: JobId) {
      id in jobs && jobs[id].ready
    }

    predicate Idle(id: JobId) {
      forall uid :: uid in executions ==> executions[uid].jobRef != id
    }
  }

  /** Nothing appeared between the two, except possibly jobs of these ids and executions of them. */
  predicate OnlyNew(before: World, after: World, ids: set<JobId>) {
    && (forall id :: id in after.jobs ==> id in before.jobs || id in ids)
    && (forall uid :: uid in after.executions ==>
          || (uid in before.executions && after.executions[uid].jobRef == before.executions[uid].jobRef)
          || after.executions[uid].jobRef in ids)
  }

  /** Ready jobs stay ready, and no job disappears. */
  ghost predicate JobsStay(before: World, after: World) {
    && before.jobs.Keys <= after.jobs.Keys
    && forall id :: before.Ready(id) ==> after.Ready(id)
  }

  /** Different handles have different jobs. */
  ghost predicate Injective(jobIdOf: Handle -> JobId) {
    forall a, b :: jobIdOf(a) == jobIdOf(b) ==> a == b
  }

  lemma {:induction false} FreshExists(uids: set<Uid>)
    ensures exists uid: Uid :: uid !in uids && forall u :: u in uids ==> u < uid
  {
    if uids == {} {
      assert 0 !in uids;
    } else {
      var u := Pick(uids);
      FreshExists(uids - {u});
      var bound :| bound !in uids - {u} && forall v :: v in uids - {u} ==> v < bound;
      var uid := if u < bound then bound else u + 1;
      assert forall v :: v in uids ==> v == u || v in uids - {u};
      assert uid !in uids && forall v :: v in uids ==> v < uid;
    }
  }

  /** Does the list, from position `from` on, hold the execution `uid`? */
  predicate Listed(executions: seq<ProviderExecution>, from: nat, uid: Uid) {
    exists j :: from <= j < |executions| && executions[j].uid == uid
  }

  /** Every listed execution is held, and of the job `id`. */
  predicate AllHeld(held: map<Uid, ProviderExecution>, id: JobId, executions: seq<ProviderExecution>) {
    forall i :: 0 <= i < |executions| ==>
      executions[i].jobRef == id && executions[i].uid in held && held[executions[i].uid] == executions[i]
  }

  class Clock {
    var time: Time

    constructor (start: Time)
      ensures time == start
    {
      time := start;
    }

    method Now() returns (now: Time)
      modifies this
      ensures now == time && old(time) <= time
    {
      var reading: Time := *;
      if time < reading { time := reading; }
      now := time;
    }
  }

  class Provider {
    /** When set, every read answers and every mutation takes effect. */
    const reliable: bool
    /** When set, nobody changes a job behind the controller's back: each still carries the manifest it was made with. */
    const conforming: bool
    var jobs: map<JobId, ProviderJob>
    var executions: map<Uid, ProviderExecution>

    constructor (reliable: bool, conforming: bool)
      ensures this.reliable == reliable && this.conforming == conforming && jobs == map[] && executions == map[]
      ensures Valid()
    {
      this.reliable := reliable;
      this.conforming := conforming;
      jobs := map[];
      executions := map[];
    }

    ghost predicate Valid()
      reads this
    {
      && (forall id :: id in jobs ==> jobs[id].ref == id)
      && (forall uid :: uid in executions ==> executions[uid].uid == uid)
    }

    function Value(): World
      reads this
    {
      World(jobs, executions)
    }

    /** Jobs become ready and active executions advance on their own; nothing appears or disappears. */
    method Settle()
      requires Valid()
      modifies this
      ensures Valid() && OnlyNew(old(Value()), Value(), {}) && JobsStay(old(Value()), Value())
      ensures jobs.Keys == old(jobs.Keys) && executions.Keys == old(executions.Keys)
      ensures forall uid :: old(Value()).Stopped(uid) ==> Value().Stopped(uid)
    {
      var uid: Uid, status: ExecutionStatus, id: JobId := *, *, *;
      if uid in executions && StillActive(executions[uid]) {
        executions := executions[uid := executions[uid].(status := status)];
      }
      if id in jobs { jobs := jobs[id := jobs[id].(ready := true)]; }
    }

    method GetJob(id: JobId) returns (read: JobRead)
      requires Valid()
      modifies this
      ensures Valid() && OnlyNew(old(Value()), Value(), {}) && JobsStay(old(Value()), Value())
      ensures jobs.Keys == old(jobs.Keys) && executions.Keys == old(executions.Keys)
      ensures read == JobMissing ==> id !in jobs
      ensures read.JobFound? ==> id in jobs && read.job == jobs[id] && read.job.ref == id
      ensures reliable ==> read != JobUnavailable
      ensures conforming && read.JobFound? ==> read.manifestMatches
    {
      Settle();
      var answers: bool, matches: bool := *, *;
      if !answers && !reliable { return JobUnavailable; }
      if id in jobs { return JobFound(jobs[id], matches || conforming); }
      return JobMissing;
    }

    method GetOperation(operationRef: int) returns (read: OperationRead)
      requires Valid()
      modifies this
      ensures Valid() && OnlyNew(old(Value()), Value(), {}) && JobsStay(old(Value()), Value())
      ensures jobs.Keys == old(jobs.Keys)
    {
      Settle();
      var failed: bool, kind: ErrorKind := *, *;
      read := if failed then OperationFailed(kind) else OperationNotFailed;
    }

    method ExecutionsOf(id: JobId) returns (found: seq<ProviderExecution>)
      requires Valid()
      ensures forall uid :: uid in executions && executions[uid].jobRef == id ==> executions[uid] in found
      ensures AllHeld(executions, id, found)
    {
      found := [];
      var todo := executions.Keys;
      while todo != {}
        invariant todo <= executions.Keys
        invariant forall uid :: uid in executions && uid !in todo && executions[uid].jobRef == id ==>
          executions[uid] in found
        invariant AllHeld(executions, id, found)
        decreases todo
      {
        var uid := Choose(todo);
        todo := todo - {uid};
        if executions[uid].jobRef == id { found := found + [executions[uid]]; }
      }
    }

    method ListExecutions(id: JobId) returns (read: ExecutionRead)
      requires Valid()
      modifies this
      ensures Valid() && OnlyNew(old(Value()), Value(), {}) && JobsStay(old(Value()), Value())
      ensures jobs.Keys == old(jobs.Keys) && executions.Keys == old(executions.Keys)
      ensures read.ExecutionsFound? ==> forall uid ::
        uid in executions && executions[uid].jobRef == id ==> Listed(read.executions, 0, uid)
      ensures read.ExecutionsFound? ==> AllHeld(executions, id, read.executions)
      ensures reliable ==> read.ExecutionsFound?
    {
      Settle();
      var answers: bool := *;
      if !answers && !reliable { return ExecutionsUnavailable; }
      var found := ExecutionsOf(id);
      forall uid | uid in executions && executions[uid].jobRef == id ensures Listed(found, 0, uid) {
        assert executions[uid] in found;
      }
      return ExecutionsFound(found);
    }

    method Answered(effect: bool) returns (result: ProviderMutation)
      ensures !effect ==> !result.MutationAccepted?
    {
      var accepted: bool, conflict: bool, unknown: bool, ref: int, kind: ErrorKind := *, *, *, *, *;
      if effect && accepted { return MutationAccepted(ref); }
      if conflict { return MutationConflict; }
      if unknown { return MutationUnknown; }
      return MutationRejected(kind);
    }

    /** A job that is there already is a conflict. */
    method CreateJob(id: JobId) returns (result: ProviderMutation)
      requires Valid()
      modifies this
      ensures Valid() && OnlyNew(old(Value()), Value(), {id}) && JobsStay(old(Value()), Value())
      ensures reliable ==> id in jobs
      ensures reliable && id !in old(jobs) ==> result.MutationAccepted?
    {
      Settle();
      var effect: bool, uid: Uid, etag: int, ready: bool, ref: int := *, *, *, *, *;
      if (effect || reliable) && id !in jobs {
        jobs := jobs[id := ProviderJob(id, uid, etag, ready)];
        if reliable { return MutationAccepted(ref); }
      }
      result := Answered(effect);
    }

    /** A new execution of the job, if it can be run. */
    method RunJob(job: ProviderJob) returns (result: ProviderMutation)
      requires Valid()
      modifies this
      ensures Valid() && OnlyNew(old(Value()), Value(), {job.ref}) && JobsStay(old(Value()), Value())
      ensures executions.Keys >= old(executions.Keys)
      ensures reliable && old(Value()).Ready(job.ref) ==> result.MutationAccepted? && !Value().Idle(job.ref)
    {
      Settle();
      var effect: bool, etag: int, ref: int := *, *, *;
      var runs := job.ref in jobs && jobs[job.ref].ready && reliable;
      if effect || runs {
        FreshExists(executions.Keys);
        var uid :| uid !in executions.Keys;
        executions := executions[uid := ProviderExecution(uid, etag, job.ref, ExecPending)];
        if runs { return MutationAccepted(ref); }
      }
      result := Answered(effect);
    }

    method CancelExecution(execution: ProviderExecution) returns (result: ProviderMutation)
      requires Valid()
      modifies this
      ensures Valid() && OnlyNew(old(Value()), Value(), {})
      ensures jobs.Keys == old(jobs.Keys) && executions.Keys == old(executions.Keys)
      ensures forall uid :: old(Value()).Stopped(uid) ==> Value().Stopped(uid)
      ensures reliable ==> Value().Stopped(execution.uid)
    {
      Settle();
      var effect: bool := *;
      if (effect || reliable) && execution.uid in executions && StillActive(executions[execution.uid]) {
        executions := executions[execution.uid := executions[execution.uid].(status := ExecCancelled)];
      }
      result := Answered(effect);
    }

    method DeleteExecution(execution: ProviderExecution) returns (result: ProviderMutation)
      requires Valid()
      modifies this
      ensures Valid() && OnlyNew(old(Value()), Value(), {})
      ensures jobs.Keys == old(jobs.Keys) && executions.Keys <= old(executions.Keys)
      ensures reliable ==> execution.uid !in executions
    {
      Settle();
      var effect: bool := *;
      if effect || reliable { executions := executions - {execution.uid}; }
      result := Answered(effect);
    }

    method DeleteJob(job: ProviderJob) returns (result: ProviderMutation)
      requires Valid()
      modifies this
      ensures Valid() && OnlyNew(old(Value()), Value(), {})
      ensures jobs.Keys <= old(jobs.Keys) && executions.Keys <= old(executions.Keys)
      ensures reliable ==> job.ref !in jobs
    {
      Settle();
      var effect: bool := *;
      if effect || reliable { jobs := jobs - {job.ref}; }
      result := Answered(effect);
    }
  }
}

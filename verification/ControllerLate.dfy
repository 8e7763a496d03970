/** What may still arrive late: a create for another environment, a send that is admitted after another send of the same
    request was deferred, and a provider call that was licensed before its record was CLEANED. */
module ControllerLate {
  import opened ControllerTypes
  import opened ControllerPolicy
  import opened ControllerMachine
  import opened ControllerSafety
  import opened ControllerRuns
  import F = FirestoreStore

  // ---------------------------------------------------------------- requests for another environment

  /** Only requests for the controller's own environment reach the store. */
  predicate Addressed(c: Config, pc: Pc) {
    && (pc.Admitting? ==> pc.input.request.environment == c.environment)
    && (pc.Claiming? ==> pc.claim.request.environment == c.environment)
  }

  predicate AllAddressed(c: Config, s: Sys) {
    forall i :: i in s.handlers ==> Addressed(c, s.handlers[i])
  }

  lemma {:induction false} ReapNextLeavesStore(records: seq<ControlRecord>, reapNow: Time)
    ensures !ReapNext(records, reapNow).Admitting? && !ReapNext(records, reapNow).Claiming?
  {
    if records != [] && !NeedsReaping(records[0], reapNow) { ReapNextLeavesStore(records[1..], reapNow); }
  }

  lemma ContinueLeavesStore(record: ControlRecord, applied: bool, after: After, ret: Ret)
    ensures
      var pc' := Continue(record, applied, after, ret);
      !pc'.Admitting? && !pc'.Claiming?
  {
    if ret.ReapResume? { ReapNextLeavesStore(ret.rest, ret.reapNow); }
  }

  /** A handler asks the store for admission at most once, at its start. */
  lemma AdvanceLeavesStore(c: Config, db: F.Database, pc: Pc, now: Time, answer: Answer)
    ensures
      var pc' := Advance(c, db, pc, now, answer).1;
      !pc'.Admitting? && !pc'.Claiming?
  {
    if pc.Updating? { ContinueLeavesStore(Touch(pc.changed, now), true, pc.after, pc.ret); }
    if pc.Reloading? && pc.lost.executionHandle in db.executions {
      ContinueLeavesStore(db.executions[pc.lost.executionHandle], false, pc.after, pc.ret);
    }
    if pc.ReapReading? && pc.handle in db.executions { ReapNextLeavesStore([db.executions[pc.handle]], pc.reapNow); }
  }

  lemma {:induction false} RunStaysAddressed(c: Config, now: Time, moves: seq<Move>)
    ensures AllAddressed(c, Run(c, Initial(c, now), moves))
  {
    if moves != [] {
      var s := Run(c, Initial(c, now), moves[..|moves| - 1]);
      var move := moves[|moves| - 1];
      RunStaysAddressed(c, now, moves[..|moves| - 1]);
      if move.Resume? && move.handler in s.handlers {
        AdvanceLeavesStore(c, s.db, s.handlers[move.handler], move.now, move.answer);
      }
    }
  }

  lemma AdvanceStaysAdmitted(c: Config, db: F.Database, pc: Pc, now: Time, answer: Answer)
    requires F.Inv(c.auth, db) && F.AllAdmitted(db)
    ensures F.AllAdmitted(Advance(c, db, pc, now, answer).0)
  {
  }

  lemma {:induction false} RunStaysAdmitted(c: Config, now: Time, moves: seq<Move>)
    requires F.AuthorizationSchema(c.auth)
    ensures F.AllAdmitted(Run(c, Initial(c, now), moves).db)
  {
    if moves != [] {
      var s := Run(c, Initial(c, now), moves[..|moves| - 1]);
      var move := moves[|moves| - 1];
      RunKeepsInv(c, now, moves[..|moves| - 1]);
      RunStaysAdmitted(c, now, moves[..|moves| - 1]);
      if move.Resume? && move.handler in s.handlers {
        AdvanceStaysAdmitted(c, s.db, s.handlers[move.handler], move.now, move.answer);
      }
    }
  }

  lemma MismatchMeansForeign(c: Config, db: F.Database, pc: Pc, now: Time, answer: Answer)
    requires F.Inv(c.auth, db) && Addressed(c, pc) && c.environment == c.auth.environment && !pc.Done?
    ensures
      var pc' := Advance(c, db, pc, now, answer).1;
      !(pc'.Done? && pc'.reply.Rejected? && pc'.reply.reason == RejectEnvironment && pc'.reply.request.action == Create)
  {
    if !pc.Admitting? && !pc.Claiming? { OnlyAdmissionRefuses(c, db, pc, now, answer); }
  }

  /** A controller whose store serves its own environment answers a create ENVIRONMENT_MISMATCH exactly when the create is
      for another environment.  Then no record of that handle and that environment exists; there is no record of the handle
      at all, and no call was made for it, if and only if no create for the handle was accepted under the own environment. */
  lemma MismatchIsForeign(c: Config, now: Time, moves: seq<Move>, move: Move)
    requires F.AuthorizationSchema(c.auth) && c.environment == c.auth.environment
    ensures
      var s := Run(c, Initial(c, now), moves);
      var s' := Step(c, s, move);
      var i := move.handler;
      JustRefused(s, s', i) ==>
        var request := s'.handlers[i].reply.request;
        && (s'.handlers[i].reply.reason == RejectEnvironment <==> request.environment != c.environment)
        && (request.environment != c.environment ==>
              && (forall h :: h in s'.db.executions ==> s'.db.executions[h].environment != request.environment)
              && (request.executionHandle !in s'.db.executions <==> !F.Admitted(s'.db, request.executionHandle))
              && (request.executionHandle !in s'.db.executions ==>
                    forall call :: call in s'.calls ==> call.handle != request.executionHandle))
  {
    var s := Run(c, Initial(c, now), moves);
    RunKeepsInv(c, now, moves);
    StepKeepsInv(c, s, move);
    RunStaysAddressed(c, now, moves);
    RunStaysAdmitted(c, now, moves);
    var s' := Step(c, s, move);
    hide Run;
    if JustRefused(s, s', move.handler) {
      RefusalIsForeign(c, s, move);
      assert F.AllAdmitted(s'.db) by { if move.Resume? { AdvanceStaysAdmitted(c, s.db, s.handlers[move.handler], move.now, move.answer); } }
      F.RecordsAreAdmitted(c.auth, s'.db, s'.handlers[move.handler].reply.request.executionHandle);
    }
  }

  lemma RefusalIsForeign(c: Config, s: Sys, move: Move)
    requires SysInv(c, s) && AllAddressed(c, s) && c.environment == c.auth.environment
    requires JustRefused(s, Step(c, s, move), move.handler)
    ensures
      var reply := Step(c, s, move).handlers[move.handler].reply;
      reply.reason == RejectEnvironment <==> reply.request.environment != c.environment
  {
    if move.Resume? && !s.handlers[move.handler].Done? {
      MismatchMeansForeign(c, s.db, s.handlers[move.handler], move.now, move.answer);
      RefusedWasAddressed(c, s.db, s.handlers[move.handler], move.now, move.answer);
    }
  }

  lemma RefusedWasAddressed(c: Config, db: F.Database, pc: Pc, now: Time, answer: Answer)
    requires Addressed(c, pc) && !pc.Done?
    ensures
      var pc' := Advance(c, db, pc, now, answer).1;
      pc'.Done? && pc'.reply.Rejected? ==> pc'.reply.request.environment == c.environment
  {
    if pc.Updating? { ContinueNeverRefuses(Touch(pc.changed, now), true, pc.after, pc.ret); }
    if pc.Reloading? && pc.lost.executionHandle in db.executions {
      ContinueNeverRefuses(db.executions[pc.lost.executionHandle], false, pc.after, pc.ret);
    }
    if pc.ReapReading? && pc.handle in db.executions {
      ReapNextNeverRefuses([db.executions[pc.handle]], pc.reapNow);
    }
  }

  // ---------------------------------------------------------------- a send that is admitted later

  /** The move lets a handler through admission for the handle. */
  predicate Admits(c: Config, s: Sys, move: Move, handle: Handle) {
    && move.Resume? && move.handler in s.handlers && s.handlers[move.handler].Admitting?
    && s.handlers[move.handler].input.request.executionHandle == handle
    && F.Admit(c.auth, s.db, s.handlers[move.handler].input).1.Accepted?
  }

  lemma RecordByAdmission(c: Config, s: Sys, move: Move, handle: Handle)
    requires SysInv(c, s)
    ensures handle in Step(c, s, move).db.executions <==> handle in s.db.executions || Admits(c, s, move, handle)
  {
    if move.Resume? && move.handler in s.handlers {
      var pc := s.handlers[move.handler];
      if pc.Updating? { CasEvolves(c, s.db, pc, move.now); }
    }
  }

  /** A handle that has no record has one later exactly when, at some move in between, a handler that was or had come to
      admission for the handle was accepted: an earlier send still on its way, or a new one. */
  lemma {:induction false} RecordAppearsExactly(c: Config, s: Sys, moves: seq<Move>, handle: Handle)
    requires SysInv(c, s) && handle !in s.db.executions
    ensures SysInv(c, Run(c, s, moves))
    ensures handle in Run(c, s, moves).db.executions <==>
      exists k :: 0 <= k < |moves| && Admits(c, Run(c, s, moves[..k]), moves[k], handle)
  {
    hide SysInv, Step, Admits;
    if moves != [] {
      var n := |moves| - 1;
      RecordAppearsExactly(c, s, moves[..n], handle);
      RecordByAdmission(c, Run(c, s, moves[..n]), moves[n], handle);
      StepKeepsInv(c, Run(c, s, moves[..n]), moves[n]);
      assert forall k :: 0 <= k < n ==> moves[..n][..k] == moves[..k] && moves[..n][k] == moves[k];
      if k :| 0 <= k < n && Admits(c, Run(c, s, moves[..n][..k]), moves[..n][k], handle) {
        assert Admits(c, Run(c, s, moves[..k]), moves[k], handle);
      }
      if k :| 0 <= k < |moves| && Admits(c, Run(c, s, moves[..k]), moves[k], handle) {
        if k < n { assert Admits(c, Run(c, s, moves[..n][..k]), moves[..n][k], handle); }
      }
    }
  }

  // ---------------------------------------------------------------- calls after CLEANED

  predicate IsCleaned(db: F.Database, handle: Handle) {
    handle in db.executions && db.executions[handle].state == CLEANED
  }

  /** A handler is about to make this create or run call. */
  predicate About(s: Sys, i: int, handle: Handle) {
    i in s.handlers && Pending(s.handlers[i]).Some? && Exclusive(Pending(s.handlers[i]).value)
    && Pending(s.handlers[i]).value.handle == handle
  }

  lemma CleanedStays(c: Config, db: F.Database, pc: Pc, now: Time, answer: Answer, handle: Handle)
    requires IsCleaned(db, handle)
    ensures IsCleaned(Advance(c, db, pc, now, answer).0, handle)
  {
    hide F.Admit, F.Claim, F.CompareAndSet;
    if pc.Admitting? { F.ApplyGrows(c.auth, db, F.AdmitOp(pc.input)); }
    if pc.Claiming? { F.ApplyGrows(c.auth, db, F.ClaimOp(pc.claim)); }
    if pc.Updating? { F.ApplyGrows(c.auth, db, F.CasOp(pc.base.version, Touch(pc.changed, now))); }
  }

  /** A compare-and-set applies only to a record that is not CLEANED, so it licenses no call for one that is. */
  lemma NoLicenceOnceCleaned(c: Config, db: F.Database, pc: Pc, now: Time, answer: Answer, handle: Handle)
    requires F.Inv(c.auth, db) && StoreCoherent(db) && Sound(db, pc) && IsCleaned(db, handle)
    ensures
      var pc' := Advance(c, db, pc, now, answer).1;
      Pending(pc').Some? && Exclusive(Pending(pc').value) ==> Pending(pc').value.handle != handle
  {
    hide F.Inv, StoreCoherent, F.CompareAndSet, Advance, Evolves;
    AdvanceSound(c, db, pc, now, answer);
    if !Plain(Advance(c, db, pc, now, answer).1) {
      F.CasKeepsInv(c.auth, db, pc.base.version, Touch(pc.changed, now));
    }
  }

  /** Once a record is CLEANED, it stays so, a handler that is about to call for it was so already, and every create or run
      call for it is made by such a handler. */
  lemma StepAfterCleaned(c: Config, s: Sys, move: Move, handle: Handle)
    requires SysInv(c, s) && IsCleaned(s.db, handle)
    ensures
      var s' := Step(c, s, move);
      && IsCleaned(s'.db, handle)
      && (forall i :: About(s', i, handle) ==> About(s, i, handle) && Pending(s'.handlers[i]) == Pending(s.handlers[i]))
      && |s.calls| <= |s'.calls| <= |s.calls| + 1
      && (|s'.calls| > |s.calls| && Exclusive(s'.calls[|s.calls|]) && s'.calls[|s.calls|].handle == handle ==>
            About(s, move.handler, handle) && Pending(s.handlers[move.handler]) == Some(s'.calls[|s.calls|]))
      && s'.calls[..|s.calls|] == s.calls
  {
    hide F.Inv, StoreCoherent, Advance, Sound, MayCall, CallsLicensed, AcceptedTracked;
    if move.Resume? && move.handler in s.handlers {
      CleanedStays(c, s.db, s.handlers[move.handler], move.now, move.answer, handle);
      NoLicenceOnceCleaned(c, s.db, s.handlers[move.handler], move.now, move.answer, handle);
    }
  }

  predicate IsCallFor(call: Call, handle: Handle) {
    Exclusive(call) && call.handle == handle
  }

  lemma {:induction false} CallsWerePending(c: Config, s: Sys, moves: seq<Move>, handle: Handle, k: nat) returns (i: int)
    requires SysInv(c, s) && IsCleaned(s.db, handle)
    requires |s.calls| <= k < |Run(c, s, moves).calls| && IsCallFor(Run(c, s, moves).calls[k], handle)
    ensures About(s, i, handle) && Pending(s.handlers[i]) == Some(Run(c, s, moves).calls[k])
  {
    var n := |moves| - 1;
    var s1 := Run(c, s, moves[..n]);
    RunAfterCleaned(c, s, moves[..n], handle);
    StepAfterCleaned(c, s1, moves[n], handle);
    if k < |s1.calls| {
      i := CallsWerePending(c, s, moves[..n], handle, k);
    } else {
      i := moves[n].handler;
    }
  }

  lemma {:induction false} RunAfterCleaned(c: Config, s: Sys, moves: seq<Move>, handle: Handle)
    requires SysInv(c, s) && IsCleaned(s.db, handle)
    ensures
      var s' := Run(c, s, moves);
      && SysInv(c, s') && IsCleaned(s'.db, handle) && |s.calls| <= |s'.calls|
      && (forall i :: About(s', i, handle) ==> About(s, i, handle) && Pending(s'.handlers[i]) == Pending(s.handlers[i]))
  {
    hide SysInv, IsCleaned, About, Step;
    if moves != [] {
      var n := |moves| - 1;
      RunAfterCleaned(c, s, moves[..n], handle);
      StepAfterCleaned(c, Run(c, s, moves[..n]), moves[n], handle);
      StepKeepsInv(c, Run(c, s, moves[..n]), moves[n]);
    }
  }

  /** A create or run call for a CLEANED record can follow exactly when it was licensed before the record was CLEANED and
      is still to be made: then the very next step of that handler makes it. */
  lemma CallAfterCleanedExactly(c: Config, s: Sys, handle: Handle)
    requires SysInv(c, s) && IsCleaned(s.db, handle)
    ensures (exists moves, k :: |s.calls| <= k < |Run(c, s, moves).calls| && IsCallFor(Run(c, s, moves).calls[k], handle))
       <==> (exists i :: About(s, i, handle))
  {
    if moves, k :| |s.calls| <= k < |Run(c, s, moves).calls| && IsCallFor(Run(c, s, moves).calls[k], handle) {
      var i := CallsWerePending(c, s, moves, handle, k);
    }
    if i :| About(s, i, handle) { PendingIsCalled(c, s, i, handle); }
  }

  lemma PendingIsCalled(c: Config, s: Sys, i: int, handle: Handle)
    requires About(s, i, handle)
    ensures exists moves, k :: |s.calls| <= k < |Run(c, s, moves).calls| && IsCallFor(Run(c, s, moves).calls[k], handle)
  {
    var answer := Answer(MutationUnknown, OperationNotFailed, JobUnavailable, ExecutionsUnavailable, 0, 0);
    var moves := [Resume(i, 0, answer)];
    assert moves[..0] == [];
    assert Run(c, s, moves).calls == s.calls + [Pending(s.handlers[i]).value];
    assert IsCallFor(Run(c, s, moves).calls[|s.calls|], handle);
  }
}

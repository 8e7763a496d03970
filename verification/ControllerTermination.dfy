/** Every handler ends after finitely many of its own awaits, whatever the store, the clock and the provider
    answer in between: the create/reconcile recursion is bounded by the attempts left. */
module ControllerTermination {
  import opened ControllerTypes
  import opened ControllerPolicy
  import opened ControllerMachine
  import F = FirestoreStore

  // ---------------------------------------------------------------- a lexicographic measure

  function RetOf(pc: Pc): Option<Ret> {
    match pc
    case Updating(_, _, _, ret) => Some(ret)
    case Reloading(_, _, ret) => Some(ret)
    case CreatingJob(_, ret) => Some(ret)
    case GettingOperation(_, _, _, ret) => Some(ret)
    case GettingJob(_, _, _, ret) => Some(ret)
    case ListingForRun(_, ret) => Some(ret)
    case RunningJob(_, ret) => Some(ret)
    case ListingToObserve(_, ret) => Some(ret)
    case CancellingMany(_, _, ret) => Some(ret)
    case CancellingDrifted(_, _, ret) => Some(ret)
    case CancellingOne(_, _, ret) => Some(ret)
    case CleanListing(_, ret) => Some(ret)
    case CleanCancelling(_, _, ret) => Some(ret)
    case CleanDeleting(_, _, ret) => Some(ret)
    case CleanGettingJob(_, ret) => Some(ret)
    case CleanDeletingJob(_, ret) => Some(ret)
    case CleanRelisting(_, ret) => Some(ret)
    case CleanRereadingJob(_, _, ret) => Some(ret)
    case _ => None
  }

  function RetRecords(ret: Ret): nat {
    if ret.ReapResume? then |ret.rest| + 1 else 0
  }

  function RetBand(ret: Ret): nat {
    if ret.CancelResume? then 2 else 1
  }

  /** Records the reaper has still to work through, this one included. */
  function Records(pc: Pc): nat {
    match RetOf(pc)
    case Some(ret) => RetRecords(ret)
    case None => if pc.ReapFindingActive? then 3 else if pc.ReapReading? then 2 else 0
  }

  /** Whole sub-tasks still to come: a cancel first observes and then decides. */
  function Band(pc: Pc): nat {
    match RetOf(pc)
    case Some(ret) => RetBand(ret)
    case None => if pc.Admitting? || pc.Claiming? then 3 else 0
  }

  function AttemptsLeft(r: ControlRecord): nat {
    if r.createAttempts < 2 then 2 - r.createAttempts else 0
  }

  function Attempts(pc: Pc): nat {
    match pc
    case CreatingJob(r, _) => AttemptsLeft(r) + 1
    case GettingOperation(r, _, _, _) => AttemptsLeft(r) + 1
    case GettingJob(r, _, _, _) => AttemptsLeft(r) + 1
    case Updating(base, _, AfterSendClaim, _) => AttemptsLeft(base) + 1
    case _ => 0
  }

  function AfterPhase(after: After): nat {
    match after
    case AfterCleanupMark => 30
    case AfterJobSeen(_, _) => 20
    case AfterRunClaim => 17
    case AfterCancelClaim => 12
    case AfterSendClaim => 7
    case AfterReturn => 2
  }

  function Phase(pc: Pc): nat {
    match pc
    case Updating(_, _, after, _) => AfterPhase(after)
    case Reloading(_, after, _) => AfterPhase(after) - 1
    case CleanListing(_, _) => 28
    case CleanCancelling(_, _, _) => 27
    case CleanDeleting(_, _, _) => 27
    case CleanGettingJob(_, _) => 26
    case CleanDeletingJob(_, _) => 25
    case CleanRelisting(_, _) => 24
    case CleanRereadingJob(_, _, _) => 23
    case ListingForRun(_, _) => 18
    case RunningJob(_, _) => 15
    case ListingToObserve(_, _) => 15
    case CancellingMany(_, _, _) => 14
    case CancellingDrifted(_, _, _) => 13
    case CancellingOne(_, _, _) => 10
    case CreatingJob(_, _) => 10
    case GettingOperation(_, _, _, _) => 9
    case GettingJob(_, _, _, _) => 8
    case _ => 0
  }

  function Executions(pc: Pc): nat {
    match pc
    case CancellingMany(_, executions, _) => |executions|
    case CleanCancelling(_, executions, _) => 2 * |executions| + 1
    case CleanDeleting(_, executions, _) => 2 * |executions|
    case _ => 0
  }

  /** Lexicographically less. */
  predicate Below(pc': Pc, pc: Pc) {
    || Records(pc') < Records(pc)
    || (Records(pc') == Records(pc) &&
        (|| Band(pc') < Band(pc)
         || (Band(pc') == Band(pc) &&
             (|| Attempts(pc') < Attempts(pc)
              || (Attempts(pc') == Attempts(pc) &&
                  (|| Phase(pc') < Phase(pc)
                   || (Phase(pc') == Phase(pc) && Executions(pc') < Executions(pc))))))))
  }

  /** A create is only claimed while attempts are left, and deleting always has an execution at hand. */
  predicate Bounded(pc: Pc) {
    && (pc.Updating? && pc.after.AfterSendClaim? ==>
          pc.base.createAttempts < 2 && pc.changed.createAttempts == pc.base.createAttempts + 1)
    && (pc.CleanDeleting? ==> pc.executions != [])
    && (pc.CleanCancelling? ==> pc.executions != [])
  }

  predicate Ended(pc: Pc) {
    pc.Done? || pc.Thrown?
  }

  // ---------------------------------------------------------------- every await lowers it

  lemma {:induction false} ReapNextBelow(records: seq<ControlRecord>, reapNow: Time)
    ensures Records(ReapNext(records, reapNow)) <= |records|
    ensures Bounded(ReapNext(records, reapNow))
  {
    if records != [] && !NeedsReaping(records[0], reapNow) { ReapNextBelow(records[1..], reapNow); }
  }

  lemma ReturnBelow(record: ControlRecord, ret: Ret)
    ensures
      var pc' := Return(record, ret);
      && Bounded(pc')
      && (Records(pc') < RetRecords(ret) || (Records(pc') == RetRecords(ret) && Band(pc') < RetBand(ret)))
  {
    if ret.ReapResume? { ReapNextBelow(ret.rest, ret.reapNow); }
  }

  lemma ContinueBelow(pc: Pc, record: ControlRecord, applied: bool)
    requires pc.Updating? || pc.Reloading?
    requires Bounded(pc)
    requires pc.Updating? ==> record.createAttempts == pc.changed.createAttempts
    requires applied ==> pc.Updating?
    ensures
      var pc' := Continue(record, applied, pc.after, pc.ret);
      Bounded(pc') && Below(pc', pc)
  {
    ReturnBelow(record, pc.ret);
  }

  lemma CleaningBelow(pc: Pc, answer: Answer)
    requires Cleaning(pc) && Bounded(pc)
    ensures Bounded(Proceed(pc, answer)) && Below(Proceed(pc, answer), pc)
  {
  }

  lemma CallingBelow(pc: Pc, answer: Answer)
    requires Pending(pc).Some? && !Cleaning(pc) && !pc.GettingJob?
    ensures Bounded(Proceed(pc, answer)) && Below(Proceed(pc, answer), pc)
  {
  }

  lemma GettingJobBelow(pc: Pc, answer: Answer)
    requires pc.GettingJob?
    ensures Bounded(Proceed(pc, answer)) && Below(Proceed(pc, answer), pc)
  {
  }

  lemma AdmittingBelow(c: Config, db: F.Database, pc: Pc, now: Time, answer: Answer)
    requires pc.Admitting?
    ensures Bounded(Advance(c, db, pc, now, answer).1) && Below(Advance(c, db, pc, now, answer).1, pc)
  {
    var outcome := F.Admit(c.auth, db, pc.input).1;
    assert outcome.Accepted? ==> outcome.record.createAttempts == 0;
  }

  lemma AnsweredClaimBelow(pc: Pc, outcome: StoreOutcome)
    requires pc.Claiming?
    ensures Bounded(AfterClaim(pc.claim.request, outcome)) && Below(AfterClaim(pc.claim.request, outcome), pc)
  {
  }

  lemma ReadingBelow(c: Config, db: F.Database, pc: Pc, now: Time, answer: Answer)
    requires pc.ReapFindingActive? || pc.ReapReading?
    ensures Bounded(Advance(c, db, pc, now, answer).1) && Below(Advance(c, db, pc, now, answer).1, pc)
  {
    if pc.ReapReading? && pc.handle in db.executions {
      ReapNextBelow([db.executions[pc.handle]], pc.reapNow);
    }
  }

  lemma SwappingBelow(c: Config, db: F.Database, pc: Pc, now: Time, answer: Answer)
    requires pc.Updating? && Bounded(pc)
    ensures Bounded(Advance(c, db, pc, now, answer).1) && Below(Advance(c, db, pc, now, answer).1, pc)
  {
    var next := Touch(pc.changed, now);
    var outcome := F.CompareAndSet(c.auth, db, pc.base.version, next).1;
    assert Advance(c, db, pc, now, answer).1 == AfterCas(pc, next, outcome);
    ContinueBelow(pc, next, true);
  }

  lemma ReloadingBelow(c: Config, db: F.Database, pc: Pc, now: Time, answer: Answer)
    requires pc.Reloading? && Bounded(pc)
    ensures Bounded(Advance(c, db, pc, now, answer).1) && Below(Advance(c, db, pc, now, answer).1, pc)
  {
    if pc.lost.executionHandle in db.executions {
      ContinueBelow(pc, db.executions[pc.lost.executionHandle], false);
    }
  }

  lemma AdvanceBelow(c: Config, db: F.Database, pc: Pc, now: Time, answer: Answer)
    requires Bounded(pc) && !Ended(pc)
    ensures Bounded(Advance(c, db, pc, now, answer).1) && Below(Advance(c, db, pc, now, answer).1, pc)
  {
    if pc.Admitting? { AdmittingBelow(c, db, pc, now, answer); }
    else if pc.Claiming? { AnsweredClaimBelow(pc, F.Claim(c.auth, db, pc.claim).1); }
    else if pc.ReapFindingActive? || pc.ReapReading? { ReadingBelow(c, db, pc, now, answer); }
    else if pc.Updating? { SwappingBelow(c, db, pc, now, answer); }
    else if pc.Reloading? { ReloadingBelow(c, db, pc, now, answer); }
    else if pc.GettingJob? { GettingJobBelow(pc, answer); }
    else if Cleaning(pc) { CleaningBelow(pc, answer); }
    else { CallingBelow(pc, answer); }
  }

  // ---------------------------------------------------------------- so every handler ends

  /** What a handler meets at one of its awaits: the store as others left it, a clock and provider answers. */
  datatype Moment = Moment(db: F.Database, now: Time, answer: Answer)

  ghost function Later(world: nat -> Moment): nat -> Moment {
    (k: nat) => world(k + 1)
  }

  /** Where the handler is after `n` of its own awaits. */
  ghost function At(c: Config, pc: Pc, world: nat -> Moment, n: nat): Pc
    decreases n
  {
    if n == 0 then pc
    else At(c, Advance(c, world(0).db, pc, world(0).now, world(0).answer).1, Later(world), n - 1)
  }

  lemma {:induction false} BoundedHandlerEnds(c: Config, pc: Pc, world: nat -> Moment) returns (n: nat)
    requires Bounded(pc)
    ensures Ended(At(c, pc, world, n))
    decreases Records(pc), Band(pc), Attempts(pc), Phase(pc), Executions(pc)
  {
    if Ended(pc) {
      n := 0;
    } else {
      AdvanceBelow(c, world(0).db, pc, world(0).now, world(0).answer);
      var m := BoundedHandlerEnds(c, Advance(c, world(0).db, pc, world(0).now, world(0).answer).1, Later(world));
      n := m + 1;
    }
  }

  /** Whatever request or reaper tick starts a handler, and whatever world it meets, it ends. */
  lemma EveryHandlerEnds(c: Config, incoming: Incoming, now: Time, world: nat -> Moment)
    ensures exists n: nat :: Ended(At(c, Start(c, incoming, now), world, n))
  {
    var n := BoundedHandlerEnds(c, Start(c, incoming, now), world);
  }
}

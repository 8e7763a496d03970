/** Runs from the empty store in which the controller does less than it seems to: a foreign create refused while its handle
    has a record, a deferral overtaken by an earlier send, a create call after CLEANED, and the two awaits that throw. */
module ControllerWitnesses {
  import opened ControllerTypes
  import opened ControllerPolicy
  import opened ControllerMachine
  import opened ControllerRuns
  import opened ControllerLate
  import opened CloudRunProvider
  import opened ControllerEmptiness
  import F = FirestoreStore
  import M = MemoryStore

  // ---------------------------------------------------------------- one configuration, one create for handle 7

  const AUTH := Authorization(Staging, 1, 1_000, 2, 100, 10, 10)
  const CONFIG := Config(Staging, AUTH)
  const NOTHING := EMPTY_READ
  const JOB_OF := (h: Handle) => h - 2

  function Ask(id: RequestId, environment: Environment, action: Action): Request {
    Request(id, 0, environment, 7, action)
  }

  const CREATE := Ask(1, Staging, Create)
  const INPUT := AdmitCreateInput(CREATE, 5, 10, 10 + PROVISIONING_WINDOW_MS, 10 + RECORD_TTL_MS)
  const NEW := NewRecord(INPUT, 10)

  function Document(active: Option<Handle>, recent: seq<Time>, at: Time): F.EnvironmentDocument {
    F.EnvironmentDocument(AUTH, active, if active.Some? then 1 else 0, recent, 1, 10, at)
  }

  const EMPTY := F.Initial(AUTH, 0)
  const ADMITTED :=
    F.Database(Document(Some(7), [10], 10), map[7 := NEW], map[1 := RememberedRequest(CREATE, 10)])

  predicate AllQuiet(moves: seq<Move>) {
    forall k :: 0 <= k < |moves| ==> Quiet(JOB_OF, moves[k])
  }

  /** What a run has reached, without the book-keeping of the proofs. */
  predicate Reached(s: Sys, db: F.Database, handlers: map<int, Pc>, calls: seq<Call>) {
    s.db == db && s.handlers == handlers && s.calls == calls
  }

  lemma Begin()
    ensures Reached(Run(CONFIG, Initial(CONFIG, 0), []), EMPTY, map[], [])
  {
  }

  lemma Spawned(s: Sys, moves: seq<Move>, i: int, incoming: Incoming, now: Time,
                db: F.Database, handlers: map<int, Pc>, calls: seq<Call>)
    requires Reached(Run(CONFIG, s, moves), db, handlers, calls) && i !in handlers
    ensures Reached(Run(CONFIG, s, moves + [Spawn(i, incoming, now)]),
                    db, handlers[i := Start(CONFIG, incoming, now)], calls)
  {
    hide Start;
    assert (moves + [Spawn(i, incoming, now)])[..|moves|] == moves;
  }

  lemma Resumed(s: Sys, moves: seq<Move>, i: int, now: Time, answer: Answer,
                db: F.Database, handlers: map<int, Pc>, calls: seq<Call>, db': F.Database, pc': Pc)
    requires Reached(Run(CONFIG, s, moves), db, handlers, calls) && i in handlers
    requires Advance(CONFIG, db, handlers[i], now, answer) == (db', pc')
    ensures Reached(Run(CONFIG, s, moves + [Resume(i, now, answer)]), db', handlers[i := pc'],
                    calls + (if Pending(handlers[i]).Some? then [Pending(handlers[i]).value] else []))
  {
    hide Advance, Pending, ClaimedAfter, AcceptedAfter;
    assert (moves + [Resume(i, now, answer)])[..|moves|] == moves;
  }

  lemma Admitting()
    ensures Advance(CONFIG, EMPTY, Pc.Admitting(INPUT), 10, NOTHING) == (ADMITTED, SendCreate(NEW, Respond(CREATE)))
  {
    var (db, outcome) := F.Admit(AUTH, EMPTY, INPUT);
    assert F.PruneRecent([], 10 - RATE_WINDOW_MS) == [];
    assert outcome == Accepted(NEW);
    assert db == ADMITTED;
  }

  // ---------------------------------------------------------------- a create for the other environment

  /** The own create has been admitted and the same handle is asked for under the other environment: the answer is
      ENVIRONMENT_MISMATCH, and there is a record of the handle. */
  lemma MismatchBesideRecord() returns (moves: seq<Move>, move: Move)
    ensures
      var s := Run(CONFIG, Initial(CONFIG, 0), moves);
      var s' := Step(CONFIG, s, move);
      && JustRefused(s, s', move.handler)
      && s'.handlers[move.handler].reply.reason == RejectEnvironment
      && s'.handlers[move.handler].reply.request.executionHandle in s'.db.executions
  {
    var m1 := [] + [Spawn(1, Execute(CREATE, 0, 5), 10)];
    var s := Initial(CONFIG, 0);
    Begin();
    Spawned(s, [], 1, Execute(CREATE, 0, 5), 10, EMPTY, map[], []);
    Admitting();
    Resumed(s, m1, 1, 10, NOTHING, EMPTY, map[1 := Pc.Admitting(INPUT)], [], ADMITTED, SendCreate(NEW, Respond(CREATE)));
    moves := m1 + [Resume(1, 10, NOTHING)];
    move := Spawn(2, Execute(Ask(2, Production, Create), 0, 5), 20);
  }

  // ---------------------------------------------------------------- a deferral that an earlier send overtakes

  /** Two sends of one create: the second arrives after the authorization has ended and is answered BUDGET_EXHAUSTED while
      nothing is recorded for the handle; then the first one, which read the clock in time, is admitted. */
  lemma DeferralIsOvertaken() returns (moves: seq<Move>, move: Move, last: Move)
    ensures
      var s := Run(CONFIG, Initial(CONFIG, 0), moves);
      var s' := Step(CONFIG, s, move);
      && JustRefused(s, s', move.handler)
      && s'.handlers[move.handler].reply == Rejected(CREATE, RejectBudget)
      && 7 !in s'.db.executions
      && 7 in Step(CONFIG, s', last).db.executions
  {
    var s := Initial(CONFIG, 0);
    var late := INPUT.(now := 2_000, provisioningDeadline := 2_000 + PROVISIONING_WINDOW_MS, recordExpiresAt := 2_000 + RECORD_TTL_MS);
    var m1 := [] + [Spawn(1, Execute(CREATE, 0, 5), 10)];
    var h1 := map[1 := Pc.Admitting(INPUT)];
    Begin();
    Spawned(s, [], 1, Execute(CREATE, 0, 5), 10, EMPTY, map[], []);
    moves := m1 + [Spawn(2, Execute(CREATE, 0, 5), 2_000)];
    Spawned(s, m1, 2, Execute(CREATE, 0, 5), 2_000, EMPTY, h1, []);
    var h2 := h1[2 := Pc.Admitting(late)];
    move := Resume(2, 2_000, NOTHING);
    assert F.Admit(AUTH, EMPTY, late) == (EMPTY, BudgetExhausted);
    Resumed(s, moves, 2, 2_000, NOTHING, EMPTY, h2, [], EMPTY, Done(Rejected(CREATE, RejectBudget)));
    assert (moves + [move])[..|moves|] == moves;
    last := Resume(1, 10, NOTHING);
    Admitting();
    var h3 := h2[2 := Done(Rejected(CREATE, RejectBudget))];
    Resumed(s, moves + [move], 1, 10, NOTHING, EMPTY, h3, [], ADMITTED, SendCreate(NEW, Respond(CREATE)));
    assert (moves + [move] + [last])[..|moves + [move]|] == moves + [move];
  }

  // ---------------------------------------------------------------- a claim for an expired record

  /** A request that reaches the store when its record has expired throws: the record still has the version the request
      names, so the claim would be accepted, and its request document would outlive nothing. */
  lemma ExpiredClaimThrows() returns (moves: seq<Move>, move: Move)
    ensures move.Resume?
    ensures
      var s := Run(CONFIG, Initial(CONFIG, 0), moves);
      && move.handler in s.handlers && s.handlers[move.handler].Claiming?
      && F.ClaimInputSchema(s.handlers[move.handler].claim) && F.ClaimAborts(s.db, s.handlers[move.handler].claim)
      && Step(CONFIG, s, move).handlers[move.handler].Thrown?
  {
    var s := Initial(CONFIG, 0);
    var end := 10 + RECORD_TTL_MS;
    var observe := Ask(2, Staging, Observe);
    var claim := ClaimRequestInput(observe, 1, end);
    var m1 := [] + [Spawn(1, Execute(CREATE, 0, 5), 10)];
    var m2 := m1 + [Resume(1, 10, NOTHING)];
    var h2 := map[1 := SendCreate(NEW, Respond(CREATE))];
    Begin();
    Spawned(s, [], 1, Execute(CREATE, 0, 5), 10, EMPTY, map[], []);
    Admitting();
    Resumed(s, m1, 1, 10, NOTHING, EMPTY, map[1 := Pc.Admitting(INPUT)], [], ADMITTED, SendCreate(NEW, Respond(CREATE)));
    Spawned(s, m2, 2, Execute(observe, 1, 5), end, ADMITTED, h2, []);
    moves := m2 + [Spawn(2, Execute(observe, 1, 5), end)];
    move := Resume(2, end, NOTHING);
    assert F.PruneRecent([10], end - RATE_WINDOW_MS) == [] by { assert F.PruneRecent([], end - RATE_WINDOW_MS) == []; assert [10][..0] == []; }
    assert F.Claim(AUTH, ADMITTED, claim) == (ADMITTED, Throws);
  }

  // ---------------------------------------------------------------- a record cleaned under other handlers

  const CLEANUP := Ask(2, Staging, Cleanup)
  const SENT := Touch(CreateClaimed(NEW), 20)
  const MARKED := Touch(CleanupMarked(SENT), 40)
  const CLEANED_UP := Touch(CleanedUp(MARKED), 60)

  /** The create has been claimed, so its handler is about to call the provider. */
  const CLAIMED := ADMITTED.(executions := map[7 := SENT])

  /** The cleanup request has been accepted. */
  const ASKED :=
    F.Database(Document(Some(7), [10, 30], 30), map[7 := SENT],
               map[1 := RememberedRequest(CREATE, 10), 2 := RememberedRequest(CLEANUP, 30)])

  const MARKING := ASKED.(executions := map[7 := MARKED])
  const EMPTIED := ASKED.(environment := Document(None, [10, 30], 60), executions := map[7 := CLEANED_UP])

  lemma Claiming()
    ensures
      Advance(CONFIG, ADMITTED, SendCreate(NEW, Respond(CREATE)), 20, NOTHING) == (CLAIMED, CreatingJob(SENT, Respond(CREATE)))
  {
    assert map[7 := NEW][7 := SENT] == map[7 := SENT];
    assert F.CompareAndSet(AUTH, ADMITTED, 1, SENT) == (CLAIMED, Applied);
  }

  lemma Asking()
    ensures
      Advance(CONFIG, CLAIMED, Pc.Claiming(ClaimRequestInput(CLEANUP, 2, 30)), 30, NOTHING)
      == (ASKED, Updating(SENT, CleanupMarked(SENT), AfterCleanupMark, Respond(CLEANUP)))
  {
    assert [10][..0] == [];
    assert F.PruneRecent([10], 30 - RATE_WINDOW_MS) == [10];
    assert map[1 := RememberedRequest(CREATE, 10)][2 := RememberedRequest(CLEANUP, 30)]
        == map[1 := RememberedRequest(CREATE, 10), 2 := RememberedRequest(CLEANUP, 30)];
    assert [10] + [30] == [10, 30];
    assert F.Claim(AUTH, CLAIMED, ClaimRequestInput(CLEANUP, 2, 30)) == (ASKED, Accepted(SENT));
  }

  lemma Marking()
    ensures
      Advance(CONFIG, ASKED, Updating(SENT, CleanupMarked(SENT), AfterCleanupMark, Respond(CLEANUP)), 40, NOTHING)
      == (MARKING, CleanListing(MARKED, Respond(CLEANUP)))
  {
    assert map[7 := SENT][7 := MARKED] == map[7 := MARKED];
    assert F.CompareAndSet(AUTH, ASKED, 2, MARKED) == (MARKING, Applied);
  }

  lemma Emptying()
    ensures
      Advance(CONFIG, MARKING, Updating(MARKED, CleanedUp(MARKED), AfterReturn, Respond(CLEANUP)), 60, NOTHING)
      == (EMPTIED, Done(Responded(CLEANUP, CLEANED_UP)))
  {
    assert map[7 := MARKED][7 := CLEANED_UP] == map[7 := CLEANED_UP];
    assert F.CompareAndSet(AUTH, MARKING, 3, CLEANED_UP) == (EMPTIED, Applied);
  }

  /** The create handler about to call, the reaper between its two reads, and the cleanup handler where it is. */
  function Three(cleanup: Pc): map<int, Pc> {
    map[1 := CreatingJob(SENT, Respond(CREATE)), 3 := ReapReading(7, 25), 2 := cleanup]
  }

  lemma ReachClaimed() returns (moves: seq<Move>)
    ensures Reached(Run(CONFIG, Initial(CONFIG, 0), moves), CLAIMED, map[1 := CreatingJob(SENT, Respond(CREATE))], [])
    ensures AllQuiet(moves)
  {
    var s := Initial(CONFIG, 0);
    var m1 := [] + [Spawn(1, Execute(CREATE, 0, 5), 10)];
    var m2 := m1 + [Resume(1, 10, NOTHING)];
    var h1, h2 := map[1 := Pc.Admitting(INPUT)], map[1 := SendCreate(NEW, Respond(CREATE))];
    Begin();
    Spawned(s, [], 1, Execute(CREATE, 0, 5), 10, EMPTY, map[], []);
    Admitting();
    Resumed(s, m1, 1, 10, NOTHING, EMPTY, h1, [], ADMITTED, h2[1]);
    Claiming();
    Resumed(s, m2, 1, 20, NOTHING, ADMITTED, h2, [], CLAIMED, CreatingJob(SENT, Respond(CREATE)));
    assert h1[1 := h2[1]] == h2;
    assert h2[1 := CreatingJob(SENT, Respond(CREATE))] == map[1 := CreatingJob(SENT, Respond(CREATE))];
    moves := m2 + [Resume(1, 20, NOTHING)];
  }

  // ---------------------------------------------------------------- a create whose outcome stays unknown

  const LOST_ANSWER := NOTHING.(mutation := MutationUnknown)
  const IN_DOUBT := Touch(CreateUnknown(SENT), 30)

  lemma Doubting()
    ensures Advance(CONFIG, CLAIMED, CreatingJob(SENT, Respond(CREATE)), 30, LOST_ANSWER)
         == (CLAIMED, Updating(SENT, CreateUnknown(SENT), AfterReturn, Respond(CREATE)))
    ensures Advance(CONFIG, CLAIMED, Updating(SENT, CreateUnknown(SENT), AfterReturn, Respond(CREATE)), 30, NOTHING)
         == (CLAIMED.(executions := map[7 := IN_DOUBT]), Done(Responded(CREATE, IN_DOUBT)))
  {
    assert map[7 := SENT][7 := IN_DOUBT] == map[7 := IN_DOUBT];
    assert F.CompareAndSet(AUTH, CLAIMED, 2, IN_DOUBT) == (CLAIMED.(executions := map[7 := IN_DOUBT]), Applied);
  }

  /** The provider's answer to the create call is lost, and the requester is answered that the outcome is unknown. */
  lemma CreateInDoubt() returns (moves: seq<Move>)
    ensures
      var s := Run(CONFIG, Initial(CONFIG, 0), moves);
      && s.db == CLAIMED.(executions := map[7 := IN_DOUBT])
      && s.handlers == map[1 := Done(Responded(CREATE, IN_DOUBT))]
      && s.calls == [Call(7, CallCreateJob(1))]
      && IN_DOUBT.state == CREATE_UNKNOWN && IN_DOUBT.errorCode == Some(UNKNOWN_OUTCOME)
  {
    var s := Initial(CONFIG, 0);
    var m1 := ReachClaimed();
    var h1 := map[1 := CreatingJob(SENT, Respond(CREATE))];
    var h2 := map[1 := Updating(SENT, CreateUnknown(SENT), AfterReturn, Respond(CREATE))];
    Doubting();
    Resumed(s, m1, 1, 30, LOST_ANSWER, CLAIMED, h1, [], CLAIMED, h2[1]);
    assert h1[1 := h2[1]] == h2;
    var m2 := m1 + [Resume(1, 30, LOST_ANSWER)];
    moves := m2 + [Resume(1, 30, NOTHING)];
    Resumed(s, m2, 1, 30, NOTHING, CLAIMED, h2, [Call(7, CallCreateJob(1))], CLAIMED.(executions := map[7 := IN_DOUBT]),
            Done(Responded(CREATE, IN_DOUBT)));
    assert h2[1 := Done(Responded(CREATE, IN_DOUBT))] == map[1 := Done(Responded(CREATE, IN_DOUBT))];
  }

  // ---------------------------------------------------------------- a run intent without a job

  const RECONCILE := Ask(2, Staging, Reconcile)
  const READY_JOB := ProviderJob(5, 1, 1, true)
  const FOUND := NOTHING.(job := JobFound(READY_JOB, true))
  const UNREADABLE := NOTHING.(job := JobUnavailable)
  const LOOKED := Touch(OutcomeUnknown(IN_DOUBT), 60)
  const INTENDED := Touch(RunClaimed(LOOKED), 80)

  const DOUBTED := CLAIMED.(executions := map[7 := IN_DOUBT])
  const RECONCILING :=
    F.Database(Document(Some(7), [10, 40], 40), map[7 := IN_DOUBT],
               map[1 := RememberedRequest(CREATE, 10), 2 := RememberedRequest(RECONCILE, 40)])
  const WATCHED :=
    F.Database(Document(Some(7), [10, 40, 50], 50), map[7 := IN_DOUBT],
               map[1 := RememberedRequest(CREATE, 10), 2 := RememberedRequest(RECONCILE, 40), 3 := RememberedRequest(OBSERVE, 50)])
  const UNREAD := WATCHED.(executions := map[7 := LOOKED])
  const STUCK := WATCHED.(executions := map[7 := INTENDED])

  const SIGHTING := Updating(IN_DOUBT, JobSeen(IN_DOUBT, READY_JOB), AfterJobSeen(true, true), Respond(RECONCILE))
  const DOUBTING := Updating(IN_DOUBT, OutcomeUnknown(IN_DOUBT), AfterReturn, Respond(OBSERVE))
  const REREADING := Reloading(IN_DOUBT, AfterJobSeen(true, true), Respond(RECONCILE))
  const INTENDING := Updating(LOOKED, RunClaimed(LOOKED), AfterRunClaim, Respond(RECONCILE))

  lemma AskingToReconcile()
    ensures Advance(CONFIG, DOUBTED, Pc.Claiming(ClaimRequestInput(RECONCILE, 3, 40)), 40, NOTHING)
         == (RECONCILING, GettingJob(IN_DOUBT, None, true, Respond(RECONCILE)))
  {
    assert [10][..0] == [];
    assert F.PruneRecent([10], 40 - RATE_WINDOW_MS) == [10];
    assert map[1 := RememberedRequest(CREATE, 10)][2 := RememberedRequest(RECONCILE, 40)]
        == map[1 := RememberedRequest(CREATE, 10), 2 := RememberedRequest(RECONCILE, 40)];
    assert [10] + [40] == [10, 40];
    assert F.Claim(AUTH, DOUBTED, ClaimRequestInput(RECONCILE, 3, 40)) == (RECONCILING, Accepted(IN_DOUBT));
  }

  lemma AskingToObserve()
    ensures Advance(CONFIG, RECONCILING, Pc.Claiming(ClaimRequestInput(OBSERVE, 3, 50)), 50, NOTHING)
         == (WATCHED, GettingJob(IN_DOUBT, None, false, Respond(OBSERVE)))
  {
    assert [10][..0] == [] && [10, 40][..1] == [10];
    assert F.PruneRecent([10], 50 - RATE_WINDOW_MS) == [10];
    assert F.PruneRecent([10, 40], 50 - RATE_WINDOW_MS) == [10, 40];
    assert map[1 := RememberedRequest(CREATE, 10), 2 := RememberedRequest(RECONCILE, 40)][3 := RememberedRequest(OBSERVE, 50)]
        == map[1 := RememberedRequest(CREATE, 10), 2 := RememberedRequest(RECONCILE, 40), 3 := RememberedRequest(OBSERVE, 50)];
    assert [10, 40] + [50] == [10, 40, 50];
    assert F.Claim(AUTH, RECONCILING, ClaimRequestInput(OBSERVE, 3, 50)) == (WATCHED, Accepted(IN_DOUBT));
  }

  lemma Arriving()
    ensures Start(CONFIG, Execute(RECONCILE, 3, 5), 40) == Pc.Claiming(ClaimRequestInput(RECONCILE, 3, 40))
    ensures Start(CONFIG, Execute(OBSERVE, 3, 5), 50) == Pc.Claiming(ClaimRequestInput(OBSERVE, 3, 50))
  {
  }

  lemma Looking()
    ensures Advance(CONFIG, RECONCILING, GettingJob(IN_DOUBT, None, true, Respond(RECONCILE)), 45, FOUND) == (RECONCILING, SIGHTING)
    ensures Advance(CONFIG, WATCHED, GettingJob(IN_DOUBT, None, false, Respond(OBSERVE)), 55, UNREADABLE) == (WATCHED, DOUBTING)
    ensures Advance(CONFIG, UNREAD, REREADING, 70, NOTHING) == (UNREAD, ListingForRun(LOOKED, Respond(RECONCILE)))
    ensures Advance(CONFIG, UNREAD, ListingForRun(LOOKED, Respond(RECONCILE)), 75, NOTHING) == (UNREAD, INTENDING)
  {
  }

  lemma Overtaking()
    ensures Advance(CONFIG, WATCHED, DOUBTING, 60, NOTHING) == (UNREAD, Done(Responded(OBSERVE, LOOKED)))
    ensures Advance(CONFIG, UNREAD, SIGHTING, 65, NOTHING) == (UNREAD, REREADING)
  {
    assert map[7 := IN_DOUBT][7 := LOOKED] == map[7 := LOOKED];
    assert F.CompareAndSet(AUTH, WATCHED, 3, LOOKED) == (UNREAD, Applied);
  }

  lemma Intending()
    ensures Advance(CONFIG, UNREAD, INTENDING, 80, NOTHING) == (STUCK, Done(Responded(RECONCILE, INTENDED)))
  {
    assert map[7 := LOOKED][7 := INTENDED] == map[7 := INTENDED];
    assert F.CompareAndSet(AUTH, UNREAD, 4, INTENDED) == (STUCK, Applied);
  }

  function TwoHandlers(second: Pc): map<int, Pc> {
    map[1 := Done(Responded(CREATE, IN_DOUBT)), 2 := second]
  }

  function ThreeHandlers(second: Pc, third: Pc): map<int, Pc> {
    map[1 := Done(Responded(CREATE, IN_DOUBT)), 2 := second, 3 := third]
  }

  lemma HandlersMove(second: Pc, third: Pc, other: Pc)
    ensures TwoHandlers(second)[2 := other] == TwoHandlers(other) && 2 in TwoHandlers(second) && TwoHandlers(second)[2] == second
    ensures 3 !in TwoHandlers(second) && TwoHandlers(second)[3 := third] == ThreeHandlers(second, third)
    ensures ThreeHandlers(second, third)[2 := other] == ThreeHandlers(other, third)
    ensures ThreeHandlers(second, third)[3 := other] == ThreeHandlers(second, other)
    ensures ThreeHandlers(second, third).Keys == {1, 2, 3}
    ensures ThreeHandlers(second, third)[2] == second && ThreeHandlers(second, third)[3] == third
  {
  }

  /** The second handler moves on, the others stay. */
  lemma SecondMoves(moves: seq<Move>, now: Time, answer: Answer, db: F.Database, second: Pc, third: Pc, calls: seq<Call>,
                    db': F.Database, second': Pc)
    requires Reached(Run(CONFIG, Initial(CONFIG, 0), moves), db, ThreeHandlers(second, third), calls)
    requires Advance(CONFIG, db, second, now, answer) == (db', second')
    ensures Reached(Run(CONFIG, Initial(CONFIG, 0), moves + [Resume(2, now, answer)]), db', ThreeHandlers(second', third),
                    calls + (if Pending(second).Some? then [Pending(second).value] else []))
  {
    hide Run, Advance, Reached;
    HandlersMove(second, third, second');
    Resumed(Initial(CONFIG, 0), moves, 2, now, answer, db, ThreeHandlers(second, third), calls, db', second');
  }

  lemma ThirdMoves(moves: seq<Move>, now: Time, answer: Answer, db: F.Database, second: Pc, third: Pc, calls: seq<Call>,
                   db': F.Database, third': Pc)
    requires Reached(Run(CONFIG, Initial(CONFIG, 0), moves), db, ThreeHandlers(second, third), calls)
    requires Advance(CONFIG, db, third, now, answer) == (db', third')
    ensures Reached(Run(CONFIG, Initial(CONFIG, 0), moves + [Resume(3, now, answer)]), db', ThreeHandlers(second, third'),
                    calls + (if Pending(third).Some? then [Pending(third).value] else []))
  {
    hide Run, Advance, Reached;
    HandlersMove(second, third, third');
    Resumed(Initial(CONFIG, 0), moves, 3, now, answer, db, ThreeHandlers(second, third), calls, db', third');
  }

  lemma ReachDoubted() returns (moves: seq<Move>)
    ensures Reached(Run(CONFIG, Initial(CONFIG, 0), moves), DOUBTED, map[1 := Done(Responded(CREATE, IN_DOUBT))],
                    [Call(7, CallCreateJob(1))])
  {
    moves := CreateInDoubt();
    hide Run;
  }

  /** The reconcile has found its job ready and is about to note it; an observe of the same record has been accepted. */
  lemma ReachNoting() returns (moves: seq<Move>)
    ensures Reached(Run(CONFIG, Initial(CONFIG, 0), moves), RECONCILING,
                    ThreeHandlers(SIGHTING, Pc.Claiming(ClaimRequestInput(OBSERVE, 3, 50))),
                    [Call(7, CallCreateJob(1)), Call(7, CallGetJob)])
  {
    var s := Initial(CONFIG, 0);
    var m := ReachDoubted();
    var one: map<int, Pc> := map[1 := Done(Responded(CREATE, IN_DOUBT))];
    var asked, reading := Pc.Claiming(ClaimRequestInput(RECONCILE, 3, 40)), GettingJob(IN_DOUBT, None, true, Respond(RECONCILE));
    var log := [Call(7, CallCreateJob(1))];
    AskingToReconcile();
    Looking();
    Arriving();
    hide Run, Advance, Reached, Start;
    Spawned(s, m, 2, Execute(RECONCILE, 3, 5), 40, DOUBTED, one, log);
    assert one[2 := asked] == TwoHandlers(asked);
    var m1 := m + [Spawn(2, Execute(RECONCILE, 3, 5), 40)];
    HandlersMove(asked, asked, reading);
    HandlersMove(reading, asked, SIGHTING);
    HandlersMove(SIGHTING, Pc.Claiming(ClaimRequestInput(OBSERVE, 3, 50)), SIGHTING);
    Resumed(s, m1, 2, 40, NOTHING, DOUBTED, TwoHandlers(asked), log, RECONCILING, reading);
    assert log + [] == log;
    var m2 := m1 + [Resume(2, 40, NOTHING)];
    Resumed(s, m2, 2, 45, FOUND, RECONCILING, TwoHandlers(reading), log, RECONCILING, SIGHTING);
    assert log + [Call(7, CallGetJob)] == [Call(7, CallCreateJob(1)), Call(7, CallGetJob)];
    var m3 := m2 + [Resume(2, 45, FOUND)];
    Spawned(s, m3, 3, Execute(OBSERVE, 3, 5), 50, RECONCILING, TwoHandlers(SIGHTING), log + [Call(7, CallGetJob)]);
    moves := m3 + [Spawn(3, Execute(OBSERVE, 3, 5), 50)];
  }

  /** The observe cannot read the job and says so in the record, before the reconcile writes. */
  lemma ReachOvertaken() returns (moves: seq<Move>)
    ensures Reached(Run(CONFIG, Initial(CONFIG, 0), moves), UNREAD,
                    ThreeHandlers(SIGHTING, Done(Responded(OBSERVE, LOOKED))),
                    [Call(7, CallCreateJob(1)), Call(7, CallGetJob), Call(7, CallGetJob)])
  {
    var m := ReachNoting();
    var asked, reading := Pc.Claiming(ClaimRequestInput(OBSERVE, 3, 50)), GettingJob(IN_DOUBT, None, false, Respond(OBSERVE));
    var log := [Call(7, CallCreateJob(1)), Call(7, CallGetJob)];
    AskingToObserve();
    Looking();
    Overtaking();
    hide Run, Advance, Reached;
    assert log + [] == log;
    ThirdMoves(m, 50, NOTHING, RECONCILING, SIGHTING, asked, log, WATCHED, reading);
    var m1 := m + [Resume(3, 50, NOTHING)];
    ThirdMoves(m1, 55, UNREADABLE, WATCHED, SIGHTING, reading, log, WATCHED, DOUBTING);
    var m2, log2 := m1 + [Resume(3, 55, UNREADABLE)], log + [Call(7, CallGetJob)];
    assert log2 + [] == log2 == [Call(7, CallCreateJob(1)), Call(7, CallGetJob), Call(7, CallGetJob)];
    ThirdMoves(m2, 60, NOTHING, WATCHED, SIGHTING, DOUBTING, log2, UNREAD, Done(Responded(OBSERVE, LOOKED)));
    moves := m2 + [Resume(3, 60, NOTHING)];
  }

  /** So the reconcile loses its write, goes on with a record that names no job, lists nothing and stores the run intent. */
  lemma ReachStuck() returns (moves: seq<Move>)
    ensures Reached(Run(CONFIG, Initial(CONFIG, 0), moves), STUCK,
                    ThreeHandlers(Done(Responded(RECONCILE, INTENDED)), Done(Responded(OBSERVE, LOOKED))),
                    [Call(7, CallCreateJob(1)), Call(7, CallGetJob), Call(7, CallGetJob), Call(7, CallListExecutions)])
  {
    var m := ReachOvertaken();
    var listing, watched := ListingForRun(LOOKED, Respond(RECONCILE)), Done(Responded(OBSERVE, LOOKED));
    var log := [Call(7, CallCreateJob(1)), Call(7, CallGetJob), Call(7, CallGetJob)];
    Looking();
    Overtaking();
    Intending();
    hide Run, Advance, Reached;
    assert log + [] == log;
    SecondMoves(m, 65, NOTHING, UNREAD, SIGHTING, watched, log, UNREAD, REREADING);
    var m1 := m + [Resume(2, 65, NOTHING)];
    SecondMoves(m1, 70, NOTHING, UNREAD, REREADING, watched, log, UNREAD, listing);
    var m2 := m1 + [Resume(2, 70, NOTHING)];
    SecondMoves(m2, 75, NOTHING, UNREAD, listing, watched, log, UNREAD, INTENDING);
    var m3, log2 := m2 + [Resume(2, 75, NOTHING)], log + [Call(7, CallListExecutions)];
    assert log2 + [] == log2
        == [Call(7, CallCreateJob(1)), Call(7, CallGetJob), Call(7, CallGetJob), Call(7, CallListExecutions)];
    SecondMoves(m3, 80, NOTHING, UNREAD, INTENDING, watched, log2, STUCK, Done(Responded(RECONCILE, INTENDED)));
    moves := m3 + [Resume(2, 80, NOTHING)];
  }

  /** A ready job that nobody has run and nobody is about to run, under a record that has its run intent. */
  lemma IntentWithoutJob() returns (moves: seq<Move>)
    ensures
      var s := Run(CONFIG, Initial(CONFIG, 0), moves);
      && s.handlers.Keys == {1, 2, 3} && (forall i :: i in s.handlers ==> s.handlers[i].Done?)
      && 7 in s.db.executions && s.db.executions[7] == INTENDED && INTENDED.runIntent && INTENDED.job == None
      && (forall k :: 0 <= k < |s.calls| ==> s.calls[k] != Call(7, CallRunJob))
  {
    moves := ReachStuck();
    HandlersMove(Done(Responded(RECONCILE, INTENDED)), Done(Responded(OBSERVE, LOOKED)), Done(Responded(OBSERVE, LOOKED)));
    hide Run;
  }

  // ---------------------------------------------------------------- towards CLEANED

  lemma Finding()
    ensures Advance(CONFIG, CLAIMED, ReapFindingActive(25), 25, NOTHING) == (CLAIMED, ReapReading(7, 25))
  {
  }

  lemma ReachAsking() returns (moves: seq<Move>)
    ensures Reached(Run(CONFIG, Initial(CONFIG, 0), moves), CLAIMED, Three(Pc.Claiming(ClaimRequestInput(CLEANUP, 2, 30))), [])
    ensures AllQuiet(moves)
  {
    hide Reached, Run, Advance;
    var s := Initial(CONFIG, 0);
    var none: seq<Call> := [];
    assert none + none == none;
    var h3 := map[1 := CreatingJob(SENT, Respond(CREATE))];
    var m3 := ReachClaimed();
    Spawned(s, m3, 3, ReapTick(Staging), 25, CLAIMED, h3, []);
    var m4 := m3 + [Spawn(3, ReapTick(Staging), 25)];
    var h4 := h3[3 := ReapFindingActive(25)];
    Finding();
    Resumed(s, m4, 3, 25, NOTHING, CLAIMED, h4, [], CLAIMED, ReapReading(7, 25));
    var m5 := m4 + [Resume(3, 25, NOTHING)];
    var h5 := h4[3 := ReapReading(7, 25)];
    Spawned(s, m5, 2, Execute(CLEANUP, 2, 5), 30, CLAIMED, h5, []);
    moves := m5 + [Spawn(2, Execute(CLEANUP, 2, 5), 30)];
    assert h5[2 := Pc.Claiming(ClaimRequestInput(CLEANUP, 2, 30))] == Three(Pc.Claiming(ClaimRequestInput(CLEANUP, 2, 30)));
  }

  /** One await of the cleanup handler. */
  lemma CleanupResumed(moves: seq<Move>, now: Time, db: F.Database, pc: Pc, calls: seq<Call>, db': F.Database, pc': Pc)
    requires Reached(Run(CONFIG, Initial(CONFIG, 0), moves), db, Three(pc), calls)
    requires Advance(CONFIG, db, pc, now, NOTHING) == (db', pc')
    ensures Reached(Run(CONFIG, Initial(CONFIG, 0), moves + [Resume(2, now, NOTHING)]), db', Three(pc'),
                    calls + (if Pending(pc).Some? then [Pending(pc).value] else []))
  {
    hide Advance, Run, Pending;
    Resumed(Initial(CONFIG, 0), moves, 2, now, NOTHING, db, Three(pc), calls, db', pc');
    assert Three(pc)[2 := pc'] == Three(pc');
  }

  lemma ReachListing() returns (moves: seq<Move>)
    ensures Reached(Run(CONFIG, Initial(CONFIG, 0), moves), MARKING, Three(CleanListing(MARKED, Respond(CLEANUP))), [])
    ensures AllQuiet(moves)
  {
    hide Reached, Run, Advance, Three;
    var none: seq<Call> := [];
    assert none + none == none;
    var marking := Updating(SENT, CleanupMarked(SENT), AfterCleanupMark, Respond(CLEANUP));
    var m6 := ReachAsking();
    Asking();
    CleanupResumed(m6, 30, CLAIMED, Pc.Claiming(ClaimRequestInput(CLEANUP, 2, 30)), [], ASKED, marking);
    Marking();
    CleanupResumed(m6 + [Resume(2, 30, NOTHING)], 40, ASKED, marking, [], MARKING, CleanListing(MARKED, Respond(CLEANUP)));
    moves := m6 + [Resume(2, 30, NOTHING)] + [Resume(2, 40, NOTHING)];
  }

  /** The provider has nothing yet, so every read of the cleanup finds it empty. */
  lemma FindingNothing()
    ensures
      var ret := Respond(CLEANUP);
      && Advance(CONFIG, MARKING, CleanListing(MARKED, ret), 50, NOTHING) == (MARKING, CleanGettingJob(MARKED, ret))
      && Advance(CONFIG, MARKING, CleanGettingJob(MARKED, ret), 50, NOTHING) == (MARKING, CleanRelisting(MARKED, ret))
      && Advance(CONFIG, MARKING, CleanRelisting(MARKED, ret), 50, NOTHING) == (MARKING, CleanRereadingJob(MARKED, true, ret))
      && Advance(CONFIG, MARKING, CleanRereadingJob(MARKED, true, ret), 50, NOTHING)
         == (MARKING, Updating(MARKED, CleanedUp(MARKED), AfterReturn, ret))
  {
  }

  /** The cleanup has read everything and goes to write CLEANED. */
  const WRITING := Updating(MARKED, CleanedUp(MARKED), AfterReturn, Respond(CLEANUP))

  lemma ReachWriting() returns (moves: seq<Move>, calls: seq<Call>)
    ensures Reached(Run(CONFIG, Initial(CONFIG, 0), moves), MARKING, Three(WRITING), calls)
    ensures AllQuiet(moves)
    ensures calls == [Call(7, CallListExecutions), Call(7, CallGetJob), Call(7, CallListExecutions), Call(7, CallGetJob)]
  {
    hide Reached, Run, Advance, Three;
    var ret, again := Respond(CLEANUP), [Resume(2, 50, NOTHING)];
    var m8 := ReachListing();
    FindingNothing();
    CleanupResumed(m8, 50, MARKING, CleanListing(MARKED, ret), [], MARKING, CleanGettingJob(MARKED, ret));
    var c1 := [] + [Call(7, CallListExecutions)];
    CleanupResumed(m8 + again, 50, MARKING, CleanGettingJob(MARKED, ret), c1, MARKING, CleanRelisting(MARKED, ret));
    var c2 := c1 + [Call(7, CallGetJob)];
    CleanupResumed(m8 + again + again, 50, MARKING, CleanRelisting(MARKED, ret), c2, MARKING, CleanRereadingJob(MARKED, true, ret));
    var c3 := c2 + [Call(7, CallListExecutions)];
    CleanupResumed(m8 + again + again + again, 50, MARKING, CleanRereadingJob(MARKED, true, ret), c3, MARKING, WRITING);
    calls := c3 + [Call(7, CallGetJob)];
    moves := m8 + again + again + again + again;
  }

  lemma ReachCleaned() returns (moves: seq<Move>, calls: seq<Call>)
    ensures Reached(Run(CONFIG, Initial(CONFIG, 0), moves), EMPTIED, Three(Done(Responded(CLEANUP, CLEANED_UP))), calls)
  {
    hide Reached, Run, Advance, Three;
    var reading;
    reading, calls := ReachWriting();
    Emptying();
    CleanupResumed(reading, 60, MARKING, WRITING, calls, EMPTIED, Done(Responded(CLEANUP, CLEANED_UP)));
    moves := reading + [Resume(2, 60, NOTHING)];
    assert calls + [] == calls;
  }

  /** A create claims its attempt and is slow to call; a cleanup meanwhile finds the provider empty and writes CLEANED; then
      the create call is made after all. */
  lemma CreateCallAfterCleaned() returns (moves: seq<Move>, move: Move)
    ensures
      var s := Run(CONFIG, Initial(CONFIG, 0), moves);
      && IsCleaned(s.db, 7) && About(s, move.handler, 7)
      && Step(CONFIG, s, move).calls == s.calls + [Call(7, CallCreateJob(1))]
  {
    var calls;
    moves, calls := ReachCleaned();
    move := Resume(1, 70, NOTHING);
  }

  /** The reaper read the environment document while the record was active and reads the record once it is CLEANED. */
  lemma ReaperThrows() returns (moves: seq<Move>, move: Move)
    ensures move.Resume?
    ensures
      var s := Run(CONFIG, Initial(CONFIG, 0), moves);
      && move.handler in s.handlers && s.handlers[move.handler].ReapReading?
      && IsCleaned(s.db, s.handlers[move.handler].handle)
      && Step(CONFIG, s, move).handlers[move.handler].Thrown?
  {
    var calls;
    moves, calls := ReachCleaned();
    move := Resume(3, 70, NOTHING);
  }

  // ---------------------------------------------------------------- a job created between the read-back and CLEANED

  const ACCEPTED := Answer(MutationAccepted(90), OperationNotFailed, JobUnavailable, ExecutionsUnavailable, 0, 0)
  const HELD := World(map[5 := ProviderJob(5, 1, 0, false)], map[])

  /** What the create handler does once its call was accepted. */
  const ANSWERED := Updating(SENT, CreateAnswered(SENT, MutationAccepted(90)), AfterReturn, Respond(CREATE))

  function Crossed(cleanup: Pc): map<int, Pc> {
    map[1 := ANSWERED, 3 := ReapReading(7, 25), 2 := cleanup]
  }

  lemma Creating()
    ensures Advance(CONFIG, MARKING, CreatingJob(SENT, Respond(CREATE)), 55, ACCEPTED) == (MARKING, ANSWERED)
    ensures Pending(CreatingJob(SENT, Respond(CREATE))) == Some(Call(7, CallCreateJob(1))) && Pending(WRITING) == None
  {
  }

  lemma CrossedIs(cleanup: Pc)
    ensures Three(cleanup)[1 := ANSWERED] == Crossed(cleanup)
    ensures Three(cleanup).Keys == {1, 2, 3} && Three(cleanup)[1] == CreatingJob(SENT, Respond(CREATE))
    ensures Crossed(WRITING)[2 := cleanup] == Crossed(cleanup)
    ensures Crossed(cleanup).Keys == {1, 2, 3} && Crossed(cleanup)[2] == cleanup
  {
  }

  lemma ReachCrossed(moves: seq<Move>, calls: seq<Call>)
    requires Reached(Run(CONFIG, Initial(CONFIG, 0), moves), MARKING, Three(WRITING), calls)
    ensures Reached(Run(CONFIG, Initial(CONFIG, 0), moves + [Resume(1, 55, ACCEPTED)]), MARKING, Crossed(WRITING),
                    calls + [Call(7, CallCreateJob(1))])
    ensures Reached(Run(CONFIG, Initial(CONFIG, 0), moves + [Resume(1, 55, ACCEPTED)] + [Resume(2, 60, NOTHING)]),
                    EMPTIED, Crossed(Done(Responded(CLEANUP, CLEANED_UP))), calls + [Call(7, CallCreateJob(1))])
  {
    hide Run, Advance, Reached, Three, Crossed, Pending, Initial;
    var s, done := Initial(CONFIG, 0), Done(Responded(CLEANUP, CLEANED_UP));
    Creating();
    Emptying();
    CrossedIs(WRITING);
    CrossedIs(done);
    Resumed(s, moves, 1, 55, ACCEPTED, MARKING, Three(WRITING), calls, MARKING, ANSWERED);
    var more := calls + [Call(7, CallCreateJob(1))];
    Resumed(s, moves + [Resume(1, 55, ACCEPTED)], 2, 60, NOTHING, MARKING, Crossed(WRITING), more, EMPTIED, done);
    assert more + [] == more;
  }

  lemma HoldsTheJob(s: Sys, calls: seq<Call>)
    requires Reached(s, MARKING, Three(WRITING), calls)
    ensures Allowed(JOB_OF, s, VOID, Beat(Resume(1, 55, ACCEPTED), HELD))
  {
  }

  lemma KeepsTheJob(s: Sys, calls: seq<Call>)
    requires Reached(s, MARKING, Crossed(WRITING), calls)
    ensures Allowed(JOB_OF, s, HELD, Beat(Resume(2, 60, NOTHING), HELD))
  {
  }

  lemma CleanedAndCalled(s: Sys, calls: seq<Call>)
    requires Reached(s, EMPTIED, Crossed(Done(Responded(CLEANUP, CLEANED_UP))), calls)
    ensures IsCleaned(s.db, 7) && s.db.executions[7].jobId == 5 && NobodyAbout(s, 7)
  {
  }

  lemma JobIsHeld()
    ensures !HELD.Empty(5)
  {
  }

  /** The create call is made after the cleanup has read back an empty provider and before its CLEANED is written: the write
      applies, nobody is about to call any more, and the provider holds the job of a CLEANED record. */
  lemma JobBesideCleaned() returns (beats: seq<Beat>)
    ensures Provided(JOB_OF, CONFIG, Initial(CONFIG, 0), VOID, beats)
    ensures
      var s := SysAfter(CONFIG, Initial(CONFIG, 0), beats);
      && IsCleaned(s.db, 7) && s.db.executions[7].jobId == 5 && NobodyAbout(s, 7)
      && s.calls == [Call(7, CallListExecutions), Call(7, CallGetJob), Call(7, CallListExecutions), Call(7, CallGetJob),
                     Call(7, CallCreateJob(1))]
      && !WorldAfter(VOID, beats).Empty(5)
  {
    hide Run, Provided, Allowed, SysAfter, Quiet, Step, NobodyAbout, IsCleaned, Three, Crossed, World.Empty, Initial, Moves;
    var start := Initial(CONFIG, 0);
    var moves, calls := ReachWriting();
    ReachCrossed(moves, calls);
    QuietRun(JOB_OF, CONFIG, 0, moves);
    var call, write := Beat(Resume(1, 55, ACCEPTED), HELD), Beat(Resume(2, 60, NOTHING), HELD);
    HoldsTheJob(SysAfter(CONFIG, start, Still(moves)), calls);
    Appended(JOB_OF, CONFIG, start, VOID, Still(moves), call);
    SysAfterMoves(Still(moves) + [call], moves + [call.move]);
    KeepsTheJob(SysAfter(CONFIG, start, Still(moves) + [call]), calls + [Call(7, CallCreateJob(1))]);
    Appended(JOB_OF, CONFIG, start, VOID, Still(moves) + [call], write);
    beats := Still(moves) + [call] + [write];
    SysAfterMoves(beats, moves + [call.move] + [write.move]);
    CleanedAndCalled(SysAfter(CONFIG, start, beats), calls + [Call(7, CallCreateJob(1))]);
    JobIsHeld();
  }

  lemma SysAfterMoves(beats: seq<Beat>, moves: seq<Move>)
    requires |beats| == |moves| && forall k :: 0 <= k < |beats| ==> beats[k].move == moves[k]
    ensures SysAfter(CONFIG, Initial(CONFIG, 0), beats) == Run(CONFIG, Initial(CONFIG, 0), moves)
  {
    hide Run;
    assert Moves(beats) == moves;
  }

  // ---------------------------------------------------------------- an observe of a CLEANED record

  const OBSERVE := Ask(3, Staging, Observe)

  const OBSERVED :=
    F.Database(Document(None, [10, 30, 70], 70), map[7 := CLEANED_UP],
               map[1 := RememberedRequest(CREATE, 10), 2 := RememberedRequest(CLEANUP, 30), 3 := RememberedRequest(OBSERVE, 70)])

  /** The observer has found no job and goes to note that. */
  const NOTING := Updating(CLEANED_UP, CreateUnknown(CLEANED_UP), AfterReturn, Respond(OBSERVE))

  lemma Observing()
    ensures
      Advance(CONFIG, EMPTIED, Pc.Claiming(ClaimRequestInput(OBSERVE, 4, 70)), 70, NOTHING)
      == (OBSERVED, GettingJob(CLEANED_UP, None, false, Respond(OBSERVE)))
    ensures Advance(CONFIG, OBSERVED, GettingJob(CLEANED_UP, None, false, Respond(OBSERVE)), 75, NOTHING) == (OBSERVED, NOTING)
  {
    assert [10][..0] == [] && [10, 30][..1] == [10];
    assert F.PruneRecent([10, 30], 70 - RATE_WINDOW_MS) == [10, 30] by { assert F.PruneRecent([10], 70 - RATE_WINDOW_MS) == [10]; }
    assert map[1 := RememberedRequest(CREATE, 10), 2 := RememberedRequest(CLEANUP, 30)][3 := RememberedRequest(OBSERVE, 70)]
        == map[1 := RememberedRequest(CREATE, 10), 2 := RememberedRequest(CLEANUP, 30), 3 := RememberedRequest(OBSERVE, 70)];
    assert [10, 30] + [70] == [10, 30, 70];
    assert F.Claim(AUTH, EMPTIED, ClaimRequestInput(OBSERVE, 4, 70)) == (OBSERVED, Accepted(CLEANED_UP));
  }

  lemma Swapping()
    ensures
      var next := Touch(CreateUnknown(CLEANED_UP), 80);
      && F.CompareAndSet(AUTH, OBSERVED, 4, next).1 == Lost
      && M.CompareAndSet(M.State(OBSERVED.executions, OBSERVED.requests), 4, next).1 == Applied
  {
  }

  /** An observer of a CLEANED record finds no job and notes that its create is of unknown outcome.  The durable store
      refuses the write; the in-memory store, holding the same records and requests, takes the record out of CLEANED. */
  lemma CleanedIsOverwritten() returns (moves: seq<Move>, i: int)
    ensures
      var s := Run(CONFIG, Initial(CONFIG, 0), moves);
      && IsCleaned(s.db, 7) && i in s.handlers && s.handlers[i].Updating? && s.handlers[i].base == s.db.executions[7]
      && var next := Touch(s.handlers[i].changed, 80);
         && next.state == CREATE_UNKNOWN
         && F.CompareAndSet(AUTH, s.db, s.handlers[i].base.version, next).1 == Lost
         && M.CompareAndSet(M.State(s.db.executions, s.db.requests), s.handlers[i].base.version, next).1 == Applied
  {
    var s, done := Initial(CONFIG, 0), Done(Responded(CLEANUP, CLEANED_UP));
    var cleaned, calls := ReachCleaned();
    Observing();
    Swapping();
    hide Run, Advance, Three, F.CompareAndSet, M.CompareAndSet;
    var claiming := Pc.Claiming(ClaimRequestInput(OBSERVE, 4, 70));
    var getting := GettingJob(CLEANED_UP, None, false, Respond(OBSERVE));
    assert 4 !in Three(done) by { ThreeOnly(done); }
    Spawned(s, cleaned, 4, Execute(OBSERVE, 4, 5), 70, EMPTIED, Three(done), calls);
    var m1 := cleaned + [Spawn(4, Execute(OBSERVE, 4, 5), 70)];
    Resumed(s, m1, 4, 70, NOTHING, EMPTIED, Three(done)[4 := claiming], calls, OBSERVED, getting);
    var m2 := m1 + [Resume(4, 70, NOTHING)];
    Resumed(s, m2, 4, 75, NOTHING, OBSERVED, Three(done)[4 := claiming][4 := getting], calls + [], OBSERVED, NOTING);
    moves, i := m2 + [Resume(4, 75, NOTHING)], 4;
  }

  lemma ThreeOnly(pc: Pc)
    ensures Three(pc).Keys == {1, 2, 3}
  {
  }
}

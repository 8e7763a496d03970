/** One handler on its own: the machine's steps of a single handler with nobody in between, as a run of awaits. */
module ControllerSolo {
  import opened ControllerTypes
  import opened ControllerPolicy
  import M = ControllerMachine
  import F = FirestoreStore

  /** What one await meets: the clock and what the provider answers. */
  datatype Tick = Tick(now: Time, answer: M.Answer)

  /** The store and the handler after these awaits. */
  function Solo(c: M.Config, db: F.Database, pc: M.Pc, ticks: seq<Tick>): (F.Database, M.Pc) {
    if ticks == [] then (db, pc)
    else
      var (db', pc') := Solo(c, db, pc, ticks[..|ticks| - 1]);
      var last := ticks[|ticks| - 1];
      M.Advance(c, db', pc', last.now, last.answer)
  }

  lemma SoloMore(c: M.Config, db: F.Database, pc: M.Pc, ticks: seq<Tick>, tick: Tick)
    ensures
      var (db', pc') := Solo(c, db, pc, ticks);
      Solo(c, db, pc, ticks + [tick]) == M.Advance(c, db', pc', tick.now, tick.answer)
  {
    assert (ticks + [tick])[..|ticks|] == ticks;
  }

  function MovesOf(handler: int, ticks: seq<Tick>): seq<M.Move> {
    if ticks == [] then []
    else
      var last := ticks[|ticks| - 1];
      MovesOf(handler, ticks[..|ticks| - 1]) + [M.Resume(handler, last.now, last.answer)]
  }

  /** Running on its own is one of the ways in which a handler of the whole system can run. */
  lemma {:induction false} SoloIsRun(c: M.Config, s: M.Sys, handler: int, ticks: seq<Tick>)
    requires handler in s.handlers
    ensures
      var s' := M.Run(c, s, MovesOf(handler, ticks));
      && handler in s'.handlers
      && (s'.db, s'.handlers[handler]) == Solo(c, s.db, s.handlers[handler], ticks)
      && s'.handlers == s.handlers[handler := s'.handlers[handler]]
  {
    if ticks != [] {
      var before := MovesOf(handler, ticks[..|ticks| - 1]);
      SoloIsRun(c, s, handler, ticks[..|ticks| - 1]);
      assert MovesOf(handler, ticks)[..|before|] == before;
    }
  }

  /** So a request or tick that is handled with nobody in between is, in any state of the system, a run of the system:
      spawning the handler and resuming it once per await. */
  lemma {:induction false} HandledIsRun(c: M.Config, s: M.Sys, handler: int, incoming: M.Incoming, at: Time, ticks: seq<Tick>)
    requires handler !in s.handlers
    ensures
      var s' := M.Run(c, M.Step(c, s, M.Spawn(handler, incoming, at)), MovesOf(handler, ticks));
      && handler in s'.handlers
      && (s'.db, s'.handlers[handler]) == Solo(c, s.db, M.Start(c, incoming, at), ticks)
      && (forall other :: other in s.handlers ==> other in s'.handlers && s'.handlers[other] == s.handlers[other])
  {
    SoloIsRun(c, M.Step(c, s, M.Spawn(handler, incoming, at)), handler, ticks);
  }

  /** No answer at all; the fields that an await asks for are filled in. */
  const SILENCE := M.Answer(MutationUnknown, OperationNotFailed, JobUnavailable, ExecutionsUnavailable, 0, 0)

  /** A record that is stored can be read again after a lost compare-and-set. */
  lemma ReloadsStored(c: M.Config, db: F.Database, record: ControlRecord, after: M.After, ret: M.Ret)
    requires F.Inv(c.auth, db) && record.executionHandle in db.executions
    ensures M.Reload(c, db, record, after, ret)
         == M.Continue(db.executions[record.executionHandle], false, after, ret)
  {
  }
}

/** The sliding one-minute window over accepted requests, judged from the pruned list the environment
    document keeps. */
module RateWindow {
  import opened ControllerTypes
  import opened Sets
  import F = FirestoreStore

  predicate Ordered(times: seq<Time>) {
    forall i, j :: 0 <= i <= j < |times| ==> times[i] <= times[j]
  }

  function OpTime(op: F.Op, clock: Time): Time {
    match op
    case AdmitOp(input) => input.now
    case ClaimOp(input) => input.now
    case CasOp(_, _) => clock
  }

  /** The clock never runs backwards along the run; returns false otherwise. */
  predicate ClockOrdered(clock: Time, ops: seq<F.Op>)
    decreases ops
  {
    ops == [] || (clock <= OpTime(ops[0], clock) && ClockOrdered(OpTime(ops[0], clock), ops[1..]))
  }

  function AcceptTime(op: F.Op, result: F.Result): seq<Time> {
    match (op, result)
    case (AdmitOp(input), StoreResult(Accepted(_))) => [input.now]
    case (ClaimOp(input), StoreResult(Accepted(_))) => [input.now]
    case _ => []
  }

  /** The times at which the run accepted a request, oldest first, appended to `log`. */
  function AcceptLog(auth: Authorization, db: F.Database, ops: seq<F.Op>, log: seq<Time>): seq<Time>
    decreases ops
  {
    if ops == [] then log
    else
      var (db', result) := F.Apply(auth, db, ops[0]);
      AcceptLog(auth, db', ops[1..], log + AcceptTime(ops[0], result))
  }

  /** Pruning a list in time order drops exactly a prefix. */
  lemma {:induction false} PruneDropsPrefix(recent: seq<Time>, windowStart: Time)
    requires Ordered(recent)
    ensures
      var kept := F.PruneRecent(recent, windowStart);
      var cut := |recent| - |kept|;
      && kept == recent[cut..]
      && (forall i :: 0 <= i < cut ==> recent[i] <= windowStart)
      && (forall i :: cut <= i < |recent| ==> recent[i] > windowStart)
  {
    if recent != [] {
      var front := recent[..|recent| - 1];
      PruneDropsPrefix(front, windowStart);
      if recent[|recent| - 1] > windowStart {
        var kept := F.PruneRecent(front, windowStart);
        assert recent[|front| - |kept|..] == front[|front| - |kept|..] + [recent[|recent| - 1]];
      }
    }
  }

  /** The stored list is the tail of the acceptance log, what was pruned is out of every later window, and
      no window ending at an acceptance holds more than `max` acceptances. */
  ghost predicate Tracks(recent: seq<Time>, log: seq<Time>, clock: Time, max: int) {
    && Ordered(log)
    && (forall i :: 0 <= i < |log| ==> log[i] <= clock)
    && |recent| <= |log|
    && recent == log[|log| - |recent|..]
    && (forall i :: 0 <= i < |log| - |recent| ==> log[i] <= clock - RATE_WINDOW_MS)
    && Spaced(log, max)
  }

  /** Acceptances `i` to `j` either do not fit one window or are no more than `max`. */
  predicate Apart(log: seq<Time>, max: int, i: int, j: int) {
    0 <= i <= j < |log| && log[j] - RATE_WINDOW_MS < log[i] ==> j - i + 1 <= max
  }

  ghost predicate Spaced(log: seq<Time>, max: int) {
    forall i, j :: Apart(log, max, i, j)
  }

  /** After pruning at `now` the kept list is still a tail of the log, and all it lacks is out of the window. */
  lemma PruneKeepsTail(recent: seq<Time>, log: seq<Time>, clock: Time, max: int, now: Time)
    requires Tracks(recent, log, clock, max) && clock <= now
    ensures
      var kept := F.PruneRecent(recent, now - RATE_WINDOW_MS);
      && kept == log[|log| - |kept|..]
      && (forall i :: 0 <= i < |log| - |kept| ==> log[i] <= now - RATE_WINDOW_MS)
  {
    PruneDropsPrefix(recent, now - RATE_WINDOW_MS);
    var kept := F.PruneRecent(recent, now - RATE_WINDOW_MS);
    var base := |log| - |recent|;
    forall i | 0 <= i < |log| - |kept| ensures log[i] <= now - RATE_WINDOW_MS {
      if base <= i { assert log[i] == recent[i - base]; }
    }
  }

  lemma AcceptKeepsTracks(recent: seq<Time>, log: seq<Time>, clock: Time, max: int, now: Time)
    requires Tracks(recent, log, clock, max) && clock <= now
    requires |F.PruneRecent(recent, now - RATE_WINDOW_MS)| < max
    ensures Tracks(F.PruneRecent(recent, now - RATE_WINDOW_MS) + [now], log + [now], now, max)
  {
    PruneKeepsTail(recent, log, clock, max, now);
    var kept := F.PruneRecent(recent, now - RATE_WINDOW_MS);
    var log' := log + [now];
    assert kept + [now] == log'[|log'| - |kept| - 1..];
    forall i, j ensures Apart(log', max, i, j) {
      assert Apart(log, max, i, j);
      if 0 <= i <= j < |log'| {
        assert i < |log| ==> log'[i] == log[i];
        assert j < |log| ==> log'[j] == log[j];
      }
    }
    forall i, j | 0 <= i <= j < |log'| ensures log'[i] <= log'[j] {
      if j < |log| { assert log'[i] == log[i] && log'[j] == log[j]; }
    }
  }

  /** What one operation does to the pruned list. */
  lemma ApplyRecent(auth: Authorization, db: F.Database, op: F.Op)
    requires db.environment.authorization == auth
    ensures
      var (db', result) := F.Apply(auth, db, op);
      var kept := F.PruneRecent(db.environment.recentAcceptedAt, OpTime(op, 0) - RATE_WINDOW_MS);
      && db'.environment.authorization == auth
      && (AcceptTime(op, result) == [] ==> db'.environment.recentAcceptedAt == db.environment.recentAcceptedAt)
      && (AcceptTime(op, result) != [] ==>
            && AcceptTime(op, result) == [OpTime(op, 0)]
            && |kept| < auth.maxRequestsPerMinute
            && db'.environment.recentAcceptedAt == kept + [OpTime(op, 0)])
  {
  }

  lemma RefusalKeepsTracks(recent: seq<Time>, log: seq<Time>, clock: Time, max: int, now: Time)
    requires Tracks(recent, log, clock, max) && clock <= now
    ensures Tracks(recent, log + [], now, max)
  {
    assert log + [] == log;
  }

  lemma ApplyKeepsTracks(auth: Authorization, db: F.Database, op: F.Op, log: seq<Time>, clock: Time)
    requires db.environment.authorization == auth
    requires Tracks(db.environment.recentAcceptedAt, log, clock, auth.maxRequestsPerMinute)
    requires clock <= OpTime(op, clock)
    ensures
      var (db', result) := F.Apply(auth, db, op);
      && db'.environment.authorization == auth
      && Tracks(db'.environment.recentAcceptedAt, log + AcceptTime(op, result), OpTime(op, clock),
                auth.maxRequestsPerMinute)
  {
    ApplyRecent(auth, db, op);
    var (db', result) := F.Apply(auth, db, op);
    var recent := db.environment.recentAcceptedAt;
    if AcceptTime(op, result) == [] {
      RefusalKeepsTracks(recent, log, clock, auth.maxRequestsPerMinute, OpTime(op, clock));
    } else {
      assert !op.CasOp?;
      AcceptKeepsTracks(recent, log, clock, auth.maxRequestsPerMinute, OpTime(op, clock));
    }
  }

  lemma {:induction false} RunKeepsTracks(auth: Authorization, db: F.Database, ops: seq<F.Op>, log: seq<Time>, clock: Time)
    requires db.environment.authorization == auth
    requires Tracks(db.environment.recentAcceptedAt, log, clock, auth.maxRequestsPerMinute)
    requires ClockOrdered(clock, ops)
    ensures
      var log' := AcceptLog(auth, db, ops, log);
      Ordered(log') && Spaced(log', auth.maxRequestsPerMinute)
    decreases ops
  {
    if ops != [] {
      ApplyKeepsTracks(auth, db, ops[0], log, clock);
      var (db', result) := F.Apply(auth, db, ops[0]);
      RunKeepsTracks(auth, db', ops[1..], log + AcceptTime(ops[0], result), OpTime(ops[0], clock));
    }
  }

  function AcceptedWithin(log: seq<Time>, t: Time): set<int> {
    set i | 0 <= i < |log| && t - RATE_WINDOW_MS < log[i] <= t
  }

  lemma {:induction false} SpacedBoundsEveryWindow(log: seq<Time>, max: int, t: Time, lo: int, hi: int)
    requires Spaced(log, max) && Ordered(log) && 0 <= max
    requires 0 <= lo <= hi <= |log|
    requires forall i :: i in AcceptedWithin(log, t) ==> lo <= i < hi
    ensures |AcceptedWithin(log, t)| <= max
    decreases hi - lo
  {
    var within := AcceptedWithin(log, t);
    if lo == hi {
      EmptyIff(within);
    } else if lo !in within {
      SpacedBoundsEveryWindow(log, max, t, lo + 1, hi);
    } else if hi - 1 !in within {
      SpacedBoundsEveryWindow(log, max, t, lo, hi - 1);
    } else {
      assert Apart(log, max, lo, hi - 1);
      assert within <= Interval(lo, hi);
      SubsetCardinality(within, Interval(lo, hi));
    }
  }

  /** However the run interleaves creates, claims and updates, no window of 60 000 ms holds more accepted
      requests than the authorization allows per minute. */
  lemma SlidingWindowBound(auth: Authorization, start: Time, ops: seq<F.Op>, t: Time)
    requires F.AuthorizationSchema(auth)
    requires ClockOrdered(start, ops)
    ensures |AcceptedWithin(AcceptLog(auth, F.Initial(auth, start), ops, []), t)| <= auth.maxRequestsPerMinute
  {
    var log := AcceptLog(auth, F.Initial(auth, start), ops, []);
    RunKeepsTracks(auth, F.Initial(auth, start), ops, [], start);
    SpacedBoundsEveryWindow(log, auth.maxRequestsPerMinute, t, 0, |log|);
  }
}

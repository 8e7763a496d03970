/** Concurrent claims of a bootstrap: each reads the bootstrap, reads it again inside the store, tries the guarded
    update and rereads, with any other statement in between.  Key derivation and hashing are arbitrary functions. */
module RuntimeClaims {
  import opened ControllerTypes
  import opened RuntimeStore
  import D = RuntimeD1

  datatype Secrets = Secrets(derive: (BootstrapId, Digest, SessionId) -> int, hash: int -> Digest, sessionLifetime: int)

  datatype Request = Request(bootstrap: BootstrapId, executionHandle: Handle, challengeId: int, claimDigest: Digest)

  datatype Response = Response(sessionId: SessionId, token: int, expiresAt: Time)

  datatype Pc =
    | ReadingBootstrap(request: Request, now: Time)
    | ReadingChallenge(input: ClaimInput)
    | Consuming(input: ClaimInput)
    | Rereading(input: ClaimInput, updated: bool)
    | Responded(bootstrap: BootstrapId, response: Response)
    | Refused

  datatype Sys = Sys(rows: D.Rows, claims: map<int, Pc>)

  /** `admitted` is the verdict of the identity, read-back and signature checks; `sessionId` the generator's next id. */
  datatype Move =
    | Arrive(claim: int, request: Request, now: Time)
    | Resume(claim: int, admitted: bool, sessionId: SessionId)
    | Elsewhere(statement: D.Statement)

  /** The session a claim would open: its token is derived from the bootstrap, the claim digest and the session id. */
  function NewSession(k: Secrets, request: Request, sessionId: SessionId, now: Time): Session {
    Session(sessionId, k.hash(k.derive(request.bootstrap, request.claimDigest, sessionId)), now,
            now + k.sessionLifetime, request.claimDigest)
  }

  function Finish(k: Secrets, id: BootstrapId, record: Bootstrap, now: Time): Pc {
    match record.session
    case None => Refused
    case Some(session) =>
      if session.expiresAt <= now then Refused
      else Responded(id, Response(session.id, k.derive(id, session.claimDigest, session.id), session.expiresAt))
  }

  predicate Matches(record: Bootstrap, handle: Handle, challengeId: int) {
    record.executionHandle == handle && record.challengeId == challengeId
  }

  function AfterRead(k: Secrets, d: D.Rows, request: Request, now: Time, admitted: bool, sessionId: SessionId): Pc {
    if request.bootstrap !in d.bootstraps then Refused
    else
      var record := d.bootstraps[request.bootstrap];
      if record.executionHandle != request.executionHandle then Refused
      else if record.challengeExpiresAt <= now && record.session == None then Refused
      else if !admitted then Refused
      else
        ReadingChallenge(ClaimInput(request.bootstrap, request.executionHandle, request.challengeId, now,
                                    NewSession(k, request, sessionId, now)))
  }

  function AfterChallengeRead(k: Secrets, d: D.Rows, input: ClaimInput): Pc {
    if input.bootstrap !in d.bootstraps then Refused
    else
      var record := d.bootstraps[input.bootstrap];
      if !Matches(record, input.executionHandle, input.challengeId) then Refused
      else if record.session.Some? then
        if record.session.value.claimDigest == input.session.claimDigest
        then Finish(k, input.bootstrap, record, input.now) else Refused
      else if record.challengeExpiresAt <= input.now then Refused
      else Consuming(input)
  }

  function AfterReread(k: Secrets, d: D.Rows, input: ClaimInput, updated: bool): Pc {
    if input.bootstrap !in d.bootstraps then Refused
    else
      var record := d.bootstraps[input.bootstrap];
      if updated || (record.session.Some? && record.session.value.claimDigest == input.session.claimDigest)
      then Finish(k, input.bootstrap, record, input.now) else Refused
  }

  function Advance(k: Secrets, d: D.Rows, pc: Pc, admitted: bool, sessionId: SessionId): (D.Rows, Pc) {
    match pc
    case ReadingBootstrap(request, now) => (d, AfterRead(k, d, request, now, admitted, sessionId))
    case ReadingChallenge(input) => (d, AfterChallengeRead(k, d, input))
    case Consuming(input) =>
      if !D.SessionFree(d, input.session.id) then (d, Refused)
      else var (d', updated) := D.ConsumeRow(d, input); (d', Rereading(input, updated))
    case Rereading(input, updated) => (d, AfterReread(k, d, input, updated))
    case _ => (d, pc)
  }

  function Step(k: Secrets, s: Sys, move: Move): Sys {
    match move
    case Arrive(i, request, now) =>
      if i in s.claims then s else s.(claims := s.claims[i := ReadingBootstrap(request, now)])
    case Resume(i, admitted, sessionId) =>
      if i !in s.claims then s
      else var (d', pc') := Advance(k, s.rows, s.claims[i], admitted, sessionId); Sys(d', s.claims[i := pc'])
    case Elsewhere(statement) => if statement.Consuming? then s else s.(rows := D.Execute(s.rows, statement))
  }

  const BEGINNING := Sys(D.NO_ROWS, map[])

  function Run(k: Secrets, s: Sys, moves: seq<Move>): Sys {
    if moves == [] then s else Step(k, Run(k, s, moves[..|moves| - 1]), moves[|moves| - 1])
  }

  // ---------------------------------------------------------------- what holds throughout

  /** The stored token hash is the hash of the token every successful claim of this bootstrap returns. */
  predicate TokenUsable(k: Secrets, d: D.Rows, id: BootstrapId)
    requires id in d.bootstraps
  {
    match d.bootstraps[id].session
    case None => true
    case Some(session) => session.tokenHash == k.hash(k.derive(id, session.claimDigest, session.id))
  }

  predicate Derived(k: Secrets, input: ClaimInput) {
    input.session.tokenHash == k.hash(k.derive(input.bootstrap, input.session.claimDigest, input.session.id))
  }

  predicate Answers(k: Secrets, d: D.Rows, id: BootstrapId, response: Response) {
    id in d.bootstraps &&
    match d.bootstraps[id].session
    case None => false
    case Some(session) =>
      response == Response(session.id, k.derive(id, session.claimDigest, session.id), session.expiresAt)
  }

  predicate PcOk(k: Secrets, d: D.Rows, pc: Pc) {
    match pc
    case ReadingChallenge(input) => Derived(k, input)
    case Consuming(input) => Derived(k, input)
    case Rereading(input, updated) => Derived(k, input)
    case Responded(id, response) => Answers(k, d, id, response)
    case _ => true
  }

  predicate SysOk(k: Secrets, s: Sys) {
    && (forall id :: id in s.rows.bootstraps ==> TokenUsable(k, s.rows, id))
    && (forall i :: i in s.claims ==> PcOk(k, s.rows, s.claims[i]))
    && D.OneBootstrapPerHandle(s.rows)
  }

  lemma AnswersStay(k: Secrets, d: D.Rows, d': D.Rows, pc: Pc)
    requires PcOk(k, d, pc)
    requires forall id :: D.SessionKept(d, d', id)
    ensures PcOk(k, d', pc)
  {
    if pc.Responded? { assert D.SessionKept(d, d', pc.bootstrap); }
  }

  lemma AdvanceKeeps(k: Secrets, d: D.Rows, pc: Pc, admitted: bool, sessionId: SessionId)
    requires PcOk(k, d, pc) && D.OneBootstrapPerHandle(d)
    requires forall id :: id in d.bootstraps ==> TokenUsable(k, d, id)
    ensures
      var (d', pc') := Advance(k, d, pc, admitted, sessionId);
      && PcOk(k, d', pc') && D.OneBootstrapPerHandle(d')
      && (forall id :: D.SessionKept(d, d', id))
      && (forall id :: id in d'.bootstraps ==> TokenUsable(k, d', id))
  {
  }

  lemma ElsewhereKeeps(k: Secrets, d: D.Rows, statement: D.Statement)
    requires D.OneBootstrapPerHandle(d) && !statement.Consuming?
    requires forall id :: id in d.bootstraps ==> TokenUsable(k, d, id)
    ensures
      var d' := D.Execute(d, statement);
      && D.OneBootstrapPerHandle(d')
      && (forall id :: D.SessionKept(d, d', id))
      && (forall id :: id in d'.bootstraps ==> TokenUsable(k, d', id))
  {
    forall id ensures D.SessionKept(d, D.Execute(d, statement), id) { D.ExecuteKeepsSession(d, statement, id); }
    forall id | id in D.Execute(d, statement).bootstraps ensures TokenUsable(k, D.Execute(d, statement), id) {
      if id in d.bootstraps { assert TokenUsable(k, d, id); }
    }
  }

  lemma StepKeeps(k: Secrets, s: Sys, move: Move)
    requires SysOk(k, s)
    ensures SysOk(k, Step(k, s, move))
  {
    var s' := Step(k, s, move);
    match move
    case Arrive(_, _, _) =>
    case Resume(i, admitted, sessionId) =>
      if i in s.claims {
        AdvanceKeeps(k, s.rows, s.claims[i], admitted, sessionId);
        forall j | j in s'.claims && j != i ensures PcOk(k, s'.rows, s'.claims[j]) {
          AnswersStay(k, s.rows, s'.rows, s.claims[j]);
        }
      }
    case Elsewhere(statement) =>
      if !statement.Consuming? {
        ElsewhereKeeps(k, s.rows, statement);
        forall j | j in s'.claims ensures PcOk(k, s'.rows, s'.claims[j]) {
          AnswersStay(k, s.rows, s'.rows, s.claims[j]);
        }
      }
  }

  lemma {:induction false} RunKeeps(k: Secrets, moves: seq<Move>)
    ensures SysOk(k, Run(k, BEGINNING, moves))
  {
    if moves != [] {
      RunKeeps(k, moves[..|moves| - 1]);
      StepKeeps(k, Run(k, BEGINNING, moves[..|moves| - 1]), moves[|moves| - 1]);
    }
  }

  predicate OnlyBootstrapOfItsHandle(d: D.Rows, id: BootstrapId)
    requires id in d.bootstraps
  {
    forall other :: other in d.bootstraps && D.SameHandle(d.bootstraps[other], d.bootstraps[id]) ==> other == id
  }

  /** All successful claims of one bootstrap, whenever and in whatever interleaving, return the same session id,
      token and expiry; the token hashes to what the store checks reports against; and no other bootstrap, hence
      no other session, exists for the handle. */
  lemma ClaimsAgree(k: Secrets, moves: seq<Move>, i: int, j: int)
    ensures
      var s := Run(k, BEGINNING, moves);
      i in s.claims && j in s.claims && s.claims[i].Responded? && s.claims[j].Responded?
      && s.claims[i].bootstrap == s.claims[j].bootstrap ==>
        var id := s.claims[i].bootstrap;
        && s.claims[i].response == s.claims[j].response
        && id in s.rows.bootstraps && s.rows.bootstraps[id].session.Some?
        && s.rows.bootstraps[id].session.value.id == s.claims[i].response.sessionId
        && s.rows.bootstraps[id].session.value.tokenHash == k.hash(s.claims[i].response.token)
        && OnlyBootstrapOfItsHandle(s.rows, id)
  {
    RunKeeps(k, moves);
    var s := Run(k, BEGINNING, moves);
    if i in s.claims && s.claims[i].Responded? {
      assert TokenUsable(k, s.rows, s.claims[i].bootstrap);
    }
  }

  // ---------------------------------------------------------------- who may succeed

  /** The session a claim at this time would open under this id: its token is derived from the bootstrap, the digest of the claim and
      the id, and it lasts as long as sessions do. */
  predicate OpensAt(k: Secrets, input: ClaimInput, request: Request, now: Time, sessionId: SessionId) {
    && input.bootstrap == request.bootstrap && input.executionHandle == request.executionHandle
    && input.challengeId == request.challengeId && input.now == now
    && input.session.id == sessionId && input.session.issuedAt == now && input.session.expiresAt == now + k.sessionLifetime
    && input.session.claimDigest == request.claimDigest
    && input.session.tokenHash == k.hash(k.derive(request.bootstrap, request.claimDigest, sessionId))
  }

  /** The `m`-th move was the first read of claim `i`, it was admitted, and it found the bootstrap under the handle of the request. */
  predicate ReadAt(k: Secrets, moves: seq<Move>, m: nat, i: int, input: ClaimInput) {
    && m < |moves| && moves[m].Resume? && moves[m].claim == i && moves[m].admitted
    && var s := Run(k, BEGINNING, moves[..m]);
       && i in s.claims && s.claims[i].ReadingBootstrap?
       && OpensAt(k, input, s.claims[i].request, s.claims[i].now, moves[m].sessionId)
       && input.bootstrap in s.rows.bootstraps
       && s.rows.bootstraps[input.bootstrap].executionHandle == input.executionHandle
  }

  ghost predicate Authentic(k: Secrets, moves: seq<Move>, i: int, input: ClaimInput) {
    exists m :: ReadAt(k, moves, m, i, input)
  }

  /** The claim names the bootstrap's own handle and challenge. */
  predicate Addressed(d: D.Rows, input: ClaimInput) {
    && input.bootstrap in d.bootstraps
    && d.bootstraps[input.bootstrap].executionHandle == input.executionHandle
    && d.bootstraps[input.bootstrap].challengeId == input.challengeId
  }

  /** What a claim must have to be answered so: the bootstrap's handle and challenge, and a session of the same claim digest that has
      not expired at the claim's time; the answer names that session and its token. */
  predicate Earned(k: Secrets, d: D.Rows, id: BootstrapId, input: ClaimInput, response: Response) {
    && input.bootstrap == id && Addressed(d, input)
    && d.bootstraps[id].session.Some?
    && var session := d.bootstraps[id].session.value;
       && session.claimDigest == input.session.claimDigest && input.now < session.expiresAt
       && response == Response(session.id, k.derive(id, session.claimDigest, session.id), session.expiresAt)
  }

  /** The session of this bootstrap was opened by an admitted claim, before its challenge expired. */
  ghost predicate OpenedBy(k: Secrets, d: D.Rows, moves: seq<Move>, id: BootstrapId, i: int, input: ClaimInput) {
    && Authentic(k, moves, i, input) && input.bootstrap == id && Addressed(d, input)
    && d.bootstraps[id].session == Some(input.session) && input.now < d.bootstraps[id].challengeExpiresAt
  }

  ghost predicate Admitted(k: Secrets, d: D.Rows, moves: seq<Move>, i: int, pc: Pc) {
    match pc
    case ReadingChallenge(input) => Authentic(k, moves, i, input)
    case Consuming(input) => Authentic(k, moves, i, input) && Addressed(d, input)
    case Rereading(input, updated) =>
      && Authentic(k, moves, i, input) && Addressed(d, input)
      && (updated ==> d.bootstraps[input.bootstrap].session == Some(input.session))
    case Responded(id, response) => exists input :: Authentic(k, moves, i, input) && Earned(k, d, id, input, response)
    case _ => true
  }

  ghost predicate AllAdmitted(k: Secrets, s: Sys, moves: seq<Move>) {
    && (forall i :: i in s.claims ==> Admitted(k, s.rows, moves, i, s.claims[i]))
    && (forall id :: id in s.rows.bootstraps && s.rows.bootstraps[id].session.Some? ==>
          exists i, input :: OpenedBy(k, s.rows, moves, id, i, input))
  }

  /** Handle, challenge and, once there is one, session of a bootstrap stay. */
  predicate Stays(d: D.Rows, d': D.Rows) {
    forall id :: id in d.bootstraps ==>
      && id in d'.bootstraps
      && d'.bootstraps[id].executionHandle == d.bootstraps[id].executionHandle
      && d'.bootstraps[id].challengeId == d.bootstraps[id].challengeId
      && d'.bootstraps[id].challengeExpiresAt == d.bootstraps[id].challengeExpiresAt
      && (d.bootstraps[id].session.Some? ==> d'.bootstraps[id].session == d.bootstraps[id].session)
  }

  lemma StepStays(k: Secrets, s: Sys, move: Move)
    ensures Stays(s.rows, Step(k, s, move).rows)
  {
  }

  lemma AuthenticStays(k: Secrets, moves: seq<Move>, move: Move, i: int, input: ClaimInput)
    requires Authentic(k, moves, i, input)
    ensures Authentic(k, moves + [move], i, input)
  {
    var m: nat :| ReadAt(k, moves, m, i, input);
    assert (moves + [move])[..m] == moves[..m];
    assert ReadAt(k, moves + [move], m, i, input);
  }

  lemma AdmittedStays(k: Secrets, d: D.Rows, d': D.Rows, moves: seq<Move>, move: Move, i: int, pc: Pc)
    requires Admitted(k, d, moves, i, pc) && Stays(d, d')
    ensures Admitted(k, d', moves + [move], i, pc)
  {
    hide Authentic;
    match pc
    case ReadingChallenge(input) => AuthenticStays(k, moves, move, i, input);
    case Consuming(input) => AuthenticStays(k, moves, move, i, input);
    case Rereading(input, _) => AuthenticStays(k, moves, move, i, input);
    case Responded(id, response) =>
      var input :| Authentic(k, moves, i, input) && Earned(k, d, id, input, response);
      AuthenticStays(k, moves, move, i, input);
      assert Earned(k, d', id, input, response);
    case _ =>
  }

  lemma OpenedStays(k: Secrets, d: D.Rows, d': D.Rows, moves: seq<Move>, move: Move, id: BootstrapId)
    requires Stays(d, d') && exists i, input :: OpenedBy(k, d, moves, id, i, input)
    ensures exists i, input :: OpenedBy(k, d', moves + [move], id, i, input)
  {
    var i, input :| OpenedBy(k, d, moves, id, i, input);
    AuthenticStays(k, moves, move, i, input);
    assert OpenedBy(k, d', moves + [move], id, i, input);
  }

  /** The first read: what it admits is authentic from then on. */
  lemma FirstReadAdmits(k: Secrets, moves: seq<Move>, i: int, admitted: bool, sessionId: SessionId)
    ensures
      var s := Run(k, BEGINNING, moves);
      var move := Resume(i, admitted, sessionId);
      i in s.claims && s.claims[i].ReadingBootstrap? ==>
        Admitted(k, s.rows, moves + [move], i, Advance(k, s.rows, s.claims[i], admitted, sessionId).1)
  {
    var s := Run(k, BEGINNING, moves);
    if i in s.claims && s.claims[i].ReadingBootstrap? {
      var pc' := Advance(k, s.rows, s.claims[i], admitted, sessionId).1;
      if pc'.ReadingChallenge? {
        var moves' := moves + [Resume(i, admitted, sessionId)];
        assert moves'[..|moves|] == moves;
        assert ReadAt(k, moves', |moves|, i, pc'.input);
      }
    }
  }

  lemma LaterAdmits(k: Secrets, d: D.Rows, moves: seq<Move>, i: int, pc: Pc, admitted: bool, sessionId: SessionId)
    requires Admitted(k, d, moves, i, pc) && !pc.ReadingBootstrap?
    ensures
      var (d', pc') := Advance(k, d, pc, admitted, sessionId);
      Admitted(k, d', moves, i, pc')
  {
    hide Authentic;
    var (d', pc') := Advance(k, d, pc, admitted, sessionId);
    if pc'.Responded? && !pc.Responded? { assert Earned(k, d', pc'.bootstrap, pc.input, pc'.response); }
  }

  /** A session that was not there before was opened by the claim that has just consumed its challenge. */
  lemma NewSessionIsOpened(k: Secrets, d: D.Rows, moves: seq<Move>, i: int, pc: Pc, admitted: bool, sessionId: SessionId, id: BootstrapId)
    requires Admitted(k, d, moves, i, pc)
    ensures
      var d' := Advance(k, d, pc, admitted, sessionId).0;
      id in d'.bootstraps && d'.bootstraps[id].session.Some? ==>
        || (id in d.bootstraps && d.bootstraps[id].session == d'.bootstraps[id].session)
        || exists input :: OpenedBy(k, d', moves, id, i, input)
  {
    hide Authentic;
    var d' := Advance(k, d, pc, admitted, sessionId).0;
    if pc.Consuming? && id == pc.input.bootstrap && d' != d { assert OpenedBy(k, d', moves, id, i, pc.input); }
  }

  lemma ResumeKeepsAdmitted(k: Secrets, moves: seq<Move>, i: int, admitted: bool, sessionId: SessionId)
    requires AllAdmitted(k, Run(k, BEGINNING, moves), moves)
    ensures
      var move := Resume(i, admitted, sessionId);
      AllAdmitted(k, Step(k, Run(k, BEGINNING, moves), move), moves + [move])
  {
    var s := Run(k, BEGINNING, moves);
    var move := Resume(i, admitted, sessionId);
    var s' := Step(k, s, move);
    StepStays(k, s, move);
    hide Run, Admitted, OpenedBy, Stays, Advance;
    forall j | j in s'.claims && (j != i || i !in s.claims) ensures Admitted(k, s'.rows, moves + [move], j, s'.claims[j]) {
      AdmittedStays(k, s.rows, s'.rows, moves, move, j, s.claims[j]);
    }
    if i in s.claims {
      AdmittedStays(k, s.rows, s.rows, moves, move, i, s.claims[i]) by { SameStays(s.rows); }
      FirstReadAdmits(k, moves, i, admitted, sessionId);
      if s.claims[i].ReadingBootstrap? { ReadingKeepsRows(k, s.rows, s.claims[i], admitted, sessionId); }
      else { LaterAdmits(k, s.rows, moves + [move], i, s.claims[i], admitted, sessionId); }
    }
    forall id | id in s'.rows.bootstraps && s'.rows.bootstraps[id].session.Some?
      ensures exists j, input :: OpenedBy(k, s'.rows, moves + [move], id, j, input)
    {
      if id in s.rows.bootstraps && s.rows.bootstraps[id].session.Some? {
        OpenedStays(k, s.rows, s'.rows, moves, move, id);
      } else if i in s.claims {
        NewSessionIsOpened(k, s.rows, moves + [move], i, s.claims[i], admitted, sessionId, id);
      }
    }
  }

  lemma SameStays(d: D.Rows)
    ensures Stays(d, d)
  {
  }

  lemma ReadingKeepsRows(k: Secrets, d: D.Rows, pc: Pc, admitted: bool, sessionId: SessionId)
    requires pc.ReadingBootstrap?
    ensures Advance(k, d, pc, admitted, sessionId).0 == d
  {
  }

  lemma OtherMovesKeepAdmitted(k: Secrets, s: Sys, moves: seq<Move>, move: Move)
    requires AllAdmitted(k, s, moves) && !move.Resume?
    ensures AllAdmitted(k, Step(k, s, move), moves + [move])
  {
    var s' := Step(k, s, move);
    StepStays(k, s, move);
    forall i | i in s'.claims ensures Admitted(k, s'.rows, moves + [move], i, s'.claims[i]) {
      if i in s.claims { AdmittedStays(k, s.rows, s'.rows, moves, move, i, s.claims[i]); }
    }
    forall id | id in s'.rows.bootstraps && s'.rows.bootstraps[id].session.Some?
      ensures exists j, input :: OpenedBy(k, s'.rows, moves + [move], id, j, input)
    {
      OpenedStays(k, s.rows, s'.rows, moves, move, id);
    }
  }

  lemma {:induction false} RunAdmits(k: Secrets, moves: seq<Move>)
    ensures AllAdmitted(k, Run(k, BEGINNING, moves), moves)
  {
    if moves != [] {
      var before, move := moves[..|moves| - 1], moves[|moves| - 1];
      RunAdmits(k, before);
      assert before + [move] == moves;
      if move.Resume? { ResumeKeepsAdmitted(k, before, move.claim, move.admitted, move.sessionId); }
      else { OtherMovesKeepAdmitted(k, Run(k, BEGINNING, before), before, move); }
    }
  }

  /** In every run a claim that is answered goes back to a first read of its own that was admitted, names the bootstrap's own handle
      and challenge, and is answered with a session of its own claim digest that had not expired when it came. */
  lemma SuccessIsAdmitted(k: Secrets, moves: seq<Move>, i: int)
    ensures
      var s := Run(k, BEGINNING, moves);
      i in s.claims && s.claims[i].Responded? ==>
        exists m: nat, input ::
          ReadAt(k, moves, m, i, input) && Earned(k, s.rows, s.claims[i].bootstrap, input, s.claims[i].response)
  {
    RunAdmits(k, moves);
    hide Run, ReadAt, Earned;
    var s := Run(k, BEGINNING, moves);
    if i in s.claims && s.claims[i].Responded? { assert Admitted(k, s.rows, moves, i, s.claims[i]); }
  }

  /** In every run every session of the rows was opened by a claim whose first read was admitted, under the bootstrap's own handle
      and challenge and before that challenge expired. */
  lemma SessionsWereAdmitted(k: Secrets, moves: seq<Move>, id: BootstrapId)
    ensures
      var d := Run(k, BEGINNING, moves).rows;
      id in d.bootstraps && d.bootstraps[id].session.Some? ==>
        exists i, m: nat, input ::
          && ReadAt(k, moves, m, i, input) && input.bootstrap == id && Addressed(d, input)
          && d.bootstraps[id].session == Some(input.session) && input.now < d.bootstraps[id].challengeExpiresAt
  {
    RunAdmits(k, moves);
    var d := Run(k, BEGINNING, moves).rows;
    hide Run, ReadAt;
    if id in d.bootstraps && d.bootstraps[id].session.Some? {
      var i, input :| OpenedBy(k, d, moves, id, i, input);
      var m: nat :| ReadAt(k, moves, m, i, input);
    }
  }

  /** A claim that fails authentication is refused, and changes nothing. */
  lemma UnadmittedIsRefused(k: Secrets, s: Sys, i: int, sessionId: SessionId)
    requires i in s.claims && s.claims[i].ReadingBootstrap?
    ensures Step(k, s, Resume(i, false, sessionId)) == Sys(s.rows, s.claims[i := Refused])
  {
  }

  /** An admitted one goes on exactly if the bootstrap is there under its handle, and claimed already or with a challenge that has not
      expired. */
  lemma AdmittedGoesOnExactly(k: Secrets, s: Sys, i: int, sessionId: SessionId)
    requires i in s.claims && s.claims[i].ReadingBootstrap?
    ensures
      var request, now := s.claims[i].request, s.claims[i].now;
      var s' := Step(k, s, Resume(i, true, sessionId));
      var goesOn :=
        && request.bootstrap in s.rows.bootstraps
        && var record := s.rows.bootstraps[request.bootstrap];
           record.executionHandle == request.executionHandle && (record.session.Some? || now < record.challengeExpiresAt);
      && s'.rows == s.rows && i in s'.claims
      && (goesOn ==> s'.claims[i].ReadingChallenge? && OpensAt(k, s'.claims[i].input, request, now, sessionId))
      && (!goesOn ==> s'.claims[i] == Refused)
  {
  }

  /** Three more awaits of the claim with nobody in between. */
  function Finished(k: Secrets, s: Sys, i: int, sessionId: SessionId): Sys {
    var s1 := Step(k, s, Resume(i, true, sessionId));
    var s2 := Step(k, s1, Resume(i, true, sessionId));
    var s3 := Step(k, s2, Resume(i, true, sessionId));
    Step(k, s3, Resume(i, true, sessionId))
  }

  /** A claim that names an unclaimed bootstrap's handle and challenge in time opens its session and is answered with its token. */
  lemma ClaimOpensSession(k: Secrets, s: Sys, i: int, sessionId: SessionId)
    requires i in s.claims && s.claims[i].ReadingBootstrap? && s.claims[i].request.bootstrap in s.rows.bootstraps
    ensures
      var request, now := s.claims[i].request, s.claims[i].now;
      var id, record := request.bootstrap, s.rows.bootstraps[request.bootstrap];
      && record.executionHandle == request.executionHandle && record.challengeId == request.challengeId
      && record.session == None && record.revokedAt == None && now < record.challengeExpiresAt
      && D.SessionFree(s.rows, sessionId) && 0 < k.sessionLifetime ==>
        var token := k.derive(id, request.claimDigest, sessionId);
        var session := Session(sessionId, k.hash(token), now, now + k.sessionLifetime, request.claimDigest);
        Finished(k, s, i, sessionId) ==
          Sys(D.Rows(s.rows.bootstraps[id := record.(session := Some(session))], s.rows.events),
              s.claims[i := Responded(id, Response(sessionId, token, now + k.sessionLifetime))])
  {
    var request, now := s.claims[i].request, s.claims[i].now;
    var record := s.rows.bootstraps[request.bootstrap];
    if
      && record.executionHandle == request.executionHandle && record.challengeId == request.challengeId
      && record.session == None && record.revokedAt == None && now < record.challengeExpiresAt
      && D.SessionFree(s.rows, sessionId) && 0 < k.sessionLifetime
    {
      hide D.SessionFree;
      var s1 := Step(k, s, Resume(i, true, sessionId));
      var s2 := Step(k, s1, Resume(i, true, sessionId));
      assert s2.claims[i] == Consuming(s1.claims[i].input) && s2.rows == s.rows;
      var s3 := Step(k, s2, Resume(i, true, sessionId));
      assert s3.claims[i] == Rereading(s1.claims[i].input, true);
    }
  }

  /** A claim repeated with its own digest before the session expires is answered as the first one was, and changes nothing. */
  lemma ClaimIsRepeated(k: Secrets, s: Sys, i: int, sessionId: SessionId)
    requires i in s.claims && s.claims[i].ReadingBootstrap? && s.claims[i].request.bootstrap in s.rows.bootstraps
    requires s.rows.bootstraps[s.claims[i].request.bootstrap].session.Some?
    ensures
      var request, now := s.claims[i].request, s.claims[i].now;
      var id, record := request.bootstrap, s.rows.bootstraps[request.bootstrap];
      var session := record.session.value;
      && record.executionHandle == request.executionHandle && record.challengeId == request.challengeId
      && session.claimDigest == request.claimDigest && now < session.expiresAt ==>
        Finished(k, s, i, sessionId) ==
          Sys(s.rows, s.claims[i := Responded(id, Response(session.id, k.derive(id, request.claimDigest, session.id),
                                                           session.expiresAt))])
  {
  }
}

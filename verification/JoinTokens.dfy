/** Join tokens: issued for a room, swept when they expire, spent by initialising a session. */
module JoinTokens {

  type UserId = nat
  type RoomId = nat
  type ClientId = nat

  const SERVER_REQUEST_VERSION: nat := 1

  /** A token as stored; `serial` counts the tokens issued before it. */
  datatype RoomToken = RoomToken(userId: UserId, targetRoom: RoomId, issuedAt: nat, expiresAfter: nat, serial: nat) {
    predicate IsExpired(now: nat) {
      now > issuedAt && now - issuedAt > expiresAfter
    }
  }

  /** `joining` holds the token of each client whose initialisation has passed the token check and is still going on. */
  datatype State = State(
    tokens: map<string, RoomToken>,
    rooms: set<RoomId>,
    clientRooms: map<ClientId, RoomId>,
    joining: map<ClientId, RoomToken>,
    issued: nat)

  const EMPTY := State(map[], {}, map[], map[], 0)

  datatype Op =
    | CreateRoom(room: RoomId)
    | DeleteRoom(room: RoomId)
    | CreateJoinToken(token: string, userId: UserId, room: RoomId, expiresAfter: nat)
    | InitializeSession(client: ClientId, version: nat, token: string)
    | JoinRoom(client: ClientId, offerApplies: bool)
    | ConnectionClosed(client: ClientId)
    | Tick

  /** What an operation answers; `TokenPassed` is not sent, the initialisation goes on under the next lock. */
  datatype Response =
    | Done
    | RoomDoesNotExist
    | JoinToken(token: string)
    | SessionUnsupportedVersion
    | SessionAlreadyInitialized
    | SessionInvalidToken
    | TokenPassed(spent: RoomToken)
    | InternalError
    | SessionRoomClosed
    | SessionInitializeSuccess(userId: UserId)

  /** An operation and the reading of the clock when it takes the server's lock. */
  datatype Timed = Timed(now: nat, op: Op)

  function Swept(tokens: map<string, RoomToken>, now: nat): map<string, RoomToken> {
    map t | t in tokens && !tokens[t].IsExpired(now) :: tokens[t]
  }

  /**
   The token check of an initialisation. It spends the token even when that turns out to have expired.
   The check for an earlier session looks for client 0, whoever asks.
   */
  function CheckToken(s: State, now: nat, client: ClientId, version: nat, token: string): (State, Response) {
    if version != SERVER_REQUEST_VERSION then (s, SessionUnsupportedVersion)
    else if 0 in s.clientRooms then (s, SessionAlreadyInitialized)
    else if token !in s.tokens then (s, SessionInvalidToken)
    else
      var info, rest := s.tokens[token], s.(tokens := s.tokens - {token});
      if info.IsExpired(now) then (rest, SessionInvalidToken)
      else (rest.(joining := s.joining[client := info]), TokenPassed(info))
  }

  /** The rest of an initialisation, which the peer connection may end by rejecting the offer. */
  function Join(s: State, client: ClientId, offerApplies: bool): (State, Response) {
    if client !in s.joining then (s, Done)
    else
      var info, rest := s.joining[client], s.(joining := s.joining - {client});
      if !offerApplies then (rest, InternalError)
      else if info.targetRoom !in s.rooms then (rest, SessionRoomClosed)
      else (rest.(clientRooms := s.clientRooms[client := info.targetRoom]), SessionInitializeSuccess(info.userId))
  }

  function Issue(s: State, now: nat, token: string, userId: UserId, room: RoomId, expiresAfter: nat)
    : (State, Response)
  {
    if room !in s.rooms then (s, RoomDoesNotExist)
    else
      var info := RoomToken(userId, room, now, expiresAfter, s.issued);
      (s.(tokens := s.tokens[token := info], issued := s.issued + 1), JoinToken(token))
  }

  function Next(s: State, timed: Timed): (State, Response) {
    match timed.op
    case CreateRoom(room) => (s.(rooms := s.rooms + {room}), Done)
    case DeleteRoom(room) => (s.(rooms := s.rooms - {room}), Done)
    case CreateJoinToken(token, userId, room, expiresAfter) => Issue(s, timed.now, token, userId, room, expiresAfter)
    case InitializeSession(client, version, token) => CheckToken(s, timed.now, client, version, token)
    case JoinRoom(client, offerApplies) => Join(s, client, offerApplies)
    case ConnectionClosed(client) => (s.(clientRooms := s.clientRooms - {client}), Done)
    case Tick => (s.(tokens := Swept(s.tokens, timed.now)), Done)
  }

  function Run(ops: seq<Timed>): State {
    if ops == [] then EMPTY else Next(Run(ops[..|ops| - 1]), ops[|ops| - 1]).0
  }

  /** The response to the operation at index `i`. */
  function ResponseTo(ops: seq<Timed>, i: nat): Response
    requires i < |ops|
  {
    Next(Run(ops[..i]), ops[i]).1
  }

  // ----- The sweeper cannot be observed -----

  ghost predicate ClockIsMonotone(ops: seq<Timed>) {
    forall i, j | 0 <= i <= j < |ops| :: ops[i].now <= ops[j].now
  }

  function WithoutTicks(ops: seq<Timed>): seq<Timed> {
    if ops == [] then []
    else
      var init, last := ops[..|ops| - 1], ops[|ops| - 1];
      if last.op.Tick? then WithoutTicks(init) else WithoutTicks(init) + [last]
  }

  /** The responses to everything but the ticks, in order. */
  function Responses(ops: seq<Timed>): seq<Response> {
    if ops == [] then []
    else
      var init, last := ops[..|ops| - 1], ops[|ops| - 1];
      if last.op.Tick? then Responses(init) else Responses(init) + [Next(Run(init), last).1]
  }

  /** `swept` is `s` short of some tokens that have expired by `now`. */
  ghost predicate SweptVersion(swept: State, s: State, now: nat) {
    && swept == s.(tokens := swept.tokens)
    && (forall t | t in swept.tokens :: t in s.tokens && swept.tokens[t] == s.tokens[t])
    && (forall t | t in s.tokens && t !in swept.tokens :: s.tokens[t].IsExpired(now))
  }

  lemma CheckKeepsSwept(swept: State, s: State, now: nat, client: ClientId, version: nat, token: string)
    requires SweptVersion(swept, s, now)
    ensures SweptVersion(CheckToken(swept, now, client, version, token).0,
                         CheckToken(s, now, client, version, token).0, now)
    ensures CheckToken(swept, now, client, version, token).1 == CheckToken(s, now, client, version, token).1
  {
  }

  lemma NextKeepsSwept(swept: State, s: State, before: nat, timed: Timed)
    requires SweptVersion(swept, s, before) && before <= timed.now
    ensures timed.op.Tick? ==> SweptVersion(Next(swept, timed).0, s, timed.now)
    ensures !timed.op.Tick? ==>
      SweptVersion(Next(swept, timed).0, Next(s, timed).0, timed.now) && Next(swept, timed).1 == Next(s, timed).1
  {
    match timed.op
    case InitializeSession(client, version, token) => CheckKeepsSwept(swept, s, timed.now, client, version, token);
    case _ =>
  }

  lemma {:induction false} SweptRun(ops: seq<Timed>, now: nat)
    requires ClockIsMonotone(ops) && (ops != [] ==> ops[|ops| - 1].now <= now)
    ensures SweptVersion(Run(ops), Run(WithoutTicks(ops)), now)
    ensures Responses(ops) == Responses(WithoutTicks(ops))
  {
    if ops == [] {
    } else {
      var init, last := ops[..|ops| - 1], ops[|ops| - 1];
      SweptRun(init, last.now);
      NextKeepsSwept(Run(init), Run(WithoutTicks(init)), last.now, last);
      if !last.op.Tick? {
        assert (WithoutTicks(init) + [last])[..|WithoutTicks(init)|] == WithoutTicks(init);
      }
    }
  }

  /** A server that sweeps at any times answers every run exactly as one that never sweeps. */
  lemma SweeperIsUnobservable(ops: seq<Timed>)
    requires ClockIsMonotone(ops)
    ensures Responses(ops) == Responses(WithoutTicks(ops))
  {
    SweptRun(ops, if ops == [] then 0 else ops[|ops| - 1].now);
  }

  // ----- Tokens are single-use -----

  /** Stored tokens have serials of their own. */
  ghost predicate SerialsAreUnique(s: State) {
    && (forall t | t in s.tokens :: s.tokens[t].serial < s.issued)
    && (forall t, u | t in s.tokens && u in s.tokens && s.tokens[t].serial == s.tokens[u].serial :: t == u)
  }

  lemma IssueKeepsSerials(s: State, now: nat, token: string, userId: UserId, room: RoomId, expiresAfter: nat)
    requires SerialsAreUnique(s)
    ensures SerialsAreUnique(Issue(s, now, token, userId, room, expiresAfter).0)
  {
  }

  lemma FewerKeepSerials(s: State, e: State)
    requires SerialsAreUnique(s) && e.issued == s.issued
    requires forall t | t in e.tokens :: t in s.tokens && e.tokens[t] == s.tokens[t]
    ensures SerialsAreUnique(e)
  {
  }

  lemma NextKeepsSerials(s: State, timed: Timed)
    requires SerialsAreUnique(s)
    ensures SerialsAreUnique(Next(s, timed).0)
  {
    match timed.op
    case CreateJoinToken(token, userId, room, expiresAfter) =>
      IssueKeepsSerials(s, timed.now, token, userId, room, expiresAfter);
    case _ => FewerKeepSerials(s, Next(s, timed).0);
  }

  lemma {:induction false} RunKeepsSerials(ops: seq<Timed>)
    ensures SerialsAreUnique(Run(ops))
  {
    if ops == [] {
    } else {
      RunKeepsSerials(ops[..|ops| - 1]);
      NextKeepsSerials(Run(ops[..|ops| - 1]), ops[|ops| - 1]);
    }
  }

  /** The serial was used, and no stored token has it. */
  ghost predicate IsSpent(s: State, serial: nat) {
    serial < s.issued && forall t | t in s.tokens :: s.tokens[t].serial != serial
  }

  lemma NextKeepsSpent(s: State, timed: Timed, serial: nat)
    requires IsSpent(s, serial)
    ensures IsSpent(Next(s, timed).0, serial)
  {
  }

  /** A spent serial can never be stored again. */
  lemma {:induction false} SpentStaysSpent(ops: seq<Timed>, n: nat, serial: nat)
    requires n <= |ops| && IsSpent(Run(ops[..n]), serial)
    ensures IsSpent(Run(ops), serial)
  {
    if n == |ops| {
      assert ops[..n] == ops;
    } else {
      var init := ops[..|ops| - 1];
      assert init[..n] == ops[..n];
      SpentStaysSpent(init, n, serial);
      NextKeepsSpent(Run(init), ops[|ops| - 1], serial);
    }
  }

  /** Two initialisations never spend the same issued token. */
  lemma TokensAreSingleUse(ops: seq<Timed>, i: nat, j: nat)
    requires i < j < |ops| && ResponseTo(ops, i).TokenPassed? && ResponseTo(ops, j).TokenPassed?
    ensures ResponseTo(ops, i).spent.serial != ResponseTo(ops, j).spent.serial
  {
    RunKeepsSerials(ops[..i]);
    var serial, later := ResponseTo(ops, i).spent.serial, ops[..j];
    assert ops[..i + 1][..i] == ops[..i] && later[..i + 1] == ops[..i + 1];
    SpentStaysSpent(later, i + 1, serial);
  }

  /** A stored token is what some earlier operation issued under that string. */
  ghost predicate IssuedBy(info: RoomToken, token: string, timed: Timed) {
    && timed.op == CreateJoinToken(token, info.userId, info.targetRoom, info.expiresAfter)
    && timed.now == info.issuedAt
  }

  lemma {:induction false} StoredWasIssued(ops: seq<Timed>, token: string)
    requires token in Run(ops).tokens
    ensures exists k :: 0 <= k < |ops| && IssuedBy(Run(ops).tokens[token], token, ops[k])
  {
    var init, last := ops[..|ops| - 1], ops[|ops| - 1];
    if last.op.CreateJoinToken? && last.op.token == token && last.op.room in Run(init).rooms {
      assert IssuedBy(Run(ops).tokens[token], token, ops[|ops| - 1]);
    } else {
      StoredWasIssued(init, token);
      var k :| 0 <= k < |init| && IssuedBy(Run(init).tokens[token], token, init[k]);
      assert IssuedBy(Run(ops).tokens[token], token, ops[k]);
    }
  }

  /** A token passes the check only if it was issued, with that user and room, and has not expired since. */
  lemma OnlyLiveTokensPass(ops: seq<Timed>, i: nat)
    requires i < |ops| && ResponseTo(ops, i).TokenPassed?
    ensures var info, token := ResponseTo(ops, i).spent, ops[i].op.token;
            ops[i].now <= info.issuedAt + info.expiresAfter
            && exists k :: 0 <= k < i && IssuedBy(info, token, ops[k])
  {
    StoredWasIssued(ops[..i], ops[i].op.token);
    var info := ResponseTo(ops, i).spent;
    var k :| 0 <= k < i && IssuedBy(info, ops[i].op.token, ops[..i][k]);
    assert ops[..i][k] == ops[k];
  }

  // ----- What is answered -----

  /**
   An initialisation is answered by its version, which must be 1, then by client 0's session, then by
   its token, which must be stored and not older than it may get; and it takes the token off in any
   case that gets that far.
   */
  lemma InitializationIsAnswered(s: State, now: nat, client: ClientId, version: nat, token: string)
    ensures var (e, response) := Next(s, Timed(now, InitializeSession(client, version, token)));
            if version != 1 then response == SessionUnsupportedVersion && e == s
            else if 0 in s.clientRooms then response == SessionAlreadyInitialized && e == s
            else
              && e == s.(tokens := e.tokens, joining := e.joining) && e.tokens == s.tokens - {token}
              && if token in s.tokens && now <= s.tokens[token].issuedAt + s.tokens[token].expiresAfter
                 then response == TokenPassed(s.tokens[token]) && e.joining == s.joining[client := s.tokens[token]]
                 else response == SessionInvalidToken && e.joining == s.joining
  {
  }

  /** A client that has passed the check joins unless the offer is rejected or, after that, the room has gone. */
  lemma JoiningIsAnswered(s: State, now: nat, client: ClientId, offerApplies: bool)
    requires client in s.joining
    ensures var (e, response) := Next(s, Timed(now, JoinRoom(client, offerApplies)));
            var token := s.joining[client];
            && (response == InternalError <==> !offerApplies)
            && (response == SessionRoomClosed <==> offerApplies && token.targetRoom !in s.rooms)
            && (response == SessionInitializeSuccess(token.userId) <==> offerApplies && token.targetRoom in s.rooms)
            && e.clientRooms == (if response.SessionInitializeSuccess? then s.clientRooms[client := token.targetRoom]
                                 else s.clientRooms)
            && e == s.(joining := s.joining - {client}, clientRooms := e.clientRooms)
  {
  }

  /** Issuing a token is refused exactly for a room that does not exist, and then changes nothing. */
  lemma IssuingIsAnswered(s: State, now: nat, token: string, userId: UserId, room: RoomId, expiresAfter: nat)
    ensures var (e, response) := Next(s, Timed(now, CreateJoinToken(token, userId, room, expiresAfter)));
            && (response == RoomDoesNotExist <==> room !in s.rooms)
            && (response == JoinToken(token) <==> room in s.rooms)
            && (room !in s.rooms ==> e == s)
            && (room in s.rooms ==>
                  && e == s.(tokens := s.tokens[token := RoomToken(userId, room, now, expiresAfter, s.issued)],
                             issued := s.issued + 1))
  {
  }

  /** A sweep leaves exactly the tokens that are not older than they may get. */
  lemma SweepLeavesLive(s: State, now: nat)
    ensures var e := Next(s, Timed(now, Tick)).0;
            && e == s.(tokens := e.tokens)
            && (forall t :: t in e.tokens <==> t in s.tokens && now <= s.tokens[t].issuedAt + s.tokens[t].expiresAfter)
            && (forall t | t in e.tokens :: e.tokens[t] == s.tokens[t])
  {
  }

  /** Nothing between `i` and `j` takes the token stored under that string off or stores another. */
  ghost predicate Untouched(ops: seq<Timed>, i: nat, j: nat, token: string)
    requires i <= j <= |ops|
  {
    forall k | i <= k < j ::
      match ops[k].op
      case CreateJoinToken(t, _, _, _) => t != token
      case InitializeSession(_, version, t) => t != token || version != 1
      case _ => true
  }

  lemma UntouchedIsKept(s: State, timed: Timed, token: string)
    requires token in s.tokens && Untouched([timed], 0, 1, token)
    requires timed.now <= s.tokens[token].issuedAt + s.tokens[token].expiresAfter
    ensures token in Next(s, timed).0.tokens && Next(s, timed).0.tokens[token] == s.tokens[token]
  {
    assert [timed][0] == timed;
  }

  lemma {:induction false} IssuedIsKept(ops: seq<Timed>, i: nat, j: nat, token: string)
    requires ClockIsMonotone(ops) && i < j <= |ops| && Untouched(ops, i + 1, j, token)
    requires ResponseTo(ops, i) == JoinToken(token) && ops[i].op.CreateJoinToken?
    requires ops[j - 1].now <= ops[i].now + ops[i].op.expiresAfter
    ensures var op := ops[i].op;
            token in Run(ops[..j]).tokens
            && Run(ops[..j]).tokens[token]
              == RoomToken(op.userId, op.room, ops[i].now, op.expiresAfter, Run(ops[..i]).issued)
    decreases j
  {
    assert ops[..j][..j - 1] == ops[..j - 1];
    if j == i + 1 {
    } else {
      IssuedIsKept(ops, i, j - 1, token);
      UntouchedIsKept(Run(ops[..j - 1]), ops[j - 1], token);
    }
  }

  /** A token that was issued, not spent since and not expired passes, unless client 0 has a session. */
  lemma LiveTokensPass(ops: seq<Timed>, i: nat, j: nat, token: string)
    requires ClockIsMonotone(ops) && i < j < |ops| && Untouched(ops, i + 1, j, token)
    requires ops[i].op.CreateJoinToken? && ResponseTo(ops, i) == JoinToken(token)
    requires ops[j].op.InitializeSession? && ops[j].op.version == 1 && ops[j].op.token == token
    requires ops[j].now <= ops[i].now + ops[i].op.expiresAfter && !HasSession(ops[..j], 0)
    ensures ResponseTo(ops, j).TokenPassed?
    ensures var info, op := ResponseTo(ops, j).spent, ops[i].op;
            info.userId == op.userId && info.targetRoom == op.room && info.issuedAt == ops[i].now
  {
    IssuedIsKept(ops, i, j, token);
    RegisteredExactly(ops[..j], 0);
  }

  // ----- Sessions -----

  /** The operation spent the token on behalf of the client. */
  ghost predicate SpentFor(ops: seq<Timed>, k: nat, client: ClientId, info: RoomToken)
    requires k < |ops|
  {
    ops[k].op.InitializeSession? && ops[k].op.client == client && ResponseTo(ops, k) == TokenPassed(info)
  }

  lemma {:induction false} JoiningWasSpent(ops: seq<Timed>, client: ClientId)
    requires client in Run(ops).joining
    ensures exists k :: 0 <= k < |ops| && SpentFor(ops, k, client, Run(ops).joining[client])
  {
    var init, last := ops[..|ops| - 1], ops[|ops| - 1];
    var info := Run(ops).joining[client];
    if last.op.InitializeSession? && last.op.client == client && Next(Run(init), last).1.TokenPassed? {
      assert SpentFor(ops, |ops| - 1, client, info);
    } else {
      JoiningWasSpent(init, client);
      var k :| 0 <= k < |init| && SpentFor(init, k, client, info);
      assert ops[..k] == init[..k];
      assert SpentFor(ops, k, client, info);
    }
  }

  /** A client joins the room, and as the user, of a token it spent before. */
  lemma SessionsComeFromTokens(ops: seq<Timed>, i: nat)
    requires i < |ops| && ResponseTo(ops, i).SessionInitializeSuccess?
    ensures var client := ops[i].op.client;
            exists k, info :: 0 <= k < i && SpentFor(ops, k, client, info)
                              && ResponseTo(ops, i).userId == info.userId
                              && Next(Run(ops[..i]), ops[i]).0.clientRooms[client] == info.targetRoom
  {
    var client := ops[i].op.client;
    JoiningWasSpent(ops[..i], client);
    var k :| 0 <= k < i && SpentFor(ops[..i], k, client, Run(ops[..i]).joining[client]);
    assert ops[..i][..k] == ops[..k];
    assert SpentFor(ops, k, client, Run(ops[..i]).joining[client]);
  }

  /** The client joined a room at `k` and its connection has not been closed since. */
  ghost predicate OpenSince(ops: seq<Timed>, k: nat, client: ClientId)
    requires k < |ops|
  {
    && ops[k].op.JoinRoom? && ops[k].op.client == client && ResponseTo(ops, k).SessionInitializeSuccess?
    && forall m | k < m < |ops| :: ops[m].op != ConnectionClosed(client)
  }

  ghost predicate HasSession(ops: seq<Timed>, client: ClientId) {
    exists k :: 0 <= k < |ops| && OpenSince(ops, k, client)
  }

  /** One more operation opens the client's session, closes it, or leaves it as it was. */
  lemma SessionOneMore(init: seq<Timed>, last: Timed, client: ClientId)
    ensures HasSession(init + [last], client)
       <==> || (last.op.JoinRoom? && last.op.client == client && Next(Run(init), last).1.SessionInitializeSuccess?)
            || (last.op != ConnectionClosed(client) && HasSession(init, client))
  {
    var ops := init + [last];
    assert ops[..|init|] == init;
    assert forall k | 0 <= k < |init| :: ops[..k] == init[..k];
    if HasSession(ops, client) {
      var k :| 0 <= k < |ops| && OpenSince(ops, k, client);
      assert k < |init| ==> ops[|init|].op != ConnectionClosed(client) && OpenSince(init, k, client);
    }
    if last.op != ConnectionClosed(client) && HasSession(init, client) {
      var k :| 0 <= k < |init| && OpenSince(init, k, client);
      assert OpenSince(ops, k, client);
    }
    if last.op.JoinRoom? && last.op.client == client && Next(Run(init), last).1.SessionInitializeSuccess? {
      assert OpenSince(ops, |init|, client);
    }
  }

  /** A client is registered with a room exactly while it has a session. */
  lemma {:induction false} RegisteredExactly(ops: seq<Timed>, client: ClientId)
    ensures client in Run(ops).clientRooms <==> HasSession(ops, client)
  {
    if ops == [] {
    } else {
      var init, last := ops[..|ops| - 1], ops[|ops| - 1];
      RegisteredExactly(init, client);
      SessionOneMore(init, last, client);
      assert ops == init + [last];
    }
  }

  /** An initialisation is refused as a repeated one exactly while client 0 has a session, whoever asks. */
  lemma RefusedExactly(ops: seq<Timed>, i: nat)
    requires i < |ops|
    ensures ResponseTo(ops, i).SessionAlreadyInitialized?
       <==> && ops[i].op.InitializeSession? && ops[i].op.version == SERVER_REQUEST_VERSION
            && HasSession(ops[..i], 0)
  {
    RegisteredExactly(ops[..i], 0);
  }

  /**
   So the check does what it is for exactly when the asking client and client 0 both have a session or both
   have none.
   */
  lemma CheckIsRightExactly(ops: seq<Timed>, i: nat)
    requires i < |ops| && ops[i].op.InitializeSession? && ops[i].op.version == SERVER_REQUEST_VERSION
    ensures (ResponseTo(ops, i).SessionAlreadyInitialized? <==> HasSession(ops[..i], ops[i].op.client))
       <==> (HasSession(ops[..i], 0) <==> HasSession(ops[..i], ops[i].op.client))
  {
    RefusedExactly(ops, i);
  }

  /** Client 7 joins a room and then spends a second token. */
  const TWICE: seq<Timed> := [
    Timed(0, CreateRoom(1)),
    Timed(0, CreateJoinToken("a", 70, 1, 60)),
    Timed(0, CreateJoinToken("b", 70, 1, 60)),
    Timed(1, InitializeSession(7, SERVER_REQUEST_VERSION, "a")),
    Timed(2, JoinRoom(7, true)),
    Timed(3, InitializeSession(7, SERVER_REQUEST_VERSION, "b"))]

  /** A client that has a session passes the check again. */
  lemma SecondSessionPasses()
    ensures HasSession(TWICE[..5], 7) && !HasSession(TWICE[..5], 0) && ResponseTo(TWICE, 5).TokenPassed?
  {
    var a, b := RoomToken(70, 1, 0, 60, 0), RoomToken(70, 1, 0, 60, 1);
    assert TWICE[..1][..0] == [] && Run(TWICE[..1]) == State(map[], {1}, map[], map[], 0);
    assert TWICE[..2][..1] == TWICE[..1] && Run(TWICE[..2]) == State(map["a" := a], {1}, map[], map[], 1);
    assert TWICE[..3][..2] == TWICE[..2] && Run(TWICE[..3]) == State(map["a" := a, "b" := b], {1}, map[], map[], 2);
    assert TWICE[..4][..3] == TWICE[..3] && Run(TWICE[..4]) == State(map["b" := b], {1}, map[], map[7 := a], 2);
    assert TWICE[..5][..4] == TWICE[..4] && Run(TWICE[..5]) == State(map["b" := b], {1}, map[7 := 1], map[], 2);
    RegisteredExactly(TWICE[..5], 7);
    RegisteredExactly(TWICE[..5], 0);
  }

  // ----- The server object -----

  class RtpServer {
    var tokens: map<string, RoomToken>
    var rooms: set<RoomId>
    var clientRooms: map<ClientId, RoomId>
    var joining: map<ClientId, RoomToken>
    var issued: nat

    function Value(): State
      reads this
    {
      State(tokens, rooms, clientRooms, joining, issued)
    }

    constructor ()
      ensures Value() == EMPTY
    {
      tokens, rooms, clientRooms, joining, issued := map[], {}, map[], map[], 0;
    }

    /** Removes the expired tokens one by one. */
    method DoTick(now: nat)
      modifies this`tokens
      ensures Value() == Next(old(Value()), Timed(now, Tick)).0
    {
      var todo := tokens.Keys;
      while todo != {}
        invariant todo <= tokens.Keys <= old(tokens).Keys
        invariant forall t | t in tokens :: tokens[t] == old(tokens)[t]
        invariant forall t | t in old(tokens) && t !in todo :: t in tokens <==> !old(tokens)[t].IsExpired(now)
      {
        var t :| t in todo;
        if tokens[t].IsExpired(now) {
          tokens := tokens - {t};
        }
        todo := todo - {t};
      }
    }

    method DoCreateJoinToken(now: nat, token: string, userId: UserId, room: RoomId, expiresAfter: nat)
      returns (r: Response)
      modifies this`tokens, this`issued
      ensures (Value(), r) == Issue(old(Value()), now, token, userId, room, expiresAfter)
    {
      if room !in rooms {
        return RoomDoesNotExist;
      }
      tokens := tokens[token := RoomToken(userId, room, now, expiresAfter, issued)];
      issued := issued + 1;
      return JoinToken(token);
    }

    method DoCheckToken(now: nat, client: ClientId, version: nat, token: string) returns (r: Response)
      modifies this`tokens, this`joining
      ensures (Value(), r) == CheckToken(old(Value()), now, client, version, token)
    {
      if version != SERVER_REQUEST_VERSION {
        return SessionUnsupportedVersion;
      }
      if 0 in clientRooms {
        return SessionAlreadyInitialized;
      }
      if token !in tokens {
        return SessionInvalidToken;
      }
      var info := tokens[token];
      tokens := tokens - {token};
      if info.IsExpired(now) {
        return SessionInvalidToken;
      }
      joining := joining[client := info];
      return TokenPassed(info);
    }

    method DoJoin(client: ClientId, offerApplies: bool) returns (r: Response)
      modifies this`joining, this`clientRooms
      ensures (Value(), r) == Join(old(Value()), client, offerApplies)
    {
      if client !in joining {
        return Done;
      }
      var info := joining[client];
      joining := joining - {client};
      if !offerApplies {
        return InternalError;
      }
      if info.targetRoom !in rooms {
        return SessionRoomClosed;
      }
      clientRooms := clientRooms[client := info.targetRoom];
      return SessionInitializeSuccess(info.userId);
    }
  }
}

/**
 The locks the server's tasks take, and why their order never lets the tasks block each other for good.
 A task is the sequence of its acquire and release steps; what it does in between is of no concern here.
 */
module Locks {

  type Id = nat

  datatype Lock =
    | Server
    | Room(room: Id)
    | Client(client: Id)
    | Rtp(rtp: Id)
    | Broadcast(broadcast: Id)
    | TrackHandler(track: Id)
    | TrackShutdown(track: Id)
    | TrackBinding(track: Id)

  const RANKS: nat := 5

  /** The order in which a task may hold locks of different kinds. */
  function Rank(l: Lock): (rank: nat)
    ensures rank < RANKS
  {
    match l
    case Server => 0
    case Room(_) => 1
    case Client(_) => 2
    case Rtp(_) => 2
    case Broadcast(_) => 2
    case TrackHandler(_) => 3
    case TrackShutdown(_) => 3
    case TrackBinding(_) => 4
  }

  // ----- Programs -----

  /** A region of code that runs under a lock, with the regions inside it in order. */
  datatype Region = Region(lock: Lock, inner: seq<Region>)

  datatype Action = Acquire(lock: Lock) | Release(lock: Lock)

  function Actions(regions: seq<Region>): seq<Action> {
    if regions == [] then []
    else [Acquire(regions[0].lock)] + Actions(regions[0].inner) + [Release(regions[0].lock)] + Actions(regions[1..])
  }

  /** Every region's lock ranks above `floor` and above the locks around it. */
  predicate Ranked(regions: seq<Region>, floor: int) {
    forall region | region in regions :: Rank(region.lock) > floor && Ranked(region.inner, Rank(region.lock))
  }

  // ----- What the tasks of the server do -----

  /** A region that takes no further lock. */
  function Touch(l: Lock): Region {
    Region(l, [])
  }

  function Clients(ids: seq<Id>): seq<Region> {
    seq(|ids|, i requires 0 <= i < |ids| => Touch(Client(ids[i])))
  }

  function Broadcasts(ids: seq<Id>): seq<Region> {
    seq(|ids|, i requires 0 <= i < |ids| => Touch(Broadcast(ids[i])))
  }

  function Handlers(ids: seq<Id>): seq<Region> {
    seq(|ids|, i requires 0 <= i < |ids| => Touch(TrackHandler(ids[i])))
  }

  /** The peer connection binds and unbinds tracks while it is locked. */
  function Bindings(ids: seq<Id>): seq<Region> {
    seq(|ids|, i requires 0 <= i < |ids| => Touch(TrackBinding(ids[i])))
  }

  datatype Round = SendsPacket | HandlesRtcp

  /** The rounds of an outgoing track's loop: a packet needs the binding, an RTCP packet the event handler. */
  function Rounds(t: Id, rounds: seq<Round>): seq<Region> {
    seq(|rounds|, i requires 0 <= i < |rounds| =>
      Touch(if rounds[i].SendsPacket? then TrackBinding(t) else TrackHandler(t)))
  }

  /**
   The tasks, each with the objects it meets: its client, peer connection and room, and the other
   clients, broadcasts and tracks it goes through under a lock.
   */
  datatype Job =
    | AcceptClient(client: Id)
    | Tick
    | CreateRoom(room: Id)
    | DeleteRoom
    | ConnectionClosed(client: Id)
    | LeaveRoom(room: Id, broadcasts: seq<Id>, others: seq<Id>)
    | PeerTask(rtp: Id, bound: seq<Id>)
    | ClientTask(client: Id)
    | InitializeSession(client: Id, rtp: Id, bound: seq<Id>, room: Id, others: seq<Id>, broadcasts: seq<Id>)
    | RtpRequest(client: Id, rtp: Id, bound: seq<Id>)
    | BroadcastStart(client: Id, rtp: Id, room: Id, track: Id, broadcasts: seq<Id>, others: seq<Id>)
    | BroadcastSubscribe(client: Id, rtp: Id, room: Id, broadcast: Id, tracks: seq<Id>, bound: seq<Id>)
    | BroadcastUnsubscribe(client: Id, room: Id, broadcast: Id, track: Id)
    | BroadcastStop(client: Id, room: Id, broadcast: Id)
    | PollBroadcast(broadcast: Id, dropped: seq<Id>)
    | CleanUpBroadcast(room: Id, dropped: seq<Id>, members: seq<Id>)
    | TrackReceived(rtp: Id, track: Id)
    | IncomingTrack(rtp: Id, track: Id, packets: nat)
    | OutgoingTrack(rtp: Id, track: Id, rounds: seq<Round>)

  /** What a request does before and after its own work, under the lock of the client it came from. */
  function Request(c: Id, work: seq<Region>): seq<Region> {
    [Touch(Client(c)), Touch(Server)] + work + [Touch(Client(c))]
  }

  /** Joining a room, under its lock: the client is told, the others are, and the broadcasts are listed. */
  function Joining(c: Id, others: seq<Id>, broadcasts: seq<Id>): seq<Region> {
    [Touch(Client(c))] + Clients(others) + [Touch(Client(c))] + Broadcasts(broadcasts) + [Touch(Client(c))]
  }

  function Program(job: Job): seq<Region> {
    match job
    case AcceptClient(c) => [Touch(Server), Touch(Client(c)), Touch(Client(c)), Touch(Server)]
    case Tick => [Touch(Server)]
    case CreateRoom(r) => [Region(Server, [Touch(Room(r))])]
    case DeleteRoom => [Touch(Server)]
    case ConnectionClosed(c) => [Touch(Client(c)), Touch(Client(c)), Touch(Server)]
    case LeaveRoom(r, broadcasts, others) => [Region(Room(r), Broadcasts(broadcasts) + Clients(others))]
    case PeerTask(p, bound) => [Region(Rtp(p), Bindings(bound))]
    case ClientTask(c) => [Touch(Client(c))]
    case InitializeSession(c, p, bound, r, others, broadcasts) =>
      Request(c, [Region(Server, [Touch(Rtp(p))]), Region(Rtp(p), Bindings(bound)),
                  Region(Server, [Region(Room(r), Joining(c, others, broadcasts))])])
    case RtpRequest(c, p, bound) => Request(c, [Region(Rtp(p), Bindings(bound))])
    case BroadcastStart(c, p, r, t, broadcasts, others) =>
      Request(c, [Touch(Server), Region(Rtp(p), [Region(TrackHandler(t), [Touch(TrackBinding(t))])]),
                  Region(Room(r), Broadcasts(broadcasts) + [Touch(TrackHandler(t))] + Clients(others))])
    case BroadcastSubscribe(c, p, r, b, tracks, bound) =>
      Request(c, [Touch(Server), Region(Room(r), [Touch(Broadcast(b))]),
                  Region(Rtp(p), Handlers(tracks) + Bindings(bound)),
                  Region(Room(r), [Touch(Broadcast(b))] + Handlers(tracks))])
    case BroadcastUnsubscribe(c, r, b, t) =>
      Request(c, [Region(Room(r), [Region(Broadcast(b), [Touch(TrackHandler(t))])])])
    case BroadcastStop(c, r, b) => Request(c, [Region(Room(r), [Touch(Broadcast(b))])])
    case PollBroadcast(b, dropped) => [Region(Broadcast(b), Handlers(dropped))]
    case CleanUpBroadcast(r, dropped, members) => [Region(Room(r), Handlers(dropped) + Clients(members))]
    case TrackReceived(p, t) => [Region(Rtp(p), [Touch(TrackBinding(t))])]
    case IncomingTrack(p, t, packets) => Handlers(seq(packets + 1, _ => t)) + [Touch(Rtp(p))]
    case OutgoingTrack(p, t, rounds) =>
      [Touch(TrackShutdown(t))] + Rounds(t, rounds) + [Region(Rtp(p), [Touch(TrackBinding(t))])]
  }

  lemma RankedConcat(first: seq<Region>, second: seq<Region>, floor: int)
    requires Ranked(first, floor) && Ranked(second, floor)
    ensures Ranked(first + second, floor)
  {
  }

  lemma RankedUnder(l: Lock, inner: seq<Region>, floor: int)
    requires Rank(l) > floor && Ranked(inner, Rank(l))
    ensures Ranked([Region(l, inner)], floor)
  {
  }

  lemma RequestIsRanked(c: Id, work: seq<Region>)
    requires Ranked(work, -1)
    ensures Ranked(Request(c, work), -1)
  {
    RankedConcat([Touch(Client(c)), Touch(Server)], work, -1);
    RankedConcat([Touch(Client(c)), Touch(Server)] + work, [Touch(Client(c))], -1);
  }

  lemma JoiningIsRanked(c: Id, others: seq<Id>, broadcasts: seq<Id>)
    ensures Ranked(Joining(c, others, broadcasts), 1)
  {
  }

  lemma InitializeIsRanked(c: Id, p: Id, bound: seq<Id>, r: Id, others: seq<Id>, broadcasts: seq<Id>)
    ensures Ranked(Program(InitializeSession(c, p, bound, r, others, broadcasts)), -1)
  {
    var joining := Joining(c, others, broadcasts);
    JoiningIsRanked(c, others, broadcasts);
    RankedUnder(Room(r), joining, 0);
    RankedUnder(Server, [Region(Room(r), joining)], -1);
    var work := [Region(Server, [Touch(Rtp(p))]), Region(Rtp(p), Bindings(bound))];
    RankedUnder(Server, [Touch(Rtp(p))], -1);
    RankedUnder(Rtp(p), Bindings(bound), -1);
    RankedConcat(work, [Region(Server, [Region(Room(r), joining)])], -1);
    RequestIsRanked(c, work + [Region(Server, [Region(Room(r), joining)])]);
  }

  lemma StartingIsRanked(t: Id, broadcasts: seq<Id>, others: seq<Id>)
    ensures Ranked(Broadcasts(broadcasts) + [Touch(TrackHandler(t))] + Clients(others), 1)
  {
    RankedConcat(Broadcasts(broadcasts), [Touch(TrackHandler(t))], 1);
    RankedConcat(Broadcasts(broadcasts) + [Touch(TrackHandler(t))], Clients(others), 1);
  }

  lemma SourceIsRanked(p: Id, t: Id)
    ensures Ranked([Region(Rtp(p), [Region(TrackHandler(t), [Touch(TrackBinding(t))])])], -1)
  {
    RankedUnder(TrackHandler(t), [Touch(TrackBinding(t))], 2);
    RankedUnder(Rtp(p), [Region(TrackHandler(t), [Touch(TrackBinding(t))])], -1);
  }

  lemma StartIsRanked(c: Id, p: Id, r: Id, t: Id, broadcasts: seq<Id>, others: seq<Id>)
    ensures Ranked(Program(BroadcastStart(c, p, r, t, broadcasts, others)), -1)
  {
    var starting := [Region(Room(r), Broadcasts(broadcasts) + [Touch(TrackHandler(t))] + Clients(others))];
    var source := [Region(Rtp(p), [Region(TrackHandler(t), [Touch(TrackBinding(t))])])];
    StartingIsRanked(t, broadcasts, others);
    RankedUnder(Room(r), starting[0].inner, -1);
    SourceIsRanked(p, t);
    RankedConcat([Touch(Server)], source, -1);
    RankedConcat([Touch(Server)] + source, starting, -1);
    RequestIsRanked(c, [Touch(Server)] + source + starting);
    assert [Touch(Server)] + source + starting == [Touch(Server), source[0], starting[0]];
  }

  lemma SubscribeIsRanked(c: Id, p: Id, r: Id, b: Id, tracks: seq<Id>, bound: seq<Id>)
    ensures Ranked(Program(BroadcastSubscribe(c, p, r, b, tracks, bound)), -1)
  {
    var creating, adding := Handlers(tracks) + Bindings(bound), [Touch(Broadcast(b))] + Handlers(tracks);
    RankedUnder(Room(r), [Touch(Broadcast(b))], -1);
    RankedUnder(Rtp(p), creating, -1);
    RankedUnder(Room(r), adding, -1);
    var work := [Touch(Server), Region(Room(r), [Touch(Broadcast(b))])];
    RankedConcat(work, [Region(Rtp(p), creating)], -1);
    RankedConcat(work + [Region(Rtp(p), creating)], [Region(Room(r), adding)], -1);
    assert work + [Region(Rtp(p), creating)] + [Region(Room(r), adding)]
        == [Touch(Server), Region(Room(r), [Touch(Broadcast(b))]), Region(Rtp(p), creating), Region(Room(r), adding)];
    RequestIsRanked(c, work + [Region(Rtp(p), creating)] + [Region(Room(r), adding)]);
  }

  lemma UnsubscribeIsRanked(c: Id, r: Id, b: Id, t: Id)
    ensures Ranked(Program(BroadcastUnsubscribe(c, r, b, t)), -1)
  {
    RankedUnder(Broadcast(b), [Touch(TrackHandler(t))], 1);
    RankedUnder(Room(r), [Region(Broadcast(b), [Touch(TrackHandler(t))])], -1);
    RequestIsRanked(c, [Region(Room(r), [Region(Broadcast(b), [Touch(TrackHandler(t))])])]);
  }

  lemma OutgoingIsRanked(p: Id, t: Id, rounds: seq<Round>)
    ensures Ranked(Program(OutgoingTrack(p, t, rounds)), -1)
  {
    var last := [Region(Rtp(p), [Touch(TrackBinding(t))])];
    RankedUnder(Rtp(p), [Touch(TrackBinding(t))], -1);
    RankedConcat([Touch(TrackShutdown(t))], Rounds(t, rounds), -1);
    RankedConcat([Touch(TrackShutdown(t))] + Rounds(t, rounds), last, -1);
  }

  /** The programs of one region, and those that take one lock at a time. */
  lemma ShortIsRanked(job: Job)
    requires job.AcceptClient? || job.Tick? || job.DeleteRoom? || job.ConnectionClosed? || job.ClientTask?
             || job.IncomingTrack?
    ensures Ranked(Program(job), -1)
  {
  }

  /** The programs that hold one lock while they take others. */
  lemma NestedIsRanked(job: Job)
    requires job.LeaveRoom? || job.CleanUpBroadcast? || job.PollBroadcast? || job.PeerTask? || job.TrackReceived?
             || job.CreateRoom?
    ensures Ranked(Program(job), -1)
  {
    match job
    case LeaveRoom(r, broadcasts, others) => RankedUnder(Room(r), Broadcasts(broadcasts) + Clients(others), -1);
    case CleanUpBroadcast(r, dropped, members) => RankedUnder(Room(r), Handlers(dropped) + Clients(members), -1);
    case PollBroadcast(b, dropped) => RankedUnder(Broadcast(b), Handlers(dropped), -1);
    case PeerTask(p, bound) => RankedUnder(Rtp(p), Bindings(bound), -1);
    case TrackReceived(p, t) => RankedUnder(Rtp(p), [Touch(TrackBinding(t))], -1);
    case CreateRoom(r) => RankedUnder(Server, [Touch(Room(r))], -1);
  }

  lemma StopIsRanked(c: Id, r: Id, b: Id)
    ensures Ranked(Program(BroadcastStop(c, r, b)), -1)
  {
    RankedUnder(Room(r), [Touch(Broadcast(b))], -1);
    RequestIsRanked(c, [Region(Room(r), [Touch(Broadcast(b))])]);
  }

  lemma RtpRequestIsRanked(c: Id, p: Id, bound: seq<Id>)
    ensures Ranked(Program(RtpRequest(c, p, bound)), -1)
  {
    RankedUnder(Rtp(p), Bindings(bound), -1);
    RequestIsRanked(c, [Region(Rtp(p), Bindings(bound))]);
  }

  /** Every task takes locks in rising order only. */
  lemma ProgramsAreRanked(job: Job)
    ensures Ranked(Program(job), -1)
  {
    match job
    case InitializeSession(c, p, bound, r, others, broadcasts) =>
      InitializeIsRanked(c, p, bound, r, others, broadcasts);
    case BroadcastStart(c, p, r, t, broadcasts, others) => StartIsRanked(c, p, r, t, broadcasts, others);
    case BroadcastSubscribe(c, p, r, b, tracks, bound) => SubscribeIsRanked(c, p, r, b, tracks, bound);
    case BroadcastUnsubscribe(c, r, b, t) => UnsubscribeIsRanked(c, r, b, t);
    case BroadcastStop(c, r, b) => StopIsRanked(c, r, b);
    case RtpRequest(c, p, bound) => RtpRequestIsRanked(c, p, bound);
    case OutgoingTrack(p, t, rounds) => OutgoingIsRanked(p, t, rounds);
    case AcceptClient(_) => ShortIsRanked(job);
    case Tick => ShortIsRanked(job);
    case DeleteRoom => ShortIsRanked(job);
    case ConnectionClosed(_) => ShortIsRanked(job);
    case ClientTask(_) => ShortIsRanked(job);
    case IncomingTrack(_, _, _) => ShortIsRanked(job);
    case _ => NestedIsRanked(job);
  }

  /** Some region under `outer` takes `inner` while it holds that. */
  predicate Nests(regions: seq<Region>, outer: Lock, inner: Lock) {
    exists region | region in regions ::
      || (region.lock == outer && exists within | within in region.inner :: within.lock == inner)
      || Nests(region.inner, outer, inner)
  }

  lemma NestsHere(regions: seq<Region>, i: nat, j: nat)
    requires i < |regions| && j < |regions[i].inner|
    ensures Nests(regions, regions[i].lock, regions[i].inner[j].lock)
  {
    assert regions[i].inner[j] in regions[i].inner && regions[i] in regions;
  }

  lemma NestsWithin(regions: seq<Region>, i: nat, outer: Lock, inner: Lock)
    requires i < |regions| && Nests(regions[i].inner, outer, inner)
    ensures Nests(regions, outer, inner)
  {
    assert regions[i] in regions;
  }

  /** The clients and broadcasts that joining a room goes through. */
  lemma JoiningTakes(c: Id, others: seq<Id>, broadcasts: seq<Id>)
    ensures Touch(Client(c)) in Joining(c, others, broadcasts)
    ensures forall i | 0 <= i < |others| :: Touch(Client(others[i])) in Joining(c, others, broadcasts)
    ensures forall i | 0 <= i < |broadcasts| :: Touch(Broadcast(broadcasts[i])) in Joining(c, others, broadcasts)
  {
    var joining := Joining(c, others, broadcasts);
    assert joining[0] == Touch(Client(c));
    assert forall i | 0 <= i < |others| :: joining[1 + i] == Touch(Client(others[i]));
    assert forall i | 0 <= i < |broadcasts| :: joining[|others| + 2 + i] == Touch(Broadcast(broadcasts[i]));
  }

  lemma UnderRoomNests(r: Id, inner: seq<Region>, touched: Lock)
    requires Touch(touched) in inner
    ensures Nests([Region(Room(r), inner)], Room(r), touched)
  {
    var j :| 0 <= j < |inner| && inner[j] == Touch(touched);
    NestsHere([Region(Room(r), inner)], 0, j);
  }

  /** Initialising a session takes the room under the server, and whatever joining goes through under the room. */
  lemma InitializingNests(c: Id, p: Id, bound: seq<Id>, r: Id, others: seq<Id>, broadcasts: seq<Id>, touched: Lock)
    requires touched == Client(c) || (touched.Client? && touched.client in others)
             || (touched.Broadcast? && touched.broadcast in broadcasts)
    ensures var program := Program(InitializeSession(c, p, bound, r, others, broadcasts));
            Nests(program, Server, Room(r)) && Nests(program, Server, Rtp(p)) && Nests(program, Room(r), touched)
  {
    var program := Program(InitializeSession(c, p, bound, r, others, broadcasts));
    var joining := Joining(c, others, broadcasts);
    assert program[2] == Region(Server, [Touch(Rtp(p))]);
    assert program[4] == Region(Server, [Region(Room(r), joining)]);
    NestsHere(program, 2, 0);
    NestsHere(program, 4, 0);
    JoiningTakes(c, others, broadcasts);
    UnderRoomNests(r, joining, touched);
    NestsWithin(program, 4, Room(r), touched);
  }

  /** A start goes down to the track's binding, the last link of the order. */
  lemma StartingNests(c: Id, p: Id, r: Id, t: Id, broadcasts: seq<Id>, others: seq<Id>)
    ensures var program := Program(BroadcastStart(c, p, r, t, broadcasts, others));
            Nests(program, Rtp(p), TrackHandler(t)) && Nests(program, TrackHandler(t), TrackBinding(t))
  {
    var program := Program(BroadcastStart(c, p, r, t, broadcasts, others));
    var source := Region(Rtp(p), [Region(TrackHandler(t), [Touch(TrackBinding(t))])]);
    assert program[3] == source;
    NestsHere(program, 3, 0);
    NestsHere(source.inner, 0, 0);
    NestsWithin(program, 3, TrackHandler(t), TrackBinding(t));
  }

  /** Dropping a subscription takes the track's handler under the broadcast, under the room. */
  lemma UnsubscribingNests(c: Id, r: Id, b: Id, t: Id)
    ensures var program := Program(BroadcastUnsubscribe(c, r, b, t));
            Nests(program, Room(r), Broadcast(b)) && Nests(program, Broadcast(b), TrackHandler(t))
  {
    var program := Program(BroadcastUnsubscribe(c, r, b, t));
    var leaving := Region(Room(r), [Region(Broadcast(b), [Touch(TrackHandler(t))])]);
    assert program[2] == leaving;
    NestsHere(program, 2, 0);
    NestsHere(leaving.inner, 0, 0);
    NestsWithin(program, 2, Broadcast(b), TrackHandler(t));
  }

  // ----- Configurations -----

  /** A task in progress: the locks it holds, the outermost first, and the steps it has left. */
  datatype Task = Task(held: seq<Lock>, rest: seq<Action>)

  type Config = seq<Task>

  predicate Holds(task: Task, l: Lock) {
    l in task.held
  }

  /** A task can take its next step unless that acquires a lock some task holds. */
  predicate CanMove(config: Config, i: nat)
    requires i < |config|
  {
    config[i].rest != []
    && (config[i].rest[0].Acquire? ==> forall task | task in config :: !Holds(task, config[i].rest[0].lock))
  }

  function Moved(task: Task): Task
    requires task.rest != []
  {
    match task.rest[0]
    case Acquire(l) => Task(task.held + [l], task.rest[1..])
    case Release(l) => Task(if task.held == [] then [] else task.held[..|task.held| - 1], task.rest[1..])
  }

  datatype Step = Spawn(job: Job) | Move(task: nat)

  function Next(config: Config, step: Step): Config {
    match step
    case Spawn(job) => config + [Task([], Actions(Program(job)))]
    case Move(i) => if i < |config| && CanMove(config, i) then config[i := Moved(config[i])] else config
  }

  function Run(steps: seq<Step>): Config {
    if steps == [] then [] else Next(Run(steps[..|steps| - 1]), steps[|steps| - 1])
  }

  // ----- What every task keeps -----

  /** The steps left release the held locks innermost first and acquire only locks that rank above all held ones. */
  predicate Disciplined(held: seq<Lock>, rest: seq<Action>)
    decreases |rest|
  {
    if rest == [] then held == []
    else
      match rest[0]
      case Acquire(l) => (forall h | h in held :: Rank(h) < Rank(l)) && Disciplined(held + [l], rest[1..])
      case Release(l) => held != [] && held[|held| - 1] == l && Disciplined(held[..|held| - 1], rest[1..])
  }

  /** Ranked regions can run in front of anything disciplined, under locks that rank no higher than the floor. */
  lemma {:induction false} RegionsAreDisciplined(held: seq<Lock>, regions: seq<Region>, floor: int, rest: seq<Action>)
    requires Ranked(regions, floor) && Disciplined(held, rest)
    requires forall h | h in held :: Rank(h) <= floor
    ensures Disciplined(held, Actions(regions) + rest)
    decreases regions
  {
    if regions == [] {
      assert Actions(regions) + rest == rest;
    } else {
      var first, l := regions[0], regions[0].lock;
      assert first in regions;
      var after := Actions(regions[1..]) + rest;
      RegionsAreDisciplined(held, regions[1..], floor, rest);
      ReleaseIsDisciplined(held, l, after);
      RegionsAreDisciplined(held + [l], first.inner, Rank(l), [Release(l)] + after);
      AcquireIsDisciplined(held, l, Actions(first.inner) + ([Release(l)] + after));
      ActionsOfFirst(regions, rest);
    }
  }

  lemma ActionsOfFirst(regions: seq<Region>, rest: seq<Action>)
    requires regions != []
    ensures var l := regions[0].lock;
            Actions(regions) + rest
            == [Acquire(l)] + (Actions(regions[0].inner) + ([Release(l)] + (Actions(regions[1..]) + rest)))
  {
  }

  lemma ReleaseIsDisciplined(held: seq<Lock>, l: Lock, after: seq<Action>)
    requires Disciplined(held, after)
    ensures Disciplined(held + [l], [Release(l)] + after)
  {
    assert (held + [l])[..|held|] == held && ([Release(l)] + after)[1..] == after;
  }

  lemma AcquireIsDisciplined(held: seq<Lock>, l: Lock, after: seq<Action>)
    requires (forall h | h in held :: Rank(h) < Rank(l)) && Disciplined(held + [l], after)
    ensures Disciplined(held, [Acquire(l)] + after)
  {
    assert ([Acquire(l)] + after)[1..] == after;
  }

  ghost predicate Exclusive(config: Config) {
    forall i, j, l | 0 <= i < j < |config| && Holds(config[i], l) :: !Holds(config[j], l)
  }

  ghost predicate Valid(config: Config) {
    Exclusive(config) && forall i | 0 <= i < |config| :: Disciplined(config[i].held, config[i].rest)
  }

  lemma SpawnedIsDisciplined(job: Job)
    ensures Disciplined([], Actions(Program(job)))
  {
    ProgramsAreRanked(job);
    RegionsAreDisciplined([], Program(job), -1, []);
    assert Actions(Program(job)) + [] == Actions(Program(job));
  }

  lemma MoveKeepsValid(config: Config, i: nat)
    requires Valid(config) && i < |config| && CanMove(config, i)
    ensures Valid(config[i := Moved(config[i])])
  {
    assert Disciplined(config[i].held, config[i].rest);
  }

  lemma NextKeepsValid(config: Config, step: Step)
    requires Valid(config)
    ensures Valid(Next(config, step))
  {
    match step
    case Spawn(job) => SpawnedIsDisciplined(job);
    case Move(i) =>
      if i < |config| && CanMove(config, i) {
        MoveKeepsValid(config, i);
      }
  }

  lemma {:induction false} RunIsValid(steps: seq<Step>)
    ensures Valid(Run(steps))
  {
    if steps == [] {
    } else {
      RunIsValid(steps[..|steps| - 1]);
      NextKeepsValid(Run(steps[..|steps| - 1]), steps[|steps| - 1]);
    }
  }

  // ----- Deadlock freedom -----

  /** A task that cannot move waits for a lock that ranks above all it holds. */
  lemma WaitsUpwards(config: Config, i: nat)
    requires Valid(config) && i < |config| && config[i].rest != [] && !CanMove(config, i)
    ensures config[i].rest[0].Acquire?
    ensures forall h | h in config[i].held :: Rank(h) < Rank(config[i].rest[0].lock)
    ensures exists j :: 0 <= j < |config| && Holds(config[j], config[i].rest[0].lock) && config[j].rest != []
  {
    assert Disciplined(config[i].held, config[i].rest);
    var l := config[i].rest[0].lock;
    var task :| task in config && Holds(task, l);
    var j :| 0 <= j < |config| && config[j] == task;
    assert Disciplined(config[j].held, config[j].rest);
  }

  /**
   An unfinished task can move, or following from holder to holder of the locks waited for leads to a
   task that can, in at most as many steps as there are ranks.
   */
  lemma {:induction false} SomeTaskCanMove(config: Config, i: nat) returns (j: nat)
    requires Valid(config) && i < |config| && config[i].rest != []
    ensures j < |config| && CanMove(config, j)
    decreases if config[i].rest[0].Acquire? then RANKS - Rank(config[i].rest[0].lock) else RANKS + 1
  {
    if CanMove(config, i) {
      return i;
    }
    WaitsUpwards(config, i);
    var l := config[i].rest[0].lock;
    var k :| 0 <= k < |config| && Holds(config[k], l) && config[k].rest != [];
    if CanMove(config, k) {
      return k;
    }
    WaitsUpwards(config, k);
    j := SomeTaskCanMove(config, k);
  }

  /** No reachable configuration is a deadlock: whenever some task has steps left, some task can take one. */
  lemma NoDeadlock(steps: seq<Step>)
    requires exists i :: 0 <= i < |Run(steps)| && Run(steps)[i].rest != []
    ensures exists j :: 0 <= j < |Run(steps)| && CanMove(Run(steps), j)
  {
    RunIsValid(steps);
    var i :| 0 <= i < |Run(steps)| && Run(steps)[i].rest != [];
    var j := SomeTaskCanMove(Run(steps), i);
  }

  // ----- Progress -----

  /** The steps that all tasks together have left. */
  function Remaining(config: Config): nat {
    if config == [] then 0 else Remaining(config[..|config| - 1]) + |config[|config| - 1].rest|
  }

  lemma {:induction false} MoveLeavesOneLess(config: Config, i: nat)
    requires i < |config| && config[i].rest != []
    ensures Remaining(config[i := Moved(config[i])]) + 1 == Remaining(config)
  {
    var next, init := config[i := Moved(config[i])], config[..|config| - 1];
    if i == |config| - 1 {
      assert next[..|config| - 1] == init;
    } else {
      MoveLeavesOneLess(init, i);
      assert next[..|config| - 1] == init[i := Moved(init[i])];
    }
  }

  lemma {:induction false} NothingRemains(config: Config)
    ensures Remaining(config) == 0 <==> forall i | 0 <= i < |config| :: config[i].rest == []
  {
    if config == [] {
    } else {
      var init := config[..|config| - 1];
      NothingRemains(init);
      assert forall i | 0 <= i < |init| :: init[i] == config[i];
    }
  }

  /** Moves `moves` in turn, each of which must be possible. */
  ghost predicate CanFollow(config: Config, moves: seq<nat>)
    decreases moves
  {
    || moves == []
    || (moves[0] < |config| && CanMove(config, moves[0]) && CanFollow(Next(config, Move(moves[0])), moves[1..]))
  }

  function Follow(config: Config, moves: seq<nat>): Config
    decreases moves
  {
    if moves == [] then config else Follow(Next(config, Move(moves[0])), moves[1..])
  }

  lemma {:induction false} FollowingCounts(config: Config, moves: seq<nat>)
    requires Valid(config) && CanFollow(config, moves)
    ensures Valid(Follow(config, moves)) && Remaining(Follow(config, moves)) + |moves| == Remaining(config)
    decreases moves
  {
    if moves == [] {
    } else {
      var i := moves[0];
      NextKeepsValid(config, Move(i));
      MoveLeavesOneLess(config, i);
      FollowingCounts(Next(config, Move(i)), moves[1..]);
    }
  }

  /**
   With nothing more spawned, whichever task is chosen each time: no choice of moves is longer than the
   steps that were left, and moves can go on exactly until every task has finished.
   */
  lemma EveryTaskFinishes(steps: seq<Step>, moves: seq<nat>)
    requires CanFollow(Run(steps), moves)
    ensures var config := Follow(Run(steps), moves);
            && |moves| <= Remaining(Run(steps))
            && ((forall i | 0 <= i < |config| :: !CanMove(config, i))
                <==> (forall i | 0 <= i < |config| :: config[i].rest == []))
            && (|moves| == Remaining(Run(steps)) <==> (forall i | 0 <= i < |config| :: config[i].rest == []))
  {
    RunIsValid(steps);
    FollowingCounts(Run(steps), moves);
    var config := Follow(Run(steps), moves);
    NothingRemains(config);
    if i :| 0 <= i < |config| && config[i].rest != [] {
      var j := SomeTaskCanMove(config, i);
    }
  }

  // ----- The order is needed -----

  /** A task that takes `outer` and, holding it, `inner`. */
  function Nesting(outer: Lock, inner: Lock): Task {
    Task([], Actions([Region(outer, [Region(inner, [])])]))
  }

  lemma NestingActs(outer: Lock, inner: Lock)
    ensures |Nesting(outer, inner).rest| > 1
    ensures Nesting(outer, inner).rest[0] == Acquire(outer) && Nesting(outer, inner).rest[1] == Acquire(inner)
  {
    assert Actions([Region(inner, [])])[0] == Acquire(inner);
  }

  /** Two tasks that nest two locks in opposite orders reach a configuration in which both wait for good. */
  lemma OppositeOrdersDeadlock(a: Lock, b: Lock)
    requires a != b
    ensures var start := [Nesting(a, b), Nesting(b, a)];
            var config := Follow(start, [0, 1]);
            && CanFollow(start, [0, 1]) && |config| == 2 && config[0].rest != [] && config[1].rest != []
            && !CanMove(config, 0) && !CanMove(config, 1)
  {
    NestingActs(a, b);
    NestingActs(b, a);
    var start := [Nesting(a, b), Nesting(b, a)];
    var halfway := Next(start, Move(0));
    assert halfway == [Moved(Nesting(a, b)), Nesting(b, a)];
    var config := Next(halfway, Move(1));
    assert config == [Moved(Nesting(a, b)), Moved(Nesting(b, a))];
    assert [0, 1][1..] == [1] && [1][1..] == [];
    assert Follow(start, [0, 1]) == Follow(halfway, [1]) == Follow(config, []) == config;
    assert Holds(config[0], a) && Holds(config[1], b);
    assert config[0] in config && config[1] in config;
  }
}

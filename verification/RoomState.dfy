/**
 A room as a state machine. Every step is one region of code that runs under the room's lock, one
 poll of a broadcast's task, or traffic on a broadcast's channels.
 */
module RoomState {
  import opened Ascending
  import opened Broadcasting
  import FanOut
  import opened Messages
  import opened Wrappers

  /** How many random ids are tried before giving up. */
  const ID_ATTEMPTS: nat := 999

  /** A shared broadcast object. */
  type Handle = ClientBroadcast

  /**
   `clients` maps each member to everything the room has queued to it since it joined. `tasks` holds
   the broadcasts whose task has not cleaned up yet and `retired` those whose task has.
   */
  datatype State = State(
    clients: map<ClientId, seq<Notify>>,
    userIds: map<ClientId, UserId>,
    lists: map<ClientId, seq<BroadcastId>>,
    broadcasts: map<BroadcastId, Handle>,
    tasks: map<Handle, Broadcast>,
    retired: set<Handle>)

  const EMPTY := State(map[], map[], map[], map[], map[], {})

  predicate Known(s: State, id: BroadcastId) {
    id in s.broadcasts && s.broadcasts[id] in s.tasks
  }

  function Get(s: State, id: BroadcastId): Broadcast
    requires Known(s, id)
  {
    s.tasks[s.broadcasts[id]]
  }

  function Put(s: State, id: BroadcastId, b: Broadcast): State
    requires Known(s, id)
  {
    s.(tasks := s.tasks[s.broadcasts[id] := b])
  }

  function Send(clients: map<ClientId, seq<Notify>>, message: Notify): map<ClientId, seq<Notify>> {
    map c | c in clients :: clients[c] + [message]
  }

  // ----- Joining and leaving -----

  function UserList(ids: set<ClientId>, userIds: map<ClientId, UserId>): seq<UserEntry> {
    var keys := Elements(ids);
    seq(|keys|, i requires 0 <= i < |keys| => UserEntry(keys[i], if keys[i] in userIds then userIds[keys[i]] else 0))
  }

  function Entries(broadcasts: map<BroadcastId, Handle>, tasks: map<Handle, Broadcast>)
    : map<BroadcastId, BroadcastEntry>
  {
    map id | id in broadcasts && broadcasts[id] in tasks :: tasks[broadcasts[id]].Entry()
  }

  function BroadcastList(entries: map<BroadcastId, BroadcastEntry>): seq<BroadcastEntry> {
    var ids := Elements(entries.Keys);
    ElementsAscend(entries.Keys);
    seq(|ids|, i requires 0 <= i < |ids| => assert ids[i] in ids; entries[ids[i]])
  }

  function Welcome(ids: set<ClientId>, userIds: map<ClientId, UserId>, entries: map<BroadcastId, BroadcastEntry>)
    : seq<Notify>
  {
    [NotifyUsers(UserList(ids, userIds)), NotifyBroadcasts(BroadcastList(entries))]
  }

  /** A newcomer is announced to the others and gets the full lists, itself included. */
  function AddClient(s: State, client: ClientId, user: UserId): State {
    if client in s.clients then s
    else
      var userIds := s.userIds[client := user];
      var welcome := Welcome(s.clients.Keys + {client}, userIds, Entries(s.broadcasts, s.tasks));
      s.(userIds := userIds,
         clients := Send(s.clients, NotifyUserJoined(UserEntry(client, user)))[client := welcome])
  }

  function Shutdown(s: State, id: BroadcastId): State {
    if Known(s, id) then Put(s, id, Get(s, id).(shutdown := true)) else s
  }

  function ShutdownAll(s: State, ids: seq<BroadcastId>): State {
    if ids == [] then s else Shutdown(ShutdownAll(s, ids[..|ids| - 1]), ids[|ids| - 1])
  }

  function ListOf(s: State, client: ClientId): seq<BroadcastId> {
    if client in s.lists then s.lists[client] else []
  }

  /** The room once the client is off its maps. */
  function Left(s: State, client: ClientId): State {
    s.(clients := s.clients - {client}, userIds := s.userIds - {client}, lists := s.lists - {client})
  }

  function RemoveClient(s: State, client: ClientId): State {
    if client !in s.clients then s
    else
      var closed := ShutdownAll(Left(s, client), ListOf(s, client));
      closed.(clients := Send(closed.clients, NotifyUserLeft(client)))
  }

  // ----- Broadcasts -----

  /** The first of the random draws that is not taken. */
  function FirstFree(draws: seq<BroadcastId>, taken: set<BroadcastId>): Option<BroadcastId> {
    if draws == [] then None
    else if draws[0] !in taken then Some(draws[0])
    else FirstFree(draws[1..], taken)
  }

  predicate Clashes(b: Broadcast, kind: BroadcastKind, name: Name) {
    b.kind == kind && b.name.lower == name.lower
  }

  /** The first listed broadcast that has the given kind and, up to case, the given name. */
  function Clash(s: State, ids: seq<BroadcastId>, kind: BroadcastKind, name: Name): Option<BroadcastId> {
    if ids == [] then None
    else if Known(s, ids[0]) && Clashes(Get(s, ids[0]), kind, name) then Some(ids[0])
    else Clash(s, ids[1..], kind, name)
  }

  function StartResponse(s: State, client: ClientId, name: Name, kind: BroadcastKind,
                         draws: seq<BroadcastId>): Response {
    if client !in s.clients then RoomNotJoined
    else
      match FirstFree(draws, s.broadcasts.Keys)
      case None => InternalError
      case Some(id) =>
        match Clash(s, ListOf(s, client), kind, name)
        case Some(running) => BroadcastAlreadyRunning(running)
        case None => BroadcastStarted(id)
  }

  function Started(s: State, client: ClientId, id: BroadcastId, handle: Handle, b: Broadcast): State {
    s.(lists := s.lists[client := ListOf(s, client) + [id]],
       broadcasts := s.broadcasts[id := handle],
       tasks := s.tasks[handle := b],
       clients := Send(s.clients, NotifyBroadcastStarted(b.Entry())))
  }

  function NewBroadcast(client: ClientId, id: BroadcastId, name: Name, kind: BroadcastKind, source: Source): Broadcast {
    Broadcast(kind, id, name, client, source, map[], false, false, 0)
  }

  function Start(s: State, client: ClientId, name: Name, kind: BroadcastKind, source: Source,
                 draws: seq<BroadcastId>, handle: Handle): State {
    var response := StartResponse(s, client, name, kind, draws);
    if response.BroadcastStarted?
    then Started(s, client, response.startedId, handle, NewBroadcast(client, response.startedId, name, kind, source))
    else s
  }

  function RemoveFirst(ids: seq<BroadcastId>, id: BroadcastId): seq<BroadcastId> {
    if ids == [] then [] else if ids[0] == id then ids[1..] else [ids[0]] + RemoveFirst(ids[1..], id)
  }

  function Stop(s: State, client: ClientId, id: BroadcastId): (State, Response) {
    if id !in ListOf(s, client) then (s, BroadcastUnknownId)
    else (Shutdown(s.(lists := s.lists[client := RemoveFirst(s.lists[client], id)]), id), Success)
  }

  function Subscribe(s: State, client: ClientId, id: BroadcastId, target: Target): (State, Response) {
    if !Known(s, id) then (s, BroadcastUnknownId)
    else if client in Get(s, id).targets then (s, BroadcastAlreadySubscribed)
    else (Put(s, id, Get(s, id).(targets := Get(s, id).targets[client := target])), Success)
  }

  function Unsubscribe(s: State, client: ClientId, id: BroadcastId): (State, Response) {
    if !Known(s, id) then (s, BroadcastUnknownId)
    else (Put(s, id, Get(s, id).(targets := Get(s, id).targets - {client})), Success)
  }

  /** One poll of an unfinished task, outside the room's lock. */
  function Poll(s: State, handle: Handle): State {
    if handle in s.tasks && !s.tasks[handle].finished && s.tasks[handle].source.Valid()
    then s.(tasks := s.tasks[handle := Polled(s.tasks[handle])])
    else s
  }

  /** A finished task takes the room's lock and cleans up. */
  function Finalise(s: State, handle: Handle): State {
    if handle !in s.tasks || !s.tasks[handle].finished then s
    else
      var id := s.tasks[handle].id;
      s.(broadcasts := s.broadcasts - {id},
         tasks := s.tasks - {handle},
         retired := s.retired + {handle},
         clients := Send(s.clients, NotifyBroadcastEnded(id)))
  }

  /** Traffic on the channels of a broadcast, which nobody holds the room's lock for. */
  predicate IsTraffic(event: FanOut.Step) {
    event.Send? || event.CloseSource? || event.Request? || event.CloseTarget?
  }

  function Carry(s: State, handle: Handle, event: FanOut.Step): State {
    if handle in s.tasks && s.tasks[handle].source.Valid()
    then s.(tasks := s.tasks[handle := FanOut.Next(s.tasks[handle], event)])
    else s
  }

  // ----- Runs -----

  datatype Step =
    | AddClientStep(client: ClientId, user: UserId)
    | RemoveClientStep(client: ClientId)
    | StartStep(client: ClientId, name: Name, kind: BroadcastKind, source: Source, draws: seq<BroadcastId>,
                handle: Handle)
    | StopStep(client: ClientId, id: BroadcastId)
    | SubscribeStep(client: ClientId, id: BroadcastId, target: Target)
    | UnsubscribeStep(client: ClientId, id: BroadcastId)
    | PollStep(handle: Handle)
    | FinaliseStep(handle: Handle)
    | TrafficStep(handle: Handle, event: FanOut.Step)

  /** A started broadcast is a new object, with a source from which nothing has been read. */
  predicate Possible(s: State, step: Step) {
    match step
    case StartStep(_, _, _, source, _, handle) => handle !in s.tasks && handle !in s.retired && source.position == 0
    case TrafficStep(_, event) => IsTraffic(event)
    case _ => true
  }

  function Next(s: State, step: Step): State {
    match step
    case AddClientStep(client, user) => AddClient(s, client, user)
    case RemoveClientStep(client) => RemoveClient(s, client)
    case StartStep(client, name, kind, source, draws, handle) => Start(s, client, name, kind, source, draws, handle)
    case StopStep(client, id) => Stop(s, client, id).0
    case SubscribeStep(client, id, target) => Subscribe(s, client, id, target).0
    case UnsubscribeStep(client, id) => Unsubscribe(s, client, id).0
    case PollStep(handle) => Poll(s, handle)
    case FinaliseStep(handle) => Finalise(s, handle)
    case TrafficStep(handle, event) => Carry(s, handle, event)
  }

  /** The state after a run; steps that are not possible when their turn comes do nothing. */
  function Run(s: State, steps: seq<Step>): State {
    if steps == [] then s
    else
      var before := Run(s, steps[..|steps| - 1]);
      var step := steps[|steps| - 1];
      if Possible(before, step) then Next(before, step) else before
  }
}

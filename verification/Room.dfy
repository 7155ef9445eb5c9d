/**
 The room itself: its maps and broadcast objects, updated in place. Each operation is a step of
 `RoomState`, so whatever is called, and in whatever order, the object is in the state of a run.
 */
module Rooms {
  import opened Broadcasting
  import FanOut
  import opened Messages
  import opened RoomInvariants
  import opened RoomReplica
  import opened RoomState
  import opened Wrappers

  class Room {
    var clients: map<ClientId, seq<Notify>>
    var clientUserIds: map<ClientId, UserId>
    var clientBroadcasts: map<ClientId, seq<BroadcastId>>
    var broadcasts: map<BroadcastId, ClientBroadcast>

    /** The broadcasts whose spawned task has not cleaned up, and those whose task has. */
    ghost var tasks: set<ClientBroadcast>
    ghost var retired: set<ClientBroadcast>

    /** The steps the room has taken since it was created. */
    ghost var history: seq<Step>

    ghost function Tasks(): map<ClientBroadcast, Broadcast>
      reads this`tasks, tasks
    {
      map b | b in tasks :: b.Value()
    }

    ghost function State(): State
      reads this`clients, this`clientUserIds, this`clientBroadcasts, this`broadcasts, this`tasks, this`retired, tasks
    {
      RoomState.State(clients, clientUserIds, clientBroadcasts, broadcasts, Tasks(), retired)
    }

    /** The room is where its history leads. */
    ghost predicate Running()
      reads this, tasks
    {
      State() == Run(EMPTY, history)
    }

    /** Every entry is a broadcast whose task has not cleaned up. */
    ghost predicate Linked()
      reads this`broadcasts, this`tasks
    {
      forall id | id in broadcasts :: broadcasts[id] in tasks
    }

    /** What holds of all runs holds of the room. */
    lemma RunningIsInOrder()
      requires Running()
      ensures Valid(State()) && InSync(State()) && Linked()
    {
      RunIsValid(history);
      EveryMemberIsInSync(history);
      assert Tasks().Keys == tasks;
    }

    lemma RunningIsLinked()
      requires Running()
      ensures Linked()
    {
      RunningIsInOrder();
    }

    /** The room has just taken a step from `before`, where its history led. */
    ghost method Record(before: State, step: Step)
      requires before == Run(EMPTY, history) && Possible(before, step) && State() == Next(before, step)
      modifies this`history
      ensures Running() && history == old(history) + [step]
    {
      history := history + [step];
      assert history[..|history| - 1] == old(history);
    }

    constructor ()
      ensures Running() && history == [] && State() == EMPTY && tasks == {}
    {
      clients, clientUserIds, clientBroadcasts, broadcasts := map[], map[], map[], map[];
      tasks, retired, history := {}, {}, [];
    }

    // ----- Messages -----

    method SendToAll(message: Notify)
      modifies this`clients
      ensures clients == Send(old(clients), message)
    {
      var todo := clients.Keys;
      while todo != {}
        invariant clients.Keys == old(clients).Keys && todo <= clients.Keys
        invariant forall c | c in clients ::
          clients[c] == if c in todo then old(clients)[c] else old(clients)[c] + [message]
      {
        var c :| c in todo;
        clients := clients[c := clients[c] + [message]];
        todo := todo - {c};
      }
    }

    method SendToOthers(client: ClientId, message: Notify)
      requires client in clients
      modifies this`clients
      ensures clients == Send(old(clients), message)[client := old(clients)[client]]
    {
      var todo := clients.Keys;
      while todo != {}
        invariant clients.Keys == old(clients).Keys && todo <= clients.Keys
        invariant forall c | c in clients ::
          clients[c] == if c in todo || c == client then old(clients)[c] else old(clients)[c] + [message]
      {
        var c :| c in todo;
        todo := todo - {c};
        if c == client {
          continue;
        }
        clients := clients[c := clients[c] + [message]];
      }
    }

    // ----- Joining and leaving -----

    function CurrentEntries(): map<BroadcastId, BroadcastEntry>
      reads this`broadcasts, broadcasts.Values
    {
      map id | id in broadcasts :: broadcasts[id].Value().Entry()
    }

    lemma CurrentEntriesAreKnown()
      requires Linked()
      ensures CurrentEntries() == Entries(broadcasts, Tasks())
    {
    }

    /** Registers a newcomer and announces it to the others. */
    method Register(client: ClientId, user: UserId)
      requires client !in clients
      modifies this`clients, this`clientUserIds
      ensures clientUserIds == old(clientUserIds)[client := user]
      ensures clients.Keys == old(clients).Keys + {client} && clients[client] == []
      ensures forall c | c in old(clients) ::
              clients[c] == old(clients)[c] + [NotifyUserJoined(UserEntry(client, user))]
    {
      clientUserIds := clientUserIds[client := user];
      clients := clients[client := []];
      SendToOthers(client, NotifyUserJoined(UserEntry(client, user)));
    }

    /** Sends a newcomer the full lists. */
    method Welcome(client: ClientId) returns (welcome: seq<Notify>)
      requires Linked() && client in clients && clients[client] == []
      modifies this`clients
      ensures welcome == RoomState.Welcome(old(clients).Keys, clientUserIds, Entries(broadcasts, Tasks()))
      ensures clients == old(clients)[client := welcome]
    {
      CurrentEntriesAreKnown();
      welcome := RoomState.Welcome(clients.Keys, clientUserIds, CurrentEntries());
      assert clients[client] + welcome == welcome;
      clients := clients[client := clients[client] + welcome];
    }

    method Join(client: ClientId, user: UserId) returns (welcome: seq<Notify>)
      requires Linked() && client !in clients
      modifies this`clients, this`clientUserIds
      ensures clientUserIds == old(clientUserIds)[client := user]
      ensures welcome == RoomState.Welcome(old(clients).Keys + {client}, clientUserIds, Entries(broadcasts, Tasks()))
      ensures clients == Send(old(clients), NotifyUserJoined(UserEntry(client, user)))[client := welcome]
    {
      Register(client, user);
      ghost var registered := clients;
      welcome := Welcome(client);
      OnlyNewcomerIsWelcomed(old(clients), registered, client, NotifyUserJoined(UserEntry(client, user)), welcome);
    }

    method AddClient(client: ClientId, user: UserId)
      requires Running()
      modifies this`clients, this`clientUserIds, this`history
      ensures Running() && history == old(history) + [AddClientStep(client, user)]
      ensures State() == RoomState.AddClient(old(State()), client, user)
    {
      RunningIsLinked();
      ghost var before := State();
      if client !in clients {
        var _ := Join(client, user);
      }
      Record(before, AddClientStep(client, user));
    }

    method ShutdownBroadcast(id: BroadcastId)
      requires Linked()
      modifies tasks
      ensures Tasks() == RoomState.Shutdown(old(State()), id).tasks
    {
      if id in broadcasts {
        broadcasts[id].Shutdown();
      }
    }

    method RemoveClient(client: ClientId)
      requires Running()
      modifies this`clients, this`clientUserIds, this`clientBroadcasts, this`history, tasks
      ensures Running() && history == old(history) + [RemoveClientStep(client)]
      ensures State() == RoomState.RemoveClient(old(State()), client)
    {
      RunningIsLinked();
      ghost var before := State();
      if client in clients {
        Leave(client);
      }
      Record(before, RemoveClientStep(client));
    }

    method Leave(client: ClientId)
      requires Linked() && client in clients
      modifies this`clients, this`clientUserIds, this`clientBroadcasts, tasks
      ensures State() == RoomState.RemoveClient(old(State()), client)
    {
      var ids := Forget(client);
      ShutdownBroadcasts(ids);
      SendToAll(NotifyUserLeft(client));
    }

    /** Takes the client off the maps and returns the ids it listed. */
    method Forget(client: ClientId) returns (ids: seq<BroadcastId>)
      modifies this`clients, this`clientUserIds, this`clientBroadcasts
      ensures ids == ListOf(old(State()), client) && State() == Left(old(State()), client)
    {
      ids := if client in clientBroadcasts then clientBroadcasts[client] else [];
      clients := clients - {client};
      clientUserIds := clientUserIds - {client};
      clientBroadcasts := clientBroadcasts - {client};
    }

    method ShutdownBroadcasts(ids: seq<BroadcastId>)
      requires Linked()
      modifies tasks
      ensures State() == ShutdownAll(old(State()), ids)
    {
      for i := 0 to |ids|
        invariant State() == ShutdownAll(old(State()), ids[..i])
      {
        assert ids[..i + 1] == ids[..i] + [ids[i]];
        ShutdownBroadcast(ids[i]);
      }
      assert ids[..|ids|] == ids;
    }

    // ----- Broadcasts -----

    /** The first of the random draws that no broadcast uses. */
    method GenerateBroadcastId(draws: seq<BroadcastId>) returns (id: Option<BroadcastId>)
      requires |draws| == ID_ATTEMPTS
      ensures id == FirstFree(draws, broadcasts.Keys)
      ensures |draws| == 999 && (id == None <==> forall draw | draw in draws :: draw in broadcasts)
    {
      FirstFreeIsFree(draws, broadcasts.Keys);
      for i := 0 to |draws|
        invariant FirstFree(draws, broadcasts.Keys) == FirstFree(draws[i..], broadcasts.Keys)
      {
        if draws[i] !in broadcasts {
          return Some(draws[i]);
        }
      }
      return None;
    }

    method FindClash(ids: seq<BroadcastId>, kind: BroadcastKind, name: Name) returns (id: Option<BroadcastId>)
      requires Linked()
      ensures id == Clash(State(), ids, kind, name)
    {
      for i := 0 to |ids|
        invariant Clash(State(), ids, kind, name) == Clash(State(), ids[i..], kind, name)
      {
        if ids[i] !in broadcasts {
          continue;
        }
        var broadcast := broadcasts[ids[i]];
        if broadcast.kind == kind && broadcast.name.lower == name.lower {
          return Some(ids[i]);
        }
      }
      return None;
    }

    /**
     Starts a broadcast on a random id and spawns its task. `started` is the new object, or null when
     the start is refused, which changes nothing.
     */
    method ClientBroadcastStart(client: ClientId, name: Name, kind: BroadcastKind, source: Source,
                                draws: seq<BroadcastId>)
      returns (response: Response, started: ClientBroadcast?)
      requires Running() && |draws| == ID_ATTEMPTS && source.position == 0
      modifies this`clients, this`clientBroadcasts, this`broadcasts, this`tasks, this`history
      ensures Running()
      ensures response == StartResponse(old(State()), client, name, kind, draws)
      ensures if response.BroadcastStarted?
              then && started != null && fresh(started) && tasks == old(tasks) + {started}
                   && history == old(history) + [StartStep(client, name, kind, source, draws, started)]
                   && State() == Start(old(State()), client, name, kind, source, draws, started)
              else started == null && tasks == old(tasks) && history == old(history) && State() == old(State())
    {
      RunningIsLinked();
      response := Admit(client, name, kind, draws);
      if !response.BroadcastStarted? {
        return response, null;
      }
      ghost var before := State();
      started := AddBroadcast(client, response.startedId, name, kind, source);
      Record(before, StartStep(client, name, kind, source, draws, started));
    }

    /**
     Decides on a start. The list is not stored before it grows: one that clashes is not empty, so it is
     stored already.
     */
    method Admit(client: ClientId, name: Name, kind: BroadcastKind, draws: seq<BroadcastId>)
      returns (response: Response)
      requires Linked() && |draws| == ID_ATTEMPTS
      ensures response == StartResponse(State(), client, name, kind, draws)
    {
      if client !in clients {
        return RoomNotJoined;
      }
      var id := GenerateBroadcastId(draws);
      if id == None {
        return InternalError;
      }
      var list := if client in clientBroadcasts then clientBroadcasts[client] else [];
      var running := FindClash(list, kind, name);
      return if running.Some? then BroadcastAlreadyRunning(running.value) else BroadcastStarted(id.value);
    }

    /** Creates the broadcast object, lists it, spawns its task and announces it. */
    method AddBroadcast(client: ClientId, id: BroadcastId, name: Name, kind: BroadcastKind, source: Source)
      returns (broadcast: ClientBroadcast)
      modifies this`clients, this`clientBroadcasts, this`broadcasts, this`tasks
      ensures fresh(broadcast) && tasks == old(tasks) + {broadcast}
      ensures State() == Started(old(State()), client, id, broadcast, NewBroadcast(client, id, name, kind, source))
    {
      broadcast := new ClientBroadcast(kind, id, name, client, source);
      var list := if client in clientBroadcasts then clientBroadcasts[client] else [];
      clientBroadcasts := clientBroadcasts[client := list + [id]];
      broadcasts := broadcasts[id := broadcast];
      tasks := tasks + {broadcast};
      SendToAll(NotifyBroadcastStarted(BroadcastEntry(client, id, kind, name.text)));
    }

    method ClientBroadcastStop(client: ClientId, id: BroadcastId) returns (response: Response)
      requires Running()
      modifies this`clientBroadcasts, this`history, tasks
      ensures Running() && history == old(history) + [StopStep(client, id)]
      ensures (State(), response) == Stop(old(State()), client, id)
    {
      RunningIsLinked();
      ghost var before := State();
      response := Unlist(client, id);
      if response == Success {
        ShutdownBroadcast(id);
      }
      Record(before, StopStep(client, id));
    }

    /** Takes the first occurrence of the id off the client's list. */
    method Unlist(client: ClientId, id: BroadcastId) returns (response: Response)
      modifies this`clientBroadcasts
      ensures response == if id in ListOf(old(State()), client) then Success else BroadcastUnknownId
      ensures clientBroadcasts == if response != Success then old(clientBroadcasts)
                                  else old(clientBroadcasts)[client := RemoveFirst(old(clientBroadcasts)[client], id)]
    {
      if client !in clientBroadcasts {
        return BroadcastUnknownId;
      }
      var list := clientBroadcasts[client];
      var index := 0;
      while index < |list| && list[index] != id
        invariant index <= |list|
        invariant forall i | 0 <= i < index :: list[i] != id
      {
        index := index + 1;
      }
      FirstIndexIsRemoved(list, id, index);
      if index == |list| {
        return BroadcastUnknownId;
      }
      clientBroadcasts := clientBroadcasts[client := list[..index] + list[index + 1..]];
      return Success;
    }

    method ClientBroadcastSubscribe(client: ClientId, id: BroadcastId, target: Target) returns (response: Response)
      requires Running()
      modifies this`history, tasks
      ensures Running() && history == old(history) + [SubscribeStep(client, id, target)]
      ensures (State(), response) == RoomState.Subscribe(old(State()), client, id, target)
    {
      RunningIsLinked();
      ghost var before := State();
      if id !in broadcasts {
        response := BroadcastUnknownId;
      } else {
        var broadcast := broadcasts[id];
        var inserted := broadcast.Subscribe(client, target);
        assert Tasks() == before.tasks[broadcast := broadcast.Value()];
        assert !inserted ==> Tasks() == before.tasks;
        response := if inserted then Success else BroadcastAlreadySubscribed;
      }
      Record(before, SubscribeStep(client, id, target));
    }

    method ClientBroadcastUnsubscribe(client: ClientId, id: BroadcastId) returns (response: Response)
      requires Running()
      modifies this`history, tasks
      ensures Running() && history == old(history) + [UnsubscribeStep(client, id)]
      ensures (State(), response) == RoomState.Unsubscribe(old(State()), client, id)
    {
      RunningIsLinked();
      ghost var before := State();
      if id !in broadcasts {
        response := BroadcastUnknownId;
      } else {
        var broadcast := broadcasts[id];
        broadcast.Unsubscribe(client);
        assert Tasks() == before.tasks[broadcast := broadcast.Value()];
        response := Success;
      }
      Record(before, UnsubscribeStep(client, id));
    }

    // ----- The spawned task of a broadcast and its channels -----

    lemma RunningTaskIsReadable(broadcast: ClientBroadcast)
      requires Running() && broadcast in tasks
      ensures broadcast.source.Valid()
    {
      RunningIsInOrder();
      assert State().tasks[broadcast] == broadcast.Value();
    }

    /** One poll by the task, which does not take the room's lock. */
    method PollTask(broadcast: ClientBroadcast) returns (ready: bool)
      requires Running() && broadcast in tasks && !broadcast.finished
      modifies this`history, broadcast
      ensures Running() && history == old(history) + [PollStep(broadcast)]
      ensures State() == RoomState.Poll(old(State()), broadcast) && ready == broadcast.finished
    {
      RunningTaskIsReadable(broadcast);
      ghost var before := State();
      ready := broadcast.Poll();
      assert Tasks() == before.tasks[broadcast := broadcast.Value()];
      Record(before, PollStep(broadcast));
    }

    /** What the task does under the room's lock once it is finished. */
    method CleanUpTask(broadcast: ClientBroadcast)
      requires Running() && broadcast in tasks && broadcast.finished
      modifies this`clients, this`broadcasts, this`tasks, this`retired, this`history
      ensures Running() && history == old(history) + [FinaliseStep(broadcast)]
      ensures tasks == old(tasks) - {broadcast} && State() == Finalise(old(State()), broadcast)
    {
      ghost var before := State();
      broadcasts := broadcasts - {broadcast.id};
      tasks, retired := tasks - {broadcast}, retired + {broadcast};
      SendToAll(NotifyBroadcastEnded(broadcast.id));
      Record(before, FinaliseStep(broadcast));
    }

    /** What the other ends of a broadcast's channels do, at any time. */
    method CarryTraffic(broadcast: ClientBroadcast, event: FanOut.Step)
      requires Running() && broadcast in tasks && IsTraffic(event)
      modifies this`history, broadcast
      ensures Running() && history == old(history) + [TrafficStep(broadcast, event)]
      ensures State() == Carry(old(State()), broadcast, event)
    {
      RunningTaskIsReadable(broadcast);
      ghost var before := State();
      var after := FanOut.Next(broadcast.Value(), event);
      broadcast.source, broadcast.targets := after.source, after.targets;
      assert Tasks() == before.tasks[broadcast := broadcast.Value()];
      Record(before, TrafficStep(broadcast, event));
    }
  }

  // ----- A room at work -----

  datatype Request =
    | JoinRequest(client: ClientId, user: UserId)
    | LeaveRequest(client: ClientId)
    | StartRequest(client: ClientId, name: Name, kind: BroadcastKind, source: Source, draws: seq<BroadcastId>)
    | StopRequest(client: ClientId, id: BroadcastId)
    | SubscribeRequest(client: ClientId, id: BroadcastId, target: Target)
    | UnsubscribeRequest(client: ClientId, id: BroadcastId)

  /** A started broadcast brings a source nothing has been read from, and every try for an id draws one. */
  predicate WellFormed(request: Request) {
    request.StartRequest? ==> request.source.position == 0 && |request.draws| == ID_ATTEMPTS
  }

  /**
   The request takes the history from `before` to `after` by its own step, or nowhere if it is a start
   that is refused, and is answered as that step is; joining and leaving have no answer of their own.
   */
  ghost predicate Served(before: seq<Step>, request: Request, response: Option<Response>, after: seq<Step>) {
    var s := Run(EMPTY, before);
    match request
    case JoinRequest(client, user) => response == None && after == before + [AddClientStep(client, user)]
    case LeaveRequest(client) => response == None && after == before + [RemoveClientStep(client)]
    case StartRequest(client, name, kind, source, draws) =>
      && response == Some(StartResponse(s, client, name, kind, draws))
      && if response.value.BroadcastStarted?
         then && |after| == |before| + 1 && after[..|before|] == before && after[|before|].StartStep?
              && after[|before|] == StartStep(client, name, kind, source, draws, after[|before|].handle)
         else after == before
    case StopRequest(client, id) =>
      response == Some(Stop(s, client, id).1) && after == before + [StopStep(client, id)]
    case SubscribeRequest(client, id, target) =>
      response == Some(Subscribe(s, client, id, target).1) && after == before + [SubscribeStep(client, id, target)]
    case UnsubscribeRequest(client, id) =>
      response == Some(Unsubscribe(s, client, id).1) && after == before + [UnsubscribeStep(client, id)]
  }

  method ServeOne(room: Room, request: Request) returns (response: Option<Response>)
    requires room.Running() && WellFormed(request)
    modifies room, room.tasks
    ensures room.Running() && fresh(room.tasks - old(room.tasks))
    ensures Served(old(room.history), request, response, room.history)
  {
    response := None;
    match request
    case JoinRequest(client, user) => room.AddClient(client, user);
    case LeaveRequest(client) => room.RemoveClient(client);
    case StartRequest(client, name, kind, source, draws) =>
      var answer, _ := room.ClientBroadcastStart(client, name, kind, source, draws);
      response := Some(answer);
    case StopRequest(client, id) =>
      var answer := room.ClientBroadcastStop(client, id);
      response := Some(answer);
    case SubscribeRequest(client, id, target) =>
      var answer := room.ClientBroadcastSubscribe(client, id, target);
      response := Some(answer);
    case UnsubscribeRequest(client, id) =>
      var answer := room.ClientBroadcastUnsubscribe(client, id);
      response := Some(answer);
  }

  /** The requests, in order, each served from where the one before left the history. */
  ghost predicate AllServed(requests: seq<Request>, responses: seq<Option<Response>>, history: seq<Step>) {
    && |responses| == |requests|
    && if requests == [] then history == []
       else
         var last := |requests| - 1;
         exists n | 0 <= n <= |history| ::
           && AllServed(requests[..last], responses[..last], history[..n])
           && Served(history[..n], requests[last], responses[last], history)
  }

  lemma OneMoreServed(requests: seq<Request>, responses: seq<Option<Response>>, before: seq<Step>, request: Request,
                      response: Option<Response>, after: seq<Step>)
    requires AllServed(requests, responses, before) && Served(before, request, response, after)
    ensures AllServed(requests + [request], responses + [response], after)
  {
    assert (requests + [request])[..|requests|] == requests && (responses + [response])[..|responses|] == responses;
    assert after[..|before|] == before;
  }

  /** The first `n` requests are served. */
  ghost predicate ServedSoFar(requests: seq<Request>, n: nat, responses: seq<Option<Response>>, history: seq<Step>) {
    n <= |requests| && AllServed(requests[..n], responses, history)
  }

  lemma NothingServed(requests: seq<Request>)
    ensures ServedSoFar(requests, 0, [], [])
  {
  }

  lemma EverythingServed(requests: seq<Request>, responses: seq<Option<Response>>, history: seq<Step>)
    requires ServedSoFar(requests, |requests|, responses, history)
    ensures AllServed(requests, responses, history)
  {
    assert requests[..|requests|] == requests;
  }

  /** Serves one more request. */
  method ServeNext(room: Room, requests: seq<Request>, n: nat, responses: seq<Option<Response>>)
    returns (more: seq<Option<Response>>)
    requires n < |requests| && WellFormed(requests[n])
    requires room.Running() && ServedSoFar(requests, n, responses, room.history)
    modifies room, room.tasks
    ensures room.Running() && fresh(room.tasks - old(room.tasks))
    ensures ServedSoFar(requests, n + 1, more, room.history)
  {
    ghost var before := room.history;
    var response := ServeOne(room, requests[n]);
    OneMoreServed(requests[..n], responses, before, requests[n], response, room.history);
    assert requests[..n + 1] == requests[..n] + [requests[n]];
    return responses + [response];
  }

  method ServeAll(room: Room, requests: seq<Request>) returns (responses: seq<Option<Response>>)
    requires room.Running() && room.history == [] && room.tasks == {}
    requires forall request | request in requests :: WellFormed(request)
    modifies room
    ensures room.Running() && AllServed(requests, responses, room.history)
  {
    responses := [];
    NothingServed(requests);
    for i := 0 to |requests|
      invariant fresh(room.tasks) && room.Running()
      invariant ServedSoFar(requests, i, responses, room.history)
    {
      responses := ServeNext(room, requests, i, responses);
    }
    EverythingServed(requests, responses, room.history);
  }

  /**
   A new room that serves any requests takes their steps and answers as they do, and ends in order with
   every member told all there is to know.
   */
  method Serve(requests: seq<Request>) returns (room: Room, responses: seq<Option<Response>>)
    requires forall request | request in requests :: WellFormed(request)
    ensures fresh(room) && room.Running() && Valid(room.State()) && InSync(room.State())
    ensures AllServed(requests, responses, room.history)
  {
    room := new Room();
    responses := ServeAll(room, requests);
    room.RunningIsInOrder();
  }

  lemma OnlyNewcomerIsWelcomed(before: map<ClientId, seq<Notify>>, registered: map<ClientId, seq<Notify>>,
                               client: ClientId,
                               message: Notify, welcome: seq<Notify>)
    requires registered.Keys == before.Keys + {client}
    requires forall c | c in before :: registered[c] == before[c] + [message]
    ensures registered[client := welcome] == Send(before, message)[client := welcome]
  {
  }

  lemma {:induction false} FirstIndexIsRemoved(list: seq<BroadcastId>, id: BroadcastId, index: nat)
    requires index <= |list| && forall i | 0 <= i < index :: list[i] != id
    requires index < |list| ==> list[index] == id
    ensures id in list <==> index < |list|
    ensures index < |list| ==> RemoveFirst(list, id) == list[..index] + list[index + 1..]
    decreases index
  {
    if index == 0 {
    } else {
      FirstIndexIsRemoved(list[1..], id, index - 1);
      assert list == [list[0]] + list[1..];
    }
  }
}

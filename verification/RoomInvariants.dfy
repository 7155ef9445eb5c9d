/** What every step of a room keeps, and what that says about the life of a broadcast over whole runs. */
module RoomInvariants {
  import opened Broadcasting
  import FanOut
  import opened Messages
  import opened RoomState
  import opened Wrappers

  ghost predicate MembersHaveIds(s: State) {
    s.clients.Keys == s.userIds.Keys && s.lists.Keys <= s.clients.Keys
  }

  /** Entries and tasks that have not cleaned up correspond one to one. */
  ghost predicate EntriesAreTasks(s: State) {
    && (forall id | id in s.broadcasts :: s.broadcasts[id] in s.tasks && s.tasks[s.broadcasts[id]].id == id)
    && (forall h | h in s.tasks :: s.tasks[h].id in s.broadcasts && s.broadcasts[s.tasks[h].id] == h)
    && (forall h | h in s.tasks :: h !in s.retired)
  }

  /** A broadcast that has not been told to shut down belongs to a member that lists it. */
  ghost predicate OpenIsListed(s: State) {
    forall h | h in s.tasks && !s.tasks[h].shutdown ::
      s.tasks[h].clientId in s.clients && s.tasks[h].id in ListOf(s, s.tasks[h].clientId)
  }

  /** No two of one client's broadcasts that have not been told to shut down share kind and name. */
  ghost predicate OpenAreDistinct(s: State) {
    forall h, k | h in s.tasks && k in s.tasks && h != k && !s.tasks[h].shutdown && !s.tasks[k].shutdown
                  && s.tasks[h].clientId == s.tasks[k].clientId ::
      s.tasks[h].kind != s.tasks[k].kind || s.tasks[h].name.lower != s.tasks[k].name.lower
  }

  ghost predicate SourcesAreReadable(s: State) {
    forall h | h in s.tasks :: s.tasks[h].source.Valid()
  }

  ghost predicate Valid(s: State) {
    MembersHaveIds(s) && EntriesAreTasks(s) && OpenIsListed(s) && OpenAreDistinct(s) && SourcesAreReadable(s)
  }

  // ----- Steps on one broadcast -----

  /** `b` is the same broadcast as `a`, open only if `a` was. */
  ghost predicate SameBroadcast(a: Broadcast, b: Broadcast) {
    && b.kind == a.kind && b.id == a.id && b.name == a.name && b.clientId == a.clientId
    && (a.shutdown ==> b.shutdown) && b.source.Valid()
  }

  lemma UpdateKeepsValid(s: State, h: Handle, b: Broadcast)
    requires Valid(s) && h in s.tasks && SameBroadcast(s.tasks[h], b)
    ensures Valid(s.(tasks := s.tasks[h := b]))
  {
  }

  lemma ShutdownKeepsValid(s: State, id: BroadcastId)
    requires Valid(s)
    ensures Valid(Shutdown(s, id))
  {
    if Known(s, id) {
      UpdateKeepsValid(s, s.broadcasts[id], Get(s, id).(shutdown := true));
    }
  }

  lemma AddClientKeepsValid(s: State, client: ClientId, user: UserId)
    requires Valid(s)
    ensures Valid(AddClient(s, client, user))
  {
  }

  // ----- Leaving -----

  /** `e` is `s` with the broadcasts in `ids` signalled. */
  ghost predicate Signalled(s: State, ids: seq<BroadcastId>, e: State) {
    && e == s.(tasks := e.tasks) && e.tasks.Keys == s.tasks.Keys
    && forall h | h in s.tasks ::
      e.tasks[h] == if s.tasks[h].id in ids then s.tasks[h].(shutdown := true) else s.tasks[h]
  }

  lemma OneMoreSignalled(s: State, ids: seq<BroadcastId>, e: State, id: BroadcastId)
    requires EntriesAreTasks(s) && Signalled(s, ids, e)
    ensures Signalled(s, ids + [id], Shutdown(e, id))
  {
  }

  lemma {:induction false} ShutdownAllSignals(s: State, ids: seq<BroadcastId>)
    requires EntriesAreTasks(s)
    ensures Signalled(s, ids, ShutdownAll(s, ids))
  {
    if ids == [] {
    } else {
      var init, last := ids[..|ids| - 1], ids[|ids| - 1];
      ShutdownAllSignals(s, init);
      OneMoreSignalled(s, init, ShutdownAll(s, init), last);
      assert ids == init + [last];
    }
  }

  lemma RemoveClientMeaning(s: State, client: ClientId)
    requires Valid(s) && client in s.clients
    ensures var e := RemoveClient(s, client);
            && e.userIds == Left(s, client).userIds && e.lists == Left(s, client).lists && e.broadcasts == s.broadcasts
            && e.retired == s.retired && e.clients == Send(Left(s, client).clients, NotifyUserLeft(client))
            && e.tasks.Keys == s.tasks.Keys
            && forall h | h in s.tasks ::
              e.tasks[h] == if s.tasks[h].id in ListOf(s, client) then s.tasks[h].(shutdown := true) else s.tasks[h]
  {
    ShutdownAllSignals(Left(s, client), ListOf(s, client));
  }

  lemma LeavingKeepsLinks(s: State, client: ClientId)
    requires Valid(s) && client in s.clients
    ensures var e := RemoveClient(s, client); MembersHaveIds(e) && EntriesAreTasks(e) && SourcesAreReadable(e)
  {
    RemoveClientMeaning(s, client);
  }

  lemma LeavingKeepsLists(s: State, client: ClientId)
    requires Valid(s) && client in s.clients
    ensures var e := RemoveClient(s, client); OpenIsListed(e) && OpenAreDistinct(e)
  {
    RemoveClientMeaning(s, client);
  }

  lemma LeavingSignals(s: State, client: ClientId, h: Handle)
    requires Valid(s) && client in s.clients
    ensures var e := RemoveClient(s, client); h in e.tasks && e.tasks[h].clientId == client ==> e.tasks[h].shutdown
  {
    RemoveClientMeaning(s, client);
  }

  /** Leaving keeps the room in order and signals every broadcast of the client that left. */
  lemma RemoveClientSignals(s: State, client: ClientId)
    requires Valid(s)
    ensures Valid(RemoveClient(s, client)) && client !in RemoveClient(s, client).clients
    ensures var e := RemoveClient(s, client);
            forall h | h in e.tasks && e.tasks[h].clientId == client :: e.tasks[h].shutdown
  {
    var e := RemoveClient(s, client);
    if client in s.clients {
      RemoveClientMeaning(s, client);
      LeavingKeepsLinks(s, client);
      LeavingKeepsLists(s, client);
      forall h | h in e.tasks && e.tasks[h].clientId == client
        ensures e.tasks[h].shutdown
      {
        LeavingSignals(s, client, h);
      }
    }
  }

  // ----- Starting and stopping -----

  /** Of the draws the first that is not taken, none only if all are taken. */
  lemma {:induction false} FirstFreeIsFree(draws: seq<BroadcastId>, taken: set<BroadcastId>)
    ensures match FirstFree(draws, taken)
            case Some(id) =>
              && id !in taken
              && exists i | 0 <= i < |draws| :: draws[i] == id && forall j | 0 <= j < i :: draws[j] in taken
            case None => forall id | id in draws :: id in taken
  {
    if draws == [] {
    } else {
      FirstFreeIsFree(draws[1..], taken);
      if draws[0] in taken && FirstFree(draws, taken).Some? {
        var i :| 0 <= i < |draws| - 1 && draws[1..][i] == FirstFree(draws, taken).value
                 && forall j | 0 <= j < i :: draws[1..][j] in taken;
        assert forall j | 0 <= j < i + 1 :: draws[j] in taken;
        assert draws[i + 1] == FirstFree(draws, taken).value;
      }
    }
  }

  /** The client's broadcast under this id has that kind and, up to case, that name. */
  predicate RunsAs(s: State, id: BroadcastId, kind: BroadcastKind, name: Name) {
    Known(s, id) && Get(s, id).kind == kind && Get(s, id).name.lower == name.lower
  }

  /** Of the ids the first whose broadcast has that kind and name, none only if there is none. */
  lemma {:induction false} ClashIsListed(s: State, ids: seq<BroadcastId>, kind: BroadcastKind, name: Name)
    ensures match Clash(s, ids, kind, name)
            case Some(id) =>
              && RunsAs(s, id, kind, name)
              && exists i | 0 <= i < |ids| :: ids[i] == id && forall j | 0 <= j < i :: !RunsAs(s, ids[j], kind, name)
            case None => forall id | id in ids :: !RunsAs(s, id, kind, name)
  {
    if ids == [] {
    } else {
      ClashIsListed(s, ids[1..], kind, name);
      if !RunsAs(s, ids[0], kind, name) && Clash(s, ids, kind, name).Some? {
        var i :| 0 <= i < |ids| - 1 && ids[1..][i] == Clash(s, ids, kind, name).value
                 && forall j | 0 <= j < i :: !RunsAs(s, ids[1..][j], kind, name);
        assert forall j | 0 <= j < i + 1 :: !RunsAs(s, ids[j], kind, name);
        assert ids[i + 1] == Clash(s, ids, kind, name).value;
      }
    }
  }

  lemma StartedKeepsValid(s: State, client: ClientId, id: BroadcastId, handle: Handle, b: Broadcast)
    requires Valid(s) && client in s.clients && id !in s.broadcasts && handle !in s.tasks && handle !in s.retired
    requires b.id == id && b.clientId == client && b.source.Valid()
    requires forall i | i in ListOf(s, client) :: !RunsAs(s, i, b.kind, b.name)
    ensures Valid(Started(s, client, id, handle, b))
  {
    StartedIsLinked(s, client, id, handle, b);
    StartedIsListed(s, client, id, handle, b);
    StartedIsDistinct(s, client, id, handle, b);
  }

  lemma StartedIsLinked(s: State, client: ClientId, id: BroadcastId, handle: Handle, b: Broadcast)
    requires Valid(s) && client in s.clients && id !in s.broadcasts && handle !in s.tasks && handle !in s.retired
    requires b.id == id && b.source.Valid()
    ensures var e := Started(s, client, id, handle, b); MembersHaveIds(e) && EntriesAreTasks(e) && SourcesAreReadable(e)
  {
  }

  lemma StartedIsListed(s: State, client: ClientId, id: BroadcastId, handle: Handle, b: Broadcast)
    requires Valid(s) && client in s.clients && b.id == id && b.clientId == client
    ensures OpenIsListed(Started(s, client, id, handle, b))
  {
  }

  lemma StartedIsDistinct(s: State, client: ClientId, id: BroadcastId, handle: Handle, b: Broadcast)
    requires Valid(s) && b.clientId == client
    requires forall i | i in ListOf(s, client) :: !RunsAs(s, i, b.kind, b.name)
    ensures OpenAreDistinct(Started(s, client, id, handle, b))
  {
    forall h | h in s.tasks && !s.tasks[h].shutdown && s.tasks[h].clientId == client
      ensures s.tasks[h].kind != b.kind || s.tasks[h].name.lower != b.name.lower
    {
      assert s.tasks[h].id in ListOf(s, client) && Known(s, s.tasks[h].id);
    }
  }

  lemma StartKeepsValid(s: State, client: ClientId, name: Name, kind: BroadcastKind, source: Source,
                        draws: seq<BroadcastId>, handle: Handle)
    requires Valid(s) && handle !in s.tasks && handle !in s.retired && source.Valid()
    ensures Valid(Start(s, client, name, kind, source, draws, handle))
  {
    FirstFreeIsFree(draws, s.broadcasts.Keys);
    ClashIsListed(s, ListOf(s, client), kind, name);
    var response := StartResponse(s, client, name, kind, draws);
    if response.BroadcastStarted? {
      StartedKeepsValid(s, client, response.startedId, handle,
                        NewBroadcast(client, response.startedId, name, kind, source));
    }
  }

  /** The client already has a listed broadcast of that kind and name. */
  ghost predicate AlreadyRunning(s: State, client: ClientId, kind: BroadcastKind, name: Name) {
    exists id | id in ListOf(s, client) :: RunsAs(s, id, kind, name)
  }

  /**
   A client that has not joined, draws that are all taken and a listed broadcast of the same kind and
   name are each refused exactly, in this order; any other start gets the first draw that is free.
   */
  lemma StartResponds(s: State, client: ClientId, name: Name, kind: BroadcastKind, draws: seq<BroadcastId>)
    ensures var response := StartResponse(s, client, name, kind, draws);
            if client !in s.clients then response.RoomNotJoined?
            else if forall id | id in draws :: id in s.broadcasts then response.InternalError?
            else if AlreadyRunning(s, client, kind, name)
            then && response.BroadcastAlreadyRunning? && response.runningId in ListOf(s, client)
                 && RunsAs(s, response.runningId, kind, name)
            else && response.BroadcastStarted? && response.startedId !in s.broadcasts
                 && exists i | 0 <= i < |draws| ::
                      draws[i] == response.startedId && forall j | 0 <= j < i :: draws[j] in s.broadcasts
  {
    FirstFreeIsFree(draws, s.broadcasts.Keys);
    ClashIsListed(s, ListOf(s, client), kind, name);
  }

  /**
   A refused start changes nothing; any other opens a broadcast that is new, the client's own, and as it
   asked for.
   */
  lemma StartOpens(s: State, client: ClientId, name: Name, kind: BroadcastKind, source: Source,
                   draws: seq<BroadcastId>, handle: Handle)
    ensures var e := Start(s, client, name, kind, source, draws, handle);
            var response := StartResponse(s, client, name, kind, draws);
            if !response.BroadcastStarted? then e == s
            else && Opened(s, e, client, response.startedId, handle)
                 && e.tasks[handle] == Broadcast(kind, response.startedId, name, client, source, map[], false, false, 0)
  {
  }

  /** The broadcast is added under its id, at the end of the client's list, and nothing else is changed. */
  ghost predicate Opened(s: State, e: State, client: ClientId, id: BroadcastId, handle: Handle) {
    && e.broadcasts == s.broadcasts[id := handle] && e.tasks.Keys == s.tasks.Keys + {handle}
    && (forall h | h in s.tasks && h != handle :: e.tasks[h] == s.tasks[h])
    && ListOf(e, client) == ListOf(s, client) + [id]
    && (forall other | other != client :: ListOf(e, other) == ListOf(s, other))
    && e.userIds == s.userIds && e.retired == s.retired
  }

  lemma {:induction false} RemoveFirstKeepsOthers(ids: seq<BroadcastId>, id: BroadcastId)
    ensures forall i | i in ids && i != id :: i in RemoveFirst(ids, id)
    ensures forall i | i in RemoveFirst(ids, id) :: i in ids
    ensures multiset(RemoveFirst(ids, id)) == multiset(ids) - multiset{id}
  {
    if ids == [] {
    } else {
      assert ids == [ids[0]] + ids[1..];
      RemoveFirstKeepsOthers(ids[1..], id);
    }
  }

  /** Nothing open is unlisted, as what is unlisted has been signalled. */
  lemma UnlistKeepsValid(s: State, client: ClientId, id: BroadcastId)
    requires Valid(s) && id in ListOf(s, client) && (Known(s, id) ==> Get(s, id).shutdown)
    ensures Valid(s.(lists := s.lists[client := RemoveFirst(s.lists[client], id)]))
  {
    RemoveFirstKeepsOthers(s.lists[client], id);
  }

  lemma StopKeepsValid(s: State, client: ClientId, id: BroadcastId)
    requires Valid(s)
    ensures Valid(Stop(s, client, id).0)
  {
    if id in ListOf(s, client) {
      var signalled := Shutdown(s, id);
      ShutdownKeepsValid(s, id);
      UnlistKeepsValid(signalled, client, id);
      assert Stop(s, client, id).0 == signalled.(lists := signalled.lists[client := RemoveFirst(s.lists[client], id)]);
    }
  }

  /** A stop the client is entitled to signals the broadcast and unlists it once; any other changes nothing. */
  lemma StopSignals(s: State, client: ClientId, id: BroadcastId)
    requires Valid(s)
    ensures var (e, response) := Stop(s, client, id);
            && Valid(e)
            && (response == Success <==> id in ListOf(s, client))
            && (response == Success ==>
                  && multiset(ListOf(e, client)) == multiset(ListOf(s, client)) - multiset{id}
                  && (id in s.broadcasts ==> id in e.broadcasts && Get(e, id).shutdown))
            && (response != Success ==> response == BroadcastUnknownId && e == s)
  {
    StopKeepsValid(s, client, id);
    if id in ListOf(s, client) {
      RemoveFirstKeepsOthers(s.lists[client], id);
    }
  }

  // ----- Subscribing -----

  /**
   An id that is not in use is unknown, a second subscription to a broadcast is refused, and neither
   changes anything; any other puts the target among the broadcast's and touches nothing else.
   */
  lemma SubscribeResponds(s: State, client: ClientId, id: BroadcastId, target: Target)
    requires Valid(s)
    ensures var (e, response) := Subscribe(s, client, id, target);
            && (response == BroadcastUnknownId <==> id !in s.broadcasts)
            && (response == BroadcastAlreadySubscribed <==> id in s.broadcasts && client in Get(s, id).targets)
            && (response == Success <==> id in s.broadcasts && client !in Get(s, id).targets)
            && (response != Success ==> e == s)
            && (response == Success ==> RetargetsOnly(s, e, id, Get(s, id).targets[client := target]))
  {
  }

  /** Only an id that is not in use is refused; whether it was subscribed or not, the client is not afterwards. */
  lemma UnsubscribeResponds(s: State, client: ClientId, id: BroadcastId)
    requires Valid(s)
    ensures var (e, response) := Unsubscribe(s, client, id);
            && (response == BroadcastUnknownId <==> id !in s.broadcasts)
            && (response == Success <==> id in s.broadcasts)
            && (response != Success ==> e == s)
            && (response == Success ==> RetargetsOnly(s, e, id, Get(s, id).targets - {client}))
  {
  }

  /** The broadcast under the id has these targets afterwards, and nothing else has changed. */
  ghost predicate RetargetsOnly(s: State, e: State, id: BroadcastId, targets: map<ClientId, Target>) {
    && e == s.(tasks := e.tasks) && e.tasks.Keys == s.tasks.Keys && Known(s, id)
    && e.tasks[s.broadcasts[id]] == Get(s, id).(targets := targets)
    && forall h | h in s.tasks && h != s.broadcasts[id] :: e.tasks[h] == s.tasks[h]
  }

  // ----- Cleaning up -----

  /** A finished task removes exactly its own entry, even when ids have been used before. */
  lemma FinaliseRemovesOwnEntry(s: State, handle: Handle)
    requires Valid(s)
    ensures var e := Finalise(s, handle);
            && Valid(e)
            && if handle in s.tasks && s.tasks[handle].finished
               then handle !in e.tasks && handle in e.retired
                    && (forall id :: id in e.broadcasts <==> id in s.broadcasts && s.broadcasts[id] != handle)
                    && (forall id | id in e.broadcasts ::
                          e.broadcasts[id] == s.broadcasts[id] && Get(e, id) == Get(s, id))
               else e == s
  {
    if handle in s.tasks && s.tasks[handle].finished {
      var e := Finalise(s, handle);
      assert s.broadcasts[s.tasks[handle].id] == handle;
      assert EntriesAreTasks(e);
    }
  }

  // ----- Runs -----

  lemma SubscribeKeepsValid(s: State, client: ClientId, id: BroadcastId, target: Target)
    requires Valid(s)
    ensures Valid(Subscribe(s, client, id, target).0)
  {
    if Known(s, id) {
      UpdateKeepsValid(s, s.broadcasts[id], Get(s, id).(targets := Get(s, id).targets[client := target]));
    }
  }

  lemma UnsubscribeKeepsValid(s: State, client: ClientId, id: BroadcastId)
    requires Valid(s)
    ensures Valid(Unsubscribe(s, client, id).0)
  {
    if Known(s, id) {
      UpdateKeepsValid(s, s.broadcasts[id], Get(s, id).(targets := Get(s, id).targets - {client}));
    }
  }

  lemma PollKeepsValid(s: State, handle: Handle)
    requires Valid(s)
    ensures Valid(Poll(s, handle))
  {
    if handle in s.tasks {
      UpdateKeepsValid(s, handle, Polled(s.tasks[handle]));
    }
  }

  lemma CarryKeepsValid(s: State, handle: Handle, event: FanOut.Step)
    requires Valid(s)
    ensures Valid(Carry(s, handle, event))
  {
    if handle in s.tasks {
      UpdateKeepsValid(s, handle, FanOut.Next(s.tasks[handle], event));
    }
  }

  lemma NextKeepsValid(s: State, step: Step)
    requires Valid(s) && Possible(s, step)
    ensures Valid(Next(s, step))
  {
    match step
    case AddClientStep(client, user) => AddClientKeepsValid(s, client, user);
    case RemoveClientStep(client) => RemoveClientSignals(s, client);
    case StartStep(client, name, kind, source, draws, handle) =>
      StartKeepsValid(s, client, name, kind, source, draws, handle);
    case StopStep(client, id) => StopSignals(s, client, id);
    case SubscribeStep(client, id, target) => SubscribeKeepsValid(s, client, id, target);
    case UnsubscribeStep(client, id) => UnsubscribeKeepsValid(s, client, id);
    case PollStep(handle) => PollKeepsValid(s, handle);
    case FinaliseStep(handle) => FinaliseRemovesOwnEntry(s, handle);
    case TrafficStep(handle, event) => CarryKeepsValid(s, handle, event);
  }

  /** Every state of every run, from the empty room on, is in order. */
  lemma {:induction false} RunIsValid(steps: seq<Step>)
    ensures Valid(Run(EMPTY, steps))
  {
    if steps == [] {
    } else {
      var before, step := steps[..|steps| - 1], steps[|steps| - 1];
      RunIsValid(before);
      if Possible(Run(EMPTY, before), step) {
        NextKeepsValid(Run(EMPTY, before), step);
      }
    }
  }

  lemma ShutdownKeepsTasks(s: State, id: BroadcastId)
    ensures var e := Shutdown(s, id);
            e.retired == s.retired && e.tasks.Keys == s.tasks.Keys
            && forall h | h in s.tasks && s.tasks[h].shutdown :: e.tasks[h].shutdown
  {
  }

  lemma StartKeepsTasks(s: State, client: ClientId, name: Name, kind: BroadcastKind, source: Source,
                        draws: seq<BroadcastId>, handle: Handle)
    requires handle !in s.tasks
    ensures var e := Start(s, client, name, kind, source, draws, handle);
            e.retired == s.retired && forall h | h in s.tasks :: h in e.tasks && e.tasks[h] == s.tasks[h]
  {
  }

  /** After the step the task is still there or has cleaned up, and what was signalled still is. */
  ghost predicate Lasts(s: State, e: State, h: Handle) {
    && (h in s.retired ==> h in e.retired)
    && (h in s.tasks ==> h in e.tasks || h in e.retired)
    && (h in s.tasks && s.tasks[h].shutdown && h in e.tasks ==> e.tasks[h].shutdown)
  }

  lemma LeavingLasts(s: State, client: ClientId, h: Handle)
    requires Valid(s)
    ensures Lasts(s, RemoveClient(s, client), h)
  {
    if client in s.clients {
      RemoveClientMeaning(s, client);
    }
  }

  lemma StopLasts(s: State, client: ClientId, id: BroadcastId, h: Handle)
    ensures Lasts(s, Stop(s, client, id).0, h)
  {
    if id in ListOf(s, client) {
      ShutdownKeepsTasks(s.(lists := s.lists[client := RemoveFirst(s.lists[client], id)]), id);
    }
  }

  lemma OthersLast(s: State, step: Step, h: Handle)
    requires !step.RemoveClientStep? && !step.StopStep? && !step.StartStep?
    ensures Lasts(s, Next(s, step), h)
  {
  }

  lemma NextRetires(s: State, step: Step, h: Handle)
    requires Valid(s) && Possible(s, step)
    ensures Lasts(s, Next(s, step), h)
  {
    match step
    case RemoveClientStep(client) => LeavingLasts(s, client, h);
    case StopStep(client, id) => StopLasts(s, client, id, h);
    case StartStep(client, name, kind, source, draws, handle) =>
      StartKeepsTasks(s, client, name, kind, source, draws, handle);
    case _ => OthersLast(s, step, h);
  }

  /**
   A started broadcast stays in the room until its task cleans up, once; after that its object never
   comes back. A shutdown signal is never taken back.
   */
  lemma {:induction false} RetiresOnce(steps: seq<Step>, more: seq<Step>, h: Handle)
    ensures var s, e := Run(EMPTY, steps), Run(EMPTY, steps + more);
            && (h in s.retired ==> h in e.retired && h !in e.tasks)
            && (h in s.tasks ==> (h in e.tasks <==> h !in e.retired))
            && (h in s.tasks && s.tasks[h].shutdown && h in e.tasks ==> e.tasks[h].shutdown)
    decreases more
  {
    var s, e := Run(EMPTY, steps), Run(EMPTY, steps + more);
    RunIsValid(steps + more);
    if more == [] {
      assert steps + more == steps;
    } else {
      var init, step := more[..|more| - 1], more[|more| - 1];
      RetiresOnce(steps, init, h);
      assert (steps + more)[..|steps + more| - 1] == steps + init;
      var before := Run(EMPTY, steps + init);
      RunIsValid(steps + init);
      if Possible(before, step) {
        NextRetires(before, step, h);
      }
    }
  }
}

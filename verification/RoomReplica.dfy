/** Every member's queue of notifications tells it exactly the room's state, in every state of every run. */
module RoomReplica {
  import opened Ascending
  import opened Broadcasting
  import FanOut
  import opened Messages
  import opened Replica
  import opened RoomInvariants
  import opened RoomState

  /** What there is to know: the user ids and the broadcasts, those still cleaning up included. */
  function View(s: State): Mirror {
    Mirror(s.userIds, Entries(s.broadcasts, s.tasks))
  }

  /** The queue replays to the view, and the page it displays shows it. */
  ghost predicate Tells(queue: seq<Notify>, view: Mirror) {
    Replay(queue) == view && Shows(Display(queue), view, EndedCount(queue))
  }

  ghost predicate AllTell(queues: map<ClientId, seq<Notify>>, view: Mirror) {
    forall c | c in queues :: Tells(queues[c], view)
  }

  ghost predicate InSync(s: State) {
    AllTell(s.clients, View(s))
  }

  lemma TellsOneMore(queue: seq<Notify>, view: Mirror, n: Notify)
    requires Tells(queue, view) && Fits(view, n)
    ensures Tells(queue + [n], Apply(view, n))
  {
    assert (queue + [n])[..|queue + [n]| - 1] == queue;
    ShowFollowsApply(Display(queue), view, EndedCount(queue), n);
  }

  /** Telling every member a fitting notification keeps all of them in sync. */
  lemma SendTells(queues: map<ClientId, seq<Notify>>, view: Mirror, n: Notify)
    requires Fits(view, n) && AllTell(queues, view)
    ensures AllTell(Send(queues, n), Apply(view, n))
  {
    forall c | c in queues
      ensures Tells(queues[c] + [n], Apply(view, n))
    {
      TellsOneMore(queues[c], view, n);
    }
  }

  // ----- The full lists -----

  predicate HasUser(users: map<ClientId, UserId>, user: UserEntry) {
    user.clientId in users && users[user.clientId] == user.userId
  }

  lemma UserListMembers(userIds: map<ClientId, UserId>)
    ensures DistinctUsers(UserList(userIds.Keys, userIds))
    ensures forall user :: user in UserList(userIds.Keys, userIds) <==> HasUser(userIds, user)
  {
    var keys, list := Elements(userIds.Keys), UserList(userIds.Keys, userIds);
    ElementsAscend(userIds.Keys);
    forall user | HasUser(userIds, user)
      ensures user in list
    {
      var i :| 0 <= i < |keys| && keys[i] == user.clientId;
      assert list[i] == user;
    }
    forall i | 0 <= i < |list|
      ensures HasUser(userIds, list[i])
    {
      assert keys[i] in keys;
    }
  }

  lemma UserListIsComplete(userIds: map<ClientId, UserId>)
    ensures DistinctUsers(UserList(userIds.Keys, userIds))
    ensures WithUsers(map[], UserList(userIds.Keys, userIds)) == userIds
  {
    var list := UserList(userIds.Keys, userIds);
    UserListMembers(userIds);
    WithUsersMeaning(list);
    var m := WithUsers(map[], list);
    forall c
      ensures c in m <==> c in userIds
      ensures c in m ==> m[c] == userIds[c]
    {
      if c in m {
        assert HasUser(userIds, UserEntry(c, m[c]));
      }
      if c in userIds {
        assert UserEntry(c, userIds[c]) in list;
      }
    }
  }

  lemma BroadcastListIsComplete(entries: map<BroadcastId, BroadcastEntry>)
    requires forall id | id in entries :: entries[id].broadcastId == id
    ensures DistinctBroadcasts(BroadcastList(entries))
    ensures WithBroadcasts(map[], BroadcastList(entries)) == entries
  {
    var ids, list := Elements(entries.Keys), BroadcastList(entries);
    ElementsAscend(entries.Keys);
    forall i | 0 <= i < |ids|
      ensures ids[i] in entries && list[i] == entries[ids[i]]
    {
      assert ids[i] in ids;
    }
    forall id | id in entries
      ensures entries[id] in list
    {
      var i :| 0 <= i < |ids| && ids[i] == id;
      assert list[i] == entries[id];
    }
    ListDeterminesMirror(list, entries);
  }

  lemma WelcomeTells(users: seq<UserEntry>, broadcasts: seq<BroadcastEntry>)
    requires DistinctUsers(users) && DistinctBroadcasts(broadcasts)
    ensures Tells([NotifyUsers(users), NotifyBroadcasts(broadcasts)],
                  Mirror(WithUsers(map[], users), WithBroadcasts(map[], broadcasts)))
  {
    var empty := Mirror(map[], map[]);
    assert Tells([], empty);
    TellsOneMore([], empty, NotifyUsers(users));
    assert [] + [NotifyUsers(users)] == [NotifyUsers(users)];
    TellsOneMore([NotifyUsers(users)], Apply(empty, NotifyUsers(users)), NotifyBroadcasts(broadcasts));
    assert [NotifyUsers(users)] + [NotifyBroadcasts(broadcasts)] == [NotifyUsers(users), NotifyBroadcasts(broadcasts)];
  }

  // ----- What the steps queue -----

  /** Every member of `s` that is still one in `e` was sent this notification and nothing else. */
  ghost predicate SentOnly(s: State, e: State, n: Notify) {
    forall c | c in s.clients && c in e.clients :: e.clients[c] == s.clients[c] + [n]
  }

  /**
   Joining again changes nothing; a newcomer gets the users and the broadcasts, in this order, and the
   others its name.
   */
  lemma JoiningQueues(s: State, client: ClientId, user: UserId)
    ensures var e := AddClient(s, client, user);
            if client in s.clients then e == s
            else && e.clients.Keys == s.clients.Keys + {client}
                 && SentOnly(s, e, NotifyUserJoined(UserEntry(client, user)))
                 && |e.clients[client]| == 2 && e.clients[client][0].NotifyUsers?
                   && e.clients[client][1].NotifyBroadcasts?
                 && e == s.(clients := e.clients, userIds := s.userIds[client := user])
  {
  }

  lemma UserListAscends(ids: set<ClientId>, userIds: map<ClientId, UserId>)
    ensures var list := UserList(ids, userIds);
            |list| == |ids| && forall i, j | 0 <= i < j < |list| :: list[i].clientId < list[j].clientId
  {
    ElementsAscend(ids);
  }

  lemma BroadcastListAscends(entries: map<BroadcastId, BroadcastEntry>)
    requires forall id | id in entries :: entries[id].broadcastId == id
    ensures var list := BroadcastList(entries);
            |list| == |entries| && forall i, j | 0 <= i < j < |list| :: list[i].broadcastId < list[j].broadcastId
  {
    var ids, list := Elements(entries.Keys), BroadcastList(entries);
    ElementsAscend(entries.Keys);
    forall i | 0 <= i < |ids|
      ensures list[i].broadcastId == ids[i]
    {
      assert ids[i] in ids;
    }
  }

  /** A newcomer's lists are of all the members, itself included, and all the broadcasts, in the order of their ids. */
  lemma NewcomerListsAscend(s: State, client: ClientId, user: UserId)
    requires Valid(s) && client !in s.clients
    ensures var members := s.clients.Keys + {client};
            var (users, broadcasts) :=
              (UserList(members, s.userIds[client := user]), BroadcastList(Entries(s.broadcasts, s.tasks)));
            && AddClient(s, client, user).clients[client] == [NotifyUsers(users), NotifyBroadcasts(broadcasts)]
            && |users| == |members| && |broadcasts| == |s.broadcasts|
            && (forall i, j | 0 <= i < j < |users| :: users[i].clientId < users[j].clientId)
            && (forall i, j | 0 <= i < j < |broadcasts| :: broadcasts[i].broadcastId < broadcasts[j].broadcastId)
  {
    var entries := Entries(s.broadcasts, s.tasks);
    assert entries.Keys == s.broadcasts.Keys;
    UserListAscends(s.clients.Keys + {client}, s.userIds[client := user]);
    BroadcastListAscends(entries);
  }

  lemma LeavingQueues(s: State, client: ClientId)
    requires Valid(s)
    ensures var e := RemoveClient(s, client);
            if client !in s.clients then e == s
            else && e.clients.Keys == s.clients.Keys - {client}
                 && SentOnly(s, e, NotifyUserLeft(client))
                 && e.userIds == s.userIds - {client} && e.lists == s.lists - {client} && e.broadcasts == s.broadcasts
  {
    if client in s.clients {
      RemoveClientMeaning(s, client);
    }
  }

  lemma StartingQueues(s: State, client: ClientId, name: Name, kind: BroadcastKind, source: Source,
                       draws: seq<BroadcastId>, handle: Handle)
    ensures var e := Start(s, client, name, kind, source, draws, handle);
            var response := StartResponse(s, client, name, kind, draws);
            e.clients.Keys == s.clients.Keys
            && if response.BroadcastStarted?
               then SentOnly(s, e, NotifyBroadcastStarted(BroadcastEntry(client, response.startedId, kind, name.text)))
               else e == s
  {
  }

  lemma EndingQueues(s: State, handle: Handle)
    ensures var e := Finalise(s, handle);
            e.clients.Keys == s.clients.Keys
            && if handle in s.tasks && s.tasks[handle].finished
               then SentOnly(s, e, NotifyBroadcastEnded(s.tasks[handle].id))
               else e == s
  {
  }

  // ----- The steps that tell something -----

  /** A step that tells every member `n` and changes the view accordingly. */
  lemma ToldKeepsSync(s: State, e: State, n: Notify)
    requires InSync(s) && Fits(View(s), n)
    requires View(e) == Apply(View(s), n) && e.clients == Send(s.clients, n)
    ensures InSync(e)
  {
    SendTells(s.clients, View(s), n);
  }

  lemma ViewAfterAdd(s: State, client: ClientId, user: UserId)
    requires client !in s.clients
    ensures View(AddClient(s, client, user)) == Mirror(s.userIds[client := user], View(s).broadcasts)
  {
  }

  lemma NewcomerIsTold(s: State, client: ClientId, user: UserId)
    requires Valid(s) && client !in s.clients
    ensures var e := AddClient(s, client, user); Tells(e.clients[client], View(e))
  {
    var userIds := s.userIds[client := user];
    assert userIds.Keys == s.clients.Keys + {client};
    UserListIsComplete(userIds);
    var entries := Entries(s.broadcasts, s.tasks);
    BroadcastListIsComplete(entries);
    WelcomeTells(UserList(userIds.Keys, userIds), BroadcastList(entries));
  }

  lemma AddClientKeepsSync(s: State, client: ClientId, user: UserId)
    requires Valid(s) && InSync(s)
    ensures InSync(AddClient(s, client, user))
  {
    if client !in s.clients {
      var e, joined := AddClient(s, client, user), NotifyUserJoined(UserEntry(client, user));
      ViewAfterAdd(s, client, user);
      SendTells(s.clients, View(s), joined);
      NewcomerIsTold(s, client, user);
    }
  }

  lemma ViewAfterRemove(s: State, client: ClientId)
    requires Valid(s) && client in s.clients
    ensures View(RemoveClient(s, client)) == Apply(View(s), NotifyUserLeft(client))
  {
    RemoveClientMeaning(s, client);
    assert View(RemoveClient(s, client)).broadcasts == View(s).broadcasts;
  }

  lemma RemoveClientKeepsSync(s: State, client: ClientId)
    requires Valid(s) && InSync(s)
    ensures InSync(RemoveClient(s, client))
  {
    if client in s.clients {
      RemoveClientMeaning(s, client);
      ViewAfterRemove(s, client);
      SendTells(s.clients - {client}, View(s), NotifyUserLeft(client));
    }
  }

  lemma EntriesAfterStart(broadcasts: map<BroadcastId, Handle>, tasks: map<Handle, Broadcast>, id: BroadcastId,
                          handle: Handle, b: Broadcast)
    requires handle !in tasks && forall i | i in broadcasts :: broadcasts[i] in tasks
    ensures Entries(broadcasts[id := handle], tasks[handle := b]) == Entries(broadcasts, tasks)[id := b.Entry()]
  {
  }

  lemma ViewAfterStart(s: State, client: ClientId, id: BroadcastId, handle: Handle, b: Broadcast)
    requires EntriesAreTasks(s) && id !in s.broadcasts && handle !in s.tasks && b.id == id
    ensures View(Started(s, client, id, handle, b)) == Apply(View(s), NotifyBroadcastStarted(b.Entry()))
  {
    EntriesAfterStart(s.broadcasts, s.tasks, id, handle, b);
  }

  lemma StartKeepsSync(s: State, client: ClientId, name: Name, kind: BroadcastKind, source: Source,
                       draws: seq<BroadcastId>, handle: Handle)
    requires Valid(s) && InSync(s) && handle !in s.tasks
    ensures InSync(Start(s, client, name, kind, source, draws, handle))
  {
    FirstFreeIsFree(draws, s.broadcasts.Keys);
    var e, response := Start(s, client, name, kind, source, draws, handle), StartResponse(s, client, name, kind, draws);
    if response.BroadcastStarted? {
      var b := NewBroadcast(client, response.startedId, name, kind, source);
      ViewAfterStart(s, client, response.startedId, handle, b);
      ToldKeepsSync(s, e, NotifyBroadcastStarted(b.Entry()));
    } else {
      UntoldKeepsSync(s, e);
    }
  }

  lemma ViewAfterFinalise(s: State, handle: Handle)
    requires EntriesAreTasks(s) && handle in s.tasks && s.tasks[handle].finished
    ensures View(Finalise(s, handle)) == Apply(View(s), NotifyBroadcastEnded(s.tasks[handle].id))
  {
    assert View(Finalise(s, handle)).broadcasts == View(s).broadcasts - {s.tasks[handle].id};
  }

  lemma FinaliseKeepsSync(s: State, handle: Handle)
    requires Valid(s) && InSync(s)
    ensures InSync(Finalise(s, handle))
  {
    if handle in s.tasks && s.tasks[handle].finished {
      ViewAfterFinalise(s, handle);
      ToldKeepsSync(s, Finalise(s, handle), NotifyBroadcastEnded(s.tasks[handle].id));
    }
  }

  /** A step that tells nobody anything and leaves nothing to tell. */
  ghost predicate Untold(s: State, e: State) {
    && e.clients == s.clients && e.userIds == s.userIds && e.broadcasts == s.broadcasts
    && e.tasks.Keys == s.tasks.Keys && forall h | h in s.tasks :: e.tasks[h].Entry() == s.tasks[h].Entry()
  }

  lemma UntoldKeepsSync(s: State, e: State)
    requires InSync(s) && Untold(s, e)
    ensures InSync(e)
  {
    assert View(e).broadcasts == View(s).broadcasts;
  }

  lemma SubscribeIsUntold(s: State, client: ClientId, id: BroadcastId, target: Target)
    ensures Untold(s, Subscribe(s, client, id, target).0) && Untold(s, Unsubscribe(s, client, id).0)
  {
  }

  lemma PollIsUntold(s: State, handle: Handle)
    ensures Untold(s, Poll(s, handle))
  {
  }

  lemma CarryIsUntold(s: State, handle: Handle, event: FanOut.Step)
    ensures Untold(s, Carry(s, handle, event))
  {
  }

  lemma StopIsUntold(s: State, client: ClientId, id: BroadcastId)
    ensures Untold(s, Stop(s, client, id).0)
  {
  }

  lemma UntoldSteps(s: State, step: Step)
    requires !step.AddClientStep? && !step.RemoveClientStep? && !step.StartStep? && !step.FinaliseStep?
    ensures Untold(s, Next(s, step))
  {
    match step
    case StopStep(client, id) => StopIsUntold(s, client, id);
    case SubscribeStep(client, id, target) => SubscribeIsUntold(s, client, id, target);
    case UnsubscribeStep(client, id) => SubscribeIsUntold(s, client, id, Target([], false, []));
    case PollStep(handle) => PollIsUntold(s, handle);
    case TrafficStep(handle, event) => CarryIsUntold(s, handle, event);
  }

  lemma NextKeepsSync(s: State, step: Step)
    requires Valid(s) && InSync(s) && Possible(s, step)
    ensures InSync(Next(s, step))
  {
    match step
    case AddClientStep(client, user) => AddClientKeepsSync(s, client, user);
    case RemoveClientStep(client) => RemoveClientKeepsSync(s, client);
    case StartStep(client, name, kind, source, draws, handle) =>
      StartKeepsSync(s, client, name, kind, source, draws, handle);
    case FinaliseStep(handle) => FinaliseKeepsSync(s, handle);
    case _ =>
      UntoldSteps(s, step);
      UntoldKeepsSync(s, Next(s, step));
  }

  /**
   In every reachable state, what the room queued to a member since it joined replays to exactly the
   room's users and broadcasts, and the browser's page built from it shows every user once, every
   current broadcast, and one leftover entry for each broadcast that has ended.
   */
  lemma {:induction false} EveryMemberIsInSync(steps: seq<Step>)
    ensures InSync(Run(EMPTY, steps))
  {
    if steps == [] {
    } else {
      var before, step := steps[..|steps| - 1], steps[|steps| - 1];
      EveryMemberIsInSync(before);
      RunIsValid(before);
      if Possible(Run(EMPTY, before), step) {
        NextKeepsSync(Run(EMPTY, before), step);
      }
    }
  }

  lemma {:induction false} EndedCountMeaning(queue: seq<Notify>)
    ensures EndedCount(queue) == 0 <==> forall n | n in queue :: !n.NotifyBroadcastEnded?
  {
    if queue == [] {
    } else {
      var init, last := queue[..|queue| - 1], queue[|queue| - 1];
      EndedCountMeaning(init);
      assert queue == init + [last];
    }
  }

  /**
   In every reachable state, a member's broadcast list is exactly the room's if and only if no
   broadcast has ended since the member joined.
   */
  lemma PageIsExactUntilABroadcastEnds(steps: seq<Step>, client: ClientId)
    requires client in Run(EMPTY, steps).clients
    ensures var s := Run(EMPTY, steps);
            ListsExactly(Display(s.clients[client]).broadcasts, View(s).broadcasts)
            <==> forall n | n in s.clients[client] :: !n.NotifyBroadcastEnded?
  {
    EveryMemberIsInSync(steps);
    var s := Run(EMPTY, steps);
    var queue := s.clients[client];
    BroadcastListExactness(Display(queue), View(s), EndedCount(queue));
    EndedCountMeaning(queue);
  }
}

/**
 When the broadcast ids a client lists are its own, and what goes wrong once an ended broadcast's id is
 drawn again.
 */
module RoomOwnership {
  import opened Broadcasting
  import opened Messages
  import opened RoomInvariants
  import opened RoomState
  import opened Wrappers

  /** Every listed id that is still in use is a broadcast of the client that lists it. */
  ghost predicate ListedAreOwn(s: State) {
    forall client, id | id in ListOf(s, client) && Known(s, id) :: Get(s, id).clientId == client
  }

  /** The step starts a broadcast on an id that some other client still lists. */
  ghost predicate DrawsListedId(s: State, step: Step) {
    && step.StartStep?
    && var response := StartResponse(s, step.client, step.name, step.kind, step.draws);
       response.BroadcastStarted? && exists other :: other != step.client && response.startedId in ListOf(s, other)
  }

  /** Nothing is listed or in use after the step that was not before, or that belonged to another client. */
  ghost predicate OnlyLess(s: State, e: State) {
    && (forall client, id | id in ListOf(e, client) :: id in ListOf(s, client))
    && (forall id | Known(e, id) :: Known(s, id) && Get(e, id).clientId == Get(s, id).clientId)
  }

  lemma OnlyLessKeepsOwn(s: State, e: State)
    requires ListedAreOwn(s) && OnlyLess(s, e)
    ensures ListedAreOwn(e)
  {
    forall client, id | id in ListOf(e, client) && Known(e, id)
      ensures Get(e, id).clientId == client
    {
      assert id in ListOf(s, client) && Known(s, id);
    }
  }

  lemma RemoveClientIsOnlyLess(s: State, client: ClientId)
    requires Valid(s)
    ensures OnlyLess(s, RemoveClient(s, client))
  {
    if client in s.clients {
      RemoveClientMeaning(s, client);
    }
  }

  lemma ShutdownIsOnlyLess(s: State, id: BroadcastId)
    ensures Shutdown(s, id).lists == s.lists
    ensures forall i | Known(Shutdown(s, id), i) ::
      Known(s, i) && Get(Shutdown(s, id), i).clientId == Get(s, i).clientId
  {
  }

  lemma StopIsOnlyLess(s: State, client: ClientId, id: BroadcastId)
    ensures OnlyLess(s, Stop(s, client, id).0)
  {
    if id in ListOf(s, client) {
      var unlisted := s.(lists := s.lists[client := RemoveFirst(s.lists[client], id)]);
      RemoveFirstKeepsOthers(ListOf(s, client), id);
      ShutdownIsOnlyLess(unlisted, id);
    }
  }

  lemma StartKeepsOwnExactly(s: State, step: Step)
    requires Valid(s) && ListedAreOwn(s) && step.StartStep? && Possible(s, step)
    ensures ListedAreOwn(Next(s, step)) <==> !DrawsListedId(s, step)
  {
    var e, response := Next(s, step), StartResponse(s, step.client, step.name, step.kind, step.draws);
    if response.BroadcastStarted? {
      StartedOwnership(s, step.client, response.startedId, step.handle,
                       NewBroadcast(step.client, response.startedId, step.name, step.kind, step.source));
    }
  }

  lemma StartedOwnership(s: State, client: ClientId, id: BroadcastId, handle: Handle, b: Broadcast)
    requires Valid(s) && ListedAreOwn(s) && handle !in s.tasks && b.clientId == client
    ensures ListedAreOwn(Started(s, client, id, handle, b))
       <==> !exists other :: other != client && id in ListOf(s, other)
  {
    var e := Started(s, client, id, handle, b);
    assert Known(e, id) && Get(e, id).clientId == client;
    assert forall i | i != id && Known(e, i) :: Known(s, i) && Get(e, i) == Get(s, i);
    assert forall other | other != client :: ListOf(e, other) == ListOf(s, other);
    assert ListOf(e, client) == ListOf(s, client) + [id];
  }

  lemma OtherStepsAreOnlyLess(s: State, step: Step)
    requires EntriesAreTasks(s) && Possible(s, step)
    requires !step.RemoveClientStep? && !step.StopStep? && !step.StartStep?
    ensures OnlyLess(s, Next(s, step))
  {
  }

  /** A step loses ownership exactly when it starts a broadcast on an id that another client still lists. */
  lemma NextKeepsOwnExactly(s: State, step: Step)
    requires Valid(s) && ListedAreOwn(s) && Possible(s, step)
    ensures ListedAreOwn(Next(s, step)) <==> !DrawsListedId(s, step)
  {
    if step.StartStep? {
      StartKeepsOwnExactly(s, step);
    } else {
      match step {
        case RemoveClientStep(client) => RemoveClientIsOnlyLess(s, client);
        case StopStep(client, id) => StopIsOnlyLess(s, client, id);
        case _ => OtherStepsAreOnlyLess(s, step);
      }
      OnlyLessKeepsOwn(s, Next(s, step));
    }
  }

  ghost predicate AlwaysOwn(steps: seq<Step>) {
    forall n | 0 <= n <= |steps| :: ListedAreOwn(Run(EMPTY, steps[..n]))
  }

  /** No start of the run draws an id that another client lists at that moment. */
  ghost predicate NeverDrawsListedId(steps: seq<Step>) {
    forall n | 0 <= n < |steps| && Possible(Run(EMPTY, steps[..n]), steps[n]) ::
      !DrawsListedId(Run(EMPTY, steps[..n]), steps[n])
  }

  lemma RunOneMore(steps: seq<Step>, n: nat)
    requires n < |steps|
    ensures var s := Run(EMPTY, steps[..n]);
            Valid(s) && Run(EMPTY, steps[..n + 1]) == if Possible(s, steps[n]) then Next(s, steps[n]) else s
  {
    RunIsValid(steps[..n]);
    assert steps[..n + 1][..n] == steps[..n];
  }

  lemma {:induction false} OwnUpTo(steps: seq<Step>, n: nat)
    requires NeverDrawsListedId(steps) && n <= |steps|
    ensures ListedAreOwn(Run(EMPTY, steps[..n]))
  {
    if n == 0 {
    } else {
      OwnUpTo(steps, n - 1);
      RunOneMore(steps, n - 1);
      var s := Run(EMPTY, steps[..n - 1]);
      if Possible(s, steps[n - 1]) {
        NextKeepsOwnExactly(s, steps[n - 1]);
      }
    }
  }

  /**
   Throughout a run clients list only their own broadcasts if and only if no start draws an id that another
   client lists.
   */
  lemma OwnershipExactness(steps: seq<Step>)
    ensures AlwaysOwn(steps) <==> NeverDrawsListedId(steps)
  {
    if NeverDrawsListedId(steps) {
      forall n | 0 <= n <= |steps|
        ensures ListedAreOwn(Run(EMPTY, steps[..n]))
      {
        OwnUpTo(steps, n);
      }
    }
    if AlwaysOwn(steps) {
      forall n | 0 <= n < |steps| && Possible(Run(EMPTY, steps[..n]), steps[n])
        ensures !DrawsListedId(Run(EMPTY, steps[..n]), steps[n])
      {
        RunOneMore(steps, n);
        assert ListedAreOwn(Run(EMPTY, steps[..n]));
        assert ListedAreOwn(Run(EMPTY, steps[..n + 1]));
        NextKeepsOwnExactly(Run(EMPTY, steps[..n]), steps[n]);
      }
    }
  }

  /** While ownership holds, a client's stop or departure leaves every other client's broadcasts alone. */
  lemma OthersAreUntouched(s: State, client: ClientId, id: BroadcastId, h: Handle)
    requires Valid(s) && ListedAreOwn(s) && h in s.tasks && s.tasks[h].clientId != client
    ensures h in Stop(s, client, id).0.tasks && Stop(s, client, id).0.tasks[h] == s.tasks[h]
    ensures h in RemoveClient(s, client).tasks && RemoveClient(s, client).tasks[h] == s.tasks[h]
  {
    assert Known(s, s.tasks[h].id) && s.tasks[h].id !in ListOf(s, client);
    if client in s.clients {
      RemoveClientMeaning(s, client);
    }
  }

  // ----- An id drawn again -----

  /** A source that has already ended. */
  const OVER: Source := Source([End], 0, true)

  /**
   Client 1's broadcast ends by itself and is cleaned up, client 2's broadcast draws its id, and
   client 1 stops the id it still lists.
   */
  function Reuse(first: Handle, second: Handle): seq<Step> {
    [AddClientStep(1, 10), AddClientStep(2, 20),
     StartStep(1, Name("a", "a"), Video, OVER, [7], first), PollStep(first), FinaliseStep(first),
     StartStep(2, Name("b", "b"), Video, OVER, [7], second), StopStep(1, 7)]
  }

  /** Clients 1 and 2 are in the room, and the rest is as given. */
  ghost predicate Stands(s: State, lists: map<ClientId, seq<BroadcastId>>, broadcasts: map<BroadcastId, Handle>,
                         tasks: set<Handle>, retired: set<Handle>) {
    && s.clients.Keys == {1, 2} && s.lists == lists
    && s.broadcasts == broadcasts && s.tasks.Keys == tasks && s.retired == retired
  }

  lemma JoinStands(s: State, client: ClientId, user: UserId)
    ensures var e := AddClient(s, client, user);
            e.clients.Keys == s.clients.Keys + {client} && e == s.(clients := e.clients, userIds := e.userIds)
  {
  }

  /** The run's first `n` steps lead to `s`. */
  ghost predicate Leads(steps: seq<Step>, n: nat, s: State) {
    n <= |steps| && Run(EMPTY, steps[..n]) == s
  }

  lemma LeadsOn(steps: seq<Step>, n: nat, s: State, step: Step)
    requires Leads(steps, n, s) && n < |steps| && steps[n] == step && Possible(s, step)
    ensures Leads(steps, n + 1, Next(s, step))
  {
    RunOneMore(steps, n);
  }

  lemma StartsOnSeven(s: State, client: ClientId, name: Name, h: Handle, lists: map<ClientId, seq<BroadcastId>>,
                      retired: set<Handle>)
    requires Stands(s, lists, map[], {}, retired) && client in {1, 2} && client !in lists
    ensures var e := Start(s, client, name, Video, OVER, [7], h);
            && Stands(e, lists[client := [7]], map[7 := h], {h}, retired)
            && e.tasks[h] == NewBroadcast(client, 7, name, Video, OVER)
  {
    assert FirstFree([7], s.broadcasts.Keys) == Some(7);
    assert [] + [7] == [7];
  }

  lemma EndsAndCleansUp(s: State, h: Handle, lists: map<ClientId, seq<BroadcastId>>, name: Name)
    requires Stands(s, lists, map[7 := h], {h}, {}) && s.tasks[h] == NewBroadcast(1, 7, name, Video, OVER)
    ensures Stands(Finalise(Poll(s, h), h), lists, map[], {}, {h})
  {
    var over := Poll(s, h);
    assert over.tasks[h].finished && over.tasks[h].id == 7;
  }

  lemma BothJoin(steps: seq<Step>) returns (s: State)
    requires |steps| > 2 && steps[0] == AddClientStep(1, 10) && steps[1] == AddClientStep(2, 20)
    ensures Leads(steps, 2, s) && Stands(s, map[], map[], {}, {})
  {
    LeadsOn(steps, 0, EMPTY, AddClientStep(1, 10));
    JoinStands(EMPTY, 1, 10);
    s := AddClient(EMPTY, 1, 10);
    LeadsOn(steps, 1, s, AddClientStep(2, 20));
    JoinStands(s, 2, 20);
    s := AddClient(s, 2, 20);
  }

  lemma EndsOnItsOwn(steps: seq<Step>, n: nat, s: State, h: Handle, lists: map<ClientId, seq<BroadcastId>>,
                     name: Name)
    returns (e: State)
    requires Leads(steps, n, s) && Stands(s, lists, map[7 := h], {h}, {})
             && s.tasks[h] == NewBroadcast(1, 7, name, Video, OVER)
    requires n + 1 < |steps| && steps[n] == PollStep(h) && steps[n + 1] == FinaliseStep(h)
    ensures Leads(steps, n + 2, e) && Stands(e, lists, map[], {}, {h})
  {
    EndsAndCleansUp(s, h, lists, name);
    LeadsOn(steps, n, s, PollStep(h));
    LeadsOn(steps, n + 1, Poll(s, h), FinaliseStep(h));
    e := Finalise(Poll(s, h), h);
  }

  lemma StartsFirst(steps: seq<Step>, s: State, h: Handle, name: Name) returns (e: State)
    requires Leads(steps, 2, s) && Stands(s, map[], map[], {}, {})
    requires |steps| > 2 && steps[2] == StartStep(1, name, Video, OVER, [7], h)
    ensures Leads(steps, 3, e) && Stands(e, map[1 := [7]], map[7 := h], {h}, {})
            && e.tasks[h] == NewBroadcast(1, 7, name, Video, OVER)
  {
    StartsOnSeven(s, 1, name, h, map[], {});
    LeadsOn(steps, 2, s, steps[2]);
    e := Start(s, 1, name, Video, OVER, [7], h);
  }

  /** The first broadcast is gone and client 1 still lists its id. */
  lemma StaleIdRemains(steps: seq<Step>, first: Handle, second: Handle) returns (s: State)
    requires steps == Reuse(first, second)
    ensures Leads(steps, 5, s) && Stands(s, map[1 := [7]], map[], {}, {first})
  {
    s := BothJoin(steps);
    s := StartsFirst(steps, s, first, steps[2].name);
    s := EndsOnItsOwn(steps, 3, s, first, map[1 := [7]], steps[2].name);
  }

  /** Client 1 shuts down client 2's broadcast. */
  lemma StaleIdStopsAnothersBroadcast(first: Handle, second: Handle) returns (s: State)
    requires first != second
    ensures Leads(Reuse(first, second), 6, s) && !ListedAreOwn(s)
    ensures second in s.tasks && s.tasks[second].clientId == 2 && !s.tasks[second].shutdown
    ensures var e := Run(EMPTY, Reuse(first, second)); second in e.tasks && e.tasks[second].shutdown
  {
    var steps := Reuse(first, second);
    s := StaleIdRemains(steps, first, second);
    StartsOnSeven(s, 2, Name("b", "b"), second, map[1 := [7]], {first});
    LeadsOn(steps, 5, s, StartStep(2, Name("b", "b"), Video, OVER, [7], second));
    s := Start(s, 2, Name("b", "b"), Video, OVER, [7], second);
    assert Known(s, 7) && Get(s, 7).clientId == 2 && ListOf(s, 1) == [7];
    LeadsOn(steps, 6, s, StopStep(1, 7));
    assert steps[..7] == steps;
  }
}

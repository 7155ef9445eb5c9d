/**
 What a client can know of the room from the notifications queued to it: a full replay of them,
 and the page the browser client keeps, which ignores the end of broadcasts.
 */
module Replica {
  import opened Messages
  import opened Wrappers

  // ----- Replaying every notification -----

  datatype Mirror = Mirror(users: map<ClientId, UserId>, broadcasts: map<BroadcastId, BroadcastEntry>)

  function WithUsers(users: map<ClientId, UserId>, list: seq<UserEntry>): map<ClientId, UserId> {
    if list == [] then users
    else var last := list[|list| - 1]; WithUsers(users, list[..|list| - 1])[last.clientId := last.userId]
  }

  function WithBroadcasts(broadcasts: map<BroadcastId, BroadcastEntry>, list: seq<BroadcastEntry>)
    : map<BroadcastId, BroadcastEntry>
  {
    if list == [] then broadcasts
    else var last := list[|list| - 1]; WithBroadcasts(broadcasts, list[..|list| - 1])[last.broadcastId := last]
  }

  function Apply(m: Mirror, n: Notify): Mirror {
    match n
    case NotifyUsers(list) => m.(users := WithUsers(m.users, list))
    case NotifyBroadcasts(list) => m.(broadcasts := WithBroadcasts(m.broadcasts, list))
    case NotifyUserJoined(user) => m.(users := m.users[user.clientId := user.userId])
    case NotifyUserLeft(client) => m.(users := m.users - {client})
    case NotifyBroadcastStarted(entry) => m.(broadcasts := m.broadcasts[entry.broadcastId := entry])
    case NotifyBroadcastEnded(id) => m.(broadcasts := m.broadcasts - {id})
  }

  function Replay(queue: seq<Notify>): Mirror {
    if queue == [] then Mirror(map[], map[]) else Apply(Replay(queue[..|queue| - 1]), queue[|queue| - 1])
  }

  // ----- The browser client's lists -----

  datatype Page = Page(users: seq<UserEntry>, broadcasts: seq<BroadcastEntry>)

  function IndexOfUser(users: seq<UserEntry>, client: ClientId): Option<nat> {
    if users == [] then None
    else if users[0].clientId == client then Some(0)
    else match IndexOfUser(users[1..], client)
         case None => None
         case Some(i) => Some(i + 1)
  }

  lemma {:induction false} IndexOfUserFinds(users: seq<UserEntry>, client: ClientId)
    ensures match IndexOfUser(users, client)
            case Some(i) =>
              i < |users| && users[i].clientId == client && forall j | 0 <= j < i :: users[j].clientId != client
            case None => forall user | user in users :: user.clientId != client
  {
    if users == [] {
    } else {
      IndexOfUserFinds(users[1..], client);
    }
  }

  function WithoutUser(users: seq<UserEntry>, client: ClientId): seq<UserEntry> {
    IndexOfUserFinds(users, client);
    match IndexOfUser(users, client)
    case None => users
    case Some(i) => users[..i] + users[i + 1..]
  }

  /** The notification handlers; there is none for the end of a broadcast. */
  function Show(p: Page, n: Notify): Page {
    match n
    case NotifyUsers(list) => p.(users := p.users + list)
    case NotifyBroadcasts(list) => p.(broadcasts := p.broadcasts + list)
    case NotifyUserJoined(user) => p.(users := p.users + [user])
    case NotifyUserLeft(client) => p.(users := WithoutUser(p.users, client))
    case NotifyBroadcastStarted(entry) => p.(broadcasts := p.broadcasts + [entry])
    case NotifyBroadcastEnded(_) => p
  }

  function Display(queue: seq<Notify>): Page {
    if queue == [] then Page([], []) else Show(Display(queue[..|queue| - 1]), queue[|queue| - 1])
  }

  /** `rest` is `users` without the first entry of the client, if there is one. */
  ghost predicate FirstRemoved(users: seq<UserEntry>, client: ClientId, rest: seq<UserEntry>) {
    if forall user | user in users :: user.clientId != client then rest == users
    else exists i | 0 <= i < |users| ::
      users[i].clientId == client && (forall j | 0 <= j < i :: users[j].clientId != client)
      && rest == users[..i] + users[i + 1..]
  }

  /**
   Whatever arrives is added at the end of its list, a user that leaves is taken out, and an ended
   broadcast stays.
   */
  ghost predicate ShowsNext(p: Page, n: Notify, e: Page) {
    match n
    case NotifyUsers(list) => e.users == p.users + list && e.broadcasts == p.broadcasts
    case NotifyBroadcasts(list) => e.users == p.users && e.broadcasts == p.broadcasts + list
    case NotifyUserJoined(user) => e.users == p.users + [user] && e.broadcasts == p.broadcasts
    case NotifyUserLeft(client) => FirstRemoved(p.users, client, e.users) && e.broadcasts == p.broadcasts
    case NotifyBroadcastStarted(entry) => e.users == p.users && e.broadcasts == p.broadcasts + [entry]
    case NotifyBroadcastEnded(_) => e == p
  }

  lemma PageOneMore(queue: seq<Notify>, n: Notify)
    ensures ShowsNext(Display(queue), n, Display(queue + [n]))
  {
    assert (queue + [n])[..|queue|] == queue;
    if n.NotifyUserLeft? {
      IndexOfUserFinds(Display(queue).users, n.clientId);
    }
  }

  function EndedCount(queue: seq<Notify>): nat {
    if queue == [] then 0
    else EndedCount(queue[..|queue| - 1]) + if queue[|queue| - 1].NotifyBroadcastEnded? then 1 else 0
  }

  // ----- How the page relates to the mirror -----

  ghost predicate DistinctUsers(users: seq<UserEntry>) {
    forall i, j | 0 <= i < j < |users| :: users[i].clientId != users[j].clientId
  }

  ghost predicate DistinctBroadcasts(broadcasts: seq<BroadcastEntry>) {
    forall i, j | 0 <= i < j < |broadcasts| :: broadcasts[i].broadcastId != broadcasts[j].broadcastId
  }

  /** The user list shows every user once, and no one else. */
  ghost predicate UsersShown(users: seq<UserEntry>, shown: map<ClientId, UserId>) {
    && DistinctUsers(users)
    && forall user :: user in users <==> user.clientId in shown && shown[user.clientId] == user.userId
  }

  /** The broadcast list shows every current broadcast, and `stale` more entries than there are broadcasts. */
  ghost predicate BroadcastsShown(broadcasts: seq<BroadcastEntry>, current: map<BroadcastId, BroadcastEntry>,
                                  stale: nat) {
    && (forall id | id in current :: current[id] in broadcasts)
    && |broadcasts| == |current| + stale
  }

  ghost predicate Shows(p: Page, m: Mirror, stale: nat) {
    UsersShown(p.users, m.users) && BroadcastsShown(p.broadcasts, m.broadcasts, stale)
      && forall id | id in m.broadcasts :: m.broadcasts[id].broadcastId == id
  }

  /** The notification tells a mirror something new and true. */
  ghost predicate Fits(m: Mirror, n: Notify) {
    match n
    case NotifyUsers(list) => m.users == map[] && DistinctUsers(list)
    case NotifyBroadcasts(list) => m.broadcasts == map[] && DistinctBroadcasts(list)
    case NotifyUserJoined(user) => user.clientId !in m.users
    case NotifyUserLeft(client) => client in m.users
    case NotifyBroadcastStarted(entry) => entry.broadcastId !in m.broadcasts
    case NotifyBroadcastEnded(id) => id in m.broadcasts
  }

  lemma {:induction false} WithUsersMeaning(list: seq<UserEntry>)
    requires DistinctUsers(list)
    ensures var m := WithUsers(map[], list);
            forall user :: user in list <==> user.clientId in m && m[user.clientId] == user.userId
  {
    if list == [] {
    } else {
      var init, last := list[..|list| - 1], list[|list| - 1];
      WithUsersMeaning(init);
      assert list == init + [last];
      assert forall user | user in init :: user.clientId != last.clientId;
    }
  }

  lemma {:induction false} WithBroadcastsMeaning(list: seq<BroadcastEntry>)
    requires DistinctBroadcasts(list)
    ensures var m := WithBroadcasts(map[], list);
            && |m| == |list|
            && (forall id | id in m :: m[id] in list && m[id].broadcastId == id)
            && (forall entry | entry in list :: entry.broadcastId in m && m[entry.broadcastId] == entry)
  {
    if list == [] {
    } else {
      var init, last := list[..|list| - 1], list[|list| - 1];
      WithBroadcastsMeaning(init);
      assert list == init + [last];
      var m := WithBroadcasts(map[], init);
      assert last.broadcastId !in m;
      assert m[last.broadcastId := last].Keys == m.Keys + {last.broadcastId};
    }
  }

  lemma ListDeterminesMirror(list: seq<BroadcastEntry>, current: map<BroadcastId, BroadcastEntry>)
    requires DistinctBroadcasts(list)
    requires forall id | id in current :: current[id] in list && current[id].broadcastId == id
    requires forall entry | entry in list :: entry.broadcastId in current
    ensures WithBroadcasts(map[], list) == current
  {
    WithBroadcastsMeaning(list);
    var m := WithBroadcasts(map[], list);
    assert forall id | id in m :: m[id] in list;
    assert m.Keys == current.Keys;
  }

  lemma RemovingOneEntry(users: seq<UserEntry>, i: nat)
    requires DistinctUsers(users) && i < |users|
    ensures var rest := users[..i] + users[i + 1..];
            DistinctUsers(rest) && forall user :: user in rest <==> user in users && user.clientId != users[i].clientId
  {
    var rest := users[..i] + users[i + 1..];
    assert users == users[..i] + [users[i]] + users[i + 1..];
    assert forall j | 0 <= j < |rest| :: rest[j] == users[if j < i then j else j + 1];
    forall user | user in rest
      ensures user.clientId != users[i].clientId
    {
      var j :| 0 <= j < |rest| && rest[j] == user;
    }
  }

  lemma WithoutUserShown(users: seq<UserEntry>, shown: map<ClientId, UserId>, client: ClientId)
    requires UsersShown(users, shown) && client in shown
    ensures UsersShown(WithoutUser(users, client), shown - {client})
  {
    IndexOfUserFinds(users, client);
    var i := IndexOfUser(users, client);
    assert i.Some? by {
      assert UserEntry(client, shown[client]) in users;
    }
    RemovingOneEntry(users, i.value);
  }

  lemma FirstIsShown(users: seq<UserEntry>, shown: map<ClientId, UserId>)
    requires UsersShown(users, shown)
    ensures users != [] ==> users[0].clientId in shown
  {
    if users != [] {
      assert users[0] in users;
    }
  }

  lemma ListShown(users: seq<UserEntry>, shown: map<ClientId, UserId>, list: seq<UserEntry>)
    requires UsersShown(users, shown) && shown == map[] && DistinctUsers(list)
    ensures UsersShown(users + list, WithUsers(map[], list))
  {
    FirstIsShown(users, shown);
    assert users + list == list;
    WithUsersMeaning(list);
  }

  lemma JoinedShown(users: seq<UserEntry>, shown: map<ClientId, UserId>, user: UserEntry)
    requires UsersShown(users, shown) && user.clientId !in shown
    ensures UsersShown(users + [user], shown[user.clientId := user.userId])
  {
    assert forall i | 0 <= i < |users| :: users[i] in users;
  }

  lemma StartedShown(broadcasts: seq<BroadcastEntry>, current: map<BroadcastId, BroadcastEntry>, stale: nat,
                     entry: BroadcastEntry)
    requires BroadcastsShown(broadcasts, current, stale) && entry.broadcastId !in current
    ensures BroadcastsShown(broadcasts + [entry], current[entry.broadcastId := entry], stale)
  {
    assert current[entry.broadcastId := entry].Keys == current.Keys + {entry.broadcastId};
  }

  lemma EndedShown(broadcasts: seq<BroadcastEntry>, current: map<BroadcastId, BroadcastEntry>, stale: nat,
                   id: BroadcastId)
    requires BroadcastsShown(broadcasts, current, stale) && id in current
    ensures BroadcastsShown(broadcasts, current - {id}, stale + 1)
  {
    assert (current - {id}).Keys == current.Keys - {id};
  }

  /** A handler keeps the page showing what a replay mirrors; only an ended broadcast leaves an entry behind. */
  lemma ShowFollowsApply(p: Page, m: Mirror, stale: nat, n: Notify)
    requires Shows(p, m, stale) && Fits(m, n)
    ensures Shows(Show(p, n), Apply(m, n), stale + if n.NotifyBroadcastEnded? then 1 else 0)
  {
    match n
    case NotifyUsers(list) => ListShown(p.users, m.users, list);
    case NotifyBroadcasts(list) => WithBroadcastsMeaning(list);
    case NotifyUserJoined(user) => JoinedShown(p.users, m.users, user);
    case NotifyUserLeft(client) => WithoutUserShown(p.users, m.users, client);
    case NotifyBroadcastStarted(entry) => StartedShown(p.broadcasts, m.broadcasts, stale, entry);
    case NotifyBroadcastEnded(id) => EndedShown(p.broadcasts, m.broadcasts, stale, id);
  }

  // ----- When the broadcast list is exact -----

  function Ids(list: seq<BroadcastEntry>): set<BroadcastId> {
    if list == [] then {} else Ids(list[..|list| - 1]) + {list[|list| - 1].broadcastId}
  }

  lemma {:induction false} IdsAreListed(list: seq<BroadcastEntry>)
    ensures forall id :: id in Ids(list) <==> exists i :: 0 <= i < |list| && list[i].broadcastId == id
  {
    if list == [] {
    } else {
      var init, last := list[..|list| - 1], list[|list| - 1];
      IdsAreListed(init);
      assert forall i | 0 <= i < |init| :: init[i] == list[i];
    }
  }

  lemma LastIdIsNew(init: seq<BroadcastEntry>, last: BroadcastEntry)
    ensures DistinctBroadcasts(init + [last]) <==> DistinctBroadcasts(init) && last.broadcastId !in Ids(init)
  {
    var list := init + [last];
    IdsAreListed(init);
    if last.broadcastId in Ids(init) {
      var i :| 0 <= i < |init| && init[i].broadcastId == last.broadcastId;
      assert list[i].broadcastId == list[|init|].broadcastId;
    }
    if DistinctBroadcasts(list) {
      assert forall i | 0 <= i < |init| :: init[i] == list[i];
    }
  }

  lemma {:induction false} DistinctIdsCount(list: seq<BroadcastEntry>)
    ensures |Ids(list)| <= |list|
    ensures |Ids(list)| == |list| <==> DistinctBroadcasts(list)
  {
    if list == [] {
    } else {
      var init, last := list[..|list| - 1], list[|list| - 1];
      DistinctIdsCount(init);
      LastIdIsNew(init, last);
      assert list == init + [last];
    }
  }

  /** The list shows every current broadcast once, and nothing else. */
  ghost predicate ListsExactly(list: seq<BroadcastEntry>, current: map<BroadcastId, BroadcastEntry>) {
    && DistinctBroadcasts(list)
    && (forall id | id in current :: current[id] in list)
    && forall entry | entry in list :: entry.broadcastId in current && current[entry.broadcastId] == entry
  }

  /**
   The broadcast list is exactly the current broadcasts, each shown once, if and only if no
   broadcast has ended since the client joined.
   */
  lemma BroadcastListExactness(p: Page, m: Mirror, stale: nat)
    requires Shows(p, m, stale)
    ensures ListsExactly(p.broadcasts, m.broadcasts) <==> stale == 0
  {
    var ids := Ids(p.broadcasts);
    IdsAreListed(p.broadcasts);
    DistinctIdsCount(p.broadcasts);
    forall id | id in m.broadcasts
      ensures id in ids
    {
      assert m.broadcasts[id] in p.broadcasts;
    }
    if stale == 0 {
      SubsetIsSmaller(m.broadcasts.Keys, ids);
      SubsetOfSameSize(m.broadcasts.Keys, ids);
      DistinctHasOnlyCurrent(p.broadcasts, m.broadcasts);
    } else if forall entry | entry in p.broadcasts :: entry.broadcastId in m.broadcasts {
      assert forall i | 0 <= i < |p.broadcasts| :: p.broadcasts[i] in p.broadcasts;
      SubsetIsSmaller(ids, m.broadcasts.Keys);
    }
  }

  lemma DistinctHasOnlyCurrent(list: seq<BroadcastEntry>, current: map<BroadcastId, BroadcastEntry>)
    requires DistinctBroadcasts(list) && Ids(list) == current.Keys
    requires forall id | id in current :: current[id] in list && current[id].broadcastId == id
    ensures forall entry | entry in list :: entry.broadcastId in current && current[entry.broadcastId] == entry
  {
    IdsAreListed(list);
    forall entry | entry in list
      ensures entry.broadcastId in current && current[entry.broadcastId] == entry
    {
      var i :| 0 <= i < |list| && list[i] == entry;
      assert entry.broadcastId in Ids(list);
      var j :| 0 <= j < |list| && list[j] == current[entry.broadcastId];
    }
  }

  lemma {:induction false} SubsetIsSmaller(a: set<nat>, b: set<nat>)
    requires a <= b
    ensures |a| <= |b|
  {
    if a == {} {
    } else {
      var x :| x in a;
      SubsetIsSmaller(a - {x}, b - {x});
    }
  }

  lemma SubsetOfSameSize(a: set<nat>, b: set<nat>)
    requires a <= b && |b| <= |a|
    ensures a == b
  {
    if x :| x in b && x !in a {
      SubsetIsSmaller(a, b - {x});
    }
  }
}

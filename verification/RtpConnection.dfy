/** The browser client's notification handlers, updating its two lists in place. */
module RtpConnections {
  import opened Messages
  import opened Replica

  class RtpConnection {
    var users: seq<UserEntry>
    var broadcasts: seq<BroadcastEntry>

    function Lists(): Page
      reads this
    {
      Page(users, broadcasts)
    }

    constructor ()
      ensures Lists() == Page([], [])
    {
      users, broadcasts := [], [];
    }

    method OnUsers(list: seq<UserEntry>)
      modifies this`users
      ensures users == old(users) + list
    {
      for i := 0 to |list|
        invariant users == old(users) + list[..i]
      {
        users := users + [list[i]];
      }
    }

    method OnBroadcasts(list: seq<BroadcastEntry>)
      modifies this`broadcasts
      ensures broadcasts == old(broadcasts) + list
    {
      for i := 0 to |list|
        invariant broadcasts == old(broadcasts) + list[..i]
      {
        broadcasts := broadcasts + [list[i]];
      }
    }

    method OnUserLeft(client: ClientId)
      modifies this`users
      ensures users == WithoutUser(old(users), client)
    {
      var index := 0;
      while index < |users| && users[index].clientId != client
        invariant index <= |users|
        invariant forall i | 0 <= i < index :: users[i].clientId != client
      {
        index := index + 1;
      }
      IndexOfUserFinds(users, client);
      if index == |users| {
        return;
      }
      users := users[..index] + users[index + 1..];
    }

    /** Calls the handler registered for a notification, if there is one. */
    method HandleNotify(n: Notify)
      modifies this
      ensures Lists() == Show(old(Lists()), n)
    {
      match n
      case NotifyUsers(list) => OnUsers(list);
      case NotifyBroadcasts(list) => OnBroadcasts(list);
      case NotifyUserJoined(user) => users := users + [user];
      case NotifyUserLeft(client) => OnUserLeft(client);
      case NotifyBroadcastStarted(entry) => broadcasts := broadcasts + [entry];
      case NotifyBroadcastEnded(_) => // no handler is registered
    }
  }

  /** A fresh connection that handles a queue of notifications displays exactly that queue. */
  method Receive(queue: seq<Notify>) returns (connection: RtpConnection)
    ensures fresh(connection) && connection.Lists() == Display(queue)
  {
    connection := new RtpConnection();
    for i := 0 to |queue|
      invariant connection.Lists() == Display(queue[..i])
    {
      assert queue[..i + 1][..i] == queue[..i];
      connection.HandleNotify(queue[i]);
    }
    assert queue[..|queue|] == queue;
  }
}

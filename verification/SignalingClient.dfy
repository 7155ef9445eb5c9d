/** One signalling connection on the server: its life cycle, its subscribers and its write queue. */
module SignalingClients {
  import opened Wrappers

  datatype Message =
    | Response(requestId: nat, response: string)
    | Notify(notification: string)
    | Pong(payload: string)
    | Close(frame: Option<string>)

  datatype Connection = Connected | Disconnecting | Unconnected

  datatype SubscriberCall = ConnectionClosing | ConnectionClosed

  /** A subscriber: the state of the connection when it was registered and the calls it got since. */
  datatype Subscriber = Subscriber(registered: Connection, calls: seq<SubscriberCall>)

  /** The task a disconnect spawns: it queues a Close frame, then closes the connection. */
  datatype FlushTask = NotSpawned | QueuesClose(frame: Option<string>) | ClosesConnection | Ended

  /** `queue` is everything ever put into the write channel. */
  datatype State = State(connection: Connection, subscribers: seq<Subscriber>, queue: seq<Message>, task: FlushTask)

  const NEW := State(Connected, [], [], NotSpawned)

  function Called(subscribers: seq<Subscriber>, calls: seq<SubscriberCall>): (r: seq<Subscriber>)
    ensures |r| == |subscribers|
  {
    seq(|subscribers|, i requires 0 <= i < |subscribers| => subscribers[i].(calls := subscribers[i].calls + calls))
  }

  function Subscribe(s: State): State {
    s.(subscribers := s.subscribers + [Subscriber(s.connection, [])])
  }

  function Send(s: State, message: Message): State {
    if s.connection.Connected? then s.(queue := s.queue + [message]) else s
  }

  function Disconnect(s: State, frame: Option<string>): State {
    if !s.connection.Connected? then s
    else s.(connection := Disconnecting,
            subscribers := Called(s.subscribers, [ConnectionClosing]),
            task := QueuesClose(frame))
  }

  function CloseConnection(s: State): State {
    match s.connection
    case Connected =>
      s.(connection := Unconnected, subscribers := Called(s.subscribers, [ConnectionClosing, ConnectionClosed]))
    case Disconnecting => s.(connection := Unconnected, subscribers := Called(s.subscribers, [ConnectionClosed]))
    case Unconnected => s
  }

  /** The next action of the spawned task; the connection may have been closed meanwhile. */
  function FlushStep(s: State): State {
    match s.task
    case QueuesClose(frame) => s.(queue := s.queue + [Close(frame)], task := ClosesConnection)
    case ClosesConnection => CloseConnection(s).(task := Ended)
    case _ => s
  }

  datatype Step =
    | SubscribeStep
    | SendStep(message: Message)
    | DisconnectStep(frame: Option<string>)
    | CloseStep
    | TaskStep

  /** Close frames are queued by the flush task only. */
  predicate Possible(step: Step) {
    step.SendStep? ==> !step.message.Close?
  }

  function Next(s: State, step: Step): State {
    match step
    case SubscribeStep => Subscribe(s)
    case SendStep(message) => Send(s, message)
    case DisconnectStep(frame) => Disconnect(s, frame)
    case CloseStep => CloseConnection(s)
    case TaskStep => FlushStep(s)
  }

  function Run(steps: seq<Step>): State {
    if steps == [] then NEW else Next(Run(steps[..|steps| - 1]), steps[|steps| - 1])
  }

  // ----- What subscribers see -----

  /** The calls that lead a subscriber from the state it was registered in to the present one. */
  function CallsBetween(registered: Connection, now: Connection): seq<SubscriberCall> {
    (if registered.Connected? && !now.Connected? then [ConnectionClosing] else [])
    + (if !registered.Unconnected? && now.Unconnected? then [ConnectionClosed] else [])
  }

  function Rank(c: Connection): nat {
    match c case Connected => 0 case Disconnecting => 1 case Unconnected => 2
  }

  ghost predicate SubscribersInformed(s: State) {
    forall i | 0 <= i < |s.subscribers| ::
      var sub := s.subscribers[i];
      Rank(sub.registered) <= Rank(s.connection) && sub.calls == CallsBetween(sub.registered, s.connection)
  }

  lemma NextInforms(s: State, step: Step)
    requires SubscribersInformed(s)
    ensures SubscribersInformed(Next(s, step)) && Rank(s.connection) <= Rank(Next(s, step).connection)
  {
  }

  /**
   A subscriber registered while connected is told of closing once, when the connection stops being
   connected, and after that of closed once, when it becomes unconnected; later ones get what is left.
   */
  lemma {:induction false} SubscribersAreInformed(steps: seq<Step>)
    ensures SubscribersInformed(Run(steps))
  {
    if steps == [] {
    } else {
      SubscribersAreInformed(steps[..|steps| - 1]);
      NextInforms(Run(steps[..|steps| - 1]), steps[|steps| - 1]);
    }
  }

  /** What that comes to for a subscriber that was there from the start. */
  lemma FirstSubscriberIsInformed(steps: seq<Step>)
    ensures var s := Run([SubscribeStep] + steps);
            s.subscribers != [] && s.subscribers[0].calls
            == match s.connection
               case Connected => []
               case Disconnecting => [ConnectionClosing]
               case Unconnected => [ConnectionClosing, ConnectionClosed]
  {
    FirstSubscriberStays(steps);
    SubscribersAreInformed([SubscribeStep] + steps);
  }

  lemma {:induction false} FirstSubscriberStays(steps: seq<Step>)
    ensures var s := Run([SubscribeStep] + steps); s.subscribers != [] && s.subscribers[0].registered.Connected?
  {
    var all := [SubscribeStep] + steps;
    if steps == [] {
      assert all[..0] == [];
    } else {
      FirstSubscriberStays(steps[..|steps| - 1]);
      assert all[..|all| - 1] == [SubscribeStep] + steps[..|steps| - 1];
    }
  }

  // ----- Connections do close -----

  /** A close ends every connection, a disconnect only starts to end a connected one, and nothing reopens one. */
  lemma ClosingIsFinal(s: State, step: Step)
    ensures Next(s, CloseStep).connection.Unconnected?
    ensures var frame := None; s.connection.Connected? ==> Next(s, DisconnectStep(frame)).connection.Disconnecting?
    ensures s.connection.Unconnected? ==> Next(s, step).connection.Unconnected?
    ensures s.connection.Disconnecting? ==> !Next(s, step).connection.Connected?
  {
  }

  /** What the flush task has still to do before the connection is closed, if it was spawned. */
  ghost predicate TaskCloses(s: State) {
    && (s.connection.Connected? ==> s.task.NotSpawned?)
    && (s.connection.Disconnecting? ==> s.task.QueuesClose? || s.task.ClosesConnection?)
    && (s.task.Ended? ==> s.connection.Unconnected?)
  }

  /**
   In every state the task of a disconnecting connection has still to close it, and one that has ended has
   closed it.
   */
  lemma {:induction false} TaskAlwaysCloses(steps: seq<Step>)
    ensures TaskCloses(Run(steps))
  {
    if steps == [] {
    } else {
      TaskAlwaysCloses(steps[..|steps| - 1]);
    }
  }

  /** After `taken` actions of its task the connection is closed or has at most the remaining ones ahead of it. */
  ghost predicate ClosesWithin(s: State, taken: nat) {
    || s.connection.Unconnected?
    || (taken <= 1 && s.connection.Disconnecting? && s.task.ClosesConnection?)
    || (taken == 0 && s.connection.Disconnecting? && s.task.QueuesClose?)
  }

  lemma ClosesOneMore(s: State, step: Step, taken: nat)
    requires ClosesWithin(s, taken)
    ensures ClosesWithin(Next(s, step), taken + if step.TaskStep? then 1 else 0)
  {
  }

  /** Whatever else happens in between, after two actions of its task a disconnecting connection is unconnected. */
  lemma {:induction false} DeferredCloseHappens(steps: seq<Step>, more: seq<Step>)
    requires !Run(steps).connection.Connected?
    ensures ClosesWithin(Run(steps + more), multiset(more)[TaskStep])
    ensures multiset(more)[TaskStep] >= 2 ==> Run(steps + more).connection.Unconnected?
  {
    if more == [] {
      TaskAlwaysCloses(steps);
      assert steps + more == steps;
    } else {
      var init, step := more[..|more| - 1], more[|more| - 1];
      DeferredCloseHappens(steps, init);
      ClosesOneMore(Run(steps + init), step, multiset(init)[TaskStep]);
      assert (steps + more)[..|steps + more| - 1] == steps + init && more == init + [step];
    }
  }

  // ----- What is written -----

  /** The messages sent while the connection was connected, in order. */
  function SentWhileConnected(steps: seq<Step>): seq<Message> {
    if steps == [] then []
    else
      var init, last := steps[..|steps| - 1], steps[|steps| - 1];
      if last.SendStep? && Run(init).connection.Connected? then SentWhileConnected(init) + [last.message]
      else SentWhileConnected(init)
  }

  /** The frame of the first disconnect that found the connection connected. */
  function DisconnectFrame(steps: seq<Step>): Option<Option<string>> {
    if steps == [] then None
    else
      var init, last := steps[..|steps| - 1], steps[|steps| - 1];
      if last.DisconnectStep? && Run(init).connection.Connected? then Some(last.frame) else DisconnectFrame(init)
  }

  /**
   The queue is what was sent while connected, then the disconnect's Close frame once its task has run, and
   nothing else.
   */
  lemma {:induction false} QueueIsSentThenClose(steps: seq<Step>)
    requires forall step | step in steps :: Possible(step)
    ensures var s := Run(steps);
            && (s.task.NotSpawned? <==> DisconnectFrame(steps).None?)
            && (s.connection.Connected? ==> s.task.NotSpawned?)
            && (s.task.QueuesClose? ==> DisconnectFrame(steps) == Some(s.task.frame))
            && s.queue == if s.task.ClosesConnection? || s.task.Ended?
                          then SentWhileConnected(steps) + [Close(DisconnectFrame(steps).value)]
                          else SentWhileConnected(steps)
  {
    if steps == [] {
    } else {
      QueueIsSentThenClose(steps[..|steps| - 1]);
    }
  }

  // ----- The connection object -----

  class SignalingClient {
    var connection: Connection
    var subscribers: seq<Subscriber>
    var queue: seq<Message>
    var task: FlushTask

    function Value(): State
      reads this
    {
      State(connection, subscribers, queue, task)
    }

    constructor ()
      ensures Value() == NEW
    {
      connection, subscribers, queue, task := Connected, [], [], NotSpawned;
    }

    method AddSubscriber()
      modifies this`subscribers
      ensures Value() == Subscribe(old(Value()))
    {
      subscribers := subscribers + [Subscriber(connection, [])];
    }

    method CallSubscribers(call: SubscriberCall)
      modifies this`subscribers
      ensures subscribers == Called(old(subscribers), [call])
    {
      for i := 0 to |subscribers|
        invariant |subscribers| == |old(subscribers)|
        invariant forall j | 0 <= j < |subscribers| ::
          subscribers[j] == if j < i then Called(old(subscribers), [call])[j] else old(subscribers)[j]
      {
        subscribers := subscribers[i := subscribers[i].(calls := subscribers[i].calls + [call])];
      }
    }

    method DisconnectClient(frame: Option<string>)
      modifies this
      ensures Value() == Disconnect(old(Value()), frame)
    {
      if !connection.Connected? {
        return;
      }
      connection := Disconnecting;
      task := QueuesClose(frame);
      CallSubscribers(ConnectionClosing);
    }

    method CloseClient()
      modifies this`connection, this`subscribers
      ensures Value() == CloseConnection(old(Value()))
    {
      var oldConnection := connection;
      connection := Unconnected;
      match oldConnection
      case Connected =>
        CallSubscribers(ConnectionClosing);
        CallSubscribers(ConnectionClosed);
        CalledTwice(old(subscribers), ConnectionClosing, ConnectionClosed);
      case Disconnecting =>
        CallSubscribers(ConnectionClosed);
      case Unconnected =>
    }

    method SendRaw(message: Message)
      modifies this`queue
      ensures Value() == Send(old(Value()), message)
    {
      if connection.Connected? {
        queue := queue + [message];
      }
    }

    method RunTask()
      modifies this
      ensures Value() == FlushStep(old(Value()))
    {
      match task
      case QueuesClose(frame) =>
        queue := queue + [Close(frame)];
        task := ClosesConnection;
      case ClosesConnection =>
        CloseClient();
        task := Ended;
      case _ =>
    }

    method Take(step: Step)
      modifies this
      ensures Value() == Next(old(Value()), step)
    {
      match step
      case SubscribeStep => AddSubscriber();
      case SendStep(message) => SendRaw(message);
      case DisconnectStep(frame) => DisconnectClient(frame);
      case CloseStep => CloseClient();
      case TaskStep => RunTask();
    }

    /** Handles one message; what is queued grows by the answer to a request, if the connection is still connected. */
    method HandleIncoming(message: Incoming)
      requires message.Request? ==> forall step | step in message.meanwhile :: !Answering(step)
      modifies this
      ensures old(!connection.Connected?) ==> !connection.Connected?
      ensures EndsReading(message) ==> !connection.Connected?
      ensures AnswersIn(queue) == AnswersIn(old(queue)) + if connection.Connected? then AnswerTo(message) else []
      ensures message.ReceiveError? && old(connection.Connected?) ==> task == QueuesClose(Some("recv failed"))
      ensures message.EndOfStream? && old(connection.Connected?) ==> task == QueuesClose(None)
    {
      match message {
        case Ping(payload) =>
          AnswersInConcat(queue, Pong(payload));
          SendRaw(Pong(payload));
        case Ignored =>
        case ReceiveError =>
          DisconnectClient(Some("recv failed"));
        case EndOfStream =>
          DisconnectClient(None);
        case Request(requestId, response, meanwhile) =>
          RunOthers(meanwhile);
          AnswersInConcat(queue, Response(requestId, response));
          SendRaw(Response(requestId, response));
      }
    }

    /**
     The read loop: requests are handled one at a time and answered before the next message is read.
     While a handler runs, other tasks may act on the connection, but only this loop answers. The
     answers queued are those to the requests and pings in the order they came, up to the point where the
     connection stopped being connected, at the latest when the stream fails or ends.
     */
    method ReadLoop(incoming: seq<Incoming>)
      requires forall m | m in incoming :: m.Request? ==> forall step | step in m.meanwhile :: !Answering(step)
      modifies this
      ensures exists n ::
        Answered(incoming, |incoming|, n, old(AnswersIn(queue)), AnswersIn(queue), connection.Connected?)
    {
      var i := 0;
      ghost var before := AnswersIn(queue);
      ghost var responses := before;
      ghost var n: nat := 0;
      // Once the connection is not connected any more, the disconnect has shut down reading.
      while i < |incoming| && connection.Connected?
        invariant responses == AnswersIn(queue)
        invariant Answered(incoming, i, n, before, responses, connection.Connected?)
        decreases |incoming| - i
      {
        HandleIncoming(incoming[i]);
        n := AnsweredOneMore(incoming, i, n, before, responses, AnswersIn(queue), connection.Connected?);
        responses, i := AnswersIn(queue), i + 1;
      }
      AnsweredSoFar(incoming, i, n, before, responses, connection.Connected?);
    }

    method RunOthers(steps: seq<Step>)
      requires forall step | step in steps :: !Answering(step)
      modifies this
      ensures AnswersIn(queue) == AnswersIn(old(queue))
      ensures old(!connection.Connected?) ==> !connection.Connected?
    {
      for i := 0 to |steps|
        invariant AnswersIn(queue) == AnswersIn(old(queue))
        invariant old(!connection.Connected?) ==> !connection.Connected?
      {
        OthersDoNotAnswer(Value(), steps[i]);
        Take(steps[i]);
      }
    }
  }

  lemma OthersDoNotAnswer(s: State, step: Step)
    requires !Answering(step)
    ensures AnswersIn(Next(s, step).queue) == AnswersIn(s.queue)
    ensures !s.connection.Connected? ==> !Next(s, step).connection.Connected?
  {
    if Next(s, step).queue != s.queue {
      AnswersInConcat(s.queue, if step.SendStep? then step.message else Close(s.task.frame));
    }
  }

  lemma CalledTwice(subscribers: seq<Subscriber>, first: SubscriberCall, second: SubscriberCall)
    ensures Called(Called(subscribers, [first]), [second]) == Called(subscribers, [first, second])
  {
    assert forall calls: seq<SubscriberCall> :: calls + [first] + [second] == calls + [first, second];
  }

  // ----- Requests and responses -----

  /** A message from the client; a request comes with its response and what other tasks do until it is ready. */
  datatype Incoming =
    | Ping(payload: string)
    | Ignored
    | ReceiveError
    | EndOfStream
    | Request(requestId: nat, response: string, meanwhile: seq<Step>)

  /** What only the read loop sends: responses, and pongs to pings. */
  predicate IsAnswer(message: Message) {
    message.Response? || message.Pong?
  }

  predicate Answering(step: Step) {
    step.SendStep? && IsAnswer(step.message)
  }

  predicate EndsReading(message: Incoming) {
    message.ReceiveError? || message.EndOfStream?
  }

  function AnswerTo(message: Incoming): seq<Message> {
    match message
    case Ping(payload) => [Pong(payload)]
    case Request(requestId, response, _) => [Response(requestId, response)]
    case _ => []
  }

  function Answers(incoming: seq<Incoming>): seq<Message> {
    if incoming == [] then [] else Answers(incoming[..|incoming| - 1]) + AnswerTo(incoming[|incoming| - 1])
  }

  /**
   Of the answers to the first `i` messages exactly the first `n` have been queued, in order and after
   `before`: all of them as long as the connection is connected, which no failure or end of the stream
   leaves it.
   */
  ghost predicate Answered(incoming: seq<Incoming>, i: nat, n: nat, before: seq<Message>, responses: seq<Message>,
                           connected: bool) {
    && i <= |incoming| && n <= |Answers(incoming[..i])|
    && responses == before + Answers(incoming[..i])[..n]
    && (connected ==> n == |Answers(incoming[..i])| && forall m | m in incoming[..i] :: !EndsReading(m))
  }

  /** Each request in turn is answered with its own id, each ping with its own payload, and nothing else is answered. */
  lemma {:induction false} AnswersAreInOrder(incoming: seq<Incoming>, message: Incoming)
    ensures Answers(incoming + [message])
         == Answers(incoming) + if message.Ping? then [Pong(message.payload)]
                                else if message.Request? then [Response(message.requestId, message.response)]
                                else []
    ensures forall answer | answer in Answers(incoming) :: answer.Response? || answer.Pong?
  {
    assert (incoming + [message])[..|incoming|] == incoming;
    if incoming == [] {
    } else {
      AnswersAreInOrder(incoming[..|incoming| - 1], message);
    }
  }

  lemma AnsweredOneMore(incoming: seq<Incoming>, i: nat, n: nat, before: seq<Message>, responses: seq<Message>,
                        after: seq<Message>, connected: bool) returns (more: nat)
    requires i < |incoming| && Answered(incoming, i, n, before, responses, true)
    requires after == responses + (if connected then AnswerTo(incoming[i]) else [])
             && (EndsReading(incoming[i]) ==> !connected)
    ensures Answered(incoming, i + 1, more, before, after, connected)
  {
    var answers := Answers(incoming[..i]);
    assert incoming[..i + 1] == incoming[..i] + [incoming[i]] && incoming[..i + 1][..i] == incoming[..i];
    more := if connected then |answers| + |AnswerTo(incoming[i])| else n;
    assert answers[..n] == answers && (answers + AnswerTo(incoming[i]))[..n] == answers;
  }

  lemma AnsweredSoFar(incoming: seq<Incoming>, i: nat, n: nat, before: seq<Message>, responses: seq<Message>,
                      connected: bool)
    requires Answered(incoming, i, n, before, responses, connected) && (connected ==> i == |incoming|)
    ensures Answered(incoming, |incoming|, n, before, responses, connected)
  {
    AnswersGrow(incoming, i);
    assert incoming[..|incoming|] == incoming;
    assert Answers(incoming)[..n] == Answers(incoming[..i])[..n];
  }

  function AnswersIn(queue: seq<Message>): seq<Message> {
    if queue == [] then []
    else
      var init, last := AnswersIn(queue[..|queue| - 1]), queue[|queue| - 1];
      if IsAnswer(last) then init + [last] else init
  }

  lemma AnswersInConcat(queue: seq<Message>, message: Message)
    ensures AnswersIn(queue + [message])
         == if IsAnswer(message) then AnswersIn(queue) + [message] else AnswersIn(queue)
  {
    assert (queue + [message])[..|queue|] == queue;
  }

  lemma {:induction false} AnswersGrow(incoming: seq<Incoming>, i: nat)
    requires i <= |incoming|
    ensures Answers(incoming[..i]) <= Answers(incoming)
    decreases |incoming|
  {
    if i < |incoming| {
      var init := incoming[..|incoming| - 1];
      AnswersGrow(init, i);
      assert init[..i] == incoming[..i];
    } else {
      assert incoming[..i] == incoming;
    }
  }
}

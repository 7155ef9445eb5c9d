/** One broadcast: a packet source fanned out to its subscribed targets by a task that is polled. */
module Broadcasting {
  import opened Messages

  type Packet = int

  datatype SourceEvent = Media(packet: Packet) | End

  datatype TargetEvent = RequestPli

  /**
   The receiving end of the source's channel. `stream` is everything ever sent into it and
   `position` how much of that has been taken out; once `closed`, nothing more will be sent.
   */
  datatype Source = Source(stream: seq<SourceEvent>, position: nat, closed: bool) {
    predicate Valid() {
      position <= |stream|
    }
  }

  /** A subscribed target: its queued requests and the packets handed to it. */
  datatype Target = Target(requests: seq<TargetEvent>, closed: bool, received: seq<Packet>)

  /** The state of a broadcast; `finished` once its task has been told that it is over. */
  datatype Broadcast = Broadcast(
    kind: BroadcastKind,
    id: BroadcastId,
    name: Name,
    clientId: ClientId,
    source: Source,
    targets: map<ClientId, Target>,
    shutdown: bool,
    finished: bool,
    pliRequests: nat)
  {
    function Entry(): BroadcastEntry {
      BroadcastEntry(clientId, id, kind, name.text)
    }
  }

  /** The packets among the events. */
  function MediaOf(events: seq<SourceEvent>): seq<Packet> {
    if events == [] then []
    else (if events[0].Media? then [events[0].packet] else []) + MediaOf(events[1..])
  }

  lemma {:induction false} MediaOfConcat(a: seq<SourceEvent>, b: seq<SourceEvent>)
    ensures MediaOf(a + b) == MediaOf(a) + MediaOf(b)
  {
    if a == [] {
      assert a + b == b;
    } else {
      var rest := a[1..];
      MediaOfConcat(rest, b);
      assert (a + b)[1..] == rest + b && (a + b)[0] == a[0];
    }
  }

  /** From packets come those packets, in order; the End adds nothing. */
  lemma {:induction false} MediaOfPackets(packets: seq<Packet>, events: seq<SourceEvent>)
    requires |events| == |packets| && forall i | 0 <= i < |packets| :: events[i] == Media(packets[i])
    ensures MediaOf(events) == packets && MediaOf(events + [End]) == packets
  {
    if packets == [] {
    } else {
      MediaOfPackets(packets[1..], events[1..]);
      assert packets == [packets[0]] + packets[1..];
    }
    MediaOfConcat(events, [End]);
  }

  /** How far reading from `position` gets: just past the first End, or to the end of the stream. */
  function ReadUpTo(stream: seq<SourceEvent>, position: nat): (stop: nat)
    requires position <= |stream|
    ensures position <= stop <= |stream|
    ensures forall i | position <= i < stop - 1 :: stream[i].Media?
    ensures stop < |stream| ==> stop > position && stream[stop - 1].End?
    decreases |stream| - position
  {
    if position == |stream| then position
    else if stream[position].End? then position + 1
    else ReadUpTo(stream, position + 1)
  }

  /** The packets read from `position` to `stop`. */
  function PacketsUpTo(source: Source, stop: nat): seq<Packet>
    requires source.position <= stop <= |source.stream|
  {
    MediaOf(source.stream[source.position..stop])
  }

  /** Whether reading from `position` to `stop` meets the end of the broadcast. */
  predicate MeetsEnd(source: Source, stop: nat)
    requires source.position <= stop <= |source.stream|
  {
    (source.position < stop && source.stream[stop - 1].End?) || source.closed
  }

  /** The targets that have not closed, with their requests taken. */
  function Drained(targets: map<ClientId, Target>): map<ClientId, Target> {
    map c | c in targets && !targets[c].closed :: targets[c].(requests := [])
  }

  function Delivered(targets: map<ClientId, Target>, packets: seq<Packet>): map<ClientId, Target> {
    map c | c in targets :: targets[c].(received := targets[c].received + packets)
  }

  predicate SomeTargetAsks(targets: map<ClientId, Target>) {
    exists c | c in targets :: targets[c].requests != []
  }

  /** One poll of a broadcast's task. A finished task is not polled again. */
  function Polled(b: Broadcast): Broadcast
    requires b.source.Valid()
  {
    if b.finished then b
    else if b.shutdown then b.(finished := true)
    else
      var stop := ReadUpTo(b.source.stream, b.source.position);
      var packets := PacketsUpTo(b.source, stop);
      b.(source := b.source.(position := stop),
         targets := Delivered(Drained(b.targets), packets),
         pliRequests := b.pliRequests + (if SomeTargetAsks(b.targets) then 1 else 0),
         finished := MeetsEnd(b.source, stop))
  }

  /**
   A poll that goes ahead drops exactly the targets that have closed, leaves no request queued, and
   asks the source once if some request was queued, and otherwise not.
   */
  lemma PollTakesRequests(b: Broadcast)
    requires b.source.Valid() && !b.finished && !b.shutdown
    ensures forall c :: c in Polled(b).targets <==> c in b.targets && !b.targets[c].closed
    ensures forall c | c in Polled(b).targets :: Polled(b).targets[c].requests == [] && !Polled(b).targets[c].closed
    ensures Polled(b).pliRequests
         == b.pliRequests + if exists c | c in b.targets :: b.targets[c].requests != [] then 1 else 0
  {
  }

  /** A poll finishes a broadcast if and only if it was signalled, an End was queued, or its source has closed. */
  lemma PollFinishes(b: Broadcast)
    requires b.source.Valid() && !b.finished
    ensures Polled(b).finished
       <==> || b.shutdown || b.source.closed
            || exists i | b.source.position <= i < |b.source.stream| :: b.source.stream[i].End?
  {
    var stream, stop := b.source.stream, ReadUpTo(b.source.stream, b.source.position);
    if i :| b.source.position <= i < |stream| && stream[i].End? {
      assert stop <= i + 1;
    }
  }

  /** Empties a target's request queue; `asked` when there was anything in it. */
  method TakeRequests(target: Target) returns (drained: Target, asked: bool)
    ensures drained == target.(requests := [])
    ensures asked <==> target.requests != []
  {
    drained, asked := target, false;
    while drained.requests != []
      invariant drained == target.(requests := drained.requests)
      invariant asked || drained == target
      invariant asked ==> target.requests != []
      decreases |drained.requests|
    {
      match drained.requests[0] {
        case RequestPli => asked := true;
      }
      drained := drained.(requests := drained.requests[1..]);
    }
  }

  class ClientBroadcast {
    const kind: BroadcastKind
    const id: BroadcastId
    const name: Name
    const clientId: ClientId

    var source: Source
    var targets: map<ClientId, Target>
    var shutdown: bool
    var finished: bool
    var pliRequests: nat

    function Value(): Broadcast
      reads this
    {
      Broadcast(kind, id, name, clientId, source, targets, shutdown, finished, pliRequests)
    }

    constructor (kind: BroadcastKind, id: BroadcastId, name: Name, clientId: ClientId, source: Source)
      ensures Value() == Broadcast(kind, id, name, clientId, source, map[], false, false, 0)
    {
      this.kind := kind;
      this.id := id;
      this.name := name;
      this.clientId := clientId;
      this.source := source;
      this.targets := map[];
      this.shutdown := false;
      this.finished := false;
      this.pliRequests := 0;
    }

    /** Takes every queued request of every target and drops the targets that have closed. */
    method DrainTargets() returns (pliRequest: bool)
      modifies this`targets
      ensures targets == Drained(old(targets))
      ensures pliRequest <==> SomeTargetAsks(old(targets))
    {
      pliRequest := false;
      var todo := targets.Keys;
      while todo != {}
        invariant todo <= targets.Keys <= old(targets).Keys
        invariant forall c | c in todo :: targets[c] == old(targets)[c]
        invariant forall c | c in old(targets) && c !in todo ::
          && (c in targets <==> !old(targets)[c].closed)
          && (c in targets ==> targets[c] == old(targets)[c].(requests := []))
        invariant pliRequest <==> exists c | c in old(targets) && c !in todo :: old(targets)[c].requests != []
      {
        var c :| c in todo;
        var target, asked := TakeRequests(targets[c]);
        pliRequest := pliRequest || asked;
        targets := if target.closed then targets - {c} else targets[c := target];
        todo := todo - {c};
      }
    }

    /** Hands one more packet to every target, after `packets` since the targets were `before`. */
    method SendToAll(packet: Packet, ghost before: map<ClientId, Target>, ghost packets: seq<Packet>)
      requires targets == Delivered(before, packets)
      modifies this`targets
      ensures targets == Delivered(before, packets + [packet])
    {
      DeliveredConcat(before, packets, [packet]);
      var todo := targets.Keys;
      while todo != {}
        invariant targets.Keys == old(targets).Keys && todo <= targets.Keys
        invariant forall c | c in targets ::
          targets[c] == if c in todo then old(targets)[c]
                        else old(targets)[c].(received := old(targets)[c].received + [packet])
      {
        var c :| c in todo;
        targets := targets[c := targets[c].(received := targets[c].received + [packet])];
        todo := todo - {c};
      }
    }

    /** Takes one event out of the source and, unless it ends the broadcast, hands its packet to every target. */
    method ReadEvent(ghost before: Source, ghost targetsBefore: map<ClientId, Target>) returns (ended: bool)
      requires source.position < |source.stream| && HasRead(before, targetsBefore, source, targets)
      modifies this`source, this`targets
      ensures source == old(source).(position := old(source).position + 1)
      ensures ended ==> HasReadEnd(before, targetsBefore, source, targets)
      ensures !ended ==> HasRead(before, targetsBefore, source, targets)
    {
      var event := source.stream[source.position];
      ReadOneMore(before, targetsBefore, source);
      ghost var packets := PacketsUpTo(before, source.position);
      source := source.(position := source.position + 1);
      match event {
        case Media(packet) =>
          SendToAll(packet, targetsBefore, packets);
          return false;
        case End =>
          return true;
      }
    }

    /** Hands every queued packet to every target, until the source pauses or ends. */
    method ReadSource() returns (ended: bool)
      requires source.Valid()
      modifies this`source, this`targets
      ensures var stop := ReadUpTo(old(source).stream, old(source).position);
              && source == old(source).(position := stop)
              && targets == Delivered(old(targets), PacketsUpTo(old(source), stop))
              && (ended <==> MeetsEnd(old(source), stop))
    {
      ghost var before, targetsBefore := source, targets;
      NothingRead(before, targetsBefore);
      ended := false;
      while !ended && source.position < |source.stream|
        invariant source.stream == before.stream && source.position <= |source.stream|
        invariant if ended then HasReadEnd(before, targetsBefore, source, targets)
                  else HasRead(before, targetsBefore, source, targets)
        decreases |source.stream| - source.position
      {
        ended := ReadEvent(before, targetsBefore);
      }
      ReadingStops(before, targetsBefore, source, targets, ended);
      return ended || source.closed;
    }

    /**
     Serves the targets' requests, with one request to the source when some target asked, then
     reads the source. Returns true when the broadcast is over.
     */
    method Poll() returns (ready: bool)
      requires source.Valid() && !finished
      modifies this
      ensures Value() == Polled(old(Value())) && ready == finished
    {
      if shutdown {
        finished := true;
        return true;
      }
      var pliRequest := DrainTargets();
      if pliRequest {
        pliRequests := pliRequests + 1;
      }
      finished := ReadSource();
      return finished;
    }

    method Subscribe(clientId: ClientId, target: Target) returns (inserted: bool)
      modifies this`targets
      ensures inserted <==> clientId !in old(targets)
      ensures Value() == if inserted then old(Value()).(targets := old(targets)[clientId := target]) else old(Value())
    {
      if clientId in targets {
        return false;
      }
      targets := targets[clientId := target];
      return true;
    }

    method Unsubscribe(clientId: ClientId)
      modifies this`targets
      ensures Value() == old(Value()).(targets := old(targets) - {clientId})
    {
      targets := targets - {clientId};
    }

    /** Signals the task to end, at its next poll. Signalling again changes nothing. */
    method Shutdown()
      modifies this`shutdown
      ensures Value() == old(Value()).(shutdown := true)
    {
      shutdown := true;
    }
  }

  /** From `before` on, only media was read, all of it, and handed to every target. */
  ghost predicate HasRead(before: Source, targetsBefore: map<ClientId, Target>, source: Source,
                          targets: map<ClientId, Target>) {
    && before.position <= source.position <= |before.stream| && source == before.(position := source.position)
    && ReadUpTo(source.stream, source.position) == ReadUpTo(source.stream, before.position)
    && (source.position > before.position ==> source.stream[source.position - 1].Media?)
    && targets == Delivered(targetsBefore, PacketsUpTo(before, source.position))
  }

  /** The same, and then the End. */
  ghost predicate HasReadEnd(before: Source, targetsBefore: map<ClientId, Target>, source: Source,
                             targets: map<ClientId, Target>) {
    && before.position < source.position <= |before.stream| && source == before.(position := source.position)
    && source.position == ReadUpTo(before.stream, before.position) && source.stream[source.position - 1].End?
    && targets == Delivered(targetsBefore, PacketsUpTo(before, source.position))
  }

  lemma NothingRead(before: Source, targets: map<ClientId, Target>)
    requires before.Valid()
    ensures HasRead(before, targets, before, targets)
  {
    DeliveredNothing(targets);
    assert PacketsUpTo(before, before.position) == [];
  }

  lemma ReadingStops(before: Source, targetsBefore: map<ClientId, Target>, source: Source,
                     targets: map<ClientId, Target>, ended: bool)
    requires before.Valid()
    requires if ended then HasReadEnd(before, targetsBefore, source, targets)
             else HasRead(before, targetsBefore, source, targets) && source.position == |source.stream|
    ensures var stop := ReadUpTo(before.stream, before.position);
            && source == before.(position := stop)
            && targets == Delivered(targetsBefore, PacketsUpTo(before, stop))
            && (ended || source.closed <==> MeetsEnd(before, stop))
  {
  }

  lemma DeliveredNothing(targets: map<ClientId, Target>)
    ensures Delivered(targets, []) == targets
  {
    forall c | c in targets
      ensures targets[c].(received := targets[c].received + []) == targets[c]
    {
      assert targets[c].received + [] == targets[c].received;
    }
  }

  lemma DeliveredConcat(targets: map<ClientId, Target>, a: seq<Packet>, b: seq<Packet>)
    ensures Delivered(Delivered(targets, a), b) == Delivered(targets, a + b)
  {
    forall c | c in targets
      ensures Delivered(Delivered(targets, a), b)[c] == Delivered(targets, a + b)[c]
    {
      assert targets[c].received + a + b == targets[c].received + (a + b);
    }
  }

  lemma PacketsOneMore(source: Source, position: nat)
    requires source.position <= position < |source.stream|
    ensures PacketsUpTo(source, position + 1)
         == PacketsUpTo(source, position)
            + if source.stream[position].Media? then [source.stream[position].packet] else []
  {
    MediaOfOneMore(source.stream, source.position, position);
  }

  /** Reading one more event, which hands its packet over or ends the broadcast. */
  lemma ReadOneMore(before: Source, targetsBefore: map<ClientId, Target>, source: Source)
    requires before.position <= source.position < |before.stream| && source == before.(position := source.position)
    requires ReadUpTo(source.stream, source.position) == ReadUpTo(source.stream, before.position)
    ensures var packets := PacketsUpTo(before, source.position);
            var next := source.(position := source.position + 1);
            match source.stream[source.position]
            case Media(packet) => HasRead(before, targetsBefore, next, Delivered(targetsBefore, packets + [packet]))
            case End =>
              && ReadUpTo(source.stream, before.position) == next.position
              && PacketsUpTo(before, next.position) == packets
  {
    PacketsOneMore(before, source.position);
  }

  lemma MediaOfOneMore(stream: seq<SourceEvent>, start: nat, position: nat)
    requires start <= position < |stream|
    ensures var packets := MediaOf(stream[start..position]);
            MediaOf(stream[start..position + 1]) == match stream[position]
                                                    case Media(packet) => packets + [packet]
                                                    case End => packets
  {
    assert stream[start..position + 1] == stream[start..position] + [stream[position]];
    MediaOfConcat(stream[start..position], [stream[position]]);
  }
}

/** The loop that writes one outgoing track: RTP packets renumbered by two patchers. */
module SendLoop {
  import opened PacketStream
  import opened SequencePatching
  import opened Wrappers

  const MAX_SEQUENCE: nat := 0xFFFF
  const MAX_TIMESTAMP: nat := 0xFFFF_FFFF
  const SEQUENCE_GAP: nat := 80
  const TIMESTAMP_GAP: nat := 10_000

  type SequenceNumber = x: nat | x <= MAX_SEQUENCE
  type Timestamp = x: nat | x <= MAX_TIMESTAMP

  /** The header fields of section 5.1 of RFC 3550 that the loop rewrites, and the rest of the packet. */
  datatype Packet = Packet(ssrc: nat, payloadType: nat, sequence: SequenceNumber, timestamp: Timestamp, rest: seq<nat>)

  /** What the peer connection assigned to the track. */
  datatype Binding = Binding(ssrc: nat, payloadType: nat)

  /** What wakes the loop; a packet comes with the binding the track has at that moment. */
  datatype LoopEvent =
    | Shutdown
    | RtcpReceive
    | RtcpReceiveError(recovered: bool)
    | RtpSend(packet: Packet, binding: Option<Binding>)
    | Noop

  predicate EndsLoop(event: LoopEvent) {
    event.Shutdown? || (event.RtcpReceiveError? && !event.recovered)
  }

  /** A packet together with the binding it goes out on. */
  datatype Sending = Sending(packet: Packet, binding: Binding)

  function Reaching(event: LoopEvent): seq<Sending> {
    if event.RtpSend? && event.binding.Some? then [Sending(event.packet, event.binding.value)] else []
  }

  /** What reaches the patchers before the loop ends. */
  function Patched(events: seq<LoopEvent>): seq<Sending> {
    if events == [] || EndsLoop(events[0]) then [] else Reaching(events[0]) + Patched(events[1..])
  }

  function Sequences(kept: seq<Sending>): (vs: seq<nat>)
    ensures Stream(MAX_SEQUENCE, vs)
  {
    seq(|kept|, i requires 0 <= i < |kept| => kept[i].packet.sequence)
  }

  function Timestamps(kept: seq<Sending>): (vs: seq<nat>)
    ensures Stream(MAX_TIMESTAMP, vs)
  {
    seq(|kept|, i requires 0 <= i < |kept| => kept[i].packet.timestamp)
  }

  /** The packet written for `kept[i]`: renumbered onto the two bases and addressed to the binding. */
  function Written(kept: seq<Sending>, sequenceBase: SequenceNumber, timestampBase: Timestamp, i: nat): Packet
    requires i < |kept|
  {
    Packet(
      kept[i].binding.ssrc, kept[i].binding.payloadType,
      Output(Params(MAX_SEQUENCE, SEQUENCE_GAP, sequenceBase), Sequences(kept), i),
      Output(Params(MAX_TIMESTAMP, TIMESTAMP_GAP, timestampBase), Timestamps(kept), i),
      kept[i].packet.rest)
  }

  ghost predicate Renumbered(written: seq<Packet>, kept: seq<Sending>, sequenceBase: SequenceNumber,
                             timestampBase: Timestamp) {
    && |written| == |kept|
    && forall i | 0 <= i < |kept| :: written[i] == Written(kept, sequenceBase, timestampBase, i)
  }

  lemma {:induction false} PatchedConcat(before: seq<LoopEvent>, event: LoopEvent)
    requires forall e | e in before :: !EndsLoop(e)
    ensures Patched(before + [event]) == Patched(before) + if EndsLoop(event) then [] else Reaching(event)
  {
    if before == [] {
    } else {
      PatchedConcat(before[1..], event);
      assert (before + [event])[1..] == before[1..] + [event];
    }
  }

  lemma {:induction false} PatchedStops(before: seq<LoopEvent>, event: LoopEvent, after: seq<LoopEvent>)
    requires forall e | e in before :: !EndsLoop(e)
    requires EndsLoop(event)
    ensures Patched(before + [event] + after) == Patched(before)
  {
    if before == [] {
    } else {
      PatchedStops(before[1..], event, after);
      assert (before + [event] + after)[1..] == before[1..] + [event] + after;
    }
  }

  /** Appending a packet to the patched stream leaves the earlier numbers alone. */
  lemma RenumberedExtends(written: seq<Packet>, kept: seq<Sending>, sending: Sending, sequenceBase: SequenceNumber,
                          timestampBase: Timestamp)
    requires Renumbered(written, kept, sequenceBase, timestampBase)
    ensures Renumbered(written + [Written(kept + [sending], sequenceBase, timestampBase, |kept|)],
                       kept + [sending], sequenceBase, timestampBase)
  {
    assert Sequences(kept + [sending]) == Sequences(kept) + [sending.packet.sequence];
    assert Timestamps(kept + [sending]) == Timestamps(kept) + [sending.packet.timestamp];
    forall i | 0 <= i < |kept|
      ensures Written(kept + [sending], sequenceBase, timestampBase, i) == Written(kept, sequenceBase, timestampBase, i)
    {
      OutputIsCausal(Params(MAX_SEQUENCE, SEQUENCE_GAP, sequenceBase), Sequences(kept), [sending.packet.sequence], i);
      OutputIsCausal(Params(MAX_TIMESTAMP, TIMESTAMP_GAP, timestampBase), Timestamps(kept),
                     [sending.packet.timestamp], i);
    }
  }

  /** The patcher has processed exactly the values `vs`, starting from `params.base`. */
  ghost predicate Processed(patcher: SequencePatcher, params: Params, vs: seq<nat>)
    requires Stream(params.max, vs)
    reads patcher
  {
    && params.Valid() && patcher.Valid() && patcher.max == params.max && patcher.maxGap == params.gap
    && if vs == [] then patcher.reference == None && patcher.current == params.base
       else patcher.reference == Some(vs[|vs| - 1]) && patcher.current == Output(params, vs, |vs| - 1)
  }

  /** One more value through a patcher gives the next output of its stream. */
  method Renumber(patcher: SequencePatcher, ghost params: Params, ghost vs: seq<nat>, value: nat) returns (out: nat)
    requires value <= params.max && Stream(params.max, vs) && Processed(patcher, params, vs)
    modifies patcher
    ensures Processed(patcher, params, vs + [value])
    ensures out == Output(params, vs + [value], |vs|)
  {
    out := patcher.Process(value);
    if vs != [] {
      OutputIsCausal(params, vs, [value], |vs| - 1);
      AdvanceFollows(params.max, params.gap, Output(params, vs, |vs| - 1), vs[|vs| - 1], value);
    }
  }

  /** Both patchers have processed the headers of `kept`. */
  ghost predicate PatchersFollow(sequences: SequencePatcher, timestamps: SequencePatcher, kept: seq<Sending>,
                                 sequenceBase: SequenceNumber, timestampBase: Timestamp)
    reads sequences, timestamps
  {
    && sequences != timestamps
    && Processed(sequences, Params(MAX_SEQUENCE, SEQUENCE_GAP, sequenceBase), Sequences(kept))
    && Processed(timestamps, Params(MAX_TIMESTAMP, TIMESTAMP_GAP, timestampBase), Timestamps(kept))
  }

  /** Rewrites the header of one packet, the next after `kept`. */
  method Rewrite(sequences: SequencePatcher, timestamps: SequencePatcher, packet: Packet, binding: Binding,
                 ghost kept: seq<Sending>, ghost sequenceBase: SequenceNumber, ghost timestampBase: Timestamp)
    returns (out: Packet)
    requires PatchersFollow(sequences, timestamps, kept, sequenceBase, timestampBase)
    modifies sequences, timestamps
    ensures PatchersFollow(sequences, timestamps, kept + [Sending(packet, binding)], sequenceBase, timestampBase)
    ensures out == Written(kept + [Sending(packet, binding)], sequenceBase, timestampBase, |kept|)
  {
    ghost var more := kept + [Sending(packet, binding)];
    assert Sequences(more) == Sequences(kept) + [packet.sequence];
    assert Timestamps(more) == Timestamps(kept) + [packet.timestamp];
    var sequence := Renumber(sequences, Params(MAX_SEQUENCE, SEQUENCE_GAP, sequenceBase), Sequences(kept),
                             packet.sequence);
    var timestamp := Renumber(timestamps, Params(MAX_TIMESTAMP, TIMESTAMP_GAP, timestampBase), Timestamps(kept),
                              packet.timestamp);
    return Packet(binding.ssrc, binding.payloadType, sequence, timestamp, packet.rest);
  }

  /** The loop has got as far as event `i`, and `kept` are the packets that reached the patchers. */
  ghost predicate Reached(events: seq<LoopEvent>, i: nat, kept: seq<Sending>) {
    && i <= |events| && kept == Patched(events[..i])
    && forall e | e in events[..i] :: !EndsLoop(e)
  }

  lemma ReachedNext(events: seq<LoopEvent>, i: nat, kept: seq<Sending>)
    requires Reached(events, i, kept) && i < |events| && !EndsLoop(events[i])
    ensures Reached(events, i + 1, kept + Reaching(events[i]))
  {
    PatchedConcat(events[..i], events[i]);
    assert events[..i + 1] == events[..i] + [events[i]];
  }

  /** Where the loop ends, nothing more reaches the patchers. */
  lemma ReachedEnd(events: seq<LoopEvent>, i: nat, kept: seq<Sending>)
    requires Reached(events, i, kept) && (i < |events| ==> EndsLoop(events[i]))
    ensures kept == Patched(events)
  {
    if i < |events| {
      PatchedStops(events[..i], events[i], events[i + 1..]);
      assert events == events[..i] + [events[i]] + events[i + 1..];
    } else {
      assert events[..i] == events;
    }
  }

  /** Handles one event that does not end the loop: a packet that finds a binding is renumbered and written. */
  method Handle(event: LoopEvent, sequences: SequencePatcher, timestamps: SequencePatcher, written: seq<Packet>,
                ghost kept: seq<Sending>, ghost sequenceBase: SequenceNumber, ghost timestampBase: Timestamp)
    returns (extended: seq<Packet>)
    requires PatchersFollow(sequences, timestamps, kept, sequenceBase, timestampBase)
    requires Renumbered(written, kept, sequenceBase, timestampBase)
    modifies sequences, timestamps
    ensures PatchersFollow(sequences, timestamps, kept + Reaching(event), sequenceBase, timestampBase)
    ensures Renumbered(extended, kept + Reaching(event), sequenceBase, timestampBase)
  {
    if event.RtpSend? && event.binding.Some? {
      RenumberedExtends(written, kept, Sending(event.packet, event.binding.value), sequenceBase, timestampBase);
      var out := Rewrite(sequences, timestamps, event.packet, event.binding.value, kept, sequenceBase, timestampBase);
      return written + [out];
    }
    assert kept + Reaching(event) == kept;
    return written;
  }

  // ----- What is on the wire -----

  /** Every written packet goes out on its own binding and is otherwise the packet that came in. */
  ghost predicate GoesOut(written: seq<Packet>, kept: seq<Sending>) {
    && |written| == |kept|
    && forall i | 0 <= i < |kept| ::
         && written[i].ssrc == kept[i].binding.ssrc
         && written[i].payloadType == kept[i].binding.payloadType
         && written[i].rest == kept[i].packet.rest
  }

  /** `after` follows `before` on a circle of `n` as the input moved by `arc`, or by `gap` if that is further. */
  predicate Moves(n: nat, gap: nat, before: nat, after: nat, arc: nat)
    requires n > 0
  {
    after == (before + if gap < arc < n - gap then gap else arc) % n
  }

  /**
   The first packet has the bases. After that sequence numbers, of sixteen bits, move with the source
   up to 80 forwards or backwards and timestamps, of thirty-two bits, up to 10000; a source that moves
   further is followed by exactly as much.
   */
  ghost predicate Follows(written: seq<Packet>, kept: seq<Sending>, sequenceBase: nat, timestampBase: nat) {
    && |written| == |kept|
    && (written != [] ==> written[0].sequence == sequenceBase && written[0].timestamp == timestampBase)
    && forall i | 0 < i < |kept| ::
         && Moves(65536, 80, written[i - 1].sequence, written[i].sequence,
                  (kept[i].packet.sequence - kept[i - 1].packet.sequence) % 65536)
         && Moves(4294967296, 10000, written[i - 1].timestamp, written[i].timestamp,
                  (kept[i].packet.timestamp - kept[i - 1].packet.timestamp) % 4294967296)
  }

  lemma SequenceMoves(current: SequenceNumber, reference: SequenceNumber, value: SequenceNumber)
    ensures Moves(65536, 80, current, Follow(MAX_SEQUENCE, SEQUENCE_GAP, current, reference, value),
                  (value - reference) % 65536)
  {
  }

  lemma TimestampMoves(current: Timestamp, reference: Timestamp, value: Timestamp)
    ensures Moves(4294967296, 10000, current, Follow(MAX_TIMESTAMP, TIMESTAMP_GAP, current, reference, value),
                  (value - reference) % 4294967296)
  {
  }

  lemma RenumberedGoesOut(written: seq<Packet>, kept: seq<Sending>, sequenceBase: SequenceNumber,
                          timestampBase: Timestamp)
    requires Renumbered(written, kept, sequenceBase, timestampBase)
    ensures GoesOut(written, kept)
  {
  }

  lemma RenumberedFollows(written: seq<Packet>, kept: seq<Sending>, sequenceBase: SequenceNumber,
                          timestampBase: Timestamp)
    requires Renumbered(written, kept, sequenceBase, timestampBase)
    ensures Follows(written, kept, sequenceBase, timestampBase)
  {
    forall i | 0 < i < |kept|
      ensures Moves(65536, 80, written[i - 1].sequence, written[i].sequence,
                    (kept[i].packet.sequence - kept[i - 1].packet.sequence) % 65536)
      ensures Moves(4294967296, 10000, written[i - 1].timestamp, written[i].timestamp,
                    (kept[i].packet.timestamp - kept[i - 1].packet.timestamp) % 4294967296)
    {
      SequenceMoves(written[i - 1].sequence, kept[i - 1].packet.sequence, kept[i].packet.sequence);
      TimestampMoves(written[i - 1].timestamp, kept[i - 1].packet.timestamp, kept[i].packet.timestamp);
    }
  }

  /** A shutdown and an RTCP error that nobody recovers from end the loop. */
  ghost predicate GoesOn(events: seq<LoopEvent>) {
    Shutdown !in events && RtcpReceiveError(false) !in events
  }

  /** Until the loop ends, each packet that finds a binding reaches the patchers, and nothing else does. */
  lemma OneMoreReaches(events: seq<LoopEvent>, event: LoopEvent)
    requires GoesOn(events)
    ensures Patched(events + [event])
         == if event.RtpSend? && event.binding.Some?
            then Patched(events) + [Sending(event.packet, event.binding.value)]
            else Patched(events)
  {
    PatchedConcat(events, event);
  }

  /** After a shutdown or such an error nothing reaches the patchers any more. */
  lemma NothingReachesAfterEnd(events: seq<LoopEvent>, event: LoopEvent, more: seq<LoopEvent>)
    requires GoesOn(events) && (event == Shutdown || event == RtcpReceiveError(false))
    ensures Patched(events + [event] + more) == Patched(events)
  {
    PatchedStops(events, event, more);
  }

  /**
   Runs the loop over the events in the order they are selected, from two random bases. What is
   written is the patched stream; packets that find no binding never reach the patchers.
   */
  method Run(events: seq<LoopEvent>, sequenceBase: SequenceNumber, timestampBase: Timestamp)
    returns (written: seq<Packet>)
    ensures Renumbered(written, Patched(events), sequenceBase, timestampBase)
    ensures GoesOut(written, Patched(events)) && Follows(written, Patched(events), sequenceBase, timestampBase)
  {
    var sequences := new SequencePatcher(MAX_SEQUENCE, sequenceBase, SEQUENCE_GAP);
    var timestamps := new SequencePatcher(MAX_TIMESTAMP, timestampBase, TIMESTAMP_GAP);
    ghost var kept: seq<Sending> := [];
    written := [];
    var i := 0;
    while i < |events| && !EndsLoop(events[i])
      invariant fresh(sequences) && fresh(timestamps)
      invariant Reached(events, i, kept)
      invariant Renumbered(written, kept, sequenceBase, timestampBase)
      invariant PatchersFollow(sequences, timestamps, kept, sequenceBase, timestampBase)
    {
      var event := events[i];
      ReachedNext(events, i, kept);
      written := Handle(event, sequences, timestamps, written, kept, sequenceBase, timestampBase);
      kept := kept + Reaching(event);
      i := i + 1;
    }
    ReachedEnd(events, i, kept);
    RenumberedGoesOut(written, kept, sequenceBase, timestampBase);
    RenumberedFollows(written, kept, sequenceBase, timestampBase);
  }
}

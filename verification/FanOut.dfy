/** What the targets of a broadcast receive over whole runs of polls, subscriptions and channel traffic. */
module FanOut {
  import opened Broadcasting
  import opened Messages

  /** Everything that can happen to a broadcast between two polls, and the poll itself. */
  datatype Step =
    | Poll
    | Subscribe(clientId: ClientId, target: Target)
    | Unsubscribe(clientId: ClientId)
    | Shutdown
    | Send(event: SourceEvent)
    | CloseSource
    | Request(clientId: ClientId)
    | CloseTarget(clientId: ClientId)

  function Next(b: Broadcast, step: Step): (b': Broadcast)
    requires b.source.Valid()
    ensures b'.source.Valid()
  {
    match step
    case Poll => Polled(b)
    case Subscribe(c, target) => if c in b.targets then b else b.(targets := b.targets[c := target])
    case Unsubscribe(c) => b.(targets := b.targets - {c})
    case Shutdown => b.(shutdown := true)
    case Send(event) => if b.source.closed then b else b.(source := b.source.(stream := b.source.stream + [event]))
    case CloseSource => b.(source := b.source.(closed := true))
    case Request(c) =>
      if c !in b.targets || b.targets[c].closed then b
      else b.(targets := b.targets[c := b.targets[c].(requests := b.targets[c].requests + [RequestPli])])
    case CloseTarget(c) =>
      if c !in b.targets then b else b.(targets := b.targets[c := b.targets[c].(closed := true)])
  }

  function Run(b: Broadcast, steps: seq<Step>): (b': Broadcast)
    requires b.source.Valid()
    ensures b'.source.Valid()
  {
    if steps == [] then b else Next(Run(b, steps[..|steps| - 1]), steps[|steps| - 1])
  }

  /** `c` is subscribed from `b` to the end of the run, without a break. */
  predicate Stays(b: Broadcast, steps: seq<Step>, c: ClientId)
    requires b.source.Valid()
  {
    c in Run(b, steps).targets && (steps != [] ==> Stays(b, steps[..|steps| - 1], c))
  }

  /**
   Between `b` and `e` the target of `c` was handed exactly the contiguous segment of the source's
   packets, in order, that the broadcast read in between.
   */
  ghost predicate HandsSegment(b: Broadcast, e: Broadcast, c: ClientId) {
    && b.source.Valid() && e.source.Valid() && c in b.targets && c in e.targets
    && b.source.stream <= e.source.stream && b.source.position <= e.source.position
    && e.targets[c].received == b.targets[c].received + MediaOf(e.source.stream[b.source.position..e.source.position])
  }

  lemma UnreadHandsSegment(b: Broadcast, e: Broadcast, c: ClientId)
    requires b.source.Valid() && c in b.targets && c in e.targets && e.targets[c].received == b.targets[c].received
    requires b.source.stream <= e.source.stream && b.source.position == e.source.position
    ensures HandsSegment(b, e, c)
  {
    assert e.source.stream[b.source.position..b.source.position] == [];
    assert b.targets[c].received + [] == b.targets[c].received;
  }

  lemma StepHandsSegment(b: Broadcast, step: Step, c: ClientId)
    requires b.source.Valid() && c in b.targets && c in Next(b, step).targets
    ensures HandsSegment(b, Next(b, step), c)
  {
    var e := Next(b, step);
    if e.source.position == b.source.position && e.targets[c].received == b.targets[c].received {
      UnreadHandsSegment(b, e, c);
    }
  }

  lemma SegmentsJoin(b: Broadcast, m: Broadcast, e: Broadcast, c: ClientId)
    requires HandsSegment(b, m, c) && HandsSegment(m, e, c)
    ensures HandsSegment(b, e, c)
  {
    var p, q, r := b.source.position, m.source.position, e.source.position;
    var long := e.source.stream;
    assert m.source.stream[p..q] == long[p..q];
    assert long[p..r] == long[p..q] + long[q..r];
    MediaOfConcat(long[p..q], long[q..r]);
    assert b.targets[c].received + MediaOf(long[p..q]) + MediaOf(long[q..r])
        == b.targets[c].received + (MediaOf(long[p..q]) + MediaOf(long[q..r]));
  }

  /** While a target is subscribed it receives the segment read in that time, whatever else happens. */
  lemma {:induction false} ReceivedIsSegment(b: Broadcast, steps: seq<Step>, c: ClientId)
    requires b.source.Valid() && Stays(b, steps, c)
    ensures HandsSegment(b, Run(b, steps), c)
  {
    if steps == [] {
      UnreadHandsSegment(b, b, c);
    } else {
      var init, last := steps[..|steps| - 1], steps[|steps| - 1];
      var before := Run(b, init);
      ReceivedIsSegment(b, init, c);
      StepHandsSegment(before, last, c);
      SegmentsJoin(b, before, Next(before, last), c);
    }
  }

  /** Only packets have been read, except that the last event read may be the End that finished the broadcast. */
  ghost predicate ReadsNothingPastEnd(b: Broadcast) {
    && b.source.Valid()
    && (forall i | 0 <= i < b.source.position - 1 :: b.source.stream[i].Media?)
    && (b.source.position > 0 && b.source.stream[b.source.position - 1].End? ==> b.finished)
  }

  lemma NextReadsNothingPastEnd(b: Broadcast, step: Step)
    requires ReadsNothingPastEnd(b)
    ensures ReadsNothingPastEnd(Next(b, step))
  {
  }

  /** No run reads beyond the first End. */
  lemma {:induction false} NothingPastEnd(b: Broadcast, steps: seq<Step>)
    requires ReadsNothingPastEnd(b)
    ensures ReadsNothingPastEnd(Run(b, steps))
  {
    if steps == [] {
    } else {
      var init := steps[..|steps| - 1];
      NothingPastEnd(b, init);
      NextReadsNothingPastEnd(Run(b, init), steps[|steps| - 1]);
    }
  }

  /** `e` is over if `b` was, and a target subscribed to both has received nothing in between. */
  ghost predicate Silent(b: Broadcast, e: Broadcast, c: ClientId) {
    && (b.finished ==> e.finished) && (b.shutdown ==> e.shutdown)
    && e.source.position == b.source.position
    && (c in b.targets && c in e.targets ==> e.targets[c].received == b.targets[c].received)
  }

  lemma NextIsSilent(b: Broadcast, step: Step, c: ClientId)
    requires b.source.Valid() && (b.finished || b.shutdown) && c in b.targets
    ensures Silent(b, Next(b, step), c)
    ensures b.shutdown && step.Poll? ==> Next(b, step).finished
  {
  }

  /** Once it is over, or once shutdown has been signalled, no subscribed target receives another packet. */
  lemma {:induction false} SilentOnceOver(b: Broadcast, steps: seq<Step>, c: ClientId)
    requires b.source.Valid() && (b.finished || b.shutdown) && Stays(b, steps, c)
    ensures c in b.targets && c in Run(b, steps).targets && Silent(b, Run(b, steps), c)
    ensures b.shutdown && Poll in steps ==> Run(b, steps).finished
  {
    if steps == [] {
    } else {
      var init, last := steps[..|steps| - 1], steps[|steps| - 1];
      SilentOnceOver(b, init, c);
      NextIsSilent(Run(b, init), last, c);
      assert steps == init + [last];
    }
  }

  predicate SomeRequestQueued(b: Broadcast) {
    exists c | c in b.targets :: b.targets[c].requests != []
  }

  /** How many polls of the run, before the broadcast is over, find some target asking. */
  function AskedPolls(b: Broadcast, steps: seq<Step>): nat
    requires b.source.Valid()
  {
    if steps == [] then 0
    else
      var before := Run(b, steps[..|steps| - 1]);
      var asked := steps[|steps| - 1].Poll? && !before.finished && !before.shutdown && SomeRequestQueued(before);
      AskedPolls(b, steps[..|steps| - 1]) + if asked then 1 else 0
  }

  lemma NextRequests(b: Broadcast, step: Step)
    requires b.source.Valid()
    ensures Next(b, step).pliRequests
         == b.pliRequests + if step.Poll? && !b.finished && !b.shutdown && SomeRequestQueued(b) then 1 else 0
  {
    if step.Poll? && !b.finished && !b.shutdown {
      PollTakesRequests(b);
    }
  }

  /** The source is asked for a key frame once for each such poll, however many targets asked. */
  lemma {:induction false} OneRequestPerAskedPoll(b: Broadcast, steps: seq<Step>)
    requires b.source.Valid()
    ensures Run(b, steps).pliRequests == b.pliRequests + AskedPolls(b, steps)
  {
    if steps == [] {
    } else {
      var init := steps[..|steps| - 1];
      OneRequestPerAskedPoll(b, init);
      NextRequests(Run(b, init), steps[|steps| - 1]);
    }
  }

  // ----- No request is passed on twice -----

  /** The targets that have requests queued. */
  function Asking(targets: map<ClientId, Target>): set<ClientId> {
    set c | c in targets && targets[c].requests != []
  }

  /** How many times the run has a target ask: by a request, or by arriving with requests. */
  function Asks(steps: seq<Step>): nat {
    if steps == [] then 0
    else
      var last := steps[|steps| - 1];
      Asks(steps[..|steps| - 1])
      + if last.Request? || (last.Subscribe? && last.target.requests != []) then 1 else 0
  }

  lemma PollLeavesNobodyAsking(b: Broadcast)
    requires b.source.Valid() && !b.finished && !b.shutdown
    ensures |Asking(Polled(b).targets)| == 0
    ensures SomeRequestQueued(b) ==> |Asking(b.targets)| >= 1
  {
    PollTakesRequests(b);
    assert Asking(Polled(b).targets) == {};
    if c :| c in b.targets && b.targets[c].requests != [] {
      assert c in Asking(b.targets);
    }
  }

  lemma {:induction false} FewerAsk(a: set<ClientId>, b: set<ClientId>)
    requires a <= b
    ensures |a| <= |b|
  {
    if a == {} {
    } else {
      var c :| c in a;
      FewerAsk(a - {c}, b - {c});
    }
  }

  /** Only a request or an arrival makes one more target ask. */
  lemma OneMoreAsks(b: Broadcast, step: Step)
    requires b.source.Valid() && !step.Poll?
    ensures |Asking(Next(b, step).targets)|
         <= |Asking(b.targets)| + if step.Request? || (step.Subscribe? && step.target.requests != []) then 1 else 0
  {
    var before, after := Asking(b.targets), Asking(Next(b, step).targets);
    if step.Request? || (step.Subscribe? && step.target.requests != []) {
      FewerAsk(after, before + {step.clientId});
    } else {
      FewerAsk(after, before);
    }
  }

  /**
   However often the broadcast is polled, the source is asked at most once for each time a target asked,
   counting the targets that were asking to begin with.
   */
  lemma {:induction false} RequestsAreNotRepeated(b: Broadcast, steps: seq<Step>)
    requires b.source.Valid()
    ensures AskedPolls(b, steps) + |Asking(Run(b, steps).targets)| <= |Asking(b.targets)| + Asks(steps)
  {
    if steps == [] {
    } else {
      var init, last := steps[..|steps| - 1], steps[|steps| - 1];
      var before := Run(b, init);
      RequestsAreNotRepeated(b, init);
      if !last.Poll? {
        OneMoreAsks(before, last);
      } else if !before.finished && !before.shutdown {
        PollLeavesNobodyAsking(before);
      } else {
        FinishedIsNotPolled(before);
      }
    }
  }

  lemma FinishedIsNotPolled(b: Broadcast)
    requires b.source.Valid() && (b.finished || b.shutdown)
    ensures Next(b, Poll).targets == b.targets
  {
  }
}

/** How a client's outgoing tracks are handed to broadcast targets and used again once those are dropped. */
module SendingTracks {
  import opened Wrappers

  type TargetId = nat

  // ----- The tracks as values -----

  /** For each track the target whose event handler it holds, if any. */
  type Handlers = seq<Option<TargetId>>

  function FirstFree(tracks: Handlers): Option<nat> {
    if tracks == [] then None
    else if tracks[0].None? then Some(0)
    else match FirstFree(tracks[1..])
         case None => None
         case Some(i) => Some(i + 1)
  }

  lemma {:induction false} FirstFreeFinds(tracks: Handlers)
    ensures match FirstFree(tracks)
            case Some(i) => i < |tracks| && tracks[i].None? && forall j | 0 <= j < i :: tracks[j].Some?
            case None => forall j | 0 <= j < |tracks| :: tracks[j].Some?
  {
    if tracks == [] {
    } else {
      FirstFreeFinds(tracks[1..]);
    }
  }

  /**
   `targets` maps every live target to its track; `creating` is the target for which a new track is
   being added to the peer connection, which other tasks can overtake.
   */
  datatype State = State(tracks: Handlers, targets: map<TargetId, nat>, creating: Option<TargetId>)

  const EMPTY := State([], map[], None)

  /** Looks for a free track; without one, starts to create another. */
  function Begin(s: State, target: TargetId): State {
    FirstFreeFinds(s.tracks);
    match FirstFree(s.tracks)
    case Some(i) => s.(tracks := s.tracks[i := Some(target)], targets := s.targets[target := i])
    case None => s.(creating := Some(target))
  }

  function Complete(s: State): State {
    match s.creating
    case None => s
    case Some(target) => State(s.tracks + [Some(target)], s.targets[target := |s.tracks|], None)
  }

  /** Dropping a target takes the event handler of its track, whatever that is. */
  function Drop(s: State, target: TargetId): State {
    if target !in s.targets then s
    else
      var i := s.targets[target];
      s.(tracks := if i < |s.tracks| then s.tracks[i := None] else s.tracks, targets := s.targets - {target})
  }

  datatype Step = BeginStep(target: TargetId) | CompleteStep | DropStep(target: TargetId)

  /** Targets are new objects, and the client's lock admits one creation at a time. */
  predicate Possible(s: State, step: Step) {
    step.BeginStep? ==> s.creating.None? && step.target !in s.targets
  }

  function Next(s: State, step: Step): State {
    match step
    case BeginStep(target) => Begin(s, target)
    case CompleteStep => Complete(s)
    case DropStep(target) => Drop(s, target)
  }

  function Run(steps: seq<Step>): State {
    if steps == [] then EMPTY
    else
      var before, step := Run(steps[..|steps| - 1]), steps[|steps| - 1];
      if Possible(before, step) then Next(before, step) else before
  }

  // ----- Each handler belongs to exactly one live target -----

  ghost predicate OneToOne(tracks: Handlers, targets: map<TargetId, nat>) {
    && (forall t | t in targets :: targets[t] < |tracks| && tracks[targets[t]] == Some(t))
    && (forall i | 0 <= i < |tracks| && tracks[i].Some? :: tracks[i].value in targets && targets[tracks[i].value] == i)
  }

  ghost predicate Exclusive(s: State) {
    OneToOne(s.tracks, s.targets) && (s.creating.Some? ==> s.creating.value !in s.targets)
  }

  lemma NextKeepsExclusive(s: State, step: Step)
    requires Exclusive(s) && Possible(s, step)
    ensures Exclusive(Next(s, step))
  {
    FirstFreeFinds(s.tracks);
  }

  /** In every reachable state tracks with a handler and live targets correspond one to one. */
  lemma {:induction false} TracksAreExclusive(steps: seq<Step>)
    ensures Exclusive(Run(steps))
  {
    if steps == [] {
    } else {
      var before := steps[..|steps| - 1];
      TracksAreExclusive(before);
      if Possible(Run(before), steps[|steps| - 1]) {
        NextKeepsExclusive(Run(before), steps[|steps| - 1]);
      }
    }
  }

  // ----- No more tracks than were ever needed at once -----

  function Max(a: nat, b: nat): nat {
    if a >= b then a else b
  }

  /** The targets alive or being created. */
  function Demand(s: State): nat {
    |s.targets| + if s.creating.Some? then 1 else 0
  }

  /** The greatest demand the run has seen. */
  function PeakDemand(steps: seq<Step>): nat {
    if steps == [] then 0 else Max(PeakDemand(steps[..|steps| - 1]), Demand(Run(steps)))
  }

  function HeldCount(tracks: Handlers): nat {
    if tracks == [] then 0 else HeldCount(tracks[..|tracks| - 1]) + if tracks[|tracks| - 1].Some? then 1 else 0
  }

  lemma {:induction false} HeldCountBound(tracks: Handlers)
    ensures HeldCount(tracks) <= |tracks|
    ensures HeldCount(tracks) == |tracks| <==> forall i | 0 <= i < |tracks| :: tracks[i].Some?
  {
    if tracks == [] {
    } else {
      var init := tracks[..|tracks| - 1];
      HeldCountBound(init);
      assert forall i | 0 <= i < |init| :: init[i] == tracks[i];
    }
  }

  lemma LastTrackReleased(tracks: Handlers, targets: map<TargetId, nat>, t: TargetId)
    requires OneToOne(tracks, targets) && tracks != [] && tracks[|tracks| - 1] == Some(t)
    ensures OneToOne(tracks[..|tracks| - 1], targets - {t}) && |targets| == |targets - {t}| + 1
  {
    var init, rest := tracks[..|tracks| - 1], targets - {t};
    assert targets.Keys == rest.Keys + {t};
    forall u | u in rest
      ensures rest[u] < |init| && init[rest[u]] == Some(u)
    {
      assert tracks[targets[u]] == Some(u);
    }
  }

  lemma NoTracksNoTargets(targets: map<TargetId, nat>)
    requires OneToOne([], targets)
    ensures |targets| == 0
  {
    assert targets.Keys == {};
  }

  lemma FreeTrackSkipped(tracks: Handlers, targets: map<TargetId, nat>)
    requires OneToOne(tracks, targets) && tracks != [] && tracks[|tracks| - 1] == None
    ensures OneToOne(tracks[..|tracks| - 1], targets)
  {
  }

  lemma {:induction false} HeldCountIsTargets(tracks: Handlers, targets: map<TargetId, nat>)
    requires OneToOne(tracks, targets)
    ensures HeldCount(tracks) == |targets|
    decreases |tracks|
  {
    if tracks == [] {
      NoTracksNoTargets(targets);
    } else {
      var init, last := tracks[..|tracks| - 1], tracks[|tracks| - 1];
      if last.Some? {
        LastTrackReleased(tracks, targets, last.value);
        HeldCountIsTargets(init, targets - {last.value});
      } else {
        FreeTrackSkipped(tracks, targets);
        HeldCountIsTargets(init, targets);
      }
    }
  }

  /** Live targets never outnumber tracks, and equal them exactly when no track is free. */
  lemma TracksCoverTargets(s: State)
    requires Exclusive(s)
    ensures |s.targets| <= |s.tracks|
    ensures |s.targets| == |s.tracks| <==> FirstFree(s.tracks).None?
  {
    HeldCountIsTargets(s.tracks, s.targets);
    HeldCountBound(s.tracks);
    FirstFreeFinds(s.tracks);
  }

  /**
   The number of tracks, with the one being created, is the greatest number of targets that were
   ever alive or being created at once.
   */
  lemma {:induction false} TracksEqualPeakDemand(steps: seq<Step>)
    ensures var s := Run(steps); |s.tracks| + (if s.creating.Some? then 1 else 0) == PeakDemand(steps)
  {
    if steps == [] {
    } else {
      var init, step := steps[..|steps| - 1], steps[|steps| - 1];
      var before, after := Run(init), Run(steps);
      TracksEqualPeakDemand(init);
      TracksAreExclusive(init);
      TracksCoverTargets(before);
      TracksAreExclusive(steps);
      TracksCoverTargets(after);
      if Possible(before, step) && step.BeginStep? {
        FirstFreeFinds(before.tracks);
        assert after == Begin(before, step.target);
        assert after.creating.Some? ==> after == before.(creating := after.creating);
      }
    }
  }

  /** A second target is being created when the first is dropped. */
  const OVERLAP: seq<Step> := [BeginStep(0), CompleteStep, BeginStep(1), DropStep(0), CompleteStep]

  lemma OverlapRuns()
    ensures Run(OVERLAP[..1]) == State([], map[], Some(0))
    ensures Run(OVERLAP[..2]) == State([Some(0)], map[0 := 0], None)
    ensures Run(OVERLAP[..3]) == State([Some(0)], map[0 := 0], Some(1))
    ensures Run(OVERLAP[..4]) == State([None], map[], Some(1))
    ensures Run(OVERLAP[..5]) == State([None, Some(1)], map[1 := 1], None)
  {
    assert OVERLAP[..1][..0] == [] && OVERLAP[..2][..1] == OVERLAP[..1] && OVERLAP[..3][..2] == OVERLAP[..2];
    assert OVERLAP[..4][..3] == OVERLAP[..3] && OVERLAP[..5][..4] == OVERLAP[..4];
  }

  /** Targets being created must be counted: here two tracks exist though no two targets were ever alive together. */
  lemma CreationCountsAsDemand()
    ensures |Run(OVERLAP).tracks| == 2 && forall n | 0 <= n <= |OVERLAP| :: |Run(OVERLAP[..n]).targets| <= 1
  {
    OverlapRuns();
    assert OVERLAP[..0] == [] && OVERLAP[..5] == OVERLAP;
    forall n | 0 <= n <= |OVERLAP|
      ensures |Run(OVERLAP[..n]).targets| <= 1
    {
      assert n == 0 || n == 1 || n == 2 || n == 3 || n == 4 || n == 5;
    }
  }

  // ----- The tracks as objects -----

  class RegisteredSendingTrack {
    var eventHandler: Option<TargetId>

    constructor ()
      ensures eventHandler == None
    {
      eventHandler := None;
    }
  }

  class ClientBroadcastTarget {
    const id: TargetId
    const track: RegisteredSendingTrack

    constructor (id: TargetId, track: RegisteredSendingTrack)
      ensures this.id == id && this.track == track
    {
      this.id := id;
      this.track := track;
    }

    method Drop()
      modifies track
      ensures track.eventHandler == None
    {
      track.eventHandler := None;
    }
  }

  class RtpClient {
    var sendingTracks: seq<RegisteredSendingTrack>

    ghost predicate Valid()
      reads this
    {
      forall i, j | 0 <= i < j < |sendingTracks| :: sendingTracks[i] != sendingTracks[j]
    }

    ghost function EventHandlers(): Handlers
      reads this, sendingTracks
    {
      seq(|sendingTracks|,
          i requires 0 <= i < |sendingTracks| reads this, sendingTracks => sendingTracks[i].eventHandler)
    }

    /** Takes the first track without an event handler, if there is one. */
    method TakeFreeTrack(id: TargetId) returns (target: ClientBroadcastTarget?)
      requires Valid()
      modifies sendingTracks
      ensures match FirstFree(old(EventHandlers()))
              case Some(i) => && i < |sendingTracks| && target != null && fresh(target)
                              && target.id == id && target.track == sendingTracks[i]
                              && EventHandlers() == old(EventHandlers())[i := Some(id)]
              case None => target == null && EventHandlers() == old(EventHandlers())
    {
      FirstFreeFinds(EventHandlers());
      var index := 0;
      while index < |sendingTracks| && sendingTracks[index].eventHandler.Some?
        invariant index <= |sendingTracks|
        invariant forall i | 0 <= i < index :: sendingTracks[i].eventHandler.Some?
      {
        index := index + 1;
      }
      if index == |sendingTracks| {
        assert forall i | 0 <= i < |sendingTracks| :: EventHandlers()[i].Some?;
        return null;
      }
      assert EventHandlers()[index].None?;
      target := new ClientBroadcastTarget(id, sendingTracks[index]);
      sendingTracks[index].eventHandler := Some(id);
    }

    /** Adds a track once the peer connection has it, whatever has been dropped meanwhile. */
    method TakeNewTrack(id: TargetId) returns (target: ClientBroadcastTarget)
      requires Valid()
      modifies this
      ensures Valid() && fresh(target) && fresh(target.track) && target.id == id
      ensures sendingTracks == old(sendingTracks) + [target.track]
      ensures EventHandlers() == old(EventHandlers()) + [Some(id)]
    {
      var track := new RegisteredSendingTrack();
      sendingTracks := sendingTracks + [track];
      target := new ClientBroadcastTarget(id, track);
      track.eventHandler := Some(id);
    }

    /** The two in one, when nothing is dropped between them. */
    method CreateBroadcastTarget(id: TargetId) returns (target: ClientBroadcastTarget)
      requires Valid()
      modifies this, sendingTracks
      ensures Valid() && fresh(target) && target.id == id
      ensures match FirstFree(old(EventHandlers()))
              case Some(i) => && sendingTracks == old(sendingTracks)
                              && i < |sendingTracks| && target.track == sendingTracks[i]
                              && EventHandlers() == old(EventHandlers())[i := Some(id)]
              case None => fresh(target.track) && sendingTracks == old(sendingTracks) + [target.track]
                           && EventHandlers() == old(EventHandlers()) + [Some(id)]
    {
      var free := TakeFreeTrack(id);
      if free != null {
        return free;
      }
      target := TakeNewTrack(id);
    }
  }
}

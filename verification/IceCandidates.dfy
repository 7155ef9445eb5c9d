/** The browser's local ICE candidates: cached until a signalling connection is attached, then sent on. */
module IceCandidates {
  import opened Wrappers

  /** A property of a browser object: missing, present but null, or present with a value. */
  datatype Property<T> = Missing | Null | Present(value: T)

  datatype Gathered = Gathered(candidate: string, sdpMLineIndex: Property<int>, sdpMid: Property<string>,
                               usernameFragment: Property<string>)

  datatype IceCandidate = IceCandidate(candidate: string, ufrag: string)

  const PREFIX: string := "candidate:"

  /** Candidates are kept for the first media section only. */
  predicate Accepted(g: Gathered) {
    g.candidate != "" && g.sdpMLineIndex in {Missing, Present(0)} && g.sdpMid in {Missing, Present("0")}
  }

  function Signalled(g: Gathered): IceCandidate {
    IceCandidate(
      if PREFIX <= g.candidate then g.candidate[|PREFIX|..] else g.candidate,
      if g.usernameFragment.Present? then g.usernameFragment.value else "")
  }

  datatype Event =
    | IceCandidateEvent(gathered: Option<Gathered>)
    | ApplySignalingConnection
    | ApplyRemoteIceCandidate(remote: Option<IceCandidate>)

  /** The candidates the filter accepts, in gathering order. */
  function Candidates(events: seq<Event>): seq<IceCandidate> {
    if events == [] then []
    else
      var init, last := Candidates(events[..|events| - 1]), events[|events| - 1];
      if last.IceCandidateEvent? && last.gathered.Some? && Accepted(last.gathered.value)
      then init + [Signalled(last.gathered.value)] else init
  }

  /**
   A gathered candidate counts if it has text and names no media section but the first, which is line 0
   or media id "0"; a property that is there but null names one. Its text loses a leading "candidate:",
   and a missing user name fragment becomes empty.
   */
  lemma OneMoreGathered(events: seq<Event>, g: Gathered)
    ensures Candidates(events + [IceCandidateEvent(Some(g))])
         == Candidates(events)
            + if && g.candidate != "" && (g.sdpMLineIndex == Missing || g.sdpMLineIndex == Present(0))
                 && (g.sdpMid == Missing || g.sdpMid == Present("0"))
              then [IceCandidate(WithoutLeading(g.candidate),
                                 match g.usernameFragment case Present(ufrag) => ufrag case _ => "")]
              else []
  {
    assert (events + [IceCandidateEvent(Some(g))])[..|events|] == events;
    assert "candidate:" <= g.candidate <==> |g.candidate| >= 10 && g.candidate[..10] == "candidate:";
  }

  function WithoutLeading(text: string): string {
    if |text| >= 10 && text[..10] == "candidate:" then text[10..] else text
  }

  /** Nothing else that happens gathers a candidate. */
  lemma NothingElseGathered(events: seq<Event>, event: Event)
    requires event.IceCandidateEvent? ==> event.gathered == None
    ensures Candidates(events + [event]) == Candidates(events)
  {
    assert (events + [event])[..|events|] == events;
  }

  class RtcConnection {
    var attached: bool
    var localFinished: bool
    var remoteFinished: bool
    var cachedLocal: seq<IceCandidate>
    var cachedRemote: seq<IceCandidate>

    /** The candidate lists handed to the signalling connection, in the order of the calls. */
    var signals: seq<seq<IceCandidate>>

    constructor ()
      ensures !attached && cachedLocal == [] && signals == []
    {
      attached, localFinished, remoteFinished := false, false, false;
      cachedLocal, cachedRemote, signals := [], [], [];
    }

    /** Everything sent or waiting to be sent. */
    function Seen(): seq<IceCandidate>
      reads this
    {
      Flatten(signals) + cachedLocal
    }

    ghost predicate Valid()
      reads this
    {
      if attached then cachedLocal == [] else signals == []
    }

    method OnIceCandidate(gathered: Option<Gathered>)
      requires Valid()
      modifies this
      ensures Valid() && attached == old(attached)
      ensures Seen()
           == old(Seen()) + if gathered.Some? && Accepted(gathered.value) then [Signalled(gathered.value)] else []
    {
      if gathered.None? || gathered.value.candidate == "" {
        OnLocalIceFinished();
        return;
      }
      var g := gathered.value;
      if (g.sdpMLineIndex != Missing && g.sdpMLineIndex != Present(0))
        || (g.sdpMid != Missing && g.sdpMid != Present("0")) {
        return;
      }
      if attached {
        SignalIceCandidates([Signalled(g)]);
      } else {
        cachedLocal := cachedLocal + [Signalled(g)];
      }
    }

    method OnLocalIceFinished()
      modifies this`localFinished, this`signals
      ensures Flatten(signals) == Flatten(old(signals))
      ensures !attached ==> signals == old(signals)
    {
      if localFinished {
        return;
      }
      localFinished := true;
      if attached {
        SignalIceCandidates([]);
      }
    }

    method SignalIceCandidates(candidates: seq<IceCandidate>)
      modifies this`signals
      ensures signals == old(signals) + [candidates]
      ensures Flatten(signals) == Flatten(old(signals)) + candidates
    {
      signals := signals + [candidates];
      assert signals[..|signals| - 1] == old(signals);
    }

    /** Attaches the signalling connection and sends what has been cached. */
    method ApplySignaling()
      requires Valid()
      modifies this
      ensures Valid() && attached && Seen() == old(Seen())
    {
      attached := true;
      if |cachedLocal| > 0 || remoteFinished {
        var candidates := cachedLocal;
        cachedLocal := [];
        SignalIceCandidates(candidates);
      }
    }

    method ApplyRemote(candidate: Option<IceCandidate>)
      requires Valid()
      modifies this`cachedRemote, this`remoteFinished
      ensures Valid() && Seen() == old(Seen())
    {
      if !attached {
        match candidate
        case Some(c) => cachedRemote := cachedRemote + [c];
        case None => remoteFinished := true;
      }
    }
  }

  function Flatten(lists: seq<seq<IceCandidate>>): seq<IceCandidate> {
    if lists == [] then [] else Flatten(lists[..|lists| - 1]) + lists[|lists| - 1]
  }

  /** After the first `i` events these are all the candidates, and this is whether a connection is attached. */
  ghost predicate SoFar(events: seq<Event>, i: nat, seen: seq<IceCandidate>, attached: bool) {
    i <= |events| && seen == Candidates(events[..i]) && (attached <==> ApplySignalingConnection in events[..i])
  }

  lemma OneMoreEvent(events: seq<Event>, i: nat, seen: seq<IceCandidate>, attached: bool)
    requires SoFar(events, i, seen, attached) && i < |events|
    ensures var event := events[i];
            SoFar(events, i + 1,
                  seen + (if event.IceCandidateEvent? && event.gathered.Some? && Accepted(event.gathered.value)
                          then [Signalled(event.gathered.value)] else []),
                  attached || event == ApplySignalingConnection)
  {
    assert events[..i + 1][..i] == events[..i];
  }

  lemma AllEvents(events: seq<Event>, seen: seq<IceCandidate>, attached: bool)
    requires SoFar(events, |events|, seen, attached)
    ensures seen == Candidates(events) && (attached <==> ApplySignalingConnection in events)
  {
    assert events[..|events|] == events;
  }

  method Handle(connection: RtcConnection, event: Event)
    requires connection.Valid()
    modifies connection
    ensures connection.Valid()
    ensures connection.attached <==> old(connection.attached) || event == ApplySignalingConnection
    ensures connection.Seen()
         == old(connection.Seen())
            + if event.IceCandidateEvent? && event.gathered.Some? && Accepted(event.gathered.value)
              then [Signalled(event.gathered.value)] else []
  {
    match event
    case IceCandidateEvent(gathered) => connection.OnIceCandidate(gathered);
    case ApplySignalingConnection => connection.ApplySignaling();
    case ApplyRemoteIceCandidate(candidate) => connection.ApplyRemote(candidate);
  }

  /**
   Whatever the order of events, every accepted candidate is either waiting for the connection or has
   been signalled exactly once, in gathering order; once attached, none is waiting.
   */
  method Run(events: seq<Event>) returns (connection: RtcConnection)
    ensures Flatten(connection.signals) + connection.cachedLocal == Candidates(events)
    ensures connection.attached <==> ApplySignalingConnection in events
    ensures if ApplySignalingConnection in events then Flatten(connection.signals) == Candidates(events)
            else connection.cachedLocal == Candidates(events) && Flatten(connection.signals) == []
  {
    connection := new RtcConnection();
    for i := 0 to |events|
      invariant fresh(connection) && connection.Valid()
      invariant SoFar(events, i, connection.Seen(), connection.attached)
    {
      OneMoreEvent(events, i, connection.Seen(), connection.attached);
      Handle(connection, events[i]);
    }
    AllEvents(events, connection.Seen(), connection.attached);
  }
}

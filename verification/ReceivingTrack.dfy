/** Which handler an incoming track feeds, as broadcast sources on it are created and dropped. */
module ReceivingTracks {

  /** A handler is compared by identity; it belongs to one broadcast source. */
  class ReceivingTrackHandler {
    constructor () {
    }
  }

  type Handler = ReceivingTrackHandler

  // ----- The track as a value -----

  /** The installed handler, and the handlers that were told they are unmounted, in that order. */
  datatype Slot = Slot(handler: ReceivingTrackHandler?, unmounts: seq<Handler>)

  function Update(slot: Slot, handler: ReceivingTrackHandler?): Slot {
    Slot(handler, if slot.handler == null then slot.unmounts else slot.unmounts + [slot.handler])
  }

  function Remove(slot: Slot, handler: Handler): Slot {
    if slot.handler == handler then Slot(null, slot.unmounts + [handler]) else slot
  }

  /** `created` are the handlers of all sources ever created on the track, `alive` those whose source still exists. */
  datatype Track = Track(slot: Slot, created: seq<Handler>, alive: set<Handler>)

  const EMPTY := Track(Slot(null, []), [], {})

  datatype Step = CreateSource(handler: Handler) | DropSource(handler: Handler)

  /** A new source brings a new handler, and only a living source can be dropped. */
  predicate Possible(t: Track, step: Step) {
    match step
    case CreateSource(h) => h !in t.created
    case DropSource(h) => h in t.alive
  }

  function Next(t: Track, step: Step): Track {
    match step
    case CreateSource(h) => Track(Update(t.slot, h), t.created + [h], t.alive + {h})
    case DropSource(h) => t.(slot := Remove(t.slot, h), alive := t.alive - {h})
  }

  function Run(steps: seq<Step>): Track {
    if steps == [] then EMPTY
    else
      var before, step := Run(steps[..|steps| - 1]), steps[|steps| - 1];
      if Possible(before, step) then Next(before, step) else before
  }

  // ----- Properties of every run -----

  /** The handler of the newest source if that source is alive, otherwise none. */
  ghost predicate NewestLivingHandler(t: Track) {
    t.slot.handler
    == if t.created != [] && t.created[|t.created| - 1] in t.alive then t.created[|t.created| - 1] else null
  }

  /** Every handler ever created is either the current one or has been unmounted exactly once. */
  ghost predicate UnmountedOnce(t: Track) {
    && (forall h: Handler :: h in t.created ==> multiset(t.slot.unmounts)[h] == if h == t.slot.handler then 0 else 1)
    && (forall h: Handler :: h in t.slot.unmounts ==> h in t.created)
    && (t.slot.handler != null ==> t.slot.handler in t.created)
    && (forall h: Handler :: h in t.alive ==> h in t.created)
    && (forall i, j | 0 <= i < j < |t.created| :: t.created[i] != t.created[j])
  }

  /** The handlers were unmounted in the order they were created, all but the current one. */
  ghost predicate UnmountedInOrder(t: Track) {
    t.created == t.slot.unmounts + if t.slot.handler == null then [] else [t.slot.handler]
  }

  lemma NextKeepsOrder(t: Track, step: Step)
    requires NewestLivingHandler(t) && UnmountedOnce(t) && UnmountedInOrder(t) && Possible(t, step)
    ensures NewestLivingHandler(Next(t, step)) && UnmountedOnce(Next(t, step)) && UnmountedInOrder(Next(t, step))
  {
  }

  lemma {:induction false} HandlersAreReplacedInOrder(steps: seq<Step>)
    ensures NewestLivingHandler(Run(steps)) && UnmountedOnce(Run(steps)) && UnmountedInOrder(Run(steps))
  {
    if steps == [] {
    } else {
      var before := steps[..|steps| - 1];
      HandlersAreReplacedInOrder(before);
      if Possible(Run(before), steps[|steps| - 1]) {
        NextKeepsOrder(Run(before), steps[|steps| - 1]);
      }
    }
  }

  /** Dropping an old source, however late, leaves the handler of a newer one in place and unmounts nothing. */
  lemma LateDropIsHarmless(steps: seq<Step>, h: Handler)
    requires var t := Run(steps); h in t.alive && t.created != [] && h != t.created[|t.created| - 1]
    ensures var t, t' := Run(steps), Run(steps + [DropSource(h)]);
            t'.slot.handler == t.slot.handler && t'.slot.unmounts == t.slot.unmounts
              && multiset(t'.slot.unmounts)[h] == 1
  {
    HandlersAreReplacedInOrder(steps);
    assert (steps + [DropSource(h)])[..|steps|] == steps;
  }

  // ----- The track as an object -----

  class RegisteredReceivingTrack {
    var handler: ReceivingTrackHandler?
    var unmounts: seq<Handler>

    constructor ()
      ensures handler == null && unmounts == []
    {
      handler, unmounts := null, [];
    }

    function Value(): Slot
      reads this
    {
      Slot(handler, unmounts)
    }

    method Unmount(h: Handler)
      modifies this`unmounts
      ensures unmounts == old(unmounts) + [h]
    {
      unmounts := unmounts + [h];
    }

    method UpdateHandler(newHandler: ReceivingTrackHandler?)
      modifies this
      ensures Value() == Update(old(Value()), newHandler)
    {
      var oldHandler := handler;
      handler := null;
      if oldHandler != null {
        Unmount(oldHandler);
      }
      handler := newHandler;
    }

    method RemoveHandler(h: Handler)
      modifies this
      ensures Value() == Remove(old(Value()), h)
    {
      if handler == h {
        handler := null;
        Unmount(h);
      }
    }
  }
}

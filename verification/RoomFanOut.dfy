/**
 Every broadcast of a room runs as a broadcast on its own does, so what holds of its subscribers holds in
 the room.
 */
module RoomFanOut {
  import opened Broadcasting
  import FanOut
  import opened Messages
  import opened RoomInvariants
  import opened RoomState

  /** The broadcast is the one the room has under this id. */
  predicate IsAt(s: State, id: BroadcastId, h: Handle) {
    id in s.broadcasts && s.broadcasts[id] == h
  }

  /** What a step of the room does to one of its broadcasts. */
  function Effect(s: State, step: Step, h: Handle): seq<FanOut.Step>
    requires h in s.tasks
  {
    match step
    case RemoveClientStep(c) => if c in s.clients && s.tasks[h].id in ListOf(s, c) then [FanOut.Shutdown] else []
    case StopStep(c, id) => if IsAt(s, id, h) && id in ListOf(s, c) then [FanOut.Shutdown] else []
    case SubscribeStep(c, id, target) => if IsAt(s, id, h) then [FanOut.Subscribe(c, target)] else []
    case UnsubscribeStep(c, id) => if IsAt(s, id, h) then [FanOut.Unsubscribe(c)] else []
    case PollStep(handle) => if handle == h then [FanOut.Poll] else []
    case TrafficStep(handle, event) => if handle == h then [event] else []
    case _ => []
  }

  lemma RunAtMostOne(b: Broadcast, effect: seq<FanOut.Step>)
    requires b.source.Valid() && |effect| <= 1
    ensures FanOut.Run(b, effect) == if effect == [] then b else FanOut.Next(b, effect[0])
  {
  }

  /** If the broadcast is still there after the step, the step's effect on it is all that has happened to it. */
  ghost predicate TakesEffect(s: State, step: Step, h: Handle)
    requires h in s.tasks && s.tasks[h].source.Valid()
  {
    h in Next(s, step).tasks ==> Next(s, step).tasks[h] == FanOut.Run(s.tasks[h], Effect(s, step, h))
  }

  lemma LeavingTakesEffect(s: State, step: Step, h: Handle)
    requires step.RemoveClientStep? && Valid(s) && h in s.tasks
    ensures TakesEffect(s, step, h)
  {
    RunAtMostOne(s.tasks[h], Effect(s, step, h));
    if step.client in s.clients {
      RemoveClientMeaning(s, step.client);
    }
  }

  lemma StartTakesEffect(s: State, step: Step, h: Handle)
    requires step.StartStep? && Valid(s) && Possible(s, step) && h in s.tasks
    ensures TakesEffect(s, step, h)
  {
    RunAtMostOne(s.tasks[h], Effect(s, step, h));
    StartKeepsTasks(s, step.client, step.name, step.kind, step.source, step.draws, step.handle);
  }

  lemma StopTakesEffect(s: State, step: Step, h: Handle)
    requires step.StopStep? && Valid(s) && h in s.tasks
    ensures TakesEffect(s, step, h)
  {
    RunAtMostOne(s.tasks[h], Effect(s, step, h));
  }

  lemma SubscribeTakesEffect(s: State, step: Step, h: Handle)
    requires (step.SubscribeStep? || step.UnsubscribeStep?) && Valid(s) && h in s.tasks
    ensures TakesEffect(s, step, h)
  {
    RunAtMostOne(s.tasks[h], Effect(s, step, h));
  }

  lemma PollTakesEffect(s: State, step: Step, h: Handle)
    requires (step.PollStep? || step.TrafficStep?) && Valid(s) && h in s.tasks
    ensures TakesEffect(s, step, h)
  {
    RunAtMostOne(s.tasks[h], Effect(s, step, h));
  }

  lemma OthersTakeNoEffect(s: State, step: Step, h: Handle)
    requires (step.AddClientStep? || step.FinaliseStep?) && Valid(s) && h in s.tasks
    ensures TakesEffect(s, step, h)
  {
    RunAtMostOne(s.tasks[h], []);
  }

  /** A step of the room changes each broadcast by its effect on it, and by nothing else. */
  lemma StepTakesEffect(s: State, step: Step, h: Handle)
    requires Valid(s) && Possible(s, step) && h in s.tasks
    ensures TakesEffect(s, step, h)
  {
    match step
    case RemoveClientStep(_) => LeavingTakesEffect(s, step, h);
    case StartStep(_, _, _, _, _, _) => StartTakesEffect(s, step, h);
    case StopStep(_, _) => StopTakesEffect(s, step, h);
    case SubscribeStep(_, _, _) => SubscribeTakesEffect(s, step, h);
    case UnsubscribeStep(_, _) => SubscribeTakesEffect(s, step, h);
    case PollStep(_) => PollTakesEffect(s, step, h);
    case TrafficStep(_, _) => PollTakesEffect(s, step, h);
    case AddClientStep(_, _) => OthersTakeNoEffect(s, step, h);
    case FinaliseStep(_) => OthersTakeNoEffect(s, step, h);
  }

  // ----- Runs -----

  /** The steps `history` lead the broadcast from `b` to `e`. */
  ghost predicate Became(b: Broadcast, history: seq<FanOut.Step>, e: Broadcast) {
    b.source.Valid() && e.source.Valid() && FanOut.Run(b, history) == e
  }

  lemma BecameMore(b: Broadcast, history: seq<FanOut.Step>, m: Broadcast, effect: seq<FanOut.Step>, e: Broadcast)
    requires Became(b, history, m) && Became(m, effect, e) && |effect| <= 1
    ensures Became(b, history + effect, e)
  {
    RunAtMostOne(m, effect);
    if effect == [] {
      assert history + effect == history;
    } else {
      assert (history + effect)[..|history|] == history;
    }
  }

  /** The effect of a step, which is none if the step is not possible. */
  function EffectIfPossible(s: State, step: Step, h: Handle): (effect: seq<FanOut.Step>)
    ensures |effect| <= 1
  {
    if h in s.tasks && Possible(s, step) then Effect(s, step, h) else []
  }

  /** What the steps `more`, taken after `steps`, do to the broadcast. */
  function History(steps: seq<Step>, more: seq<Step>, h: Handle): seq<FanOut.Step> {
    if more == [] then []
    else
      var init := more[..|more| - 1];
      History(steps, init, h) + EffectIfPossible(Run(EMPTY, steps + init), more[|more| - 1], h)
  }

  lemma BecomesByStep(steps: seq<Step>, step: Step, h: Handle)
    requires h in Run(EMPTY, steps).tasks && h in Run(EMPTY, steps + [step]).tasks
    ensures var s, e := Run(EMPTY, steps), Run(EMPTY, steps + [step]);
            Became(s.tasks[h], EffectIfPossible(s, step, h), e.tasks[h])
  {
    var s := Run(EMPTY, steps);
    RunIsValid(steps);
    assert (steps + [step])[..|steps|] == steps;
    if Possible(s, step) {
      StepTakesEffect(s, step, h);
    } else {
      RunAtMostOne(s.tasks[h], []);
    }
  }

  /** Over any stretch of a run a broadcast of the room goes through the run its history describes. */
  lemma {:induction false} RunTakesEffect(steps: seq<Step>, more: seq<Step>, h: Handle)
    requires h in Run(EMPTY, steps).tasks && h in Run(EMPTY, steps + more).tasks
    ensures Became(Run(EMPTY, steps).tasks[h], History(steps, more, h), Run(EMPTY, steps + more).tasks[h])
    decreases more
  {
    var s, e := Run(EMPTY, steps), Run(EMPTY, steps + more);
    if more == [] {
      RunIsValid(steps);
      assert steps + more == steps;
      RunAtMostOne(s.tasks[h], []);
    } else {
      var init, step := more[..|more| - 1], more[|more| - 1];
      var before := Run(EMPTY, steps + init);
      assert steps + more == steps + init + [step];
      StaysBetween(steps, init, step, h);
      RunTakesEffect(steps, init, h);
      BecomesByStep(steps + init, step, h);
      BecameMore(s.tasks[h], History(steps, init, h), before.tasks[h], EffectIfPossible(before, step, h), e.tasks[h]);
    }
  }

  /** A broadcast that is there before and after some steps was there all along. */
  lemma StaysBetween(steps: seq<Step>, init: seq<Step>, step: Step, h: Handle)
    requires h in Run(EMPTY, steps).tasks && h in Run(EMPTY, steps + init + [step]).tasks
    ensures h in Run(EMPTY, steps + init).tasks
  {
    RetiresOnce(steps, init, h);
    RetiresOnce(steps + init, [step], h);
  }

  /** In a room, too, a subscribed target receives exactly the segment that is read in the meantime. */
  lemma SubscriberReceivesSegment(steps: seq<Step>, more: seq<Step>, h: Handle, c: ClientId)
    requires h in Run(EMPTY, steps).tasks && h in Run(EMPTY, steps + more).tasks
    requires Run(EMPTY, steps).tasks[h].source.Valid()
             && FanOut.Stays(Run(EMPTY, steps).tasks[h], History(steps, more, h), c)
    ensures FanOut.HandsSegment(Run(EMPTY, steps).tasks[h], Run(EMPTY, steps + more).tasks[h], c)
  {
    RunTakesEffect(steps, more, h);
    FanOut.ReceivedIsSegment(Run(EMPTY, steps).tasks[h], History(steps, more, h), c);
  }

  /** After a stop or the departure of its owner a broadcast hands nothing more to a target that stays subscribed. */
  lemma SignalledIsSilent(steps: seq<Step>, more: seq<Step>, h: Handle, c: ClientId)
    requires h in Run(EMPTY, steps).tasks && h in Run(EMPTY, steps + more).tasks
    requires Run(EMPTY, steps).tasks[h].source.Valid()
             && FanOut.Stays(Run(EMPTY, steps).tasks[h], History(steps, more, h), c)
    requires Run(EMPTY, steps).tasks[h].shutdown
    ensures var b, e := Run(EMPTY, steps).tasks[h], Run(EMPTY, steps + more).tasks[h];
            c in b.targets && c in e.targets && e.targets[c].received == b.targets[c].received
  {
    RunTakesEffect(steps, more, h);
    FanOut.SilentOnceOver(Run(EMPTY, steps).tasks[h], History(steps, more, h), c);
  }
}

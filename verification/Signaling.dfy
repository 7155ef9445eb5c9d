/**
 Requests of the browser client: 16-bit ids, a table of pending requests, timeouts, and the promise
 each request gave its caller. The connection to the server is two first-in first-out channels with
 the server's sequential read loop between them.
 */
module Signaling {
  import opened Wrappers

  /** Request ids are the lower sixteen bits of a counter. */
  const ID_COUNT: nat := 0x10000

  function IdOf(serial: nat): nat {
    serial % ID_COUNT
  }

  type Response = string

  datatype Outcome = Answered(response: Response) | RequestTimeout | ConnectionClosed

  /**
   The browser side. A request is identified by the value of the counter that gave it its id.
   `table` holds the pending request of each id, `timers` the requests whose timeout is running,
   `promises` those that are settled and `waking` those settled whose caller has not resumed yet.
   */
  datatype Browser = Browser(
    index: nat,
    table: map<nat, nat>,
    timers: set<nat>,
    promises: map<nat, Outcome>,
    waking: set<nat>,
    open: bool)

  /** A promise keeps the first outcome it is given. */
  function Settle(b: Browser, serial: nat, outcome: Outcome): Browser {
    if serial in b.promises then b
    else b.(promises := b.promises[serial := outcome], waking := b.waking + {serial})
  }

  function SendRequest(b: Browser): Browser {
    var serial := b.index + 1;
    b.(index := serial, table := b.table[IdOf(serial) := serial], timers := b.timers + {serial})
  }

  function HandleResponse(b: Browser, id: nat, response: Response): Browser {
    if id !in b.table then b
    else
      var serial := b.table[id];
      Settle(b.(table := b.table - {id}, timers := b.timers - {serial}), serial, Answered(response))
  }

  function Expire(b: Browser, serial: nat): Browser {
    if serial !in b.timers then b else Settle(b.(timers := b.timers - {serial}), serial, RequestTimeout)
  }

  /** The caller resumes and clears whatever its id has in the table. */
  function Resume(b: Browser, serial: nat): Browser {
    if serial !in b.waking then b
    else
      var id, resumed := IdOf(serial), b.(waking := b.waking - {serial});
      if id in b.table then resumed.(table := b.table - {id}, timers := b.timers - {b.table[id]}) else resumed
  }

  function Pending(table: map<nat, nat>): set<nat> {
    set id | id in table :: table[id]
  }

  function Abort(b: Browser): Browser {
    var pending := Pending(b.table);
    b.(table := map[],
       timers := b.timers - pending,
       promises := b.promises + (map k | k in pending && k !in b.promises :: ConnectionClosed),
       waking := b.waking + (set k | k in pending && k !in b.promises),
       open := false)
  }

  // ----- The whole system -----

  /**
   `wire` are the requests sent over the open socket whose answer the browser has not received, oldest
   first. The channels are first-in first-out and the server's read loop handles one request at a
   time, so the first `served` of them have been answered; `answers` is what each was answered with.
   */
  datatype System = System(browser: Browser, wire: seq<nat>, served: nat, answers: map<nat, Response>)

  const START := System(Browser(0, map[], {}, map[], {}, false), [], 0, map[])

  datatype Step =
    | OpenSocket
    | Send
    | Serve(response: Response)
    | Receive
    | Timeout(serial: nat)
    | Wake(serial: nat)
    | SocketLost
    | CloseSocket

  function Next(s: System, step: Step): System {
    var b := s.browser;
    match step
    case OpenSocket => s.(browser := b.(open := true))
    case Send => if !b.open then s else s.(browser := SendRequest(b), wire := s.wire + [b.index + 1])
    case Serve(response) =>
      if s.served >= |s.wire| then s
      else s.(served := s.served + 1, answers := s.answers[s.wire[s.served] := response])
    case Receive =>
      if !b.open || s.served == 0 || s.wire == [] || s.wire[0] !in s.answers then s
      else s.(browser := HandleResponse(b, IdOf(s.wire[0]), s.answers[s.wire[0]]),
              wire := s.wire[1..],
              served := s.served - 1)
    case Timeout(k) => s.(browser := Expire(b, k))
    case Wake(k) => s.(browser := Resume(b, k))
    case SocketLost => s.(browser := Abort(b), wire := [], served := 0)
    case CloseSocket => s.(browser := b.(open := false), wire := [], served := 0)
  }

  function Run(steps: seq<Step>): System {
    if steps == [] then START else Next(Run(steps[..|steps| - 1]), steps[|steps| - 1])
  }

  lemma RunOneMore(steps: seq<Step>, step: Step)
    ensures Run(steps + [step]) == Next(Run(steps), step)
  {
    assert (steps + [step])[..|steps|] == steps;
  }

  /** A request that is unsettled, whose caller has still to resume, or whose answer may still arrive. */
  predicate Live(s: System, k: nat) {
    1 <= k <= s.browser.index && (k !in s.browser.promises || k in s.browser.waking || k in s.wire)
  }

  /** Fewer than 65536 requests have been sent since any live one. */
  ghost predicate WithinWindow(s: System) {
    forall k: nat | Live(s, k) :: s.browser.index < k + ID_COUNT
  }

  ghost predicate AlwaysWithinWindow(steps: seq<Step>) {
    forall n | 0 <= n <= |steps| :: WithinWindow(Run(steps[..n]))
  }

  // ----- What every step keeps -----

  /** Requests are answered, and their answers received, in the order they were sent. */
  ghost predicate WireInOrder(s: System) {
    && s.served <= |s.wire|
    && (forall i, j | 0 <= i < j < |s.wire| :: s.wire[i] < s.wire[j])
    && (forall i | 0 <= i < |s.wire| :: 1 <= s.wire[i] <= s.browser.index && (i < s.served <==> s.wire[i] in s.answers))
    && (forall k | k in s.answers :: 1 <= k <= s.browser.index)
  }

  /** The table holds, under their ids, requests that are unsettled or whose caller has to resume. */
  ghost predicate TableIsSound(b: Browser) {
    forall id | id in b.table ::
      1 <= b.table[id] <= b.index && IdOf(b.table[id]) == id && (b.table[id] in b.promises ==> b.table[id] in b.waking)
  }

  /** Every unsettled request is in the table, with its timeout running. */
  ghost predicate TableIsComplete(b: Browser) {
    forall k: nat {:trigger k in b.promises} | 1 <= k <= b.index && k !in b.promises ::
      IdOf(k) in b.table && b.table[IdOf(k)] == k && k in b.timers
  }

  ghost predicate SettledIsKnown(b: Browser) {
    && (forall k | k in b.waking :: k in b.promises)
    && (forall k | k in b.promises || k in b.timers :: 1 <= k <= b.index)
    && (forall k | k in b.timers :: k !in b.promises)
  }

  /** A request that was answered was answered with the server's answer to that same request. */
  ghost predicate AnswersAreOwn(s: System) {
    forall k | k in s.browser.promises && s.browser.promises[k].Answered? ::
      k in s.answers && s.answers[k] == s.browser.promises[k].response
  }

  ghost predicate Valid(s: System) {
    && WireInOrder(s) && TableIsSound(s.browser) && TableIsComplete(s.browser) && SettledIsKnown(s.browser)
    && AnswersAreOwn(s)
  }

  /** Two live requests never share an id. */
  lemma LiveIdsDiffer(s: System, j: nat, k: nat)
    requires WithinWindow(s) && Live(s, j) && Live(s, k) && IdOf(j) == IdOf(k)
    ensures j == k
  {
  }

  /** The table's entry for the id of a live request is that request. */
  lemma EntryIsOwn(s: System, k: nat)
    requires Valid(s) && WithinWindow(s) && Live(s, k) && IdOf(k) in s.browser.table
    ensures s.browser.table[IdOf(k)] == k
  {
    LiveIdsDiffer(s, s.browser.table[IdOf(k)], k);
  }

  /** A response settles the request it answers, if that is unsettled, and touches no other request. */
  lemma ResponseSettlesOwn(s: System)
    requires Valid(s) && WithinWindow(s) && s.browser.open && s.served > 0
    ensures s.wire[0] in s.answers
    ensures var k, e := s.wire[0], Next(s, Receive).browser;
            e.promises == if k in s.browser.promises then s.browser.promises
                          else s.browser.promises[k := Answered(s.answers[k])]
    ensures var k, e := s.wire[0], Next(s, Receive).browser;
            e.table == s.browser.table - {IdOf(k)}
            && e.timers == if IdOf(k) in s.browser.table then s.browser.timers - {k} else s.browser.timers
  {
    var k := s.wire[0];
    if IdOf(k) in s.browser.table {
      EntryIsOwn(s, k);
    }
  }

  lemma SendKeepsValid(s: System)
    requires Valid(s) && WithinWindow(Next(s, Send))
    ensures Valid(Next(s, Send))
  {
    var e, serial := Next(s, Send), s.browser.index + 1;
    if s.browser.open && IdOf(serial) in s.browser.table {
      LiveIdsDiffer(e, s.browser.table[IdOf(serial)], serial);
    }
    assert TableIsComplete(e.browser);
  }

  lemma ReceiveKeepsValid(s: System)
    requires Valid(s) && WithinWindow(s)
    ensures Valid(Next(s, Receive))
  {
    if s.browser.open && s.served > 0 {
      ResponseSettlesOwn(s);
    }
  }

  lemma WakeKeepsValid(s: System, k: nat)
    requires Valid(s) && WithinWindow(s)
    ensures Valid(Next(s, Wake(k)))
  {
    if k in s.browser.waking && IdOf(k) in s.browser.table {
      EntryIsOwn(s, k);
    }
  }

  lemma AbortKeepsValid(s: System)
    requires Valid(s)
    ensures Valid(Next(s, SocketLost))
  {
    var b, e := s.browser, Abort(s.browser);
    forall k: nat | 1 <= k <= b.index
      ensures k in e.promises
    {
      assert k !in b.promises ==> b.table[IdOf(k)] == k;
    }
  }

  lemma NextKeepsValid(s: System, step: Step)
    requires Valid(s) && WithinWindow(s) && WithinWindow(Next(s, step))
    ensures Valid(Next(s, step))
  {
    match step
    case Send => SendKeepsValid(s);
    case Receive => ReceiveKeepsValid(s);
    case Wake(k) => WakeKeepsValid(s, k);
    case SocketLost => AbortKeepsValid(s);
    case _ =>
  }

  /** While no live request falls 65536 requests behind, every state of the run is in order. */
  lemma {:induction false} RunIsValid(steps: seq<Step>)
    requires AlwaysWithinWindow(steps)
    ensures Valid(Run(steps))
  {
    if steps == [] {
    } else {
      var before := steps[..|steps| - 1];
      forall n | 0 <= n <= |before|
        ensures WithinWindow(Run(before[..n]))
      {
        assert before[..n] == steps[..n];
      }
      RunIsValid(before);
      assert steps[..|steps|] == steps;
      NextKeepsValid(Run(before), steps[|steps| - 1]);
    }
  }

  ghost predicate SameOutcome(s: System, e: System, k: nat) {
    k in s.browser.promises ==> k in e.browser.promises && e.browser.promises[k] == s.browser.promises[k]
  }

  lemma NextKeepsOutcome(s: System, step: Step, k: nat)
    ensures SameOutcome(s, Next(s, step), k)
  {
  }

  lemma OneMoreKeepsOutcome(steps: seq<Step>, step: Step, k: nat)
    ensures SameOutcome(Run(steps), Run(steps + [step]), k)
  {
    RunOneMore(steps, step);
    NextKeepsOutcome(Run(steps), step, k);
  }

  lemma {:induction false} OutcomesAreFinal(steps: seq<Step>, more: seq<Step>, k: nat)
    ensures SameOutcome(Run(steps), Run(steps + more), k)
    decreases more
  {
    if more == [] {
      assert steps + more == steps;
    } else {
      var init, step := more[..|more| - 1], more[|more| - 1];
      OutcomesAreFinal(steps, init, k);
      OneMoreKeepsOutcome(steps + init, step, k);
      assert steps + more == steps + init + [step];
    }
  }

  /** What a caller is told is final, and if it is an answer, the server gave it to that same request. */
  lemma CallersGetOwnAnswers(steps: seq<Step>, more: seq<Step>, k: nat)
    requires AlwaysWithinWindow(steps) && k in Run(steps).browser.promises
    ensures var outcome, e := Run(steps).browser.promises[k], Run(steps + more).browser;
            && k in e.promises && e.promises[k] == outcome
            && (outcome.Answered? ==> k in Run(steps).answers && Run(steps).answers[k] == outcome.response)
  {
    RunIsValid(steps);
    OutcomesAreFinal(steps, more, k);
  }

  /**
   A lost socket settles every request that is still unsettled as closed, and no other, and leaves nothing
   pending.
   */
  lemma LostSocketClosesAll(s: System)
    requires Valid(s)
    ensures var e := Next(s, SocketLost);
            forall k: nat | 1 <= k <= s.browser.index ::
              k in e.browser.promises
              && e.browser.promises[k] == if k in s.browser.promises then s.browser.promises[k] else ConnectionClosed
    ensures var e := Next(s, SocketLost).browser; e.table == map[] && e.timers == {} && !e.open
  {
    forall k: nat | 1 <= k <= s.browser.index && k !in s.browser.promises
      ensures k in Abort(s.browser).promises && Abort(s.browser).promises[k] == ConnectionClosed
    {
      assert s.browser.table[IdOf(k)] == k;
    }
  }

  // ----- What settles a request -----

  /** A timeout tells the caller of an unsettled request so, and otherwise nothing; nobody else notices. */
  lemma TimeoutSettles(s: System, k: nat)
    requires Valid(s)
    ensures var e := Next(s, Timeout(k)).browser;
            && e.promises == (if 1 <= k <= s.browser.index && k !in s.browser.promises
                              then s.browser.promises[k := RequestTimeout] else s.browser.promises)
            && e.table == s.browser.table && e.timers == s.browser.timers - {k} && e.index == s.browser.index
  {
  }

  /** Within the window timeouts run for exactly the requests that are unsettled. */
  lemma TimersAreUnsettled(steps: seq<Step>, k: nat)
    requires AlwaysWithinWindow(steps)
    ensures var b := Run(steps).browser; k in b.timers <==> 1 <= k <= b.index && k !in b.promises
  {
    RunIsValid(steps);
  }

  /** The step is what that outcome stands for. */
  predicate Causes(step: Step, k: nat, outcome: Outcome) {
    match outcome
    case Answered(_) => step == Receive
    case RequestTimeout => step == Timeout(k)
    case ConnectionClosed => step == SocketLost
  }

  lemma SettledByCause(s: System, step: Step, k: nat)
    requires k !in s.browser.promises && k in Next(s, step).browser.promises
    ensures Causes(step, k, Next(s, step).browser.promises[k]) && k in Next(s, step).browser.waking
  {
  }

  /** At `n` the request was unsettled, and step `n` settled it for the reason its outcome gives. */
  ghost predicate SettledAt(steps: seq<Step>, n: nat, k: nat, outcome: Outcome)
    requires n < |steps|
  {
    k !in Run(steps[..n]).browser.promises && Causes(steps[n], k, outcome)
  }

  /**
   In every run a caller is told that the request timed out only by its own timeout, that the connection
   was closed only by a lost socket, and an answer only by one that was received.
   */
  lemma {:induction false} OutcomesHaveCauses(steps: seq<Step>, k: nat)
    requires k in Run(steps).browser.promises
    ensures exists n | 0 <= n < |steps| :: SettledAt(steps, n, k, Run(steps).browser.promises[k])
  {
    var init, step := steps[..|steps| - 1], steps[|steps| - 1];
    var s := Run(init);
    if k in s.browser.promises {
      OutcomesHaveCauses(init, k);
      NextKeepsOutcome(s, step, k);
      var n :| 0 <= n < |init| && SettledAt(init, n, k, s.browser.promises[k]);
      assert init[..n] == steps[..n];
      assert SettledAt(steps, n, k, Run(steps).browser.promises[k]);
    } else {
      SettledByCause(s, step, k);
      assert SettledAt(steps, |steps| - 1, k, Run(steps).browser.promises[k]);
    }
  }

  // ----- Exactly when matching works -----

  /** Only sending moves the window on: any other step leaves at most the live requests live. */
  lemma OthersKeepWindow(s: System, step: Step)
    requires WithinWindow(s) && step != Send
    ensures WithinWindow(Next(s, step))
  {
    var e := Next(s, step);
    assert e.browser.index == s.browser.index;
    forall k: nat | Live(e, k)
      ensures Live(s, k)
    {
      OthersKeepUnlive(s, step, k);
    }
  }

  lemma OthersKeepUnlive(s: System, step: Step, k: nat)
    requires step != Send && Live(Next(s, step), k)
    ensures Live(s, k)
  {
  }

  lemma {:induction false} OthersKeepOrder(steps: seq<Step>, more: seq<Step>)
    requires Valid(Run(steps)) && WithinWindow(Run(steps)) && Send !in more
    ensures Valid(Run(steps + more)) && WithinWindow(Run(steps + more))
    decreases more
  {
    if more == [] {
      assert steps + more == steps;
    } else {
      var init, step := more[..|more| - 1], more[|more| - 1];
      assert more == init + [step] && steps + more == steps + init + [step];
      OthersKeepOrder(steps, init);
      RunOneMore(steps + init, step);
      OthersKeepWindow(Run(steps + init), step);
      NextKeepsValid(Run(steps + init), step);
    }
  }

  /** The request that a sending step pushes out of the window has the id of the new one. */
  lemma PushedOutSharesId(s: System) returns (k: nat)
    requires WithinWindow(s) && !WithinWindow(Next(s, Send))
    ensures Live(s, k) && k + ID_COUNT == s.browser.index + 1 && IdOf(k) == IdOf(s.browser.index + 1)
    ensures s.browser.open
  {
    var e := Next(s, Send);
    k :| Live(e, k) && !(e.browser.index < k + ID_COUNT);
    assert Live(s, k);
  }

  /** The new request took the table's entry of one that was unsettled. */
  lemma UnsettledIsLost(s: System, k: nat)
    requires s.browser.open && 1 <= k && k + ID_COUNT == s.browser.index + 1 && k !in s.browser.promises
    ensures !Valid(Next(s, Send))
  {
    var b := Next(s, Send).browser;
    assert IdOf(k) == IdOf(b.index) && b.table[IdOf(k)] == b.index;
    assert k !in b.promises;
  }

  /** The caller of the old request resumes and clears the entry of the new one. */
  lemma WakingClearsNewcomer(s: System, k: nat)
    requires Valid(s) && s.browser.open && k + ID_COUNT == s.browser.index + 1 && k in s.browser.waking
    ensures !Valid(Next(Next(s, Send), Wake(k)))
  {
    var sent := Next(s, Send);
    var e, serial := Next(sent, Wake(k)), s.browser.index + 1;
    assert IdOf(k) == IdOf(serial) && k in sent.browser.waking;
    assert serial !in e.browser.promises && IdOf(serial) !in e.browser.table;
  }

  /** What is on the wire longest is the oldest live request there. */
  lemma PushedOutIsFirst(s: System, k: nat)
    requires Valid(s) && WithinWindow(s) && k in s.wire && k + ID_COUNT == s.browser.index + 1
    ensures s.wire[0] == k
  {
    assert Live(s, s.wire[0]);
    var i :| 0 <= i < |s.wire| && s.wire[i] == k;
  }

  /** The request `k` has just been pushed out, its answer is still to come, and the new one holds its entry. */
  ghost predicate Misled(sent: System, k: nat) {
    && WireInOrder(sent) && sent.browser.open
    && 1 < |sent.wire| && sent.wire[0] == k && sent.wire[|sent.wire| - 1] == sent.browser.index
    && IdOf(k) in sent.browser.table && sent.browser.table[IdOf(k)] == sent.browser.index
    && sent.browser.index !in sent.browser.promises
  }

  /** The old request's answer settles the new one. */
  lemma AnswerGoesToNewcomer(s: System, k: nat)
    requires Misled(s, k) && 0 < s.served < |s.wire|
    ensures var e, serial := Next(s, Receive), s.browser.index;
            && serial in e.browser.promises && e.browser.promises[serial] == Answered(s.answers[k])
            && serial !in e.answers && !Valid(e)
  {
    assert s.wire[|s.wire| - 1] !in s.answers;
  }

  lemma PushedOutIsMisled(s: System, k: nat)
    requires Valid(s) && WithinWindow(s) && s.browser.open && k in s.wire && k + ID_COUNT == s.browser.index + 1
    requires WireInOrder(Next(s, Send)) && s.browser.index + 1 !in s.browser.promises
    ensures Misled(Next(s, Send), k) && Next(s, Send).served == s.served < |Next(s, Send).wire|
  {
    PushedOutIsFirst(s, k);
    assert IdOf(k) == IdOf(s.browser.index + 1);
  }

  lemma ServingKeepsMisled(sent: System, k: nat, response: Response)
    requires Misled(sent, k) && sent.served == 0
    ensures Misled(Next(sent, Serve(response)), k) && Next(sent, Serve(response)).served == 1
  {
  }

  lemma ServedMisledBreaks(steps: seq<Step>, k: nat)
    requires Misled(Run(steps), k) && 0 < Run(steps).served < |Run(steps).wire|
    ensures !Valid(Run(steps + [Receive]))
  {
    AnswerGoesToNewcomer(Run(steps), k);
    RunOneMore(steps, Receive);
  }

  lemma MisledBreaks(steps: seq<Step>, k: nat) returns (more: seq<Step>)
    requires Valid(Run(steps)) && WithinWindow(Run(steps)) && Run(steps).browser.open
    requires k in Run(steps).wire && k + ID_COUNT == Run(steps).browser.index + 1
    requires Valid(Run(steps + [Send]))
    ensures Send !in more && !Valid(Run(steps + [Send] + more))
  {
    var s, sent := Run(steps), steps + [Send];
    RunOneMore(steps, Send);
    PushedOutIsMisled(s, k);
    if s.served > 0 {
      ServedMisledBreaks(sent, k);
      more := [Receive];
    } else {
      RunOneMore(sent, Serve(""));
      ServingKeepsMisled(Run(sent), k, "");
      ServedMisledBreaks(sent + [Serve("")], k);
      assert sent + [Serve(""), Receive] == sent + [Serve("")] + [Receive];
      more := [Serve(""), Receive];
    }
  }

  /** Once a send has pushed a live request out of the window, something that is not a send can go wrong. */
  lemma PushedOutBreaks(steps: seq<Step>) returns (more: seq<Step>)
    requires Valid(Run(steps)) && WithinWindow(Run(steps)) && !WithinWindow(Run(steps + [Send]))
    ensures Send !in more && !Valid(Run(steps + [Send] + more))
  {
    var s := Run(steps);
    RunOneMore(steps, Send);
    var k := PushedOutSharesId(s);
    if !Valid(Run(steps + [Send])) {
      assert steps + [Send] + [] == steps + [Send];
      more := [];
    } else if k in s.browser.waking {
      WakingClearsNewcomer(s, k);
      RunOneMore(steps + [Send], Wake(k));
      more := [Wake(k)];
    } else {
      if k !in s.browser.promises {
        UnsettledIsLost(s, k);
      }
      more := MisledBreaks(steps, k);
    }
  }

  ghost predicate InOrderAfter(steps: seq<Step>, more: seq<Step>) {
    Valid(Run(steps + more))
  }

  /** At every point of the run, whatever happens next short of another request, the state is in order. */
  ghost predicate AlwaysInOrder(steps: seq<Step>) {
    forall n, more | 0 <= n <= |steps| && Send !in more :: InOrderAfter(steps[..n], more)
  }

  lemma InOrderAt(steps: seq<Step>, n: nat)
    requires AlwaysInOrder(steps) && n <= |steps|
    ensures Valid(Run(steps[..n]))
  {
    var none: seq<Step> := [];
    assert Send !in none;
    assert steps[..n] + none == steps[..n];
  }

  lemma {:induction false} OrderNeedsWindow(steps: seq<Step>, n: nat)
    requires AlwaysInOrder(steps) && n <= |steps|
    ensures WithinWindow(Run(steps[..n]))
  {
    if n == 0 {
      assert steps[..n] == [];
    } else {
      var before, step := steps[..n - 1], steps[n - 1];
      OrderNeedsWindow(steps, n - 1);
      InOrderAt(steps, n - 1);
      assert steps[..n] == before + [step];
      if step != Send {
        RunOneMore(before, step);
        OthersKeepWindow(Run(before), step);
      } else if !WithinWindow(Run(before + [Send])) {
        var more := PushedOutBreaks(before);
        assert false;
      }
    }
  }

  lemma WindowOfPrefix(steps: seq<Step>, n: nat)
    requires AlwaysWithinWindow(steps) && n <= |steps|
    ensures AlwaysWithinWindow(steps[..n]) && WithinWindow(Run(steps[..n]))
  {
    forall m | 0 <= m <= n
      ensures WithinWindow(Run(steps[..n][..m]))
    {
      assert steps[..n][..m] == steps[..m];
    }
  }

  /**
   Requests and answers are matched throughout a run, however it goes on short of another request, if
   and only if no live request ever falls 65536 requests behind.
   */
  lemma MatchingExactness(steps: seq<Step>)
    ensures AlwaysInOrder(steps) <==> AlwaysWithinWindow(steps)
  {
    if AlwaysWithinWindow(steps) {
      forall n, more | 0 <= n <= |steps| && Send !in more
        ensures InOrderAfter(steps[..n], more)
      {
        WindowOfPrefix(steps, n);
        RunIsValid(steps[..n]);
        OthersKeepOrder(steps[..n], more);
      }
    }
    if AlwaysInOrder(steps) {
      forall n | 0 <= n <= |steps|
        ensures WithinWindow(Run(steps[..n]))
      {
        OrderNeedsWindow(steps, n);
      }
    }
  }

  // ----- A run that falls behind -----

  /** Opens the socket and sends `count` requests, none of which is answered yet. */
  function Unanswered(count: nat): seq<Step> {
    if count == 0 then [OpenSocket] else Unanswered(count - 1) + [Send]
  }

  /** The first `count` requests are on their way and none has been answered. */
  ghost predicate AllWaiting(s: System, count: nat) {
    && s.browser.open && s.browser.index == count && s.browser.promises == map[] && s.served == 0 && s.answers == map[]
    && |s.wire| == count && forall i | 0 <= i < count :: s.wire[i] == i + 1
  }

  lemma OneMoreWaits(s: System, count: nat)
    requires AllWaiting(s, count)
    ensures AllWaiting(Next(s, Send), count + 1)
  {
  }

  lemma {:induction false} UnansweredAreSent(count: nat)
    ensures AllWaiting(Run(Unanswered(count)), count)
  {
    if count == 0 {
      assert [] + [OpenSocket] == [OpenSocket];
      RunOneMore([], OpenSocket);
    } else {
      UnansweredAreSent(count - 1);
      OneMoreWaits(Run(Unanswered(count - 1)), count - 1);
      RunOneMore(Unanswered(count - 1), Send);
    }
  }

  lemma {:induction false} UnansweredAreWithinWindow(count: nat)
    requires count <= ID_COUNT
    ensures AlwaysWithinWindow(Unanswered(count))
  {
    var steps := Unanswered(count);
    forall n | 0 <= n <= |steps|
      ensures WithinWindow(Run(steps[..n]))
    {
      if n == |steps| {
        UnansweredAreSent(count);
        assert steps[..n] == steps;
      } else if count == 0 {
        assert steps[..n] == [];
      } else {
        UnansweredAreWithinWindow(count - 1);
        assert steps[..n] == Unanswered(count - 1)[..n];
      }
    }
  }

  /**
   The window is as wide as it can be: 65536 requests can be waiting, but with one more the answer to
   the first is taken for the answer to the last, to which the server has given none.
   */
  lemma WindowIsTight(response: Response)
    ensures AlwaysWithinWindow(Unanswered(65536))
    ensures var e := Run(Unanswered(65537) + [Serve(response)] + [Receive]);
            && e.answers == map[1 := response]
            && e.browser.promises == map[65537 := Answered(response)]
  {
    UnansweredAreWithinWindow(ID_COUNT);
    UnansweredAreSent(ID_COUNT);
    UnansweredAreSent(ID_COUNT + 1);
    RunOneMore(Unanswered(ID_COUNT), Send);
    RunOneMore(Unanswered(ID_COUNT + 1), Serve(response));
    RunOneMore(Unanswered(ID_COUNT + 1) + [Serve(response)], Receive);
    FirstAnswerIsMisled(Run(Unanswered(ID_COUNT)), response);
  }

  lemma FirstAnswerIsMisled(s: System, response: Response)
    requires AllWaiting(s, ID_COUNT) && AllWaiting(Next(s, Send), ID_COUNT + 1)
    ensures var e := Next(Next(Next(s, Send), Serve(response)), Receive);
            && e.answers == map[1 := response]
            && e.browser.promises == map[ID_COUNT + 1 := Answered(response)]
  {
    assert IdOf(1) == IdOf(ID_COUNT + 1);
    assert Next(s, Send).browser.table[1] == ID_COUNT + 1;
  }

  // ----- The browser's connection object -----

  class SignallingConnection {
    var requestIdIndex: nat
    var requests: map<nat, nat>
    var timeouts: set<nat>
    var promises: map<nat, Outcome>
    var waking: set<nat>
    var socketOpen: bool

    function Value(): Browser
      reads this
    {
      Browser(requestIdIndex, requests, timeouts, promises, waking, socketOpen)
    }

    constructor ()
      ensures Value() == START.browser
    {
      requestIdIndex, requests, timeouts, promises, waking, socketOpen := 0, map[], {}, map[], {}, false;
    }

    method Resolve(serial: nat, outcome: Outcome)
      modifies this`promises, this`waking
      ensures Value() == Settle(old(Value()), serial, outcome)
    {
      if serial !in promises {
        promises := promises[serial := outcome];
        waking := waking + {serial};
      }
    }

    /** Sends a request and returns its id, or settles at once when the socket is not open. */
    method BeginRequest() returns (id: nat, refused: Option<Outcome>)
      modifies this`requestIdIndex, this`requests, this`timeouts
      ensures refused == if socketOpen then None else Some(ConnectionClosed)
      ensures Value() == if socketOpen then SendRequest(old(Value())) else old(Value())
      ensures socketOpen ==> id == requestIdIndex % 65536 && requestIdIndex == old(requestIdIndex) + 1
    {
      if !socketOpen {
        return 0, Some(ConnectionClosed);
      }
      requestIdIndex := requestIdIndex + 1;
      id := IdOf(requestIdIndex);
      timeouts := timeouts + {requestIdIndex};
      requests := requests[id := requestIdIndex];
      return id, None;
    }

    method OnTimeout(serial: nat)
      requires serial in timeouts
      modifies this`timeouts, this`promises, this`waking
      ensures Value() == Expire(old(Value()), serial)
    {
      timeouts := timeouts - {serial};
      Resolve(serial, RequestTimeout);
    }

    method OnResponse(id: nat, response: Response)
      modifies this`requests, this`timeouts, this`promises, this`waking
      ensures Value() == HandleResponse(old(Value()), id, response)
    {
      if id !in requests {
        return;
      }
      var serial := requests[id];
      requests := requests - {id};
      timeouts := timeouts - {serial};
      Resolve(serial, Answered(response));
    }

    /** What follows the await in the sender of a request. */
    method EndRequest(serial: nat)
      requires serial in waking
      modifies this`requests, this`timeouts, this`waking
      ensures Value() == Resume(old(Value()), serial)
      ensures serial % 65536 !in requests
      ensures var id := serial % 65536;
              id in old(requests) ==> timeouts == old(timeouts) - {old(requests)[id]}
    {
      waking := waking - {serial};
      var id := IdOf(serial);
      if id in requests {
        timeouts := timeouts - {requests[id]};
        requests := requests - {id};
      }
    }

    method AbortPendingRequests()
      modifies this
      ensures Value() == Abort(old(Value()))
    {
      socketOpen := false;
      while requests != map[]
        invariant !socketOpen && Abort(Value()) == Abort(old(Value()))
        decreases requests.Keys
      {
        var id :| id in requests;
        AbortOne(Value(), id);
        var serial := requests[id];
        requests := requests - {id};
        timeouts := timeouts - {serial};
        Resolve(serial, ConnectionClosed);
      }
      AbortNone(Value());
    }
  }

  /** Closing one pending request first leaves the rest of the abort to do. */
  lemma AbortOne(b: Browser, id: nat)
    requires id in b.table
    ensures var k := b.table[id];
            Abort(Settle(b.(table := b.table - {id}, timers := b.timers - {k}), k, ConnectionClosed)) == Abort(b)
  {
    PendingWithout(b.table, id);
  }

  lemma PendingWithout(table: map<nat, nat>, id: nat)
    requires id in table
    ensures Pending(table) == Pending(table - {id}) + {table[id]}
  {
    assert table.Keys == (table - {id}).Keys + {id};
  }

  lemma AbortNone(b: Browser)
    requires b.table == map[] && !b.open
    ensures Abort(b) == b
  {
  }
}

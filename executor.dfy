/** The request executor: the admission gate of `enqueueRequest` and the
    retry loop of `processRequest`, as functions of the crawler's state. */
module Executor {
  import opened Wrappers
  import opened Types

  /** The error the handler-timeout promise rejects with. */
  const HandlerTimeoutError: Error := Error("Request handler timeout")

  /** The gate of `enqueueRequest` is open: `processedRequests >=
      maxRequestsPerCrawl` is false (always so against `Infinity`). */
  predicate Admits(processed: nat, cap: Limit): (open: bool)
    ensures cap == Infinity ==> open
    ensures cap.Finite? ==> (open <==> processed < cap.n)
    ensures cap.Finite? && cap.n <= 0 ==> !open
  {
    match cap
    case Infinity => true
    case Finite(n) => processed < n
  }

  /** Once the gate is shut, more successes keep it shut. */
  lemma GateStaysShut(p: nat, q: nat, cap: Limit)
    requires !Admits(p, cap) && p <= q
    ensures !Admits(q, cap)
  {
  }

  /** One `enqueueRequest(request)`: appended to the queue when the gate is
      open, silently dropped otherwise. */
  function Enqueue(s: State, r: Request, cap: Limit): (t: State)
    ensures t.processed == s.processed && t.log == s.log
    ensures t.queue == s.queue + [r] <==> Admits(s.processed, cap)
    ensures !Admits(s.processed, cap) ==> t == s
  {
    if Admits(s.processed, cap) then s.(queue := s.queue + [r]) else s
  }

  /** A run of `enqueueRequest` calls. Nothing between them changes
      `processedRequests`, so they are admitted all together or not at all,
      in call order. */
  function EnqueueAll(s: State, rs: seq<Request>, cap: Limit): (t: State)
    ensures t == s.(queue := s.queue + (if Admits(s.processed, cap) then rs else []))
    decreases |rs|
  {
    if rs == [] then
      assert s.queue + [] == s.queue;
      s
    else
      var t := EnqueueAll(Enqueue(s, rs[0], cap), rs[1..], cap);
      assert s.queue + [rs[0]] + rs[1..] == s.queue + rs;
      t
  }

  /** The error that makes an attempt fail, or `None` when it succeeds. With
      no handler to run, a navigated attempt succeeds. */
  function AttemptError(handler: Option<Handler>, o: AttemptOutcome): (failure: Option<Error>)
    ensures failure.None? <==> o.Navigated? && (handler.None? || o.result.Completed?)
    ensures o.NavigationFailed? ==> failure == Some(o.error)
    ensures o.Navigated? && handler.Some? && o.result.Threw? ==> failure == Some(o.result.error)
    ensures o.Navigated? && handler.Some? && o.result.TimedOut? ==> failure == Some(HandlerTimeoutError)
  {
    match o
    case NavigationFailed(e) => Some(e)
    case Navigated(_, result) =>
      if handler.None? then None
      else
        match result
        case Completed => None
        case Threw(e) => Some(e)
        case TimedOut => Some(HandlerTimeoutError)
  }

  /** The `enqueueRequest` calls an attempt makes: those of its handler, when
      the navigation succeeded and a handler runs. They stand whatever the
      handler's outcome; a timeout does not roll them back. */
  function HandlerCalls(handler: Option<Handler>, o: AttemptOutcome): (calls: seq<Request>)
    ensures calls != [] ==> o.Navigated? && handler.Some?
    ensures o.Navigated? && handler.Some? ==> calls == o.enqueued
  {
    if o.Navigated? && handler.Some? then o.enqueued else []
  }

  /** The retry loop of `processRequest` from the attempt numbered `retries`
      on: attempt `outcome(retries)`; on success count it and emit
      `requestFinished`; on failure emit `requestFailed` with the retries left,
      and `requestMaxRetriesReached` once the budget is spent. */
  function ProcessFrom(s: State, request: Request, handler: Option<Handler>, outcome: nat -> AttemptOutcome,
                       retries: nat, maxRetries: int, cap: Limit): (t: State)
    ensures s.processed <= t.processed <= s.processed + 1
    decreases maxRetries + 1 - retries
  {
    if retries > maxRetries then s
    else
      var o := outcome(retries);
      var s1 := EnqueueAll(s, HandlerCalls(handler, o), cap);
      match AttemptError(handler, o)
      case None =>
        s1.(processed := s1.processed + 1, log := s1.log + [RequestFinished(request.url)])
      case Some(e) =>
        var failed := [RequestFailed(request.url, e, maxRetries - (retries + 1))];
        var exhausted := if retries + 1 > maxRetries then [RequestMaxRetriesReached(request.url, e)] else [];
        ProcessFrom(s1.(log := s1.log + failed + exhausted), request, handler, outcome, retries + 1, maxRetries, cap)
  }

  /** `processRequest(request)` from its first attempt. */
  function Process(s: State, request: Request, handler: Option<Handler>, outcome: nat -> AttemptOutcome,
                   maxRetries: int, cap: Limit): (t: State)
    ensures s.processed <= t.processed <= s.processed + 1
    ensures maxRetries < 0 ==> t == s
  {
    ProcessFrom(s, request, handler, outcome, 0, maxRetries, cap)
  }

  /** `t` extends the log of `s`. */
  predicate Extends(s: State, t: State)
  {
    |s.log| <= |t.log| && t.log[..|s.log|] == s.log
  }

  /** The events `t` added to the log of `s`. */
  function Added(s: State, t: State): seq<Event>
    requires Extends(s, t)
  {
    t.log[|s.log|..]
  }

  /** The events the loop adds from attempt `from` of a budget of
      `maxRetries`: some `requestFailed` events for `url`, the j-th of them
      with `maxRetries - (from + j + 1)` retries left, followed by one
      terminal event for `url`. A `requestFinished` comes after at most
      `maxRetries - from` failures and counts one success; a
      `requestMaxRetriesReached` comes right after the failure with -1
      retries left, the `maxRetries - from + 1`-th, repeats its error, and
      counts none. */
  ghost predicate LoggedOnce(s: State, t: State, url: Url, from: nat, maxRetries: int)
  {
    && Extends(s, t)
    && var e := Added(s, t);
    && |e| > 0
    && (forall j :: 0 <= j < |e| - 1 ==>
          e[j].RequestFailed? && e[j].url == url && e[j].retriesLeft == maxRetries - (from + j + 1))
    && IsTerminal(e[|e| - 1]) && e[|e| - 1].url == url
    && (e[|e| - 1].RequestFinished? ==> |e| <= maxRetries - from + 1 && t.processed == s.processed + 1)
    && (e[|e| - 1].RequestMaxRetriesReached? ==>
          && |e| == maxRetries - from + 2 && |e| >= 2
          && e[|e| - 2] == RequestFailed(url, e[|e| - 1].error, -1)
          && t.processed == s.processed)
  }

  /** The queue only grows, and not at all while the gate is shut. */
  ghost predicate QueueGrows(s: State, t: State, cap: Limit)
  {
    && |s.queue| <= |t.queue| && t.queue[..|s.queue|] == s.queue
    && (!Admits(s.processed, cap) ==> t.queue == s.queue)
  }

  lemma {:induction false} ProcessFromQueue(s: State, request: Request, handler: Option<Handler>,
                                            outcome: nat -> AttemptOutcome, from: nat, maxRetries: int, cap: Limit)
    ensures var t := ProcessFrom(s, request, handler, outcome, from, maxRetries, cap);
            QueueGrows(s, t, cap) && s.processed <= t.processed
    decreases maxRetries + 1 - from
  {
    if from <= maxRetries {
      var o := outcome(from);
      var s1 := EnqueueAll(s, HandlerCalls(handler, o), cap);
      assert s1.queue[..|s.queue|] == s.queue;
      match AttemptError(handler, o)
      case None =>
      case Some(err) =>
        var failed := [RequestFailed(request.url, err, maxRetries - (from + 1))];
        var exhausted := if from + 1 > maxRetries then [RequestMaxRetriesReached(request.url, err)] else [];
        var s2 := s1.(log := s1.log + failed + exhausted);
        ProcessFromQueue(s2, request, handler, outcome, from + 1, maxRetries, cap);
        var t := ProcessFrom(s2, request, handler, outcome, from + 1, maxRetries, cap);
        assert t.queue[..|s.queue|] == t.queue[..|s2.queue|][..|s.queue|];
    }
  }

  /** The `enqueueRequest` calls of the `n` attempts from attempt `from` on,
      in order. */
  function Calls(handler: Option<Handler>, outcome: nat -> AttemptOutcome, from: nat, n: nat): seq<Request>
    decreases n
  {
    if n == 0 then [] else HandlerCalls(handler, outcome(from)) + Calls(handler, outcome, from + 1, n - 1)
  }

  /** The number of attempts the loop makes from attempt `from` on: up to
      and including the first that succeeds, or all that remain. */
  function Made(handler: Option<Handler>, outcome: nat -> AttemptOutcome, from: nat, maxRetries: int): (m: nat)
    ensures from <= maxRetries ==> 1 <= m <= maxRetries - from + 1
    ensures from > maxRetries ==> m == 0
    decreases maxRetries + 1 - from
  {
    if from > maxRetries then 0
    else if AttemptError(handler, outcome(from)).None? then 1
    else 1 + Made(handler, outcome, from + 1, maxRetries)
  }

  /** What the queue gains: the `enqueueRequest` calls of every attempt made,
      failed and timed-out ones included, in order, when the gate is open;
      nothing when it is shut. */
  lemma ProcessFromGains(s: State, request: Request, handler: Option<Handler>,
                         outcome: nat -> AttemptOutcome, from: nat, maxRetries: int, cap: Limit)
    ensures ProcessFrom(s, request, handler, outcome, from, maxRetries, cap).queue
         == s.queue + (if Admits(s.processed, cap) then Calls(handler, outcome, from, Made(handler, outcome, from, maxRetries)) else [])
  {
    if Admits(s.processed, cap) {
      OpenGateGains(s, request, handler, outcome, from, maxRetries, cap);
    } else {
      ProcessFromQueue(s, request, handler, outcome, from, maxRetries, cap);
      assert s.queue + [] == s.queue;
    }
  }

  /** With the gate open, every attempt's calls are appended. */
  lemma {:induction false} OpenGateGains(s: State, request: Request, handler: Option<Handler>,
                                         outcome: nat -> AttemptOutcome, from: nat, maxRetries: int, cap: Limit)
    requires Admits(s.processed, cap)
    ensures ProcessFrom(s, request, handler, outcome, from, maxRetries, cap).queue
         == s.queue + Calls(handler, outcome, from, Made(handler, outcome, from, maxRetries))
    decreases maxRetries + 1 - from
  {
    var t := ProcessFrom(s, request, handler, outcome, from, maxRetries, cap);
    if from > maxRetries {
      assert t == s;
      assert s.queue + [] == s.queue;
    } else {
      var o := outcome(from);
      var calls := HandlerCalls(handler, o);
      var s1 := EnqueueAll(s, calls, cap);
      assert s1.queue == s.queue + calls && s1.processed == s.processed;
      match AttemptError(handler, o)
      case None =>
        assert t.queue == s1.queue;
        assert Made(handler, outcome, from, maxRetries) == 1;
        assert Calls(handler, outcome, from, 1) == calls + [];
      case Some(err) =>
        var failed := [RequestFailed(request.url, err, maxRetries - (from + 1))];
        var exhausted := if from + 1 > maxRetries then [RequestMaxRetriesReached(request.url, err)] else [];
        var s2 := s1.(log := s1.log + failed + exhausted);
        assert t == ProcessFrom(s2, request, handler, outcome, from + 1, maxRetries, cap);
        OpenGateGains(s2, request, handler, outcome, from + 1, maxRetries, cap);
        FailedAttemptGains(s.queue, s2.queue, t.queue, handler, outcome, from, maxRetries);
    }
  }

  /** A failed attempt's calls go in front of those of the attempts after
      it. */
  lemma FailedAttemptGains(q: seq<Request>, q2: seq<Request>, q': seq<Request>, handler: Option<Handler>,
                           outcome: nat -> AttemptOutcome, from: nat, maxRetries: int)
    requires from <= maxRetries && AttemptError(handler, outcome(from)).Some?
    requires q2 == q + HandlerCalls(handler, outcome(from))
    requires q' == q2 + Calls(handler, outcome, from + 1, Made(handler, outcome, from + 1, maxRetries))
    ensures q' == q + Calls(handler, outcome, from, Made(handler, outcome, from, maxRetries))
  {
    var n' := Made(handler, outcome, from + 1, maxRetries);
    assert Made(handler, outcome, from, maxRetries) == 1 + n';
    assert Calls(handler, outcome, from, 1 + n') == HandlerCalls(handler, outcome(from)) + Calls(handler, outcome, from + 1, n');
  }

  lemma {:induction false} ProcessFromLog(s: State, request: Request, handler: Option<Handler>,
                                          outcome: nat -> AttemptOutcome, from: nat, maxRetries: int, cap: Limit)
    requires from <= maxRetries
    ensures LoggedOnce(s, ProcessFrom(s, request, handler, outcome, from, maxRetries, cap), request.url, from, maxRetries)
    decreases maxRetries - from
  {
    var o := outcome(from);
    var s1 := EnqueueAll(s, HandlerCalls(handler, o), cap);
    var t := ProcessFrom(s, request, handler, outcome, from, maxRetries, cap);
    match AttemptError(handler, o)
    case None =>
      assert Added(s, t) == [RequestFinished(request.url)];
    case Some(err) =>
      var failed := [RequestFailed(request.url, err, maxRetries - (from + 1))];
      var exhausted := if from + 1 > maxRetries then [RequestMaxRetriesReached(request.url, err)] else [];
      var s2 := s1.(log := s1.log + failed + exhausted);
      assert t == ProcessFrom(s2, request, handler, outcome, from + 1, maxRetries, cap);
      if from + 1 > maxRetries {
        FinalFailureLogged(s, s2, request.url, err, from, maxRetries);
      } else {
        ProcessFromLog(s2, request, handler, outcome, from + 1, maxRetries, cap);
        EarlyFailureLogged(s, s2, t, request.url, err, from, maxRetries);
      }
  }

  /** The last attempt failed: the loop ends with its two events. */
  lemma FinalFailureLogged(s: State, s2: State, url: Url, err: Error, from: nat, maxRetries: int)
    requires from == maxRetries
    requires s2.processed == s.processed
    requires s2.log == s.log + [RequestFailed(url, err, -1)] + [RequestMaxRetriesReached(url, err)]
    ensures LoggedOnce(s, s2, url, from, maxRetries)
  {
    assert Added(s, s2) == [RequestFailed(url, err, -1), RequestMaxRetriesReached(url, err)];
  }

  /** An attempt before the last failed: its event goes in front of what the
      remaining attempts log. */
  lemma EarlyFailureLogged(s: State, s2: State, t: State, url: Url, err: Error, from: nat, maxRetries: int)
    requires from < maxRetries
    requires s2.processed == s.processed
    requires s2.log == s.log + [RequestFailed(url, err, maxRetries - (from + 1))]
    requires LoggedOnce(s2, t, url, from + 1, maxRetries)
    ensures LoggedOnce(s, t, url, from, maxRetries)
  {
    var e' := Added(s2, t);
    assert t.log == s2.log + e';
    assert Added(s, t) == [RequestFailed(url, err, maxRetries - (from + 1))] + e';
  }

  /** Events `e` follow the attempts' outcomes from attempt `from` on: the
      j-th `requestFailed` carries the error of attempt `from + j`,
      `requestFinished` follows an attempt that succeeded, and the request
      is given up exactly when every attempt up to `maxRetries` fails. */
  ghost predicate OutcomesLogged(e: seq<Event>, handler: Option<Handler>, outcome: nat -> AttemptOutcome,
                                 from: nat, maxRetries: int)
  {
    && |e| > 0
    && (e[|e| - 1].RequestMaxRetriesReached? <==>
          forall k :: from <= k <= maxRetries ==> AttemptError(handler, outcome(k)).Some?)
    && (forall j :: 0 <= j < |e| && e[j].RequestFailed? ==> Some(e[j].error) == AttemptError(handler, outcome(from + j)))
    && (e[|e| - 1].RequestFinished? ==> AttemptError(handler, outcome(from + |e| - 1)).None?)
  }

  /** The events `t` added to the log of `s` follow the outcomes. */
  ghost predicate FollowsOutcomes(s: State, t: State, handler: Option<Handler>, outcome: nat -> AttemptOutcome,
                                  from: nat, maxRetries: int)
  {
    Extends(s, t) && OutcomesLogged(Added(s, t), handler, outcome, from, maxRetries)
  }

  lemma {:induction false} ProcessFromOutcomes(s: State, request: Request, handler: Option<Handler>,
                                               outcome: nat -> AttemptOutcome, from: nat, maxRetries: int, cap: Limit)
    requires from <= maxRetries
    ensures FollowsOutcomes(s, ProcessFrom(s, request, handler, outcome, from, maxRetries, cap), handler, outcome, from, maxRetries)
    decreases maxRetries - from
  {
    var o := outcome(from);
    var s1 := EnqueueAll(s, HandlerCalls(handler, o), cap);
    var t := ProcessFrom(s, request, handler, outcome, from, maxRetries, cap);
    match AttemptError(handler, o)
    case None =>
      assert Added(s, t) == [RequestFinished(request.url)];
    case Some(err) =>
      var failed := [RequestFailed(request.url, err, maxRetries - (from + 1))];
      var exhausted := if from + 1 > maxRetries then [RequestMaxRetriesReached(request.url, err)] else [];
      var s2 := s1.(log := s1.log + failed + exhausted);
      assert t == ProcessFrom(s2, request, handler, outcome, from + 1, maxRetries, cap);
      if from + 1 > maxRetries {
        FinalFailureFollows(s, s2, request.url, err, handler, outcome, from, maxRetries);
      } else {
        ProcessFromOutcomes(s2, request, handler, outcome, from + 1, maxRetries, cap);
        EarlyFailureFollows(s, s2, t, request.url, err, handler, outcome, from, maxRetries);
      }
  }

  /** The last attempt failed: its error is on the `requestFailed`, and every
      attempt has failed. */
  lemma FinalFailureFollows(s: State, s2: State, url: Url, err: Error, handler: Option<Handler>,
                            outcome: nat -> AttemptOutcome, from: nat, maxRetries: int)
    requires from == maxRetries
    requires AttemptError(handler, outcome(from)) == Some(err)
    requires s2.log == s.log + [RequestFailed(url, err, -1)] + [RequestMaxRetriesReached(url, err)]
    ensures FollowsOutcomes(s, s2, handler, outcome, from, maxRetries)
  {
    assert Added(s, s2) == [RequestFailed(url, err, -1), RequestMaxRetriesReached(url, err)];
  }

  /** An attempt before the last failed: its error goes in front of what the
      remaining attempts log. */
  lemma EarlyFailureFollows(s: State, s2: State, t: State, url: Url, err: Error, handler: Option<Handler>,
                            outcome: nat -> AttemptOutcome, from: nat, maxRetries: int)
    requires from < maxRetries
    requires AttemptError(handler, outcome(from)) == Some(err)
    requires s2.log == s.log + [RequestFailed(url, err, maxRetries - (from + 1))]
    requires FollowsOutcomes(s2, t, handler, outcome, from + 1, maxRetries)
    ensures FollowsOutcomes(s, t, handler, outcome, from, maxRetries)
  {
    var e' := Added(s2, t);
    assert t.log == t.log[..|s2.log|] + t.log[|s2.log|..];
    assert t.log == s2.log + e';
    assert Added(s, t) == [RequestFailed(url, err, maxRetries - (from + 1))] + e';
    FailureInFront(e', RequestFailed(url, err, maxRetries - (from + 1)), handler, outcome, from, maxRetries);
  }

  /** The failure of attempt `from` in front of the events of the attempts
      after it. */
  lemma FailureInFront(e': seq<Event>, f: Event, handler: Option<Handler>, outcome: nat -> AttemptOutcome,
                       from: nat, maxRetries: int)
    requires from < maxRetries
    requires f.RequestFailed? && AttemptError(handler, outcome(from)) == Some(f.error)
    requires OutcomesLogged(e', handler, outcome, from + 1, maxRetries)
    ensures OutcomesLogged([f] + e', handler, outcome, from, maxRetries)
  {
    var e := [f] + e';
    assert forall j :: 1 <= j < |e| ==> e[j] == e'[j - 1];
  }

  /** For a whole request: it is given up exactly when all `maxRetries + 1`
      attempts fail; each `requestFailed` carries its own attempt's error;
      `requestFinished` comes from the first attempt that succeeds. */
  lemma OutcomesDecideTheRequest(s: State, request: Request, handler: Option<Handler>,
                                 outcome: nat -> AttemptOutcome, maxRetries: int, cap: Limit)
    requires 0 <= maxRetries
    ensures var t := Process(s, request, handler, outcome, maxRetries, cap);
            && Extends(s, t)
            && var e := Added(s, t);
            && |e| > 0
            && (e[|e| - 1].RequestMaxRetriesReached? <==>
                  forall k :: 0 <= k <= maxRetries ==> AttemptError(handler, outcome(k)).Some?)
            && (forall j :: 0 <= j < |e| && e[j].RequestFailed? ==> Some(e[j].error) == AttemptError(handler, outcome(j)))
            && (e[|e| - 1].RequestFinished? ==>
                  && AttemptError(handler, outcome(|e| - 1)).None?
                  && forall k :: 0 <= k < |e| - 1 ==> AttemptError(handler, outcome(k)).Some?)
  {
    var t := Process(s, request, handler, outcome, maxRetries, cap);
    ProcessFromOutcomes(s, request, handler, outcome, 0, maxRetries, cap);
    ProcessFromLog(s, request, handler, outcome, 0, maxRetries, cap);
    var e := Added(s, t);
    forall k | 0 <= k < |e| - 1
      ensures AttemptError(handler, outcome(k)).Some?
    {
      assert e[k].RequestFailed?;
    }
  }

  /** A request is processed with exactly one terminal event, the last one it
      adds: `requestFinished` or `requestMaxRetriesReached`, never both. */
  lemma ExactlyOneTerminalEvent(s: State, request: Request, handler: Option<Handler>,
                                outcome: nat -> AttemptOutcome, maxRetries: int, cap: Limit)
    requires 0 <= maxRetries
    ensures var t := Process(s, request, handler, outcome, maxRetries, cap);
            && Extends(s, t)
            && var e := Added(s, t);
            && |e| > 0 && IsTerminal(e[|e| - 1])
            && (forall j :: 0 <= j < |e| - 1 ==> !IsTerminal(e[j]))
            && Count(e, IsTerminal) == 1
  {
    var t := Process(s, request, handler, outcome, maxRetries, cap);
    ProcessFromLog(s, request, handler, outcome, 0, maxRetries, cap);
    var e := Added(s, t);
    var front := e[..|e| - 1];
    assert e == front + [e[|e| - 1]];
    CountNone(front, IsTerminal);
    CountAppend(front, [e[|e| - 1]], IsTerminal);
  }

  /** At most `maxRetries + 1` attempts; exactly that many when the request
      is given up. */
  lemma AttemptsBounded(s: State, request: Request, handler: Option<Handler>,
                        outcome: nat -> AttemptOutcome, maxRetries: int, cap: Limit)
    requires 0 <= maxRetries
    ensures var t := Process(s, request, handler, outcome, maxRetries, cap);
            && Extends(s, t)
            && var e := Added(s, t);
            && |e| > 0
            && Count(e, IsAttempt) <= maxRetries + 1
            && (e[|e| - 1].RequestMaxRetriesReached? ==> Count(e, IsAttempt) == maxRetries + 1)
  {
    var t := Process(s, request, handler, outcome, maxRetries, cap);
    ProcessFromLog(s, request, handler, outcome, 0, maxRetries, cap);
    var e := Added(s, t);
    var front := e[..|e| - 1];
    assert e == front + [e[|e| - 1]];
    CountAll(front, IsAttempt);
    CountAppend(front, [e[|e| - 1]], IsAttempt);
  }

  /** The i-th failure (1-based) reports `maxRetries - i` retries left; that
      is -1 exactly on the failure that `requestMaxRetriesReached` follows. */
  lemma RetriesLeftSchedule(s: State, request: Request, handler: Option<Handler>,
                            outcome: nat -> AttemptOutcome, maxRetries: int, cap: Limit)
    requires 0 <= maxRetries
    ensures var t := Process(s, request, handler, outcome, maxRetries, cap);
            && Extends(s, t)
            && var e := Added(s, t);
            && forall j :: 0 <= j < |e| && e[j].RequestFailed? ==>
                 && e[j].retriesLeft == maxRetries - (j + 1)
                 && (e[j].retriesLeft == -1 <==> j + 1 < |e| && e[j + 1].RequestMaxRetriesReached?)
  {
    ProcessFromLog(s, request, handler, outcome, 0, maxRetries, cap);
  }

  /** `processedRequests` grows by the number of `requestFinished` events the
      request adds, which is at most one. */
  lemma SuccessCounted(s: State, request: Request, handler: Option<Handler>,
                       outcome: nat -> AttemptOutcome, maxRetries: int, cap: Limit)
    ensures var t := Process(s, request, handler, outcome, maxRetries, cap);
            && Extends(s, t)
            && Count(Added(s, t), IsFinished) <= 1
            && t.processed == s.processed + Count(Added(s, t), IsFinished)
  {
    var t := Process(s, request, handler, outcome, maxRetries, cap);
    if 0 <= maxRetries {
      ProcessFromLog(s, request, handler, outcome, 0, maxRetries, cap);
      var e := Added(s, t);
      var front := e[..|e| - 1];
      assert e == front + [e[|e| - 1]];
      CountNone(front, IsFinished);
      CountAppend(front, [e[|e| - 1]], IsFinished);
    } else {
      assert Added(s, t) == [];
    }
  }

  /** A negative budget: the loop body never runs, nothing is emitted. */
  lemma NegativeBudgetDoesNothing(s: State, request: Request, handler: Option<Handler>,
                                  outcome: nat -> AttemptOutcome, maxRetries: int, cap: Limit)
    requires maxRetries < 0
    ensures Process(s, request, handler, outcome, maxRetries, cap) == s
  {
  }

  /** With no handler to run, a navigation that succeeds is a success at once:
      one `requestFinished`, one more processed request, nothing enqueued. */
  lemma NoHandlerStillSucceeds(s: State, request: Request, outcome: nat -> AttemptOutcome, maxRetries: int, cap: Limit)
    requires 0 <= maxRetries && outcome(0).Navigated?
    ensures Process(s, request, None, outcome, maxRetries, cap)
            == s.(processed := s.processed + 1, log := s.log + [RequestFinished(request.url)])
  {
  }
}

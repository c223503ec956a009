/** The run lifecycle: the pre-task handlers, and the draining of the queue
    one request at a time (the `maxConcurrency = 1` schedule). */
module Lifecycle {
  import opened Wrappers
  import opened Types
  import opened Registry
  import opened Executor

  /** What a crawl run holds fixed: the registry, the pattern test, and the
      two limits the executor reads. */
  datatype Rules = Rules(handlers: seq<Entry>, default: Option<Handler>, matches: (Pattern, Url) -> bool,
                         maxRetries: int, cap: Limit)

  /** One worker step: take the request at the head of the queue and
      process it with the handler the registry resolves for it and the
      outcomes `oracle(n)`. */
  function Step(s: State, rules: Rules, oracle: nat -> nat -> AttemptOutcome, n: nat): (t: State)
    requires s.queue != []
    ensures s.processed <= t.processed <= s.processed + 1
  {
    var request := s.queue[0];
    var handler := Resolve(rules.handlers, rules.default, request.url, rules.matches);
    Process(s.(queue := s.queue[1..]), request, handler, oracle(n), rules.maxRetries, rules.cap)
  }

  /** Worker steps until the queue is empty, for at most `fuel` requests.
      Handlers can keep enqueueing, so the queue need not drain; `fuel`
      bounds the model's run. */
  function DrainFrom(s: State, rules: Rules, oracle: nat -> nat -> AttemptOutcome, n: nat, fuel: nat): (t: State)
    ensures s.processed <= t.processed <= s.processed + fuel
    decreases fuel
  {
    if fuel == 0 || s.queue == [] then s
    else DrainFrom(Step(s, rules, oracle, n), rules, oracle, n + 1, fuel - 1)
  }

  /** `processedRequests` grows by exactly the number of `requestFinished`
      events the drain emits: it counts successes and nothing else. */
  lemma {:induction false} DrainCountsSuccesses(s: State, rules: Rules, oracle: nat -> nat -> AttemptOutcome, n: nat, fuel: nat)
    ensures var t := DrainFrom(s, rules, oracle, n, fuel);
            && Extends(s, t)
            && t.processed == s.processed + Count(Added(s, t), IsFinished)
    decreases fuel
  {
    if fuel != 0 && s.queue != [] {
      var request := s.queue[0];
      var handler := Resolve(rules.handlers, rules.default, request.url, rules.matches);
      var s0 := s.(queue := s.queue[1..]);
      var s1 := Step(s, rules, oracle, n);
      var t := DrainFrom(s1, rules, oracle, n + 1, fuel - 1);
      SuccessCounted(s0, request, handler, oracle(n), rules.maxRetries, rules.cap);
      DrainCountsSuccesses(s1, rules, oracle, n + 1, fuel - 1);
      LogsCompose(s, s1, t);
      CountAppend(Added(s, s1), Added(s1, t), IsFinished);
    } else {
      assert Added(s, s) == [];
    }
  }

  lemma LogsCompose(s: State, s1: State, t: State)
    requires Extends(s, s1) && Extends(s1, t)
    ensures Extends(s, t) && Added(s, t) == Added(s, s1) + Added(s1, t)
  {
    assert t.log == s1.log + Added(s1, t);
  }

  /** The cap is checked only on admission: once `processedRequests` has
      reached it no request is admitted any more, so the drain only consumes
      what is already queued, and each of those adds at most one success. */
  lemma {:induction false} DrainAfterCap(s: State, rules: Rules, oracle: nat -> nat -> AttemptOutcome, n: nat, fuel: nat)
    requires !Admits(s.processed, rules.cap)
    ensures var t := DrainFrom(s, rules, oracle, n, fuel);
            && |t.queue| <= |s.queue|
            && t.queue == s.queue[|s.queue| - |t.queue|..]
            && s.processed <= t.processed <= s.processed + (|s.queue| - |t.queue|)
    decreases fuel
  {
    if fuel != 0 && s.queue != [] {
      var request := s.queue[0];
      var handler := Resolve(rules.handlers, rules.default, request.url, rules.matches);
      var s0 := s.(queue := s.queue[1..]);
      var s1 := Step(s, rules, oracle, n);
      ProcessFromQueue(s0, request, handler, oracle(n), 0, rules.maxRetries, rules.cap);
      SuccessCounted(s0, request, handler, oracle(n), rules.maxRetries, rules.cap);
      GateStaysShut(s.processed, s1.processed, rules.cap);
      DrainAfterCap(s1, rules, oracle, n + 1, fuel - 1);
      var t := DrainFrom(s1, rules, oracle, n + 1, fuel - 1);
      assert s1.queue == s.queue[1..];
      assert s.queue[1..][|s1.queue| - |t.queue|..] == s.queue[|s.queue| - |t.queue|..];
    }
  }

  /** The number of pre-task handlers invoked from position `i` of `n`: they
      run in order, and the first one that fails is the last one invoked (its
      rejection aborts the run). */
  function HooksInvoked(n: nat, fails: nat -> Option<Error>, i: nat): (k: nat)
    requires i <= n
    ensures i <= k <= n
    ensures k == i <==> i == n
    ensures forall j :: i <= j < k - 1 ==> fails(j).None?
    ensures k < n ==> fails(k - 1).Some?
    decreases n - i
  {
    if i == n then n
    else if fails(i).Some? then i + 1
    else HooksInvoked(n, fails, i + 1)
  }

  /** The rejection that aborts the pre-task phase, if any: that of the last
      handler invoked. */
  function HookError(n: nat, fails: nat -> Option<Error>): (e: Option<Error>)
    ensures e.None? ==> HooksInvoked(n, fails, 0) == n
  {
    var k := HooksInvoked(n, fails, 0);
    if k > 0 then fails(k - 1) else None
  }

  /** The phase fails exactly when some handler rejects, and then with the
      rejection of the first one that does. */
  lemma HookErrorIsFirstRejection(n: nat, fails: nat -> Option<Error>)
    ensures HookError(n, fails).None? <==> forall j :: 0 <= j < n ==> fails(j).None?
    ensures HookError(n, fails).Some? ==>
              exists j :: 0 <= j < n && HookError(n, fails) == fails(j) &&
                          forall i :: 0 <= i < j ==> fails(i).None?
  {
    var k := HooksInvoked(n, fails, 0);
    if k > 0 && fails(k - 1).Some? {
      assert 0 <= k - 1 < n && HookError(n, fails) == fails(k - 1);
    }
  }

  /** The trace of calling the pre-task handlers `hooks`, in order. */
  function HookTrace(hooks: seq<PreTaskHandler>): (trace: seq<Event>)
    ensures |trace| == |hooks|
  {
    if hooks == [] then []
    else HookTrace(hooks[..|hooks| - 1]) + [PreTaskHandlerRan(hooks[|hooks| - 1])]
  }

  /** Position `i` of the trace records the `i`-th handler. */
  lemma {:induction false} HookTraceInOrder(hooks: seq<PreTaskHandler>)
    ensures forall i :: 0 <= i < |hooks| ==> HookTrace(hooks)[i] == PreTaskHandlerRan(hooks[i])
  {
    if hooks != [] {
      var init := hooks[..|hooks| - 1];
      HookTraceInOrder(init);
      assert forall i :: 0 <= i < |init| ==> hooks[i] == init[i];
    }
  }
}

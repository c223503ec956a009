/** The `Crawler` class: its fields, and each of its methods proved against
    the functions of Options, Registry, Executor and Lifecycle. */
module Crawl {
  import opened Wrappers
  import opened Types
  import opened Options
  import opened Registry
  import opened Executor
  import opened Lifecycle

  /** A browser or browser context: not launched yet (`null`), open, or
      closed. */
  datatype Handle = Absent | Open | Closed

  /** A page opened for one request; only whether it was closed is modelled. */
  class Page {
    var closed: bool

    constructor ()
      ensures !closed
    {
      closed := false;
    }
  }

  /** The error `processRequest` throws before `initialize` has run. */
  const ContextNotInitialized: Error := Error("Browser context is not initialized")
  /** The rejection of `newPage` on a context that `close` has closed. */
  const ContextClosed: Error := Error("Browser context is closed")

  /** How `run` ends: the queue drained and the browser closed; a pre-task
      handler rejected (the run aborts with the browser still open); or the
      model's fuel ran out with requests still queued (the source's run would
      still be waiting for the queue to go idle). */
  datatype RunResult = Drained | PreTaskFailed(error: Error) | StillDraining

  class Crawler {
    const options: Config
    /** `new RegExp(pattern).test(url)`, supplied by the environment. */
    const matches: (Pattern, Url) -> bool
    var browser: Handle
    var context: Handle
    var requestHandlers: seq<Entry>
    var defaultRequestHandler: Option<Handler>
    var preTaskHandlers: seq<PreTaskHandler>
    var processedRequests: nat
    /** The requests added to the work queue and not yet taken by a worker. */
    var queue: seq<Request>
    /** The events emitted, in order. */
    var log: seq<Event>

    ghost predicate Valid()
      reads this
    {
      DistinctPatterns(requestHandlers)
    }

    function Snapshot(): State
      reads this`processedRequests, this`queue, this`log
    {
      State(processedRequests, queue, log)
    }

    function CrawlRules(): Rules
      reads this`requestHandlers, this`defaultRequestHandler
    {
      Rules(requestHandlers, defaultRequestHandler, matches, options.maxRetries, options.maxRequestsPerCrawl)
    }

    constructor (opts: CrawlerOptions, matches: (Pattern, Url) -> bool)
      ensures Valid()
      ensures options == Merge(opts) && this.matches == matches
      ensures browser == Absent && context == Absent
      ensures requestHandlers == [] && defaultRequestHandler == None && preTaskHandlers == []
      ensures processedRequests == 0 && queue == [] && log == []
    {
      options := Merge(opts);
      this.matches := matches;
      browser, context := Absent, Absent;
      requestHandlers, defaultRequestHandler, preTaskHandlers := [], None, [];
      processedRequests, queue, log := 0, [], [];
    }

    /** Launch the browser and open its context. */
    method Initialize()
      modifies this`browser, this`context
      ensures browser == Open && context == Open
    {
      browser := Open;
      context := Open;
    }

    /** Close the context, then the browser, each only if it was launched. */
    method Close()
      modifies this`browser, this`context
      ensures context == if old(context) == Absent then Absent else Closed
      ensures browser == if old(browser) == Absent then Absent else Closed
    {
      if context != Absent {
        context := Closed;
      }
      if browser != Absent {
        browser := Closed;
      }
    }

    method AddRequestHandler(urlPattern: Pattern, handler: Handler)
      requires Valid()
      modifies this`requestHandlers
      ensures Valid()
      ensures forall i :: 0 <= i < |old(requestHandlers)| && old(requestHandlers)[i].pattern == urlPattern ==>
                requestHandlers == old(requestHandlers)[i := Entry(urlPattern, handler)]
      ensures (forall i :: 0 <= i < |old(requestHandlers)| ==> old(requestHandlers)[i].pattern != urlPattern) ==>
                requestHandlers == old(requestHandlers) + [Entry(urlPattern, handler)]
    {
      requestHandlers := MapSet(requestHandlers, urlPattern, handler);
    }

    method SetDefaultHandler(handler: Handler)
      modifies this`defaultRequestHandler
      ensures defaultRequestHandler == Some(handler)
    {
      defaultRequestHandler := Some(handler);
    }

    method AddPreTaskHandler(handler: PreTaskHandler)
      modifies this`preTaskHandlers
      ensures preTaskHandlers == old(preTaskHandlers) + [handler]
    {
      preTaskHandlers := preTaskHandlers + [handler];
    }

    /** Scan the entries in insertion order and return the first matching
      one's handler. */
    method FindMatchingHandler(url: Url) returns (h: Option<Handler>)
      ensures h == MatchingHandler(requestHandlers, url, matches)
    {
      for i := 0 to |requestHandlers|
        invariant MatchingHandler(requestHandlers[i..], url, matches) == MatchingHandler(requestHandlers, url, matches)
      {
        assert requestHandlers[i..][1..] == requestHandlers[i + 1..];
        if matches(requestHandlers[i].pattern, url) {
          return Some(requestHandlers[i].handler);
        }
      }
      return None;
    }

    method EnqueueRequest(request: Request)
      modifies this`queue
      ensures Snapshot() == Enqueue(old(Snapshot()), request, options.maxRequestsPerCrawl)
    {
      if !Admits(processedRequests, options.maxRequestsPerCrawl) {
        return;
      }
      queue := queue + [request];
    }

    /** `enqueueRequest` on each of `requests`, in order. */
    method EnqueueEach(requests: seq<Request>)
      modifies this`queue
      ensures Snapshot() == EnqueueAll(old(Snapshot()), requests, options.maxRequestsPerCrawl)
    {
      for i := 0 to |requests|
        invariant queue == old(queue) + (if Admits(processedRequests, options.maxRequestsPerCrawl) then requests[..i] else [])
      {
        assert requests[..i + 1] == requests[..i] + [requests[i]];
        EnqueueRequest(requests[i]);
      }
      assert requests[..|requests|] == requests;
    }

    /** The body of one attempt up to its outcome: navigate; resolve the
      handler; if there is one, run it (its `enqueueRequest` calls take
      effect) and race it against the timeout. Returns the error that fails
      the attempt, if any. */
    method Attempt(request: Request, o: AttemptOutcome) returns (failure: Option<Error>)
      modifies this`queue
      ensures var handler := Resolve(requestHandlers, defaultRequestHandler, request.url, matches);
              && failure == AttemptError(handler, o)
              && Snapshot() == EnqueueAll(old(Snapshot()), HandlerCalls(handler, o), options.maxRequestsPerCrawl)
    {
      if o.NavigationFailed? {
        return Some(o.error);
      }
      var h := FindMatchingHandler(request.url);
      if h.None? {
        h := defaultRequestHandler;
      }
      if h.Some? {
        EnqueueEach(o.enqueued);
        match o.result
        case Completed => failure := None;
        case Threw(e) => failure := Some(e);
        case TimedOut => failure := Some(HandlerTimeoutError);
      } else {
        failure := None;
      }
    }

    /** Process one request: open a page, make up to `maxRetries + 1`
      attempts whose outcomes `outcome(0)`, `outcome(1)`, ... the environment
      decides, and close the page. */
    method ProcessRequest(request: Request, outcome: nat -> AttemptOutcome) returns (page: Page?, error: Option<Error>)
      modifies this`queue, this`processedRequests, this`log
      ensures context == Absent ==> error == Some(ContextNotInitialized)
      ensures context == Closed ==> error == Some(ContextClosed)
      ensures error.Some? ==> page == null && Snapshot() == old(Snapshot())
      ensures context == Open ==> error.None? && page != null && fresh(page) && page.closed
      ensures context == Open ==>
                Snapshot() == Process(old(Snapshot()), request, Resolve(requestHandlers, defaultRequestHandler, request.url, matches),
                                      outcome, options.maxRetries, options.maxRequestsPerCrawl)
    {
      if context == Absent {
        return null, Some(ContextNotInitialized);
      } else if context == Closed {
        return null, Some(ContextClosed);
      }
      page := new Page();
      error := None;
      ghost var handler := Resolve(requestHandlers, defaultRequestHandler, request.url, matches);
      ghost var target := Process(Snapshot(), request, handler, outcome, options.maxRetries, options.maxRequestsPerCrawl);
      var retries: nat := 0;
      while retries <= options.maxRetries
        invariant fresh(page) && !page.closed
        invariant ProcessFrom(Snapshot(), request, handler, outcome, retries, options.maxRetries, options.maxRequestsPerCrawl) == target
        decreases options.maxRetries - retries
      {
        var failure := Attempt(request, outcome(retries));
        if failure.None? {
          processedRequests := processedRequests + 1;
          log := log + [RequestFinished(request.url)];
          break;
        }
        ghost var attempted := Snapshot();
        retries := retries + 1;
        log := log + [RequestFailed(request.url, failure.value, options.maxRetries - retries)];
        if retries > options.maxRetries {
          log := log + [RequestMaxRetriesReached(request.url, failure.value)];
        }
        assert Snapshot() == attempted.(log := attempted.log + [RequestFailed(request.url, failure.value, options.maxRetries - retries)]
                                        + (if retries > options.maxRetries then [RequestMaxRetriesReached(request.url, failure.value)] else []));
      }
      page.closed := true;
    }

    /** The worker loop with concurrency 1: take the head of the queue and
      process it, until the queue is empty or `fuel` requests were taken. */
    method Drain(oracle: nat -> nat -> AttemptOutcome, fuel: nat)
      requires context == Open
      modifies this`queue, this`processedRequests, this`log
      ensures Snapshot() == DrainFrom(old(Snapshot()), CrawlRules(), oracle, 0, fuel)
    {
      ghost var rules := CrawlRules();
      var n: nat := 0;
      while n < fuel && queue != []
        invariant n <= fuel
        invariant DrainFrom(Snapshot(), rules, oracle, n, fuel - n) == DrainFrom(old(Snapshot()), rules, oracle, 0, fuel)
      {
        ghost var before := Snapshot();
        var request := queue[0];
        queue := queue[1..];
        assert Snapshot() == before.(queue := before.queue[1..]);
        var page, error := ProcessRequest(request, oracle(n));
        assert Snapshot() == Step(before, rules, oracle, n);
        n := n + 1;
      }
    }

    /** Call each pre-task handler in registration order; `fails(i)` is the
      rejection of the i-th, if any, which stops the loop. */
    method RunPreTaskHandlers(fails: nat -> Option<Error>) returns (error: Option<Error>)
      modifies this`log
      ensures error == HookError(|preTaskHandlers|, fails)
      ensures log == old(log) + HookTrace(preTaskHandlers[..HooksInvoked(|preTaskHandlers|, fails, 0)])
      ensures error.None? ==> log == old(log) + HookTrace(preTaskHandlers)
    {
      var hooks := preTaskHandlers;
      ghost var k := HooksInvoked(|hooks|, fails, 0);
      var trace: seq<Event> := [];
      var i := 0;
      while i < |hooks|
        invariant 0 <= i <= |hooks|
        invariant forall j :: 0 <= j < i ==> fails(j).None?
        invariant trace == HookTrace(hooks[..i])
        invariant HooksInvoked(|hooks|, fails, i) == k
      {
        assert hooks[..i + 1][..i] == hooks[..i];
        trace := trace + [PreTaskHandlerRan(hooks[i])];
        if fails(i).Some? {
          assert HooksInvoked(|hooks|, fails, i) == i + 1;
          log := log + trace;
          return fails(i);
        }
        i := i + 1;
      }
      assert hooks[..i] == hooks;
      log := log + trace;
      return None;
    }

    /** `run(startRequests)`: initialize, the pre-task handlers in order, the
      seeds in order, drain the queue, close. */
    method Run(startRequests: seq<Request>, fails: nat -> Option<Error>, oracle: nat -> nat -> AttemptOutcome, fuel: nat)
      returns (result: RunResult)
      modifies this`browser, this`context, this`queue, this`processedRequests, this`log
      ensures HookError(|preTaskHandlers|, fails).Some? ==>
                && result == PreTaskFailed(HookError(|preTaskHandlers|, fails).value)
                && Snapshot() == old(Snapshot()).(log := old(log) + HookTrace(preTaskHandlers[..HooksInvoked(|preTaskHandlers|, fails, 0)]))
                && browser == Open && context == Open
      ensures HookError(|preTaskHandlers|, fails).None? ==>
                && Snapshot() == DrainFrom(EnqueueAll(old(Snapshot()).(log := old(log) + HookTrace(preTaskHandlers)),
                                                      startRequests, options.maxRequestsPerCrawl),
                                           CrawlRules(), oracle, 0, fuel)
                && (result == Drained <==> queue == [])
                && (result != Drained ==> result == StillDraining && browser == Open && context == Open)
                && (result == Drained ==> browser == Closed && context == Closed)
    {
      Initialize();
      var error := RunPreTaskHandlers(fails);
      if error.Some? {
        return PreTaskFailed(error.value);
      }
      ghost var hooked := old(Snapshot()).(log := old(log) + HookTrace(preTaskHandlers));
      assert Snapshot() == hooked;
      EnqueueEach(startRequests);
      Drain(oracle, fuel);
      if queue != [] {
        return StillDraining;
      }
      Close();
      return Drained;
    }
  }
}

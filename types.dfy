/** The values the crawler works on: the caller's options, requests, handlers,
    the outcomes the environment decides, and the events the crawler emits. */
module Types {
  import opened Wrappers

  type Url = string
  type Pattern = string

  /** The three browser engines a crawl can be run with. */
  datatype BrowserType = Chromium | Firefox | Webkit

  /** `maxRequestsPerCrawl`: a number, or JavaScript's `Infinity`. */
  datatype Limit = Infinity | Finite(n: int)

  /** The options a caller passes to the constructor; `None` is a key the
      caller left out. */
  datatype CrawlerOptions = CrawlerOptions(
    maxConcurrency: Option<int>,
    maxRequestsPerCrawl: Option<Limit>,
    browserType: Option<BrowserType>,
    headless: Option<bool>,
    userAgent: Option<string>,
    timeout: Option<int>,
    maxRetries: Option<int>,
    downloadTimeout: Option<int>,
    requestHandlerTimeoutSecs: Option<int>)

  /** The options after the defaults are filled in: every key present. */
  datatype Config = Config(
    maxConcurrency: int,
    maxRequestsPerCrawl: Limit,
    browserType: BrowserType,
    headless: bool,
    userAgent: string,
    timeout: int,
    maxRetries: int,
    downloadTimeout: int,
    requestHandlerTimeoutSecs: int)

  /** One location to crawl. Only `url` is read by the crawler; `userData` is
      opaque to it and is kept here as text; `httpMethod` is the option
      `method` (a keyword in Dafny). */
  datatype Request = Request(
    url: Url,
    userData: Option<string>,
    headers: Option<map<string, string>>,
    httpMethod: Option<string>,
    payload: Option<string>)

  /** A caller-supplied request handler or pre-task handler, known to the model
      only by its identity. */
  datatype Handler = Handler(name: string)
  datatype PreTaskHandler = PreTaskHandler(name: string)

  datatype Error = Error(message: string)

  /** How a handler call settles: it resolves, it rejects, or it loses the race
      against the handler timeout. */
  datatype HandlerOutcome = Completed | Threw(error: Error) | TimedOut

  /** What the environment decides about one attempt: the navigation fails, or
      it succeeds and the handler (if one runs) makes the `enqueueRequest` calls
      in `enqueued` before it settles with `result`. */
  datatype AttemptOutcome =
    | NavigationFailed(error: Error)
    | Navigated(enqueued: seq<Request>, result: HandlerOutcome)

  /** The crawler's observable trace: the three events it emits, and the calls
      of the pre-task handlers. */
  datatype Event =
    | PreTaskHandlerRan(hook: PreTaskHandler)
    | RequestFinished(url: Url)
    | RequestFailed(url: Url, error: Error, retriesLeft: int)
    | RequestMaxRetriesReached(url: Url, error: Error)

  /** The part of the crawler's state a crawl changes. */
  datatype State = State(processed: nat, queue: seq<Request>, log: seq<Event>)

  predicate IsFinished(e: Event) { e.RequestFinished? }
  /** An event that ends the processing of a request. */
  predicate IsTerminal(e: Event) { e.RequestFinished? || e.RequestMaxRetriesReached? }
  /** An event emitted once per attempt. */
  predicate IsAttempt(e: Event) { e.RequestFinished? || e.RequestFailed? }

  /** The number of events in `es` that satisfy `p`. */
  function Count(es: seq<Event>, p: Event -> bool): nat
  {
    if es == [] then 0
    else Count(es[..|es| - 1], p) + (if p(es[|es| - 1]) then 1 else 0)
  }

  lemma {:induction false} CountAppend(a: seq<Event>, b: seq<Event>, p: Event -> bool)
    ensures Count(a + b, p) == Count(a, p) + Count(b, p)
    decreases |b|
  {
    if b != [] {
      assert (a + b)[..|a + b| - 1] == a + b[..|b| - 1];
      CountAppend(a, b[..|b| - 1], p);
    } else {
      assert a + b == a;
    }
  }

  lemma {:induction false} CountAll(es: seq<Event>, p: Event -> bool)
    requires forall i :: 0 <= i < |es| ==> p(es[i])
    ensures Count(es, p) == |es|
    decreases |es|
  {
    if es != [] {
      CountAll(es[..|es| - 1], p);
    }
  }

  lemma {:induction false} CountNone(es: seq<Event>, p: Event -> bool)
    requires forall i :: 0 <= i < |es| ==> !p(es[i])
    ensures Count(es, p) == 0
    decreases |es|
  {
    if es != [] {
      CountNone(es[..|es| - 1], p);
    }
  }
}

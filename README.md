# A verified model of the crawler's orchestration core

This project models the `Crawler` class of a Playwright-based web crawler
(`src/crawler.ts`) in Dafny and proves the rules that class follows:

- **Options.** The constructor spreads the caller's options over fixed defaults.
- **Handler registry.** Handlers live in a JavaScript `Map` from pattern string to handler, iterated in insertion order, with one optional default handler.
- **Dispatch.** A request goes to the first registered pattern that matches its URL, else to the default handler, else to no handler. A request with no handler succeeds as soon as its navigation succeeds.
- **Admission gate.** `enqueueRequest` drops a request once `processedRequests >= maxRequestsPerCrawl`, and appends it to the work queue otherwise.
- **Retry loop.** `processRequest` makes at most `maxRetries + 1` attempts on one page.
  - A success adds one to `processedRequests` and emits `requestFinished`.
  - Each failure emits `requestFailed` with the retries left.
  - The final failure also emits `requestMaxRetriesReached`.
  - The page is closed after the loop.
- **Run.** `run` initializes the browser, calls the pre-task handlers in order, enqueues the seed requests, drains the queue and closes the browser.

Structure:

- `Types` mirrors `src/types.ts` and adds the events and the crawl state.
- `Options` models the constructor's merge.
- `Registry` models the handler map and handler resolution.
- `Executor` models the gate and the retry loop as functions of the state `(processedRequests, queue, log)`.
- `Lifecycle` models draining the queue and the pre-task handler loop.
- `Crawl.Crawler` is the class itself. It has the source's fields. Each method is imperative, with the source's loops, and its `ensures` ties the new state to those functions.
- `Scenarios` works three concrete crawls through the model.

The environment enters as parameters:

- The regular-expression test `new RegExp(pattern).test(url)` is the constructor parameter `matches`.
- The outcome of each attempt is an oracle `outcome(i)`: the navigation fails, or it succeeds and the handler makes some `enqueueRequest` calls and then resolves, rejects or times out.
- The rejection of each pre-task handler is an oracle `fails(i)`.

The queue is a FIFO `seq<Request>` drained one request at a time. This is the schedule of `maxConcurrency = 1`.

Handlers may keep enqueueing, so a run need not end. `Drain` therefore takes a `fuel` bound, and `Run` reports `StillDraining` when the fuel runs out before the queue is empty.

The cap is checked only when a request is admitted. With `maxRequestsPerCrawl = 1` and two seeds, both seeds are admitted, because the seed loop (src/crawler.ts:113-115) runs before any request is processed, and both can succeed. `Scenarios.CapIsCheckedOnlyOnAdmission` shows the two successes, and `Lifecycle.DrainAfterCap` proves the bound that does hold. Once the cap is reached nothing more is admitted, and at most one success per request already queued follows.

## Model

| member | source | states |
|---|---|---|
| `Options.Merge` | src/crawler.ts:25-36 | each option the caller gives is the effective value; each one left out takes its default: `maxConcurrency` 10, `maxRequestsPerCrawl` Infinity, browser chromium, headless, the bot user agent, `timeout` 30000, `maxRetries` 3, `downloadTimeout` 60000, `requestHandlerTimeoutSecs` 60 |
| `Options.MergeNothingIsDefaults` | src/crawler.ts:23-36 | with no options the configuration is exactly the default list |
| `Options.MergeEverythingIgnoresDefaults` | src/crawler.ts:25-36 | when every option is given, no default survives: the merge returns the given configuration |
| `Registry.Get` | src/crawler.ts:18 | `Map.get`: none exactly when no entry has the key, else the handler of the entry with that key |
| `Registry.MapSet` | src/crawler.ts:80 | `Map.set`: an existing pattern keeps its position and only its handler changes; a new pattern is appended; every other entry is unchanged; keys stay distinct |
| `Registry.GetAfterMapSet` | src/crawler.ts:80 | after `set(p, h)`, `get(p)` is `h` and every other key reads as before |
| `Registry.MatchingHandler` | src/crawler.ts:189-194 | the scan over the entries in insertion order finds a handler exactly when some pattern matches the URL |
| `Registry.MatchingHandlerIsFirstMatch` | src/crawler.ts:189-194 | the handler of the first entry in insertion order whose pattern matches the URL; none exactly when no pattern matches |
| `Registry.EarlierRegistrationWins` | src/crawler.ts:189-194 | when two entries match, the handler resolved is that of an entry registered no later than the earlier one |
| `Registry.Resolve` | src/crawler.ts:144-145 | the matching handler, else the default handler: no handler exactly when there is neither a match nor a default; the default when nothing matches |
| `Registry.ResolveMatchThenDefault` | src/crawler.ts:144-145 | when some pattern matches, the first matching handler; when none matches, the default handler, which may be none |
| `Executor.Admits` | src/crawler.ts:122 | the gate of `enqueueRequest`: never shut against an `Infinity` cap; against a finite cap, open exactly while `processedRequests` is below it; a cap of 0 or less admits nothing |
| `Executor.GateStaysShut` | src/crawler.ts:122 | once `processedRequests` has reached the cap, a larger count leaves the gate shut |
| `Executor.Enqueue` | src/crawler.ts:121-125 | one `enqueueRequest`: the queue gains exactly the request at its end if and only if `processedRequests` is below the cap; otherwise nothing changes; the count and the log never change |
| `Executor.EnqueueAll` | src/crawler.ts:121-125 | a run of `enqueueRequest` calls with no success in between appends all the requests in call order when the gate is open, and none when it is shut |
| `Executor.AttemptError` | src/crawler.ts:142-170 | an attempt succeeds exactly when navigation succeeds and there is no handler or the handler resolves; a failed navigation fails it with its own error, a rejecting handler with its rejection, a timed-out handler with the "Request handler timeout" error |
| `Executor.HandlerCalls` | src/crawler.ts:147-155 | `enqueueRequest` calls are made only by a handler that runs, which needs a successful navigation and a resolved handler; those calls are the handler's |
| `Executor.ProcessFrom` | src/crawler.ts:141-184 | the retry loop from a given attempt on; `processedRequests` never decreases and grows by at most one |
| `Executor.Process` | src/crawler.ts:139-184 | `processRequest` from its first attempt: the count grows by at most one, and a negative `maxRetries` leaves the state unchanged |
| `Executor.ProcessFromQueue` | src/crawler.ts:121-125 | during a request's attempts the queue only grows at its end, and not at all when the gate was shut; `processedRequests` never decreases |
| `Executor.Made` | src/crawler.ts:141-169 | the number of attempts the loop makes: up to and including the first that succeeds, or all that remain; between 1 and `maxRetries - from + 1` while the budget lasts, and none once it is spent |
| `Executor.ProcessFromGains` | src/crawler.ts:141-184 | over the whole loop the queue gains exactly the `enqueueRequest` calls of every attempt made, failed and timed-out attempts included, in call order, when the gate was open; nothing when it was shut |
| `Executor.OpenGateGains` | src/crawler.ts:141-184 | with the gate open, each attempt's calls are appended in attempt order |
| `Executor.FailedAttemptGains` | src/crawler.ts:152-176 | the calls a failed attempt made are kept, in front of those of the attempts after it |
| `Executor.ProcessFromLog` | src/crawler.ts:141-184 | from any attempt on, the loop logs failures with the retries they leave, then one terminal event. A success comes within the budget and counts one. The give-up comes right after the failure with -1 retries left, repeats its error and counts none |
| `Executor.FinalFailureLogged` | src/crawler.ts:171-182 | a failure of the last attempt ends the loop with `requestFailed` (-1 retries left) followed by `requestMaxRetriesReached` |
| `Executor.EarlyFailureLogged` | src/crawler.ts:171-176 | a failure before the last adds one `requestFailed` in front of what the remaining attempts log |
| `Executor.ProcessFromOutcomes` | src/crawler.ts:141-184 | from any attempt on, the j-th `requestFailed` carries the error of that attempt, `requestFinished` follows an attempt that succeeded, and the request is given up exactly when every remaining attempt fails |
| `Executor.FinalFailureFollows` | src/crawler.ts:170-182 | a failure of the last attempt logs that attempt's error, and every attempt from it on has failed |
| `Executor.EarlyFailureFollows` | src/crawler.ts:170-176 | a failure before the last puts that attempt's error in front of what the remaining attempts log |
| `Executor.FailureInFront` | src/crawler.ts:170-176 | the events of the remaining attempts, with the failure of the current one in front, still follow the outcomes |
| `Executor.OutcomesDecideTheRequest` | src/crawler.ts:139-184 | for a whole request: given up exactly when all `maxRetries + 1` attempts fail; each `requestFailed` carries its own attempt's error; `requestFinished` follows the first attempt that succeeds, after all earlier ones failed |
| `Executor.ExactlyOneTerminalEvent` | src/crawler.ts:166-182 | a processed request gets exactly one terminal event, `requestFinished` or `requestMaxRetriesReached`, never both, and it is the last event it adds |
| `Executor.AttemptsBounded` | src/crawler.ts:139-141 | at most `maxRetries + 1` attempts, and exactly that many when the request is given up |
| `Executor.RetriesLeftSchedule` | src/crawler.ts:171-182 | the i-th failure reports `maxRetries - i` retries left; that is -1 exactly on the failure that `requestMaxRetriesReached` follows |
| `Executor.SuccessCounted` | src/crawler.ts:166-167 | `processedRequests` grows by the number of `requestFinished` events, which is at most one per request |
| `Executor.NegativeBudgetDoesNothing` | src/crawler.ts:139-141 | with a negative `maxRetries` the loop body never runs: no attempt, no event, no change |
| `Executor.NoHandlerStillSucceeds` | src/crawler.ts:144-169 | with no matching and no default handler, a successful navigation finishes the request at once: one more processed request, one `requestFinished`, nothing enqueued |
| `Lifecycle.Step` | src/crawler.ts:124-132 | one worker step takes the head of the queue and processes it with the handler the registry resolves; the count grows by at most one |
| `Lifecycle.DrainFrom` | src/crawler.ts:117 | draining the queue one request at a time until it is empty, at most `fuel` requests; the count never decreases and grows by at most `fuel` |
| `Lifecycle.DrainCountsSuccesses` | src/crawler.ts:166-167 | across a whole drain, `processedRequests` grows by exactly the number of `requestFinished` events emitted |
| `Lifecycle.DrainAfterCap` | src/crawler.ts:122 | once the cap is reached the queue only shrinks from its head, and at most one success follows per request already queued |
| `Lifecycle.HooksInvoked` | src/crawler.ts:109-111 | the pre-task handlers invoked are those up to and including the first that rejects, or all of them when none rejects |
| `Lifecycle.HookError` | src/crawler.ts:109-111 | the rejection that aborts the pre-task loop; with none, every pre-task handler was called |
| `Lifecycle.HookTrace` | src/crawler.ts:109-111 | the trace of calling the pre-task handlers has one entry per handler |
| `Lifecycle.HookErrorIsFirstRejection` | src/crawler.ts:109-111 | the pre-task phase fails exactly when some handler rejects, and then with the rejection of the first handler that does |
| `Lifecycle.HookTraceInOrder` | src/crawler.ts:109-111 | the trace records the pre-task handlers in registration order, one entry per handler |
| `Crawl.Page.constructor` | src/crawler.ts:138 | a page opened for a request starts open; that it is closed after the loop (src/crawler.ts:186) is stated by `Crawl.Crawler.ProcessRequest` |
| `Crawl.Crawler.constructor` | src/crawler.ts:14-38 | the effective options are the merge; no browser or context; empty registry, no default, no hooks, count 0; the queue and the log are empty |
| `Crawl.Crawler.Initialize` | src/crawler.ts:43-52 | browser and context are open |
| `Crawl.Crawler.Close` | src/crawler.ts:68-72 | the context, then the browser, is closed if it was launched, and left absent otherwise |
| `Crawl.Crawler.AddRequestHandler` | src/crawler.ts:79-82 | registering an existing pattern replaces its handler in place; a new pattern goes last; patterns stay distinct |
| `Crawl.Crawler.SetDefaultHandler` | src/crawler.ts:88-91 | the default handler is the given one |
| `Crawl.Crawler.AddPreTaskHandler` | src/crawler.ts:97-100 | the hook is appended to the pre-task handlers |
| `Crawl.Crawler.FindMatchingHandler` | src/crawler.ts:189-194 | the loop over the entries returns the first matching handler, as `Registry.MatchingHandler` defines it, which `Registry.MatchingHandlerIsFirstMatch` characterizes |
| `Crawl.Crawler.EnqueueRequest` | src/crawler.ts:121-125 | the queue is unchanged when `processedRequests >= maxRequestsPerCrawl`, and gains exactly `request` at its end otherwise; nothing else changes |
| `Crawl.Crawler.EnqueueEach` | src/crawler.ts:113-115 | enqueueing a list of requests in order leaves the state `Executor.EnqueueAll` gives |
| `Crawl.Crawler.Attempt` | src/crawler.ts:142-164 | one attempt: a failed navigation fails it with its own error. Otherwise the resolved handler, if any, makes its `enqueueRequest` calls, and the attempt fails with the handler's rejection or the timeout error; with no handler it succeeds with nothing enqueued |
| `Crawl.Crawler.ProcessRequest` | src/crawler.ts:135-187 | with no context, the not-initialized error and no change. With an open context, a fresh page that is closed at the end, and the state `Executor.Process` gives for the resolved handler and the oracle |
| `Crawl.Crawler.Drain` | src/crawler.ts:117-133 | taking requests from the head of the queue one at a time leaves the state `Lifecycle.DrainFrom` gives |
| `Crawl.Crawler.RunPreTaskHandlers` | src/crawler.ts:109-111 | the pre-task handlers are called in registration order, the trace records each call, and the loop stops with the first rejection |
| `Crawl.Crawler.Run` | src/crawler.ts:106-119 | when a pre-task handler rejects, the run aborts with its error, with only the hooks traced and the browser open. Otherwise the seeds are enqueued in order after all the hooks, the queue is drained, and the browser is closed exactly when the queue is empty |
| `Scenarios.ItemGivenUp` | src/crawler.ts:171-182 | an always-failing handler under `maxRetries = 2` gives three failures with 1, 0 and -1 retries left, then the give-up |
| `Scenarios.ListThenFailingItems` | src/crawler.ts:135-194 | a list page whose handler enqueues two items, and a default handler that always fails: the list finishes, each item is given up after three attempts, and the count is 1 |
| `Scenarios.CapIsCheckedOnlyOnAdmission` | src/crawler.ts:113-125 | with cap 1, two seeds are both admitted and both succeed, so the count ends at 2 |
| `Scenarios.HandlerTimeout` | src/crawler.ts:155-163 | a handler that never settles, with `maxRetries = 0`: one failure carrying the timeout error, then the give-up |

## Left out

- Playwright is not modelled. Browser launch, `newContext`, `newPage`, `page.goto`, `page.close` and `browser.close` reduce to the `Handle` states, the `Page.closed` flag and the attempt oracle.
- The browser choice in `getBrowserLauncher` (src/crawler.ts:54-63) is not modelled, nor are the `headless` and `userAgent` values handed to Playwright.
- Errors raised by Playwright while launching or closing are not modelled.
- `ContextClosed` stands for the rejection of `newPage` on a closed context. Its message is the model's own.
- The `p-queue` pool is not modelled. `maxConcurrency` is stored, but only the one-at-a-time FIFO schedule is modelled: no parallel interleaving, and no rejection of a concurrency below 1.
- The random 100–600 ms delay of `processRequestWithRateLimit` (src/crawler.ts:127-133) is left out, because it only delays.
- The handler timer is left out. A timeout is the oracle outcome `TimedOut`, which fails the attempt with the "Request handler timeout" error.
- A handler that goes on running after its timeout is not modelled. All of an attempt's `enqueueRequest` calls are made before the attempt settles.
- Regular-expression semantics are the parameter `matches`.
- `logger` lines are not modelled. `PreTaskHandlerRan` is a trace entry of the model, not an emitted event.
- The model assumes that a handler acts on the crawler only through `enqueueRequest`. In the source it also receives the crawler itself (`crawler: this`, src/crawler.ts:151). Through it a handler could call `addRequestHandler` or `setDefaultHandler`, changing which handler later attempts resolve to (src/crawler.ts:144-145); call `close`, making every later `newPage` reject; or `emit` events of its own. None of these is modelled: the registry, the options and the browser stay fixed while requests are processed, and only the crawler emits events.
- Calling `initialize` twice leaks a browser in the source. The model just marks the session open.
- An option passed explicitly as `undefined` is not modelled: an option is either absent or carries a value.
- JavaScript numbers are modelled as unbounded integers. Fractional values and precision loss above 2^53 are not modelled.
- Executor.ProcessFrom: an infinite retry budget is not modelled; `maxRetries` is an integer. `Infinity` is a legal value of the option, and with it the loop at src/crawler.ts:141 retries a failing request forever: it reports `Infinity` retries left and never emits `requestMaxRetriesReached`.
- Registry.MatchingHandler: assumes testing a pattern never throws. In the source `new RegExp(pattern)` (src/crawler.ts:191) throws on an invalid pattern, inside the attempt's `try`. The attempt then fails with that error for every URL that no earlier entry matches, where the model goes on to later entries or the default.
- Executor.ExactlyOneTerminalEvent: assumes that listeners of the emitted events and the logger never throw. In the source a `requestFinished` listener or `logger.info` that throws (src/crawler.ts:167-168) does so after `processedRequests++`. Control then reaches the `catch` and the request is retried, so it can be counted more than once and get both `requestFinished` and `requestMaxRetriesReached`.
- Executor.SuccessCounted: the same assumption about listeners and the logger; without it one request can add more than one to `processedRequests`.
- Crawl.Crawler.ProcessRequest: the same assumption. In the source a `requestFailed` listener that throws (src/crawler.ts:172) escapes the `catch`, so the loop ends with that error and `page.close()` (src/crawler.ts:186) never runs.
- The `timeout` option is merged and stored but not used by the core.
- Crawl.Crawler.Drain: requires an open context, because `run` calls it only after `initialize`; the source's error for a missing context is modelled in `ProcessRequest`.
- Crawl.Crawler.Run: when the fuel runs out with requests still queued, it returns `StillDraining` without closing the browser. The source would go on waiting for the queue to go idle.
- `src/utils.ts` is not part of this model; it is a constructor wrapper and a JSON file write.
- `examples/ycnews/ycnews-crawler.ts` is not part of this model; it scrapes pages through Playwright selectors.
- `src/types.ts` has no behaviour. Its types are mirrored in `Types`.

/** Concrete crawls, worked through the model. */
module Scenarios {
  import opened Wrappers
  import opened Types
  import opened Registry
  import opened Executor
  import opened Lifecycle

  function Req(url: Url): Request
  {
    Request(url, None, None, None, None)
  }

  const ListPattern: Pattern := "^https://x/list$"
  const ListUrl: Url := "https://x/list"
  const Item1: Url := "https://x/item?id=1"
  const Item2: Url := "https://x/item?id=2"
  const Boom: Error := Error("boom")

  /** The pattern test for this scenario: only the list pattern matches, and
      only the list page. */
  function ListMatches(p: Pattern, u: Url): bool
  {
    p == ListPattern && u == ListUrl
  }

  /** The list handler succeeds and enqueues both items; the default handler,
      which the items fall to, always throws. */
  function ListOracle(n: nat): nat -> AttemptOutcome
  {
    if n == 0 then _ => Navigated([Req(Item1), Req(Item2)], Completed)
    else _ => Navigated([], Threw(Boom))
  }

  const ListRules: Rules :=
    Rules([Entry(ListPattern, Handler("list"))], Some(Handler("failing default")), ListMatches, 2, Infinity)

  /** Three failures of one item page under `maxRetries = 2`. */
  function GivenUp(url: Url): seq<Event>
  {
    [RequestFailed(url, Boom, 1), RequestFailed(url, Boom, 0), RequestFailed(url, Boom, -1),
     RequestMaxRetriesReached(url, Boom)]
  }

  /** An item page whose handler always throws, under `maxRetries = 2`:
      three failures with 1, 0 and -1 retries left, then given up. */
  lemma ItemGivenUp(s: State, url: Url, h: Handler)
    ensures Process(s, Req(url), Some(h), ListOracle(1), 2, Infinity) == s.(log := s.log + GivenUp(url))
  {
    var o := ListOracle(1);
    var s1 := s.(log := s.log + [RequestFailed(url, Boom, 1)]);
    var s2 := s1.(log := s1.log + [RequestFailed(url, Boom, 0)]);
    var s3 := s2.(log := s2.log + [RequestFailed(url, Boom, -1)] + [RequestMaxRetriesReached(url, Boom)]);
    assert EnqueueAll(s, [], Infinity) == s;
    assert ProcessFrom(s, Req(url), Some(h), o, 0, 2, Infinity) == ProcessFrom(s1, Req(url), Some(h), o, 1, 2, Infinity);
    assert ProcessFrom(s1, Req(url), Some(h), o, 1, 2, Infinity) == ProcessFrom(s2, Req(url), Some(h), o, 2, 2, Infinity);
    assert ProcessFrom(s2, Req(url), Some(h), o, 2, 2, Infinity) == ProcessFrom(s3, Req(url), Some(h), o, 3, 2, Infinity);
    assert s3 == s.(log := s.log + GivenUp(url));
  }

  /** `maxRetries = 2`, a list handler that enqueues two item pages, a
      default handler that always fails: the list page finishes, each item is
      attempted three times and given up, and one request counts as
      processed. */
  lemma ListThenFailingItems()
    ensures DrainFrom(State(0, [Req(ListUrl)], []), ListRules, ListOracle, 0, 3) ==
            State(1, [], [RequestFinished(ListUrl)] + GivenUp(Item1) + GivenUp(Item2))
  {
    var rules := ListRules;
    var s0 := State(0, [Req(ListUrl)], []);
    var s1 := State(1, [Req(Item1), Req(Item2)], [RequestFinished(ListUrl)]);
    ListPageFinishes();
    assert DrainFrom(s0, rules, ListOracle, 0, 3) == DrainFrom(s1, rules, ListOracle, 1, 2);
    var s2 := State(1, [Req(Item2)], [RequestFinished(ListUrl)] + GivenUp(Item1));
    ItemFallsToDefault(Item1);
    ItemGivenUp(s1.(queue := [Req(Item2)]), Item1, Handler("failing default"));
    assert DrainFrom(s1, rules, ListOracle, 1, 2) == DrainFrom(s2, rules, ListOracle, 2, 1);
    ItemFallsToDefault(Item2);
    ItemGivenUp(s2.(queue := []), Item2, Handler("failing default"));
  }

  /** The list page goes to the list handler, which enqueues both items. */
  lemma ListPageFinishes()
    ensures Step(State(0, [Req(ListUrl)], []), ListRules, ListOracle, 0)
            == State(1, [Req(Item1), Req(Item2)], [RequestFinished(ListUrl)])
  {
    var s0 := State(0, [], []);
    assert Resolve(ListRules.handlers, ListRules.default, ListUrl, ListMatches) == Some(Handler("list"));
    assert EnqueueAll(s0, [Req(Item1), Req(Item2)], Infinity) == s0.(queue := [Req(Item1), Req(Item2)]);
  }

  /** No pattern matches an item page, so it falls to the default handler. */
  lemma ItemFallsToDefault(url: Url)
    requires url != ListUrl
    ensures Resolve(ListRules.handlers, ListRules.default, url, ListMatches) == Some(Handler("failing default"))
  {
    var es := ListRules.handlers;
    assert !ListMatches(es[0].pattern, url);
    assert MatchingHandler(es, url, ListMatches) == MatchingHandler(es[1..], url, ListMatches);
    assert es[1..] == [];
  }

  function AlwaysNavigates(n: nat): nat -> AttemptOutcome
  {
    _ => Navigated([], Completed)
  }

  const NoMatch: (Pattern, Url) -> bool := (p: Pattern, u: Url) => false

  /** `maxRequestsPerCrawl = 1` with two seeds: both seeds are enqueued
      while `processedRequests` is still 0, so both are admitted, both
      succeed, and the count ends at 2, past the cap. */
  lemma CapIsCheckedOnlyOnAdmission()
    ensures var seeded := EnqueueAll(State(0, [], []), [Req(Item1), Req(Item2)], Finite(1));
            && seeded.queue == [Req(Item1), Req(Item2)]
            && DrainFrom(seeded, Rules([], None, NoMatch, 3, Finite(1)), AlwaysNavigates, 0, 2)
               == State(2, [], [RequestFinished(Item1), RequestFinished(Item2)])
  {
    var rules := Rules([], None, NoMatch, 3, Finite(1));
    var seeded := EnqueueAll(State(0, [], []), [Req(Item1), Req(Item2)], Finite(1));
    assert seeded == State(0, [Req(Item1), Req(Item2)], []);
    var s1 := State(1, [Req(Item2)], [RequestFinished(Item1)]);
    assert Process(State(0, [Req(Item2)], []), Req(Item1), None, AlwaysNavigates(0), 3, Finite(1)) == s1;
    assert DrainFrom(seeded, rules, AlwaysNavigates, 0, 2) == DrainFrom(s1, rules, AlwaysNavigates, 1, 1);
  }

  /** A handler that never settles, `maxRetries = 0`: the one attempt times
      out, and the request is given up at once with the timeout error. */
  lemma HandlerTimeout(s: State, url: Url, h: Handler, cap: Limit)
    ensures Process(s, Req(url), Some(h), _ => Navigated([], TimedOut), 0, cap)
            == s.(log := s.log + [RequestFailed(url, HandlerTimeoutError, -1), RequestMaxRetriesReached(url, HandlerTimeoutError)])
  {
    assert EnqueueAll(s, [], cap) == s;
  }
}

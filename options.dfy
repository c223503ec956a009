/** The constructor's option merge: the caller's options spread over fixed
    defaults (`{ ...defaults, ...options }`). */
module Options {
  import opened Wrappers
  import opened Types

  const DefaultUserAgent: string := "Mozilla/5.0 (compatible; MyBot/1.0; +http://example.com/bot)"

  /** The defaults, as the constructor lists them. */
  const Defaults: Config := Config(10, Infinity, Chromium, true, DefaultUserAgent, 30000, 3, 60000, 60)

  /** `new Crawler()` and `new Crawler({})`: no option given. */
  const NoOptions: CrawlerOptions := CrawlerOptions(None, None, None, None, None, None, None, None, None)

  function Or<T>(given: Option<T>, default: T): T
  {
    match given
    case Some(v) => v
    case None => default
  }

  /** The effective configuration: each option the caller gives wins over its
      default; each one left out takes the default. */
  function Merge(o: CrawlerOptions): (c: Config)
    ensures o.maxConcurrency.Some? ==> c.maxConcurrency == o.maxConcurrency.value
    ensures o.maxConcurrency.None? ==> c.maxConcurrency == 10
    ensures o.maxRequestsPerCrawl.Some? ==> c.maxRequestsPerCrawl == o.maxRequestsPerCrawl.value
    ensures o.maxRequestsPerCrawl.None? ==> c.maxRequestsPerCrawl == Infinity
    ensures o.browserType.Some? ==> c.browserType == o.browserType.value
    ensures o.browserType.None? ==> c.browserType == Chromium
    ensures o.headless.Some? ==> c.headless == o.headless.value
    ensures o.headless.None? ==> c.headless
    ensures o.userAgent.Some? ==> c.userAgent == o.userAgent.value
    ensures o.userAgent.None? ==> c.userAgent == DefaultUserAgent
    ensures o.timeout.Some? ==> c.timeout == o.timeout.value
    ensures o.timeout.None? ==> c.timeout == 30000
    ensures o.maxRetries.Some? ==> c.maxRetries == o.maxRetries.value
    ensures o.maxRetries.None? ==> c.maxRetries == 3
    ensures o.downloadTimeout.Some? ==> c.downloadTimeout == o.downloadTimeout.value
    ensures o.downloadTimeout.None? ==> c.downloadTimeout == 60000
    ensures o.requestHandlerTimeoutSecs.Some? ==> c.requestHandlerTimeoutSecs == o.requestHandlerTimeoutSecs.value
    ensures o.requestHandlerTimeoutSecs.None? ==> c.requestHandlerTimeoutSecs == 60
  {
    Config(
      Or(o.maxConcurrency, Defaults.maxConcurrency),
      Or(o.maxRequestsPerCrawl, Defaults.maxRequestsPerCrawl),
      Or(o.browserType, Defaults.browserType),
      Or(o.headless, Defaults.headless),
      Or(o.userAgent, Defaults.userAgent),
      Or(o.timeout, Defaults.timeout),
      Or(o.maxRetries, Defaults.maxRetries),
      Or(o.downloadTimeout, Defaults.downloadTimeout),
      Or(o.requestHandlerTimeoutSecs, Defaults.requestHandlerTimeoutSecs))
  }

  /** The options that give every key the value it has in `c`. */
  function Supplying(c: Config): CrawlerOptions
  {
    CrawlerOptions(Some(c.maxConcurrency), Some(c.maxRequestsPerCrawl), Some(c.browserType),
                   Some(c.headless), Some(c.userAgent), Some(c.timeout), Some(c.maxRetries),
                   Some(c.downloadTimeout), Some(c.requestHandlerTimeoutSecs))
  }

  /** No option given: the configuration is exactly the defaults. */
  lemma MergeNothingIsDefaults()
    ensures Merge(NoOptions) == Config(10, Infinity, Chromium, true, DefaultUserAgent, 30000, 3, 60000, 60)
  {
  }

  /** Every option given: no default survives. */
  lemma MergeEverythingIgnoresDefaults(c: Config)
    ensures Merge(Supplying(c)) == c
  {
  }
}

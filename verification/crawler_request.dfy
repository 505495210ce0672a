/**
 * The crawl request: the limits a crawl runs under, the include/exclude
 * URL patterns, and the status and statistics the crawler service updates.
 */
module CrawlerRequests {
  import opened Wrappers

  /** `CrawlStatus`, a string enumeration. */
  datatype CrawlStatus = Pending | Running | Completed | Failed

  function StatusValue(s: CrawlStatus): string {
    match s
    case Pending => "pending"
    case Running => "running"
    case Completed => "completed"
    case Failed => "failed"
  }

  /** Distinct statuses serialise to distinct strings. */
  lemma StatusValueInjective(a: CrawlStatus, b: CrawlStatus)
    requires StatusValue(a) == StatusValue(b)
    ensures a == b
  {
  }

  /** `CrawlStats`: counters the service updates while crawling. */
  datatype CrawlStats = CrawlStats(pagesScraped: int, leadsExtracted: int, errors: int, durationSeconds: real)

  const ZeroStats := CrawlStats(0, 0, 0, 0.0)

  /** A validated crawl request; times are abstract instants. */
  datatype CrawlerRequest = CrawlerRequest(
    crawlId: string,
    url: string,
    campaignName: string,
    maxDepth: int,
    maxPages: int,
    maxConcurrent: int,
    maxErrors: int,
    maxTimeSeconds: int,
    excludePatterns: seq<string>,
    includePatterns: seq<string>,
    respectRobotsTxt: bool,
    status: CrawlStatus,
    createdAt: int,
    startedAt: Option<int>,
    completedAt: Option<int>,
    stats: CrawlStats)

  /** The arguments a caller passes; `None` means the field is omitted. */
  datatype RequestArgs = RequestArgs(
    url: string,
    campaignName: string,
    maxDepth: Option<int>,
    maxPages: Option<int>,
    maxConcurrent: Option<int>,
    maxErrors: Option<int>,
    maxTimeSeconds: Option<int>,
    excludePatterns: Option<seq<string>>,
    includePatterns: Option<seq<string>>,
    respectRobotsTxt: Option<bool>)

  /** One validation failure. */
  datatype RequestError =
    | InvalidUrl
    | OutOfRange(field: string)
    | InvalidPattern(message: string)

  /** The declared bounds and defaults of the integer limits. */
  const DefaultMaxDepth := 3
  const DefaultMaxPages := 100
  const DefaultMaxConcurrent := 5
  const DefaultMaxErrors := 5
  const DefaultMaxTimeSeconds := 3600

  predicate MaxDepthOk(n: int) { 1 <= n <= 10 }
  predicate MaxPagesOk(n: int) { 1 <= n <= 1000 }
  predicate MaxConcurrentOk(n: int) { n >= 1 }
  predicate MaxErrorsOk(n: int) { n >= 0 }
  predicate MaxTimeOk(n: int) { n >= 1 }

  /**
   * `_validate_regex`: a pattern that compiles is returned unchanged; one
   * that does not fails with a message naming it and the compiler's reason.
   * `compileError` is the regex compiler: the error it reports, if any.
   */
  function ValidateRegex(pattern: string, compileError: string -> Option<string>): (r: Result<string, string>)
    ensures r.Ok? <==> compileError(pattern).None?
    ensures r.Ok? ==> r.value == pattern
    ensures r.Err? ==> r.error == "Invalid regex pattern '" + pattern + "': " + compileError(pattern).value
  {
    match compileError(pattern)
    case None => Ok(pattern)
    case Some(reason) => Err("Invalid regex pattern '" + pattern + "': " + reason)
  }

  /** The messages of the patterns in `ps` that fail `_validate_regex`, in order. */
  function PatternErrors(ps: seq<string>, compileError: string -> Option<string>): seq<RequestError> {
    if ps == [] then []
    else
      var last := ValidateRegex(ps[|ps| - 1], compileError);
      PatternErrors(ps[..|ps| - 1], compileError) + (if last.Err? then [InvalidPattern(last.error)] else [])
  }

  /** A pattern list is rejected exactly when one of its patterns does not compile. */
  lemma {:induction false} PatternErrorsExact(ps: seq<string>, compileError: string -> Option<string>)
    ensures PatternErrors(ps, compileError) == [] <==> forall p :: p in ps ==> compileError(p).None?
    ensures |PatternErrors(ps, compileError)| <= |ps|
  {
    if ps != [] {
      var init := ps[..|ps| - 1];
      PatternErrorsExact(init, compileError);
      assert ps == init + [ps[|ps| - 1]];
    }
  }

  /** Every failure of the arguments, in field declaration order. */
  function RequestErrors(args: RequestArgs, isHttpUrl: string -> bool, compileError: string -> Option<string>): seq<RequestError> {
    (if isHttpUrl(args.url) then [] else [InvalidUrl])
    + (if MaxDepthOk(args.maxDepth.GetOr(DefaultMaxDepth)) then [] else [OutOfRange("max_depth")])
    + (if MaxPagesOk(args.maxPages.GetOr(DefaultMaxPages)) then [] else [OutOfRange("max_pages")])
    + (if MaxConcurrentOk(args.maxConcurrent.GetOr(DefaultMaxConcurrent)) then [] else [OutOfRange("max_concurrent")])
    + (if MaxErrorsOk(args.maxErrors.GetOr(DefaultMaxErrors)) then [] else [OutOfRange("max_errors")])
    + (if MaxTimeOk(args.maxTimeSeconds.GetOr(DefaultMaxTimeSeconds)) then [] else [OutOfRange("max_time_seconds")])
    + PatternErrors(args.excludePatterns.GetOr([]), compileError)
    + PatternErrors(args.includePatterns.GetOr([]), compileError)
  }

  /**
   * `CrawlerRequest(**args)`: omitted fields take their defaults, the limits
   * are checked against their bounds and every pattern must compile. A new
   * request is PENDING with zeroed statistics and no start or completion
   * time. `crawlId` and `now` stand for the UUID factory and the clock.
   */
  function NewRequest(args: RequestArgs, crawlId: string, now: int,
                      isHttpUrl: string -> bool, compileError: string -> Option<string>): Result<CrawlerRequest, seq<RequestError>> {
    var errors := RequestErrors(args, isHttpUrl, compileError);
    if errors != [] then Err(errors)
    else Ok(CrawlerRequest(
      crawlId, args.url, args.campaignName,
      args.maxDepth.GetOr(DefaultMaxDepth),
      args.maxPages.GetOr(DefaultMaxPages),
      args.maxConcurrent.GetOr(DefaultMaxConcurrent),
      args.maxErrors.GetOr(DefaultMaxErrors),
      args.maxTimeSeconds.GetOr(DefaultMaxTimeSeconds),
      args.excludePatterns.GetOr([]),
      args.includePatterns.GetOr([]),
      args.respectRobotsTxt.GetOr(true),
      Pending, now, None, None, ZeroStats))
  }

  /** The request respects every declared bound and all its patterns compile. */
  predicate WithinBounds(r: CrawlerRequest, compileError: string -> Option<string>) {
    && MaxDepthOk(r.maxDepth) && MaxPagesOk(r.maxPages) && MaxConcurrentOk(r.maxConcurrent)
    && MaxErrorsOk(r.maxErrors) && MaxTimeOk(r.maxTimeSeconds)
    && (forall p :: p in r.excludePatterns ==> compileError(p).None?)
    && (forall p :: p in r.includePatterns ==> compileError(p).None?)
  }

  /**
   * Construction succeeds exactly when the URL is valid, every limit given is
   * within its bounds and every pattern compiles; the request then carries
   * the given values (defaults for omitted ones), was created `now`, is
   * PENDING, has zeroed statistics and no start or completion time.
   */
  lemma NewRequestSound(args: RequestArgs, crawlId: string, now: int,
                        isHttpUrl: string -> bool, compileError: string -> Option<string>)
    ensures var r := NewRequest(args, crawlId, now, isHttpUrl, compileError);
            r.Ok? <==>
              && isHttpUrl(args.url)
              && MaxDepthOk(args.maxDepth.GetOr(DefaultMaxDepth))
              && MaxPagesOk(args.maxPages.GetOr(DefaultMaxPages))
              && MaxConcurrentOk(args.maxConcurrent.GetOr(DefaultMaxConcurrent))
              && MaxErrorsOk(args.maxErrors.GetOr(DefaultMaxErrors))
              && MaxTimeOk(args.maxTimeSeconds.GetOr(DefaultMaxTimeSeconds))
              && (forall p :: p in args.excludePatterns.GetOr([]) ==> compileError(p).None?)
              && (forall p :: p in args.includePatterns.GetOr([]) ==> compileError(p).None?)
    ensures var r := NewRequest(args, crawlId, now, isHttpUrl, compileError);
            r.Ok? ==>
              && WithinBounds(r.value, compileError)
              && r.value.status == Pending && r.value.stats == ZeroStats
              && r.value.startedAt.None? && r.value.completedAt.None?
              && r.value.crawlId == crawlId && r.value.url == args.url && r.value.campaignName == args.campaignName
              && r.value.maxDepth == args.maxDepth.GetOr(DefaultMaxDepth)
              && r.value.maxPages == args.maxPages.GetOr(DefaultMaxPages)
              && r.value.maxConcurrent == args.maxConcurrent.GetOr(DefaultMaxConcurrent)
              && r.value.maxErrors == args.maxErrors.GetOr(DefaultMaxErrors)
              && r.value.maxTimeSeconds == args.maxTimeSeconds.GetOr(DefaultMaxTimeSeconds)
              && r.value.excludePatterns == args.excludePatterns.GetOr([])
              && r.value.includePatterns == args.includePatterns.GetOr([])
              && r.value.respectRobotsTxt == args.respectRobotsTxt.GetOr(true)
              && r.value.createdAt == now
  {
    PatternErrorsExact(args.excludePatterns.GetOr([]), compileError);
    PatternErrorsExact(args.includePatterns.GetOr([]), compileError);
  }

  /** With every optional field omitted, a request takes the documented defaults. */
  lemma NewRequestDefaults(url: string, campaign: string, crawlId: string, now: int,
                           isHttpUrl: string -> bool, compileError: string -> Option<string>)
    requires isHttpUrl(url)
    ensures var r := NewRequest(RequestArgs(url, campaign, None, None, None, None, None, None, None, None), crawlId, now, isHttpUrl, compileError);
            && r.Ok?
            && r.value.maxDepth == 3 && r.value.maxPages == 100 && r.value.maxConcurrent == 5
            && r.value.maxErrors == 5 && r.value.maxTimeSeconds == 3600
            && r.value.excludePatterns == [] && r.value.includePatterns == []
            && r.value.respectRobotsTxt
  {
  }
}

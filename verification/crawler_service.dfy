/**
 * The crawl scheduler of the crawler service: it seeds a queue with the
 * start URL, draws batches of URLs bounded by the worker count and by the
 * pages still allowed, processes each page (scrape, lead extraction, link
 * discovery one level deeper) and keeps the success and failure counters.
 *
 * The scraper, the lead extractor and the link extractor are functions the
 * service is constructed with. The queue manager is not part of this model:
 * `QueueManager` below is a first-in first-out stand-in offering exactly the
 * calls the scheduler makes. Pages of a batch are processed one after the
 * other.
 */
module Crawling {
  import opened Wrappers
  import Leads
  import CrawlerRequests

  /** `CrawlStatus` of the crawl response. */
  datatype ResponseStatus = InProgress | Completed | Failed | Cancelled

  /**
   * What `scrape` gives for a URL: a failure payload (`success` false), the
   * scraped page, or an exception raised while the page record is built.
   */
  datatype Scrape = ScrapeFailed | Scraped(markdown: string, html: string) | ScrapeRaised(message: string)

  /** A crawled page: its URL, markdown and depth. */
  datatype CrawledPage = CrawledPage(url: string, markdown: string, depth: nat)

  /** A queued URL with its depth and the page it was found on. */
  datatype Entry = Entry(url: string, depth: nat, parent: Option<string>)

  /** First-in first-out stand-in for the queue manager. */
  class QueueManager {
    var pending: seq<Entry>
    var inProgress: set<string>
    /** Every URL passed to `mark_complete`, in order. */
    var completed: seq<string>

    constructor ()
      ensures pending == [] && inProgress == {} && completed == []
    {
      pending := [];
      inProgress := {};
      completed := [];
    }

    /** `is_complete`: nothing queued and nothing in flight. */
    predicate IsComplete()
      reads this
    {
      pending == [] && inProgress == {}
    }

    /** `add_url`: queues the URL at the back. */
    method AddUrl(url: string, depth: nat, parent: Option<string>)
      modifies this
      ensures pending == old(pending) + [Entry(url, depth, parent)]
      ensures inProgress == old(inProgress) && completed == old(completed)
    {
      pending := pending + [Entry(url, depth, parent)];
    }

    /** `get_next_url` together with `get_depth`: the oldest entry, now in flight. */
    method GetNextUrl() returns (e: Option<Entry>)
      modifies this
      ensures old(pending) == [] ==> e.None? && pending == [] && inProgress == old(inProgress)
      ensures old(pending) != [] ==> && e == Some(old(pending)[0]) && pending == old(pending)[1..]
                                     && inProgress == old(inProgress) + {old(pending)[0].url}
      ensures completed == old(completed)
    {
      if pending == [] {
        return None;
      }
      e := Some(pending[0]);
      inProgress := inProgress + {pending[0].url};
      pending := pending[1..];
    }

    /** `mark_complete`: the URL is no longer in flight. */
    method MarkComplete(url: string)
      modifies this
      ensures inProgress == old(inProgress) - {url}
      ensures completed == old(completed) + [url]
      ensures pending == old(pending)
    {
      inProgress := inProgress - {url};
      completed := completed + [url];
    }
  }

  /** The crawl response with its statistics; `leads` holds the extracted leads. */
  class CrawlerResponse {
    var status: ResponseStatus
    var pages: seq<CrawledPage>
    var leads: seq<Leads.LeadData>
    var totalPages: nat
    var successCount: nat
    var failedCount: nat
    var skippedCount: nat
    var error: Option<string>

    constructor ()
      ensures status == InProgress && pages == [] && leads == [] && error == None
      ensures totalPages == 0 && successCount == 0 && failedCount == 0 && skippedCount == 0
    {
      status := InProgress;
      pages := [];
      leads := [];
      totalPages := 0;
      successCount := 0;
      failedCount := 0;
      skippedCount := 0;
      error := None;
    }
  }

  /** The effect of processing one page on the response and the queue. */
  datatype Effect = Effect(page: Option<CrawledPage>, lead: Option<Leads.LeadData>, followLinks: bool, failed: bool)

  /**
   * `_process_page` as intended: a failed or raising scrape only counts a
   * failure; a scraped page is recorded at its depth, its lead is kept when
   * extraction succeeded (an extraction error does not fail the page), and
   * its links are followed when the page is above the maximum depth.
   */
  function PageEffect(url: string, depth: nat, maxDepth: int, s: Scrape, lead: Result<Leads.LeadData, string>): (e: Effect)
    ensures e.failed <==> !s.Scraped?
    ensures e.failed ==> e.page.None? && e.lead.None? && !e.followLinks
    ensures s.Scraped? ==> e.page == Some(CrawledPage(url, s.markdown, depth))
    ensures e.lead.Some? <==> s.Scraped? && lead.Ok?
    ensures e.lead.Some? ==> e.lead.value == lead.value
    ensures e.followLinks <==> s.Scraped? && depth < maxDepth
  {
    match s
    case Scraped(markdown, _) =>
      Effect(Some(CrawledPage(url, markdown, depth)), if lead.Ok? then Some(lead.value) else None, depth < maxDepth, false)
    case _ => Effect(None, None, false, true)
  }

  /**
   * `_process_page` as written: storing the lead first calls `_save_lead`,
   * whose `lead.json(indent=2)` passes a keyword the pydantic model's `json`
   * refuses, and then assigns `response.leads`, a name the response model
   * does not declare. Either raises, and the outer handler counts the page
   * as failed before its links and its page record are reached.
   */
  function PageEffectAsWritten(url: string, depth: nat, maxDepth: int, s: Scrape, lead: Result<Leads.LeadData, string>): Effect {
    match s
    case Scraped(markdown, _) =>
      if lead.Ok? then Effect(None, None, false, true)
      else Effect(Some(CrawledPage(url, markdown, depth)), None, depth < maxDepth, false)
    case _ => Effect(None, None, false, true)
  }

  /** As written, every scraped page that yields a lead is lost and counted as failed. */
  lemma AsWrittenLosesLeadPages(url: string, depth: nat, maxDepth: int, markdown: string, html: string, lead: Leads.LeadData)
    ensures PageEffectAsWritten(url, depth, maxDepth, Scraped(markdown, html), Ok(lead)).failed
    ensures PageEffectAsWritten(url, depth, maxDepth, Scraped(markdown, html), Ok(lead)).page.None?
    ensures PageEffect(url, depth, maxDepth, Scraped(markdown, html), Ok(lead)).page == Some(CrawledPage(url, markdown, depth))
    ensures PageEffect(url, depth, maxDepth, Scraped(markdown, html), Ok(lead)).lead == Some(lead)
  {
  }

  /** The two agree whenever lead extraction fails; they differ only on the leads step. */
  lemma AsWrittenAgreesWithoutLead(url: string, depth: nat, maxDepth: int, s: Scrape, message: string)
    ensures PageEffectAsWritten(url, depth, maxDepth, s, Err(message)) == PageEffect(url, depth, maxDepth, s, Err(message))
  {
  }

  /** The queue entries for the links found on `parent`, one level deeper, in order. */
  function Children(links: seq<string>, depth: nat, parent: string): (r: seq<Entry>)
    ensures |r| == |links|
    ensures forall i :: 0 <= i < |links| ==> r[i] == Entry(links[i], depth, Some(parent))
    ensures forall e :: e in r ==> e.url in links && e.depth == depth && e.parent == Some(parent)
  {
    if links == [] then []
    else
      var init := links[..|links| - 1];
      assert forall i :: 0 <= i < |init| ==> init[i] == links[i];
      Children(init, depth, parent) + [Entry(links[|links| - 1], depth, Some(parent))]
  }

  /**
   * The link extractor never yields an empty URL: it only emits absolute
   * URLs on the crawl's own host.
   */
  ghost predicate NonEmptyLinks(extractLinks: (string, string) -> seq<string>) {
    forall html, page, l :: l in extractLinks(html, page) ==> l != []
  }

  /** `ThreadPoolExecutor(max_workers=0)` refuses to be built. */
  const NoWorkersMessage := "max_workers must be greater than 0"

  /**
   * `CrawlerService(worker_threads=...)`: `__init__` builds a thread pool of
   * `worker_threads` workers, which raises `ValueError` for zero.
   */
  method NewCrawlerService(workerThreads: nat, scrape: string -> Scrape,
                           extractLead: (string, string) -> Result<Leads.LeadData, string>,
                           extractLinks: (string, string) -> seq<string>)
    returns (r: Result<CrawlerService, string>)
    ensures r.Err? <==> workerThreads == 0
    ensures r.Err? ==> r.error == NoWorkersMessage
    ensures r.Ok? ==> fresh(r.value) && r.value.workerThreads == workerThreads && r.value.scrape == scrape
                      && r.value.extractLead == extractLead && r.value.extractLinks == extractLinks
  {
    if workerThreads == 0 {
      return Err(NoWorkersMessage);
    }
    var service := new CrawlerService(workerThreads, scrape, extractLead, extractLinks);
    return Ok(service);
  }

  /** The URLs of a batch. */
  function BatchUrls(batch: seq<Entry>): set<string> {
    set e | e in batch :: e.url
  }

  class CrawlerService {
    const workerThreads: nat
    /** `scraper.scrape(url, options)` with the service's fixed options. */
    const scrape: string -> Scrape
    /** `extract_lead(campaign, url)`: the lead, or the message of the exception it raised. */
    const extractLead: (string, string) -> Result<Leads.LeadData, string>
    /** `link_extractor.extract_links(html, url)`. */
    const extractLinks: (string, string) -> seq<string>

    /** The service with its worker pool; `NewCrawlerService` covers the zero-worker error. */
    constructor (workerThreads: nat, scrape: string -> Scrape,
                 extractLead: (string, string) -> Result<Leads.LeadData, string>,
                 extractLinks: (string, string) -> seq<string>)
      requires workerThreads >= 1
      ensures this.workerThreads == workerThreads && this.scrape == scrape
      ensures this.extractLead == extractLead && this.extractLinks == extractLinks
    {
      this.workerThreads := workerThreads;
      this.scrape := scrape;
      this.extractLead := extractLead;
      this.extractLinks := extractLinks;
    }

    /**
     * `_process_page`: applies `PageEffect` to the response and the queue,
     * and marks the URL complete on every path.
     */
    method ProcessPage(url: string, depth: nat, q: QueueManager, resp: CrawlerResponse, req: CrawlerRequests.CrawlerRequest)
      modifies q, resp
      ensures var e := PageEffect(url, depth, req.maxDepth, scrape(url), extractLead(req.campaignName, url));
              && resp.pages == old(resp.pages) + (if e.page.Some? then [e.page.value] else [])
              && resp.leads == old(resp.leads) + (if e.lead.Some? then [e.lead.value] else [])
              && resp.successCount == old(resp.successCount) + (if e.failed then 0 else 1)
              && resp.failedCount == old(resp.failedCount) + (if e.failed then 1 else 0)
              && q.pending == old(q.pending) + (if e.followLinks then Children(extractLinks(scrape(url).html, url), depth + 1, url) else [])
      ensures q.inProgress == old(q.inProgress) - {url}
      ensures q.completed == old(q.completed) + [url]
      ensures resp.status == old(resp.status) && resp.totalPages == old(resp.totalPages) && resp.error == old(resp.error)
    {
      ghost var e := PageEffect(url, depth, req.maxDepth, scrape(url), extractLead(req.campaignName, url));
      var result := scrape(url);
      if !result.Scraped? {
        assert e == Effect(None, None, false, true);
        resp.failedCount := resp.failedCount + 1;
        q.MarkComplete(url);
        return;
      }
      var page := CrawledPage(url, result.markdown, depth);
      var lead := extractLead(req.campaignName, url);
      if lead.Ok? {
        resp.leads := resp.leads + [lead.value];
      }
      if depth < req.maxDepth {
        EnqueueLinks(q, extractLinks(result.html, url), depth + 1, url);
      }
      resp.pages := resp.pages + [page];
      resp.successCount := resp.successCount + 1;
      q.MarkComplete(url);
    }

    /** `for link in new_links: add_url(link, depth + 1, url)` */
    method EnqueueLinks(q: QueueManager, links: seq<string>, depth: nat, parent: string)
      modifies q
      ensures q.pending == old(q.pending) + Children(links, depth, parent)
      ensures q.inProgress == old(q.inProgress) && q.completed == old(q.completed)
    {
      var i := 0;
      while i < |links|
        invariant 0 <= i <= |links|
        invariant q.pending == old(q.pending) + Children(links[..i], depth, parent)
        invariant q.inProgress == old(q.inProgress) && q.completed == old(q.completed)
      {
        assert links[..i + 1][..i] == links[..i];
        q.AddUrl(links[i], depth, Some(parent));
        i := i + 1;
      }
      assert links[..i] == links;
    }

    /**
     * `crawl_sync`: runs the crawl to completion. The crawl ends when the
     * queue is complete or `max_pages` pages were gathered, never gathers
     * more than that, counts every processed URL exactly once as a success
     * or a failure, marks every processed URL complete, and only reaches
     * pages at most `max_depth` links away from the start.
     */
    method CrawlSync(req: CrawlerRequests.CrawlerRequest) returns (resp: CrawlerResponse, q: QueueManager)
      requires workerThreads >= 1
      requires req.url != [] && NonEmptyLinks(extractLinks)
      requires CrawlerRequests.MaxPagesOk(req.maxPages) && CrawlerRequests.MaxDepthOk(req.maxDepth)
      ensures fresh(resp) && fresh(q)
      ensures resp.status == Completed && resp.error == None
      ensures q.IsComplete() || |resp.pages| >= req.maxPages
      ensures |resp.pages| <= req.maxPages
      ensures resp.totalPages == |resp.pages| == resp.successCount
      ensures resp.successCount + resp.failedCount == |q.completed|
      ensures q.inProgress == {}
      ensures |resp.leads| <= |resp.pages|
      ensures forall i :: 0 <= i < |resp.pages| ==> resp.pages[i].depth <= req.maxDepth
    {
      q := new QueueManager();
      resp := new CrawlerResponse();
      q.AddUrl(req.url, 0, None);
      while true
        invariant q.inProgress == {}
        invariant |resp.pages| <= req.maxPages
        invariant resp.successCount == |resp.pages|
        invariant resp.successCount + resp.failedCount == |q.completed|
        invariant |resp.leads| <= |resp.pages|
        invariant forall e :: e in q.pending ==> e.url != [] && e.depth <= req.maxDepth
        invariant forall i :: 0 <= i < |resp.pages| ==> resp.pages[i].depth <= req.maxDepth
        invariant resp.status == InProgress && resp.error == None
        decreases req.maxPages - |resp.pages|, |q.pending|
      {
        if q.IsComplete() {
          break;
        }
        if |resp.pages| >= req.maxPages {
          break;
        }
        var remaining := req.maxPages - |resp.pages|;
        var batchSize := if workerThreads < remaining then workerThreads else remaining;
        var batch := DrawBatch(q, batchSize);
        // Between batches nothing is in flight and the queue is not complete,
        // so the draw is never empty: the source's wait-and-retry branch for an
        // empty draw is never taken.
        assert batch != [];
        ProcessBatch(batch, q, resp, req);
      }
      resp.status := Completed;
      resp.totalPages := |resp.pages|;
    }

    /**
     * The tasks of one batch of `crawl_sync`, each a `_process_page`, run one
     * after the other: every drawn URL leaves the in-flight set, each adds
     * at most one page, and the queue grows only when a page was added.
     */
    method ProcessBatch(batch: seq<Entry>, q: QueueManager, resp: CrawlerResponse, req: CrawlerRequests.CrawlerRequest)
      requires NonEmptyLinks(extractLinks)
      requires q.inProgress <= BatchUrls(batch)
      requires forall e :: e in batch ==> e.depth <= req.maxDepth
      requires forall e :: e in q.pending ==> e.url != [] && e.depth <= req.maxDepth
      requires resp.successCount == |resp.pages| && |resp.leads| <= |resp.pages|
      modifies q, resp
      ensures q.inProgress == {}
      ensures old(|resp.pages|) <= |resp.pages| <= old(|resp.pages|) + |batch|
      ensures |resp.pages| == old(|resp.pages|) ==> q.pending == old(q.pending)
      ensures resp.successCount == |resp.pages| && |resp.leads| <= |resp.pages|
      ensures resp.successCount + resp.failedCount == old(resp.successCount + resp.failedCount) + |batch|
      ensures |q.completed| == old(|q.completed|) + |batch|
      ensures forall e :: e in q.pending ==> e.url != [] && e.depth <= req.maxDepth
      ensures forall i :: 0 <= i < old(|resp.pages|) ==> resp.pages[i] == old(resp.pages[i])
      ensures forall i :: old(|resp.pages|) <= i < |resp.pages| ==> resp.pages[i].depth <= req.maxDepth
      ensures resp.status == old(resp.status) && resp.error == old(resp.error)
    {
      var j := 0;
      while j < |batch|
        invariant 0 <= j <= |batch|
        invariant old(|resp.pages|) <= |resp.pages| <= old(|resp.pages|) + j
        invariant |resp.pages| == old(|resp.pages|) ==> q.pending == old(q.pending)
        invariant q.inProgress <= BatchUrls(batch[j..])
        invariant resp.successCount == |resp.pages| && |resp.leads| <= |resp.pages|
        invariant resp.successCount + resp.failedCount == old(resp.successCount + resp.failedCount) + j
        invariant |q.completed| == old(|q.completed|) + j
        invariant forall e :: e in q.pending ==> e.url != [] && e.depth <= req.maxDepth
        invariant forall i :: 0 <= i < old(|resp.pages|) ==> resp.pages[i] == old(resp.pages[i])
        invariant forall i :: old(|resp.pages|) <= i < |resp.pages| ==> resp.pages[i].depth <= req.maxDepth
        invariant resp.status == old(resp.status) && resp.error == old(resp.error)
      {
        var e := batch[j];
        assert e in batch;
        ProcessPage(e.url, e.depth, q, resp, req);
        assert BatchUrls(batch[j..]) == BatchUrls(batch[j + 1..]) + {e.url} by {
          assert batch[j..] == [e] + batch[j + 1..];
        }
        j := j + 1;
      }
    }

    /**
     * The batch loop of `crawl_sync`: draws up to `batchSize` URLs, fewer when
     * the queue runs dry, and puts them in flight.
     */
    method DrawBatch(q: QueueManager, batchSize: nat) returns (batch: seq<Entry>)
      requires batchSize >= 1
      requires forall e :: e in q.pending ==> e.url != []
      modifies q
      ensures 1 <= |old(q.pending)| ==> 1 <= |batch|
      ensures |batch| <= batchSize && |batch| <= |old(q.pending)|
      ensures batch == old(q.pending)[..|batch|] && q.pending == old(q.pending)[|batch|..]
      ensures q.inProgress == old(q.inProgress) + BatchUrls(batch)
      ensures q.completed == old(q.completed)
    {
      batch := [];
      var k := 0;
      while k < batchSize
        invariant 0 <= |batch| <= k <= batchSize
        invariant |batch| <= |old(q.pending)|
        invariant |batch| < k ==> q.pending == []
        invariant forall e :: e in q.pending ==> e.url != []
        invariant batch == old(q.pending)[..|batch|] && q.pending == old(q.pending)[|batch|..]
        invariant 1 <= k && 1 <= |old(q.pending)| ==> 1 <= |batch|
        invariant q.inProgress == old(q.inProgress) + BatchUrls(batch)
        invariant q.completed == old(q.completed)
      {
        var next := q.GetNextUrl();
        if next.Some? && next.value.url != [] {
          assert BatchUrls(batch + [next.value]) == BatchUrls(batch) + {next.value.url};
          batch := batch + [next.value];
        }
        k := k + 1;
      }
    }
  }
}

# eGet crawler core in Dafny

This project models the crawling core of the eGet crawler:
- the crawl scheduler of `CrawlerService`;
- the link extractor that classifies discovered URLs into profile and pagination links;
- the campaign configuration loader;
- the list-page walker that yields profile URLs;
- the profile extractor that builds a `Lead`;
- the `Lead` record with its per-field provenance;
- the request model with its validators;
- the parts of the web scraper the crawler relies on: the content extractor, Cloudflare detection and waiting, the retry decorator, navigation, the browser pool, selector matching, page post-processing and the cached `scrape` entry point.

Each module models one source file, or one class of `services/scraper/scraper.py`:

| module | file | models |
|---|---|---|
| `Crawling` | crawler_service.dfy | `services/crawler/crawler_service.py` |
| `LinkExtraction` | link_extractor.dfy | `services/crawler/link_extractor.py` |
| `ConfigLoader` | config_loader.dfy | `services/crawler/config_loader.py` |
| `ListPageCrawler` | list_page_crawler.dfy | `services/crawler/list_page_crawler.py` |
| `ProfileExtractor` | profile_extractor.dfy | `services/crawler/profile_extractor.py` |
| `Leads` | lead.dfy | `models/lead.py` |
| `LeadFactory` | lead_factory.dfy | `models/lead_factory.py` |
| `CrawlerRequests` | crawler_request.dfy | `models/crawler_request.py` |
| `Validators` | validators.dfy | `services/extractors/validators.py` |
| `Retry` | retry.dfy | `with_retry` in `services/scraper/scraper.py` |
| `ContentExtraction` | content_extractor.dfy | `ContentExtractor` in `services/scraper/scraper.py` |
| `Cloudflare` | cloudflare.dfy | `CloudflareHandler` in `services/scraper/scraper.py` |
| `BrowserContexts` | browser_context.dfy | `BrowserContext.navigate` / `get_page_source` |
| `BrowserPools` | browser_pool.dfy | `BrowserPool` in `services/scraper/scraper.py` |
| `WebScraping` | web_scraper.dfy | `WebScraper` in `services/scraper/scraper.py` |
| `Wrappers`, `Strings`, `Html`, `JsonValues` | wrappers.dfy, strings.dfy, html.dfy, json.dfy | shared helpers |

Everything the core asks of the outside world enters as a function-valued parameter:
- the HTTP fetch, the browser and its probes;
- CSS `select` / `select_one`, URL joining and resolution;
- the robots.txt parser and regular-expression search;
- the clock;
- YAML parsing, markdown conversion and the structured-data extractor.

The model states what the core does with whatever those collaborators return.

The core is modelled in the form it has in the source:
- Objects whose methods update their fields become classes with `modifies` clauses: `CrawlerService`, `QueueManager`, `CrawlerResponse`, `Lead`, the configuration cache `Loader` and `BrowserPool`.
- Loops become methods with invariants. Most are proved equal to a specification function; the scheduler loop of `crawl_sync` and the batch draw state their outcome directly, and `_process_page` is tied to the `PageEffect` function.
- Pure logic becomes functions with lemmas.

URLs are a parsed six-part value. A query is a list of key/value pairs.

### Wiring notes

In several places the source, as written, calls code that does not match its callee. The model follows the evidently intended call:
- `WebScraper` reads `self.pool` when acquiring a browser but `self.browser_pool` when releasing one and in `cleanup` (`services/scraper/scraper.py:830` against 949, 986 and 1119). The model uses one pool.
- `CrawlerService` builds `WebScraper(max_concurrent=...)` without the required `campaign` argument (`services/crawler/crawler_service.py:37`, `services/scraper/scraper.py:812`). The service is modelled as if built with its scraper.
- `WebScraper` subscripts or calls `.get` on the pydantic `CampaignConfig` as if it were a dictionary (`cfg["list_page"]`, `services/scraper/scraper.py:886`, 900 and 926). The model reads the configured fields.
- `BrowserPool` awaits a synchronous `queue.Queue`. The model treats the queue as a plain FIFO.
- `CrawlerRequest.max_errors` and `max_time_seconds` are validated but never enforced by the scheduler. The model validates them and does not use them.
- `crawl_sync` has a branch for an empty batch (`services/crawler/crawler_service.py:201-207`). With the stand-in queue, a non-empty start URL and a link extractor that never yields an empty URL, `Crawling.CrawlerService.CrawlSync` proves this branch unreachable: a batch drawn from a non-empty queue is never empty. Whether the real queue manager can reach it is not part of this model.
- `iter_profile_urls` builds each profile URL with `httpx.URL(href, base=next_url).join(href)` (`services/crawler/list_page_crawler.py:71`). `URL()` accepts no `base` keyword, so this raises `TypeError` at the first new href, before anything is yielded. `ListPageCrawler.NewProfilesAsWritten` models that; the walk itself uses the intended resolution of the href against the page, a `join` parameter standing for `urljoin(page, href)`.
- `CrawlStats` is flattened into fields of `Crawling.CrawlerResponse`.
- `Lead` ignores unknown keyword arguments. The profile extractor passes `title`, `socials`, `organization` and `source_url`, which are dropped; this is modelled as written.
- `_extract_profile` silently drops lxml elements. This is modelled as written.

## Model

| member | source | states |
|---|---|---|
| Retry.WithRetry | services/scraper/scraper.py:172-188 | at most `max_retries` calls, every call before the last one failed; success exactly when some attempt succeeds, and then the result is that call's; on failure all attempts were made and the last error is re-raised (`None` when no attempt was allowed); the pauses are `delay*(a+1)`, one fewer than the calls |
| Cloudflare.AnyPresentIff | services/scraper/scraper.py:321-328 | the selector probe answers yes exactly when some challenge selector is found |
| Cloudflare.AnyIndicatorIff | services/scraper/scraper.py:330-340 | the source probe answers yes exactly when some indicator occurs in the source |
| Cloudflare.IsCloudflareChallengeIff | services/scraper/scraper.py:314-345 | a page is a challenge iff its title can be read and (the lowercased title names a challenge, or one of the four challenge selectors is present, or the readable lowercased source holds one of the five indicators) |
| Cloudflare.Waiting | services/scraper/scraper.py:376-393 | the wait never ends before the poll it starts from |
| Cloudflare.WaitingSound | services/scraper/scraper.py:376-393 | at most three solve attempts, one per poll showing the challenge; every poll but the last showed the challenge within the timeout; solved means the last poll was clean within the timeout; not solved means the timeout passed |
| Cloudflare.WaitForChallengeCompletion | services/scraper/scraper.py:376-393 | the poll loop computes exactly the specified wait |
| BrowserContexts.NavigateSound | services/scraper/scraper.py:541-571 | one or two loads, the second only after a timeout and at twice the timeout; past a challenge, navigation fails (with the bypass message) iff the wait did not clear it, and succeeds only after a clean poll within the timeout; no challenge means success |
| BrowserContexts.GetPageSource | services/scraper/scraper.py:602-613 | one to three reads, every earlier read stale; a source read is returned, a failed read propagates its message, three stale reads give the retrieval error; one pause per stale read |
| BrowserPools.BrowserPool.constructor | services/scraper/scraper.py:652-673 | an empty pool with the given cap, not shut down |
| BrowserPools.BrowserPool.GetBrowser | services/scraper/scraper.py:722-748 | raises once shut down; otherwise reuses the oldest idle browser, or creates a fresh one only when none is idle and fewer than the cap are active, or reports exhaustion; the cap and the idle/active separation are kept, and the id counter moves only when a browser is created |
| BrowserPools.BrowserPool.ReleaseBrowser | services/scraper/scraper.py:750-769 | an unknown browser changes nothing; a known one leaves the active set and is queued idle when healthy, destroyed otherwise |
| BrowserPools.BrowserPool.Cleanup | services/scraper/scraper.py:779-796 | sets shutdown, destroys every idle browser in queue order and forgets the active ones |
| ContentExtraction.Restrict | services/scraper/scraper.py:227-231 | only the allowed attributes `href`, `src`, `alt`, `title` survive, with their values |
| ContentExtraction.CleanNodeClean | services/scraper/scraper.py:218-233 | cleaning one node leaves no removed tag and no disallowed attribute anywhere in the result |
| ContentExtraction.CleanNodesClean | services/scraper/scraper.py:218-233 | cleaning a document leaves no removed tag and no disallowed attribute anywhere |
| ContentExtraction.CleanNodeFixed | services/scraper/scraper.py:218-233 | an already clean node is left as it is |
| ContentExtraction.CleanNodesFixed | services/scraper/scraper.py:218-233 | an already clean document is left as it is |
| ContentExtraction.CleanIdempotent | services/scraper/scraper.py:218-233 | cleaning twice is cleaning once |
| ContentExtraction.FirstWhere | services/scraper/scraper.py:239 | the tag found satisfies the lookup and is in the document; none is found iff no tag satisfies it |
| ContentExtraction.Metas | services/scraper/scraper.py:252 | exactly the `meta` elements of the document |
| ContentExtraction.ApplyMappings | services/scraper/scraper.py:256-258 | the keys added are exactly the mapped keys whose candidates list the lowercased name |
| ContentExtraction.ApplyMappingsMiss | services/scraper/scraper.py:256-258 | a name no mapping lists changes nothing |
| ContentExtraction.ApplyMappingsHit | services/scraper/scraper.py:256-258 | a name exactly one mapping lists stores the stripped content under that key |
| ContentExtraction.ApplyMappingsKeyFor | services/scraper/scraper.py:243-258 | with the six fixed mappings, a meta tag sets at most the one key its lowercased name belongs to |
| ContentExtraction.MetaLoopLastWins | services/scraper/scraper.py:252-258 | when several meta tags feed a key, the last one's stripped content wins |
| ContentExtraction.MetaLoopUntouched | services/scraper/scraper.py:252-258 | a key no meta tag feeds keeps its earlier value, or stays absent |
| ContentExtraction.TitleKept | services/scraper/scraper.py:239-259 | a title is present iff an `og:title` meta tag or a `<title>` tag exists, and then it is that tag's value: no meta tag of the loop overrides it |
| ContentExtraction.PublishedDateNeverMatches | services/scraper/scraper.py:247-257 | a lowercased name never equals `publishedDate`, so `published_date` comes only from `article:published_time` |
| ContentExtraction.MetaLoopKeys | services/scraper/scraper.py:243-259 | the meta loop adds no key outside the mapped ones |
| ContentExtraction.ApplyMappingsLoop | services/scraper/scraper.py:256-258 | the loop over the mappings computes the specified update |
| ContentExtraction.ExtractMetadata | services/scraper/scraper.py:235-259 | the extraction loop computes the specified metadata |
| ContentExtraction.FirstMatching | services/scraper/scraper.py:270-273 | the element found matches the pattern and is in the document; none iff no element matches |
| ContentExtraction.Containers | services/scraper/scraper.py:276 | exactly the `div` and `section` elements |
| ContentExtraction.Largest | services/scraper/scraper.py:278 | the first container of maximal text length |
| ContentExtraction.MainFromDecided | services/scraper/scraper.py:263-280 | the first pattern that matches decides; when none matches, the fallback decides |
| ContentExtraction.MainFallback | services/scraper/scraper.py:275-280 | the fallback is the largest `div`/`section` container, or nothing when there is none |
| ContentExtraction.MainElementWins | services/scraper/scraper.py:261-280 | a document with a `<main>` element has a `<main>` element as its main content |
| ContentExtraction.AsWrittenOnlyFallsBack | services/scraper/scraper.py:263-273 | as written, on pages without a `tag` attribute, only the largest-container fallback can answer |
| ContentExtraction.AsWrittenMissesMain | services/scraper/scraper.py:263-280 | as written, a page with `<main>` and an empty `<div>` yields the `<div>` |
| ContentExtraction.ExtractContent | services/scraper/scraper.py:282-299 | the HTML is clean; the metadata is that of the whole page; with `only_main` and a main element, the HTML is the cleaned main element, otherwise the cleaned page |
| WebScraping.FirstMatch | services/scraper/scraper.py:858-878 | empty exactly when every selector yields nothing |
| WebScraping.FirstMatchDecided | services/scraper/scraper.py:863-878 | the first selector with a non-empty result decides, skipping selectors with neither key |
| WebScraping.FindFirstMatch | services/scraper/scraper.py:858-878 | the loop computes the specified first match |
| WebScraping.LinksSound | services/scraper/scraper.py:887-895 | no more links than matches; a link is returned iff some match carries it as its `href` |
| WebScraping.ExtractLinks | services/scraper/scraper.py:883-895 | the loop returns the links of the first match |
| WebScraping.HasNextPageIff | services/scraper/scraper.py:897-915 | there is a next page iff the CSS selector matches, or the XPath expression matches, or the URL regex is found in the page |
| WebScraping.Values | services/scraper/scraper.py:931-936 | at most one value per match |
| WebScraping.ValuesOfSoup | services/scraper/scraper.py:932-936 | each soup match contributes its stripped text, in order |
| WebScraping.CollectValues | services/scraper/scraper.py:931-936 | the loop collects the specified values |
| WebScraping.ExtractProfile | services/scraper/scraper.py:920-939 | a profile field is present iff its first match yields some value, and then holds those values |
| WebScraping.MergedMetadata | services/scraper/scraper.py:1076-1085 | the merged metadata has the six base keys plus the extracted ones; it carries the URL, the status and a null error; every extracted value replaces its default, and a title, description or language not extracted stays null |
| WebScraping.HrefsSound | services/scraper/scraper.py:1088-1092 | the formatted links are exactly the non-empty `href`s of the page's links |
| WebScraping.NoClash | services/scraper/scraper.py:1076-1085 | the meta loop never adds `sourceURL`, `statusCode` or `error` |
| WebScraping.MetadataNoClash | services/scraper/scraper.py:1076-1085 | the extracted metadata never holds `sourceURL`, `statusCode` or `error`, so it cannot override them |
| WebScraping.ProcessedPage | services/scraper/scraper.py:1055-1112 | post-processing fails iff structured-data extraction fails; otherwise the payload's metadata has the URL, the status, a null error and every extracted key, and the payload has the raw HTML, clean HTML, no warning, links iff the page had any, and the screenshot as its only action iff there is one |
| WebScraping.CacheHit | services/scraper/scraper.py:999-1003 | a cache hit returns the cached payload marked cached, stores nothing and does not depend on the fetch |
| WebScraping.ScrapeFetched | services/scraper/scraper.py:1005-1025 | without a cache hit, a scrape succeeds iff fetching, processing and (when the cache is used) storing succeed, and then returns the processed page marked not cached; the page is handed to the cache iff it was processed and the cache is used, with the request's TTL, else the setting's, else 86400 seconds |
| WebScraping.ScrapeFailed | services/scraper/scraper.py:1026-1050 | a failed scrape has no `cached` flag; its payload has status 500, the URL, the error as both error and warning, a null title and no content, links or structured data |
| LinkExtraction.FilterQuery | services/crawler/link_extractor.py:55-58 | keeps exactly the `page`, `p` and `start` pairs, in their order |
| LinkExtraction.FilterQueryIdempotent | services/crawler/link_extractor.py:55-58 | filtering a filtered query changes nothing |
| LinkExtraction.FilterQueryAppend | services/crawler/link_extractor.py:55-58 | filtering distributes over concatenation, so relative order is kept |
| LinkExtraction.NormalizeUrl | services/crawler/link_extractor.py:48-69 | the result has no fragment and no params, and its query is the filtered query of the resolved URL; the scheme, host and path are those of the resolved URL; normalisation fails iff resolution fails |
| LinkExtraction.NormalizeIdempotent | services/crawler/link_extractor.py:48-66 | normalising a normalised URL changes nothing |
| LinkExtraction.AnyMatch | services/crawler/link_extractor.py:86-92 | true iff some pattern is found in the URL |
| LinkExtraction.ShouldIncludeCases | services/crawler/link_extractor.py:71-94 | another host is refused; a matching exclude pattern refuses; with include patterns one must match; otherwise the URL is accepted |
| LinkExtraction.AllowedByRobots | services/crawler/link_extractor.py:42-46 | every URL is allowed when robots.txt is not respected; otherwise the parser decides |
| LinkExtraction.RelHasNext | services/crawler/link_extractor.py:116-124 | true iff some `rel` value lowercases to `next` |
| LinkExtraction.Step | services/crawler/link_extractor.py:118-128 | one anchor leaves the scan unchanged or appends one new admitted URL in the right list |
| LinkExtraction.ScanSound | services/crawler/link_extractor.py:114-128 | every URL collected was admitted by some anchor and is classified as that anchor demands |
| LinkExtraction.ScanDistinct | services/crawler/link_extractor.py:107-128 | the collected URLs are pairwise distinct |
| LinkExtraction.ScanComplete | services/crawler/link_extractor.py:114-128 | every URL some anchor admits is collected |
| LinkExtraction.SplitMembers | services/crawler/link_extractor.py:124-127 | the profile and pagination lists hold exactly the collected URLs of each kind |
| LinkExtraction.SplitDistinct | services/crawler/link_extractor.py:124-133 | profile links followed by pagination links contain no duplicate |
| LinkExtraction.ExtractLinks | services/crawler/link_extractor.py:96-133 | the loop returns the profile links followed by the pagination links of the scan |
| LinkExtraction.ExtractLinksProperties | services/crawler/link_extractor.py:107-133 | the result is duplicate-free; each URL is admitted by some anchor and classified correctly; every admitted URL appears |
| Leads.AfterLastAt | models/lead.py:239 | the text after the last `@`, which holds no `@` |
| Leads.ValidateEmail | models/lead.py:234-241 | an accepted email is returned unchanged; a refused one gives `Invalid email format: ` followed by the value |
| Leads.EmailAccepted | models/lead.py:234-241 | an email is accepted iff it has an `@` with no later `@` and a `.` after it |
| Leads.KeepPhoneChars | models/lead.py:249 | keeps only digits, `+`, `-` and spaces, never lengthens, and leaves a string made only of those unchanged |
| Leads.ValidatePhone | models/lead.py:243-252 | `None` passes; a number is refused iff it keeps fewer than seven digits, `+`, `-` or spaces, with `Phone number looks too short: ` followed by the value; an accepted number becomes exactly its kept characters |
| Leads.ValidatePhoneIdempotent | models/lead.py:243-252 | validating a validated phone changes nothing |
| Leads.CheckField | models/lead.py:18-61 | a field that fails is reported by its own name; a value that passes fits the field's declared type |
| Leads.ErrorsExact | models/lead.py:18-61 | the reported names are exactly the failing fields |
| Leads.ParseFails | models/lead.py:18-68 | construction fails iff some field fails, and then names exactly the failing fields |
| Leads.ParseSets | models/lead.py:18-68 | a constructed lead is well formed, sets exactly the non-null lead fields and keeps their values, except that the phone is cleaned |
| Leads.ParseAgrees | models/lead.py:66-68 | two mappings that agree on every lead field build the same lead, or fail with the same errors |
| Leads.ParseIgnoresUnknown | models/lead.py:66-68 | unknown keys do not change the outcome of construction |
| Leads.CheckFieldValidated | models/lead.py:234-252 | values that already passed validation pass again unchanged |
| Leads.ParseRoundTrip | models/lead.py:223-229 | a lead rebuilt from its exported dictionary is the same lead |
| Leads.Stamp | models/lead.py:96-98 | the provenance entry of the key becomes exactly `[url]`, and every other entry is kept |
| Leads.StampTwice | models/lead.py:96-98 | recording the same key twice keeps only the later URL |
| Leads.AppendPlatforms | models/lead.py:124-127 | the per-platform provenance covers the old platforms and the new ones |
| Leads.AppendEach | models/lead.py:126-127 | the loop appends the URL for every platform, as specified |
| Leads.AppendPlatformsStep | models/lead.py:126-127 | each handled platform gains the URL at the end of its list |
| Leads.AppendPlatformsKeeps | models/lead.py:126-127 | platforms not handled keep their URLs |
| Leads.WithFlag | models/lead.py:213-218 | the flag is present afterwards, earlier flags are kept in order, and at most one is added |
| Leads.WithFlagIdempotent | models/lead.py:213-218 | adding a flag twice is adding it once |
| Leads.WithFlagDistinct | models/lead.py:213-218 | a duplicate-free flag list stays duplicate-free |
| Leads.ThreeSourceValidIff | models/lead.py:79-90 | valid iff at least two of email, phone and a non-empty social handle are present |
| Leads.WithHandlesKeeps | models/lead.py:117-127 | setting handles keeps every other field and every other provenance entry |
| Leads.AttrName | models/lead.py:130-141 | every list setter writes one of the lead's list fields |
| Leads.ProvenanceKey | models/lead.py:140 | the provenance key is the given key when it is non-empty, else the attribute name |
| Leads.Assigned | models/lead.py:96-115 | the field is set, its provenance is the stamp, and every other field is unchanged |
| Leads.Lead.constructor | models/lead.py:18-61 | a lead with no field set |
| Leads.Lead.Create | models/lead.py:18-68 | construction succeeds iff the arguments parse, and the lead holds the parsed values |
| Leads.Lead.EnsureSourceDict | models/lead.py:73-77 | the provenance dictionary exists afterwards, and an existing one is kept |
| Leads.Lead.SetName | models/lead.py:96-98 | sets `name` with provenance under `name` |
| Leads.Lead.SetBusinessName | models/lead.py:100-102 | sets `business_name` with provenance under `businessName` |
| Leads.Lead.SetProfileLink | models/lead.py:104-106 | sets `profile_link`; the link is its own provenance under `profileLink` |
| Leads.Lead.SetEmail | models/lead.py:109-111 | sets `email` with provenance under `email` |
| Leads.Lead.SetPhone | models/lead.py:113-115 | sets `phone` with provenance under `phone` |
| Leads.Lead.SetSocialHandles | models/lead.py:117-127 | fails iff the existing provenance makes the append raise; otherwise the handles are set and each platform's provenance gains the URL |
| Leads.Lead.ListSetter | models/lead.py:130-141 | sets the list field and stamps the chosen provenance key |
| Leads.Lead.SetServicesOffered | models/lead.py:143-151 | sets `services_offered` with provenance under `servicesOffered` |
| Leads.Lead.SetStyleVibeDescriptors | models/lead.py:153-161 | sets `style_vibe_descriptors` with provenance under `styleVibeDescriptors` |
| Leads.Lead.SetLocation | models/lead.py:163-165 | sets `location` with provenance under `location` |
| Leads.Lead.SetTeamMemberNames | models/lead.py:167-172 | sets `team_member_names` with provenance under `teamMemberNames` |
| Leads.Lead.SetPortfolioLinks | models/lead.py:174-179 | sets `portfolio_links` with provenance under `portfolioLinks` |
| Leads.Lead.SetBookingContactLinks | models/lead.py:181-189 | sets `booking_contact_links` with provenance under `bookingContactLinks` |
| Leads.Lead.SetTestimonialsSocialProof | models/lead.py:191-197 | sets `testimonials_social_proof` with provenance under `testimonialsSocialProof` |
| Leads.Lead.SetValuesMissionStatement | models/lead.py:199-203 | sets `values_mission_statement` with provenance under `valuesMissionStatement` |
| Leads.Lead.SetRawPageText | models/lead.py:206-208 | sets `raw_page_text` with provenance under `rawPageText` |
| Leads.Lead.SetConfidence | models/lead.py:210-211 | sets `confidence` and records no provenance |
| Leads.Lead.AddFlag | models/lead.py:213-218 | creates the flag list when absent and adds the flag once |
| Leads.Lead.ToDict | models/lead.py:223-229 | the export holds only lead fields, none of them null |
| LeadFactory.FilterLeadFields | models/lead_factory.py:28-29 | keeps exactly the lead fields present in the data, with their values |
| LeadFactory.LeadFromMappingIgnoresExtra | models/lead_factory.py:9-30 | building from a mapping is constructing from the same data, extra keys and all |
| LeadFactory.LeadFromMappingFields | models/lead_factory.py:27-30 | the lead holds only lead fields; absent ones stay unset; present non-null ones are set, the phone to its cleaned text and every other field to the given value |
| CrawlerRequests.StatusValueInjective | models/crawler_request.py:14-18 | distinct statuses have distinct string values |
| CrawlerRequests.ValidateRegex | models/crawler_request.py:128-135 | a pattern passes unchanged iff it compiles; otherwise it fails with `Invalid regex pattern '<p>': <error>` |
| CrawlerRequests.PatternErrorsExact | models/crawler_request.py:128-135 | a pattern list is refused iff some pattern does not compile |
| CrawlerRequests.NewRequestSound | models/crawler_request.py:47-123 | a request is accepted iff its URL, every bound and every pattern is valid; it then carries the given URL, campaign and identifier, each limit, pattern list and robots flag as given or its default, and the creation time; it starts pending, with zero statistics and no start or end time |
| CrawlerRequests.NewRequestDefaults | models/crawler_request.py:57-99 | the defaults are depth 3, 100 pages, 5 concurrent, 5 errors, 3600 seconds, no patterns and robots respected |
| Validators.CheckRequiredFields | services/extractors/validators.py:6-11 | refused iff some dictionary lacks a truthy `@context` or `@type`; accepted values are unchanged |
| Validators.EnsureMetadataFields | services/extractors/validators.py:69-77 | adds `language` when absent, as null, and keeps every existing entry |
| Validators.EnsureMetadataIdempotent | services/extractors/validators.py:69-77 | ensuring twice is ensuring once |
| Validators.NewStructuredData | services/extractors/validators.py:50-77 | a `metaData` mapping with a null value fails the `Dict[str, str]` type check; otherwise the defaults are empty JSON-LD, Open Graph and Twitter data, the default meta data is a null `language`, and a `metaData` argument goes through `ensure_metadata_fields` |
| Validators.StructuredDataHasLanguage | services/extractors/validators.py:52-77 | every accepted structured-data record has a `language` key; the default is what validating None gives; the validator's own output, passed in again, is refused |
| ConfigLoader.ParseSelector | services/crawler/config_loader.py:23-34 | a selector parses only from a mapping holding the `css` or `xpath` string it carries |
| ConfigLoader.ParseSelectorItems | services/crawler/config_loader.py:39-44 | a list parses iff every item parses, element by element |
| ConfigLoader.ParseSelectorList | services/crawler/config_loader.py:39-44 | an omitted list is empty |
| ConfigLoader.ParseOptionalString | services/crawler/config_loader.py:49-51 | omitted or null is `None`; a value is the string given |
| ConfigLoader.ParseProfileFields | services/crawler/config_loader.py:37-44 | omitted fields have no selectors |
| ConfigLoader.ParsePagination | services/crawler/config_loader.py:47-51 | omitted pagination has no selectors |
| ConfigLoader.ParseListPage | services/crawler/config_loader.py:54-57 | an omitted list page has no link selectors and no pagination |
| ConfigLoader.ParseProfilePage | services/crawler/config_loader.py:60-62 | an omitted profile page has no fields |
| ConfigLoader.ParseCampaign | services/crawler/config_loader.py:65-68 | an empty campaign is the default campaign |
| ConfigLoader.OmittedSectionsDefault | services/crawler/config_loader.py:65-68 | an omitted section takes its default |
| ConfigLoader.ParseCampaigns | services/crawler/config_loader.py:71-73 | accepted iff the document is a mapping whose every campaign parses; the campaign names are kept |
| ConfigLoader.LoadYaml | services/crawler/config_loader.py:88-94 | an empty document is `{}`; a `selectors` key is unwrapped; another mapping is taken whole; anything else is refused |
| ConfigLoader.LoadUnwrapsSelectors | services/crawler/config_loader.py:88-110 | a document under `selectors` loads as its inner mapping |
| ConfigLoader.NotFoundMessageNames | services/crawler/config_loader.py:116-121 | the not-found message names the campaign |
| ConfigLoader.Loader.constructor | services/crawler/config_loader.py:85 | nothing is cached and nothing has been loaded |
| ConfigLoader.Loader.LoadAll | services/crawler/config_loader.py:97-110 | a cached result is returned without loading; otherwise the document is loaded once and a success is cached |
| ConfigLoader.Loader.GetCampaignConfig | services/crawler/config_loader.py:127-142 | returns the named campaign, reports a missing one as not found, and propagates a load failure |
| ConfigLoader.Loader.ListAvailableCampaigns | services/crawler/config_loader.py:145-147 | the campaign names of the loaded configuration, as a set |
| ConfigLoader.LoadTwice | services/crawler/config_loader.py:97-110 | after a successful load, a second load returns the same campaigns without reading again |
| ListPageCrawler.Values | services/crawler/list_page_crawler.py:39 | one value per element: the `href` of an anchor, else its stripped text |
| ListPageCrawler.AppliedFirstMatch | services/crawler/list_page_crawler.py:27-39 | the first CSS selector with matches decides; an XPath selector raises; a skipped selector passes to the rest |
| ListPageCrawler.AppliedNoMatch | services/crawler/list_page_crawler.py:27-40 | no selector with matches gives the empty list |
| ListPageCrawler.ApplySelectors | services/crawler/list_page_crawler.py:22-40 | the loop computes the specified result |
| ListPageCrawler.AsDicts | services/crawler/list_page_crawler.py:67-68 | each configured selector becomes the dictionary with its own key and value |
| ListPageCrawler.NextSelectorsAsWritten | services/crawler/list_page_crawler.py:76-77 | as written, one selector per character of `next_css` |
| ListPageCrawler.NextSelectorAsWrittenFollowsAnyAnchor | services/crawler/list_page_crawler.py:76-78 | as written, `a.next` follows any anchor of the page |
| ListPageCrawler.NextPageIsFirstCandidate | services/crawler/list_page_crawler.py:76-78 | the next page is the first match of `next_css`, and there is none without it |
| ListPageCrawler.NewProfiles | services/crawler/list_page_crawler.py:68-73 | the new profile URLs are pairwise distinct, not seen before, and each is a non-empty `href` joined against the page |
| ListPageCrawler.NewProfilesComplete | services/crawler/list_page_crawler.py:68-73 | the other half of "exactly once": every non-empty `href` whose joined URL was not seen before is among the new profile URLs |
| ListPageCrawler.NewProfilesAsWritten | services/crawler/list_page_crawler.py:68-73 | as written, a list page raises `TypeError` iff it has a non-empty href, and otherwise yields nothing |
| ListPageCrawler.AsWrittenRaisesOnFirstHref | services/crawler/list_page_crawler.py:68-73 | as written, the relative href `/p` raises `TypeError` where the intended join yields `https://e.com/p` |
| ListPageCrawler.YieldProfiles | services/crawler/list_page_crawler.py:68-73 | the loop yields the specified new profiles |
| ListPageCrawler.PageCoveredAfter | services/crawler/list_page_crawler.py:68-73 | once a read list page's new profile URLs are added, the URL of every non-empty `href` on it is among those yielded |
| ListPageCrawler.WalkGrows | services/crawler/list_page_crawler.py:56-78 | the walk only adds to what was yielded and visited |
| ListPageCrawler.WalkDistinct | services/crawler/list_page_crawler.py:56-78 | the walk never yields a profile twice and never visits a page twice, and stays within its page budget |
| ListPageCrawler.WalkYieldsAll | services/crawler/list_page_crawler.py:56-73 | nothing discovered is lost: for every list page the walk fetched and read the links of, the URL of each non-empty `href` is yielded |
| ListPageCrawler.StartSound | services/crawler/list_page_crawler.py:46-78 | the walk from the start URL yields no URL twice, visits no page twice, stays within its budget, and yields every `href` found on a page it read |
| ListPageCrawler.WalkListPages | services/crawler/list_page_crawler.py:56-78 | the loop computes the specified walk from the start URL |
| ListPageCrawler.IterProfileUrls | services/crawler/list_page_crawler.py:46-78 | an unknown campaign raises not-found before anything is yielded; otherwise the walk is the specified one, and each discovered profile URL is yielded exactly once: no repeats, and every `href` found on a page that was read is yielded |
| ProfileExtractor.FirstValue | services/crawler/profile_extractor.py:28-48 | a value found is non-empty; a failure is the XPath error |
| ProfileExtractor.FirstValueDecided | services/crawler/profile_extractor.py:32-48 | the first selector yielding a non-empty value decides; an XPath selector raises; none gives `None` |
| ProfileExtractor.ExtractOneField | services/crawler/profile_extractor.py:28-48 | the loop computes the specified first value |
| ProfileExtractor.FieldData | services/crawler/profile_extractor.py:63-77 | exactly the fields with selectors are present, each holding its first value |
| ProfileExtractor.FieldDataErrorSticks | services/crawler/profile_extractor.py:67-77 | an XPath failure on one field fails the whole extraction |
| ProfileExtractor.FieldDataNoSelectors | services/crawler/profile_extractor.py:66-77 | fields without selectors contribute nothing |
| ProfileExtractor.KwargsIgnored | services/crawler/profile_extractor.py:79-87 | the extra keyword arguments do not change the lead |
| ProfileExtractor.NotLeadField | services/crawler/profile_extractor.py:79-87 | `title`, `socials`, `organization` and `source_url` are not lead fields |
| ProfileExtractor.ExtractLead | services/crawler/profile_extractor.py:52-87 | the method computes the specified extraction |
| ProfileExtractor.LeadFromData | services/crawler/profile_extractor.py:79-87 | the lead holds only the name, email and phone found, with the phone cleaned, and no provenance |
| ProfileExtractor.LeadFromDataFails | services/crawler/profile_extractor.py:79-87 | building the lead fails iff the email found is malformed or the phone found is too short |
| ProfileExtractor.NoProfileFieldsEmptyLead | services/crawler/profile_extractor.py:57-87 | an unknown campaign is not found; a campaign without profile fields yields an empty lead |
| Crawling.QueueManager.constructor | services/crawler/crawler_service.py:156 | an empty queue with nothing in progress or completed |
| Crawling.QueueManager.AddUrl | services/crawler/crawler_service.py:174 | the URL joins the end of the pending queue with its depth and parent |
| Crawling.QueueManager.GetNextUrl | services/crawler/crawler_service.py:196-199 | takes the oldest pending entry into progress, or nothing when the queue is empty |
| Crawling.QueueManager.MarkComplete | services/crawler/crawler_service.py:144-145 | the URL leaves the in-progress set and is recorded complete |
| Crawling.CrawlerResponse.constructor | services/crawler/crawler_service.py:160-170 | in progress, with no pages, no leads and zero counters |
| Crawling.PageEffect | services/crawler/crawler_service.py:82-137 | a page fails iff it was not scraped; a lead is kept iff extraction succeeded; links are followed iff the depth is below the maximum |
| Crawling.AsWrittenLosesLeadPages | services/crawler/crawler_service.py:113-118 | as written, a page whose lead was extracted is counted failed, and its page record and links are lost |
| Crawling.AsWrittenAgreesWithoutLead | services/crawler/crawler_service.py:102-118 | as written and as intended agree on pages without a lead |
| Crawling.Children | services/crawler/crawler_service.py:123-129 | one entry per link of the page, in order, one level deeper, with the page as parent |
| Crawling.NewCrawlerService | services/crawler/crawler_service.py:34-41 | building the service fails with the thread pool's `ValueError` iff there are no worker threads; otherwise a new service holds the worker count and the collaborators |
| Crawling.CrawlerService.constructor | services/crawler/crawler_service.py:34-41 | keeps the limits and the collaborators |
| Crawling.CrawlerService.ProcessPage | services/crawler/crawler_service.py:57-145 | applies the page effect to the response and the queue, and always marks the URL complete |
| Crawling.CrawlerService.EnqueueLinks | services/crawler/crawler_service.py:127-129 | the children join the end of the pending queue |
| Crawling.CrawlerService.CrawlSync | services/crawler/crawler_service.py:148-244 | ends completed, with the queue drained or the page limit reached; never more pages than the limit; the total equals the pages and the successes; successes plus failures equal the completed URLs; nothing in progress; at most one lead per page; no page deeper than the maximum |
| Crawling.CrawlerService.ProcessBatch | services/crawler/crawler_service.py:211-226 | runs one batch of page tasks: every drawn URL leaves the in-flight set and is marked complete, each adds at most one page (within the depth limit), earlier pages are kept, and the queue grows only if a page was added |
| Crawling.CrawlerService.DrawBatch | services/crawler/crawler_service.py:191-199 | draws at most the batch size from the front of the queue and puts it in flight; when no queued URL is empty, as the pending invariant of the crawl ensures, it keeps every URL drawn and draws at least one from a non-empty queue |

## Left out

- The `FAILED` status path of `crawl_sync` (`services/crawler/crawler_service.py:246-250`) is not modelled: no modelled step raises to it.
- Concurrency is not modelled: locks, semaphores, `asyncio.gather` and the thread pool. The pages of a batch are processed one after the other.
- `BrowserPools.BrowserPool.GetBrowser`: the wait on an exhausted pool is reported as `Exhausted`; the blocking `queue.get` is not modelled.
- Launching and quitting browsers, browser hardening and screenshots are not modelled. The wait for network idle never raises and is left out.
- `Cloudflare.WaitingSound`: the checkbox clicks of `solve_challenge` are only counted, not performed.
- `wait_for_selector` is not modelled.
- HTML parsing, serialisation (`str(soup)`) and markdown conversion are oracles. `decompose` is a tree rewrite.
- `ContentExtraction.MatchesPattern`: a multi-valued `class` attribute is matched as one string.
- The structured-data extractor is an oracle; only its validators are modelled.
- `Validators.NewStructuredData`: a meta data value is a string or None; values of other types, which the `Dict[str, str]` type check also refuses, cannot be represented.
- `ListPageCrawler.IterProfileUrls`, `ListPageCrawler.WalkListPages` and `ListPageCrawler.WalkFrom` take a fuel bound on the number of list pages. The source loops until a page repeats or no next page is found.
- `ListPageCrawler.AsDicts`: as written, the configured selectors are pydantic objects, which fail the `isinstance(sel, dict)` test of `services/crawler/list_page_crawler.py:28-30` and are skipped silently. The model passes them as the dictionaries they evidently stand for.
- `ProfileExtractor.SelectorsOf`: as written, `"css" in sel` and `"xpath" in sel` (`services/crawler/profile_extractor.py:32-34`) are both false on a pydantic selector, whose iteration yields name/value pairs. So every selector is skipped, every field is None and `extract_lead` builds an empty lead. The model reads each selector by its own key.
- `ProfileExtractor.ExtractLead` and `ProfileExtractor.FieldData` rest on `ProfileExtractor.SelectorsOf` and share its reading of the selectors.
- `ListPageCrawler.NewProfiles` and `ListPageCrawler.YieldProfiles` resolve each href with the intended join. As written, `services/crawler/list_page_crawler.py:71` raises `TypeError` at the first new href (`ListPageCrawler.NewProfilesAsWritten`).
- `ListPageCrawler.WalkDistinct` and `ListPageCrawler.WalkYieldsAll` are about the walk with the intended join. As written, the walk ends with `TypeError` at the first new profile href and yields nothing.
- `ListPageCrawler.IterProfileUrls` follows the intended join too. As written, it raises `TypeError` at the first new profile href.
- `Strings.Lower`, `Strings.Strip` and `Strings.IsDigit` cover ASCII only. There is no Unicode case folding or whitespace, and Unicode digits such as `٣`, which Python's `isdigit` accepts, are not kept by `Leads.KeepPhoneChars`.
- Confidence is a `real`, without floating-point rounding. The crawl duration is not modelled, and the clock of the Cloudflare wait counts whole seconds.
- `WebScraping.Scrape`: `_get_page_content` is a fetch outcome. Acquiring and releasing browsers and navigating are not wired into it.
- `WebScraping.Scrape`: a cache lookup that raises is not modelled.
- `LinkExtraction.AnyMatch`: patterns are assumed compiled. A `re.search` that raises is not modelled, because the request validator already refuses invalid patterns.
- `LinkExtraction.NormalizeUrl`: percent-encoding in `urlencode`/`parse_qsl` is not modelled; the query is a list of pairs.
- `Crawling.QueueManager`: the queue manager is not part of this model. This is a first-in first-out stand-in without de-duplication that offers the calls the scheduler makes.
- `Crawling.CrawlerService.constructor` requires at least one worker thread. With zero, the source's `__init__` raises `ValueError` from `ThreadPoolExecutor`; `Crawling.NewCrawlerService` models that error.
- `Crawling.CrawlerService.CrawlSync` requires at least one worker thread, as any built service has. It also requires a non-empty start URL (an `HttpUrl` is never empty) and a link extractor that never yields an empty URL. With an empty URL in the queue, what happens depends on the queue manager, which is not part of this model.
- `Crawling.CrawlerService.ProcessBatch` requires the same link extractor.
- The `actions` entry of a scrape response holds the list of screenshots; the `{"screenshots": [...]}` wrapper around it is flattened.
- `Leads.Parse` reports the names of the failing fields rather than pydantic's messages.
- WebScraping.ProcessedPage: states only that the metadata keys include the extracted ones. Their values are stated in `WebScraping.MergedMetadata`, because one lemma stating both runs out of resource.
- `ConfigLoader.Loader.ListAvailableCampaigns` returns the names as a set. The source returns a list in the file's order; the loaded configuration is a map here, so that order is not modelled.
- `CrawlerRequests.NewRequestSound`: `HttpUrl` validation is an oracle. `crawl_id` and `created_at` are parameters.
- The REST endpoints, the CLI entry points, logging, metrics and the persistence stub `_save_lead` are not part of this model.

## Findings

| source | as written | input that shows it | evidently intended | confidence | as-written member | corrected member |
|---|---|---|---|---|---|---|
| services/crawler/crawler_service.py:113-118 | `_save_lead` calls `lead.json(indent=2)` (line 54), and pydantic's `json` refuses the `indent` keyword with `TypeError`; were that fixed, `response.leads = []` would assign an undeclared field of the pydantic `CrawlerResponse`, which raises too; the outer handler counts the page failed, and its page record and links are lost | any scraped page for which lead extraction succeeds | the lead is appended, the page is recorded as a success and its links are followed | not executed | Crawling.AsWrittenLosesLeadPages | Crawling.PageEffect |
| services/crawler/list_page_crawler.py:68-73 | `httpx.URL(href, base=next_url)` passes a keyword `URL()` does not accept, so it raises `TypeError` at the first new href, before any profile URL is yielded. The raw `href` is also looked up among resolved URLs, and `.join(href)` resolves the href against itself | the href `/p` on `https://e.com/list` | each non-empty href is resolved against the page and each resolved profile URL is yielded once | not executed | ListPageCrawler.AsWrittenRaisesOnFirstHref | ListPageCrawler.NewProfiles |
| services/crawler/list_page_crawler.py:76-77 | the `next_css` string is iterated character by character, giving one selector per character | `next_css` `a.next` on a page whose only anchor is `/about` | the next page is the first match of the whole `next_css` selector | not executed | ListPageCrawler.NextSelectorAsWrittenFollowsAnyAnchor | ListPageCrawler.NextPageIsFirstCandidate |
| services/scraper/scraper.py:263-273 | `soup.find(tag='main')` looks for an attribute named `tag`, so the `main`/`article` patterns never match ordinary pages | a page with `<main>story</main>` followed by an empty `<div>` | a page with a `<main>` element yields it | not executed | ContentExtraction.AsWrittenMissesMain | ContentExtraction.MainElementWins |

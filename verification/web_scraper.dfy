/**
 * `WebScraper`: the selector helpers the crawler uses on fetched pages
 * (`_first_match`, `_extract_links`, `_has_next_page`, `_extract_profile`)
 * and the public `scrape` entry point with its cache short-circuit, its
 * post-processing (`_process_page_data`) and its error payload.
 *
 * The parsed page is seen through two oracles: `select(css)` is
 * `soup.select(css)`, and `xpath(expr)` is the lxml XPath evaluation,
 * `Err` when it raises. The browser fetch (`_get_page_content`), the
 * parser, the markdown conversion, the structured-data extractor and the
 * cache are parameters or outcomes handed in.
 */
module WebScraping {
  import opened Wrappers
  import opened Html
  import opened Strings
  import opened JsonValues
  import opened ContentExtraction

  /** A selector mapping: the value under `css` and under `xpath`, None when the key is absent. */
  datatype Sel = Sel(css: Option<string>, xpath: Option<string>)

  /**
   * An item of a selector result: a BeautifulSoup element (from `select`),
   * an lxml element, or a string (an XPath can select text or attribute
   * values). An lxml element has `get` but no `get_text`.
   */
  datatype Match = Soup(e: Element) | Lxml(e: Element) | Text(s: string)

  /** A key that is present with a non-empty value. */
  predicate Given(v: Option<string>) {
    v.Some? && v.value != ""
  }

  /** BeautifulSoup elements as matches. */
  function Soups(es: seq<Element>): (r: seq<Match>)
    ensures |r| == |es| && forall i :: 0 <= i < |es| ==> r[i] == Soup(es[i])
  {
    seq(|es|, i requires 0 <= i < |es| => Soup(es[i]))
  }

  // ---------------------------------------------------------------------
  // `_first_match`
  // ---------------------------------------------------------------------

  /**
   * What one selector yields on its own: a given `css` key is used and the
   * `xpath` key then ignored; otherwise a given `xpath` key, with an XPath
   * that raises yielding nothing.
   */
  function Yield(s: Sel, select: string -> seq<Element>, xpath: string -> Result<seq<Match>, string>): seq<Match> {
    if Given(s.css) then Soups(select(s.css.value))
    else if Given(s.xpath) then (match xpath(s.xpath.value) case Ok(r) => r case Err(_) => [])
    else []
  }

  /** `_first_match(soup, selectors)`: the first non-empty result, in list order, or `[]`. */
  function FirstMatch(sels: seq<Sel>, select: string -> seq<Element>, xpath: string -> Result<seq<Match>, string>): (r: seq<Match>)
    ensures r == [] <==> forall i :: 0 <= i < |sels| ==> Yield(sels[i], select, xpath) == []
  {
    if sels == [] then []
    else if Yield(sels[0], select, xpath) != [] then Yield(sels[0], select, xpath)
    else
      assert forall i :: 1 <= i < |sels| ==> sels[i] == sels[1..][i - 1];
      FirstMatch(sels[1..], select, xpath)
  }

  /** The first selector that yields anything decides. */
  lemma {:induction false} FirstMatchDecided(sels: seq<Sel>, select: string -> seq<Element>, xpath: string -> Result<seq<Match>, string>, i: nat)
    requires i < |sels| && Yield(sels[i], select, xpath) != []
    requires forall j :: 0 <= j < i ==> Yield(sels[j], select, xpath) == []
    ensures FirstMatch(sels, select, xpath) == Yield(sels[i], select, xpath)
  {
    if i > 0 {
      assert Yield(sels[0], select, xpath) == [];
      assert forall j :: 0 <= j < i - 1 ==> sels[1..][j] == sels[j + 1];
      FirstMatchDecided(sels[1..], select, xpath, i - 1);
    }
  }

  /** `_first_match`, with its loop and early return. */
  method FindFirstMatch(sels: seq<Sel>, select: string -> seq<Element>, xpath: string -> Result<seq<Match>, string>)
    returns (r: seq<Match>)
    ensures r == FirstMatch(sels, select, xpath)
  {
    var i := 0;
    while i < |sels|
      invariant 0 <= i <= |sels|
      invariant FirstMatch(sels[i..], select, xpath) == FirstMatch(sels, select, xpath)
    {
      assert sels[i..][1..] == sels[i + 1..];
      var sel := sels[i];
      if Given(sel.css) {
        var result := Soups(select(sel.css.value));
        if result != [] {
          return result;
        }
      } else if Given(sel.xpath) {
        var outcome := xpath(sel.xpath.value);
        if outcome.Ok? && outcome.value != [] {
          return outcome.value;
        }
      }
      i := i + 1;
    }
    return [];
  }

  // ---------------------------------------------------------------------
  // `_extract_links`
  // ---------------------------------------------------------------------

  /** What one matched item contributes: an element its non-empty `href`, a string itself. */
  function LinkOf(m: Match): Option<string> {
    match m
    case Soup(e) => if Given(Attr(e, "href")) then Attr(e, "href") else None
    case Lxml(e) => if Given(Attr(e, "href")) then Attr(e, "href") else None
    case Text(s) => Some(s)
  }

  /** The links of a selector result, in order. */
  function Links(raw: seq<Match>): seq<string> {
    if raw == [] then []
    else
      var init := Links(raw[..|raw| - 1]);
      match LinkOf(raw[|raw| - 1])
      case Some(l) => init + [l]
      case None => init
  }

  /** A link is kept exactly when some matched item gives it, and there are no more links than items. */
  lemma {:induction false} LinksSound(raw: seq<Match>)
    ensures |Links(raw)| <= |raw|
    ensures forall l :: l in Links(raw) <==> exists i :: 0 <= i < |raw| && LinkOf(raw[i]) == Some(l)
  {
    if raw != [] {
      var init := raw[..|raw| - 1];
      LinksSound(init);
      forall l | (exists i :: 0 <= i < |raw| && LinkOf(raw[i]) == Some(l)) ensures l in Links(raw) {
        var i :| 0 <= i < |raw| && LinkOf(raw[i]) == Some(l);
        if i < |raw| - 1 {
          assert init[i] == raw[i];
        }
      }
      forall l | l in Links(raw) ensures exists i :: 0 <= i < |raw| && LinkOf(raw[i]) == Some(l) {
        if l in Links(init) {
          var i :| 0 <= i < |init| && LinkOf(init[i]) == Some(l);
          assert raw[i] == init[i];
        }
      }
    }
  }

  /** `_extract_links`: the links of the first matching link selector. */
  method ExtractLinks(linkSels: seq<Sel>, select: string -> seq<Element>, xpath: string -> Result<seq<Match>, string>)
    returns (links: seq<string>)
    ensures links == Links(FirstMatch(linkSels, select, xpath))
  {
    var raw := FindFirstMatch(linkSels, select, xpath);
    links := [];
    var i := 0;
    while i < |raw|
      invariant 0 <= i <= |raw|
      invariant links == Links(raw[..i])
    {
      assert raw[..i + 1][..i] == raw[..i];
      var l := LinkOf(raw[i]);
      if l.Some? {
        links := links + [l.value];
      }
      i := i + 1;
    }
    assert raw[..i] == raw;
  }

  // ---------------------------------------------------------------------
  // `_has_next_page`
  // ---------------------------------------------------------------------

  /** The campaign's pagination settings. */
  datatype Pagination = Pagination(nextCss: Option<string>, nextXpath: Option<string>, nextUrlRegex: Option<string>)

  /** The two selectors `_has_next_page` builds: each an empty mapping when its setting is not given. */
  function NextSelectors(pag: Pagination): seq<Sel> {
    [if Given(pag.nextCss) then Sel(pag.nextCss, None) else Sel(None, None),
     if Given(pag.nextXpath) then Sel(None, pag.nextXpath) else Sel(None, None)]
  }

  /** `_has_next_page`: `search(regex)` is `re.search(regex, page_html)` finding a match. */
  function HasNextPage(pag: Pagination, select: string -> seq<Element>, xpath: string -> Result<seq<Match>, string>,
                       search: string -> bool): bool
  {
    if FirstMatch(NextSelectors(pag), select, xpath) != [] then true
    else Given(pag.nextUrlRegex) && search(pag.nextUrlRegex.value)
  }

  /**
   * There is a next page exactly when the next-page CSS selector finds
   * something, or the XPath one evaluates to something, or the regular
   * expression occurs in the page.
   */
  lemma HasNextPageIff(pag: Pagination, select: string -> seq<Element>, xpath: string -> Result<seq<Match>, string>,
                       search: string -> bool)
    ensures HasNextPage(pag, select, xpath, search) <==>
              || (Given(pag.nextCss) && select(pag.nextCss.value) != [])
              || (Given(pag.nextXpath) && xpath(pag.nextXpath.value).Ok? && xpath(pag.nextXpath.value).value != [])
              || (Given(pag.nextUrlRegex) && search(pag.nextUrlRegex.value))
  {
    var sels := NextSelectors(pag);
    assert Yield(sels[0], select, xpath) != [] <==> Given(pag.nextCss) && select(pag.nextCss.value) != [];
  }

  // ---------------------------------------------------------------------
  // `_extract_profile`
  // ---------------------------------------------------------------------

  /** What one matched item gives as a profile value: the stripped text of a BeautifulSoup element or of a string; an lxml element has no `get_text` and gives nothing. */
  function TextOfMatch(m: Match): Option<string> {
    match m
    case Soup(e) => Some(StrippedText(e.texts))
    case Lxml(_) => None
    case Text(s) => Some(Strip(s))
  }

  /** The values of a selector result, in order. */
  function Values(ms: seq<Match>): (r: seq<string>)
    ensures |r| <= |ms|
  {
    if ms == [] then []
    else
      var init := Values(ms[..|ms| - 1]);
      match TextOfMatch(ms[|ms| - 1])
      case Some(v) => init + [v]
      case None => init
  }

  /** Without lxml elements, there is one value per matched item. */
  lemma {:induction false} ValuesLength(ms: seq<Match>)
    requires forall i :: 0 <= i < |ms| ==> !ms[i].Lxml?
    ensures |Values(ms)| == |ms|
  {
    if ms != [] {
      var init := ms[..|ms| - 1];
      assert forall i :: 0 <= i < |init| ==> init[i] == ms[i];
      ValuesLength(init);
      assert !ms[|ms| - 1].Lxml?;
    }
  }

  /** Without lxml elements, the value at position `i` is the text of the `i`-th item. */
  lemma {:induction false} ValueAt(ms: seq<Match>, i: nat)
    requires forall j :: 0 <= j < |ms| ==> !ms[j].Lxml?
    requires i < |ms|
    ensures |Values(ms)| == |ms| && Some(Values(ms)[i]) == TextOfMatch(ms[i])
  {
    ValuesLength(ms);
    var init, last := ms[..|ms| - 1], ms[|ms| - 1];
    assert forall j :: 0 <= j < |init| ==> init[j] == ms[j];
    var v := TextOfMatch(last);
    assert v.Some?;
    assert Values(ms) == Values(init) + [v.value];
    if i < |init| {
      ValueAt(init, i);
      assert Values(ms)[i] == Values(init)[i];
    } else {
      assert ms[i] == last;
    }
  }

  /** Without lxml elements, every matched item gives exactly one value, in order. */
  lemma ValuesOfSoup(ms: seq<Match>)
    requires forall i :: 0 <= i < |ms| ==> !ms[i].Lxml?
    ensures |Values(ms)| == |ms|
    ensures forall i :: 0 <= i < |ms| ==> Some(Values(ms)[i]) == TextOfMatch(ms[i])
  {
    ValuesLength(ms);
    forall i | 0 <= i < |ms| ensures Some(Values(ms)[i]) == TextOfMatch(ms[i]) {
      ValueAt(ms, i);
    }
  }

  /** The inner loop of `_extract_profile`. */
  method CollectValues(ms: seq<Match>) returns (values: seq<string>)
    ensures values == Values(ms)
  {
    values := [];
    var i := 0;
    while i < |ms|
      invariant 0 <= i <= |ms|
      invariant values == Values(ms[..i])
    {
      assert ms[..i + 1][..i] == ms[..i];
      var v := TextOfMatch(ms[i]);
      if v.Some? {
        values := values + [v.value];
      }
      i := i + 1;
    }
    assert ms[..i] == ms;
  }

  /**
   * `_extract_profile`: a field is in the result exactly when its first
   * matching selector gives at least one value, and then holds those values.
   */
  method ExtractProfile(fields: map<string, seq<Sel>>, select: string -> seq<Element>, xpath: string -> Result<seq<Match>, string>)
    returns (result: map<string, seq<string>>)
    ensures forall f :: f in result <==> f in fields && Values(FirstMatch(fields[f], select, xpath)) != []
    ensures forall f :: f in result ==> result[f] == Values(FirstMatch(fields[f], select, xpath))
  {
    result := map[];
    var todo := fields.Keys;
    while todo != {}
      invariant todo <= fields.Keys
      invariant forall f :: f in result <==> f in fields && f !in todo && Values(FirstMatch(fields[f], select, xpath)) != []
      invariant forall f :: f in result ==> result[f] == Values(FirstMatch(fields[f], select, xpath))
      decreases |todo|
    {
      var field :| field in todo;
      var matches := FindFirstMatch(fields[field], select, xpath);
      var values := CollectValues(matches);
      if values != [] {
        result := result[field := values];
      }
      todo := todo - {field};
    }
  }

  // ---------------------------------------------------------------------
  // `_process_page_data`
  // ---------------------------------------------------------------------

  /** One anchor as the page's script reports it. */
  datatype LinkInfo = LinkInfo(href: Option<string>)

  /** What `_get_page_content` returns. */
  datatype PageData = PageData(content: string, rawContent: Option<string>, status: int,
                               screenshot: Option<string>, links: seq<LinkInfo>)

  /** The options `scrape` reads; `only_main` defaults to True and `bypass_cache` to False at the caller. */
  datatype Options = Options(bypassCache: bool, onlyMain: bool, cacheTtl: Option<int>)

  /** The response payload. */
  datatype ScrapeData = ScrapeData(
    markdown: Option<string>,
    html: Option<seq<Node>>,
    rawHtml: Option<string>,
    screenshot: Option<string>,
    links: Option<seq<string>>,
    /** `{"screenshots": [...]}` flattened to its list of screenshots. */
    actions: Option<seq<string>>,
    metadata: map<string, Json>,
    llmExtraction: Option<Json>,
    warning: Option<string>,
    structuredData: Option<Json>)

  /** The meta data every response starts from. */
  function BaseMetadata(url: string, status: int, error: Option<string>): map<string, Json> {
    map["title" := JNull, "description" := JNull, "language" := JNull,
        "sourceURL" := JStr(url), "statusCode" := JNum(status),
        "error" := if error.Some? then JStr(error.value) else JNull]
  }

  /** Extracted meta data as JSON values. */
  function MetaJson(m: Meta): (r: map<string, Json>)
    ensures r.Keys == m.Keys
  {
    map k | k in m :: if m[k].Some? then JStr(m[k].value) else JNull
  }

  /** `metadata.update(processed_content["metadata"])` on the starting meta data. */
  function Merged(url: string, status: int, extracted: Meta): map<string, Json> {
    BaseMetadata(url, status, None) + MetaJson(extracted)
  }

  /**
   * When the extracted meta data has no `sourceURL`, `statusCode` or
   * `error` entry, the merged meta data reports the URL, the status and no
   * error; extracted entries win; the title, description and language are
   * None when not extracted.
   */
  lemma MergedMetadata(url: string, status: int, extracted: Meta)
    requires "sourceURL" !in extracted && "statusCode" !in extracted && "error" !in extracted
    ensures var r := Merged(url, status, extracted);
            && r.Keys == {"title", "description", "language", "sourceURL", "statusCode", "error"} + extracted.Keys
            && r["sourceURL"] == JStr(url) && r["statusCode"] == JNum(status) && r["error"] == JNull
            && (forall k :: k in extracted ==> r[k] == (if extracted[k].Some? then JStr(extracted[k].value) else JNull))
            && (forall k :: k in {"title", "description", "language"} && k !in extracted ==> r[k] == JNull)
  {
  }

  /** `[lnk["href"] for lnk in links if lnk.get("href")]`. */
  function Hrefs(links: seq<LinkInfo>): seq<string> {
    if links == [] then []
    else Hrefs(links[..|links| - 1]) + (if Given(links[|links| - 1].href) then [links[|links| - 1].href.value] else [])
  }

  /** The formatted links are exactly the non-empty hrefs. */
  lemma {:induction false} HrefsSound(links: seq<LinkInfo>)
    ensures forall h :: h in Hrefs(links) <==> h != "" && exists i :: 0 <= i < |links| && links[i].href == Some(h)
  {
    if links != [] {
      var init := links[..|links| - 1];
      HrefsSound(init);
      forall h | h != "" && (exists i :: 0 <= i < |links| && links[i].href == Some(h)) ensures h in Hrefs(links) {
        var i :| 0 <= i < |links| && links[i].href == Some(h);
        if i < |links| - 1 {
          assert init[i] == links[i];
        }
      }
      forall h | h in Hrefs(init) ensures exists i :: 0 <= i < |links| && links[i].href == Some(h) {
        var i :| 0 <= i < |init| && init[i].href == Some(h);
        assert links[i] == init[i];
      }
    }
  }

  /**
   * `_process_page_data`: `parse` is the HTML parser, `markdown` the
   * markdown conversion and `structured` the structured-data extractor,
   * `Err` when it raises.
   */
  function ProcessPageData(page: PageData, options: Options, url: string, parse: string -> seq<Node>,
                           markdown: seq<Node> -> string, structured: string -> Result<Json, string>): Result<ScrapeData, string>
  {
    var extracted := ExtractContent(parse(page.content), options.onlyMain);
    match structured(page.content)
    case Err(e) => Err(e)
    case Ok(sd) =>
      var metadata := Merged(url, page.status, extracted.metadata);
      Ok(ScrapeData(
        Some(markdown(extracted.html)),
        Some(extracted.html),
        page.rawContent,
        page.screenshot,
        if page.links != [] then Some(Hrefs(page.links)) else None,
        if Given(page.screenshot) then Some([page.screenshot.value]) else None,
        metadata,
        None,
        None,
        Some(sd)))
  }

  /** The canonical names of the extracted meta data never clash with `sourceURL`, `statusCode` or `error`. */
  lemma NoClash(m: Meta, metas: seq<Node>, key: string)
    requires key == "sourceURL" || key == "statusCode" || key == "error"
    requires key !in m
    ensures key !in MetaLoop(m, metas)
  {
    MetaLoopKeys(m, metas);
    assert MappedKeys(Mappings) == {"description", "language", "author", "published_date", "keywords", "image"} by {
      assert Mappings[0].0 == "description" && Mappings[1].0 == "language" && Mappings[2].0 == "author";
      assert Mappings[3].0 == "published_date" && Mappings[4].0 == "keywords" && Mappings[5].0 == "image";
    }
  }

  /** The extracted meta data of a page never holds `sourceURL`, `statusCode` or `error`. */
  lemma MetadataNoClash(doc: seq<Node>)
    ensures "sourceURL" !in Metadata(doc) && "statusCode" !in Metadata(doc) && "error" !in Metadata(doc)
  {
    var elems := Elements(doc);
    NoClash(TitleEntry(elems), Metas(elems), "sourceURL");
    NoClash(TitleEntry(elems), Metas(elems), "statusCode");
    NoClash(TitleEntry(elems), Metas(elems), "error");
  }

  /**
   * A processed page reports the URL, the page status and no error, and
   * keeps every extracted meta entry; its html is clean; its links are the
   * non-empty hrefs when the page had any anchor; its actions hold the
   * screenshot when there is one; it fails only when the structured-data
   * extractor raises.
   */
  lemma ProcessedPage(page: PageData, options: Options, url: string, parse: string -> seq<Node>,
                      markdown: seq<Node> -> string, structured: string -> Result<Json, string>)
    ensures var r := ProcessPageData(page, options, url, parse, markdown, structured);
            && (r.Err? <==> structured(page.content).Err?)
            && (r.Ok? ==>
                  && r.value.metadata["sourceURL"] == JStr(url)
                  && r.value.metadata["statusCode"] == JNum(page.status)
                  && r.value.metadata["error"] == JNull
                  && Metadata(parse(page.content)).Keys <= r.value.metadata.Keys
                  && r.value.warning.None?
                  && r.value.rawHtml == page.rawContent
                  && AllClean(r.value.html.value)
                  && (r.value.links.Some? <==> page.links != [])
                  && (r.value.actions.Some? <==> Given(page.screenshot))
                  && (r.value.actions.Some? ==> r.value.actions.value == [page.screenshot.value]))
  {
    var doc := parse(page.content);
    MetadataNoClash(doc);
    MergedMetadata(url, page.status, ExtractContent(doc, options.onlyMain).metadata);
  }

  // ---------------------------------------------------------------------
  // `scrape`
  // ---------------------------------------------------------------------

  /** `settings.CACHE_TTL`'s fallback, in seconds. */
  const DefaultCacheTtl := 86400

  /** The cache as `scrape` meets it: the (truthy) payload it holds for the request, if any, and the outcome of storing. */
  datatype Cache = Cache(lookup: Option<ScrapeData>, store: Result<(), string>)

  /** The response: `cached` is absent from an error response. */
  datatype Response = Response(success: bool, data: ScrapeData, cached: Option<bool>)

  /** A response and the payload handed to the cache with its time to live, if any. */
  datatype Scraped = Scraped(response: Response, stored: Option<(ScrapeData, int)>)

  /** The payload of a failed scrape: everything None, the URL, status 500 and the message. */
  function ErrorData(url: string, message: string): ScrapeData {
    ScrapeData(None, None, None, None, None, None, BaseMetadata(url, 500, Some(message)), None, Some(message), None)
  }

  /** Whether `scrape` uses the cache. */
  predicate UsesCache(cache: Option<Cache>, options: Options) {
    cache.Some? && !options.bypassCache
  }

  /**
   * `scrape(url, options)`: `fetch` is the outcome of `_get_page_content`;
   * `settingsTtl` is `settings.CACHE_TTL` when configured.
   */
  function Scrape(url: string, options: Options, cache: Option<Cache>, settingsTtl: Option<int>,
                  fetch: Result<PageData, string>, parse: string -> seq<Node>,
                  markdown: seq<Node> -> string, structured: string -> Result<Json, string>): Scraped
  {
    if UsesCache(cache, options) && cache.value.lookup.Some? then
      Scraped(Response(true, cache.value.lookup.value, Some(true)), None)
    else match fetch
      case Err(e) => Scraped(Response(false, ErrorData(url, e), None), None)
      case Ok(page) =>
        match ProcessPageData(page, options, url, parse, markdown, structured)
        case Err(e) => Scraped(Response(false, ErrorData(url, e), None), None)
        case Ok(processed) =>
          if UsesCache(cache, options) then
            var ttl := options.cacheTtl.GetOr(settingsTtl.GetOr(DefaultCacheTtl));
            var stored := Some((processed, ttl));
            match cache.value.store
            case Err(e) => Scraped(Response(false, ErrorData(url, e), None), stored)
            case Ok(_) => Scraped(Response(true, processed, Some(false)), stored)
          else Scraped(Response(true, processed, Some(false)), None)
  }

  /** A cache hit returns the cached payload marked cached, stores nothing, and does not depend on the fetch at all. */
  lemma CacheHit(url: string, options: Options, cache: Option<Cache>, settingsTtl: Option<int>,
                 fetch: Result<PageData, string>, other: Result<PageData, string>, parse: string -> seq<Node>,
                 markdown: seq<Node> -> string, structured: string -> Result<Json, string>)
    requires UsesCache(cache, options) && cache.value.lookup.Some?
    ensures var r := Scrape(url, options, cache, settingsTtl, fetch, parse, markdown, structured);
            && r.response == Response(true, cache.value.lookup.value, Some(true))
            && r.stored.None?
            && r == Scrape(url, options, cache, settingsTtl, other, parse, markdown, structured)
  {
  }

  /**
   * Without a cache hit, a scrape succeeds exactly when the fetch, the
   * processing and (when the cache is used) the store succeed; it then
   * returns the processed page marked not cached, and hands it to the cache
   * exactly when the cache is used, with the request's time to live, else
   * the configured one, else a day.
   */
  lemma ScrapeFetched(url: string, options: Options, cache: Option<Cache>, settingsTtl: Option<int>,
                      fetch: Result<PageData, string>, parse: string -> seq<Node>,
                      markdown: seq<Node> -> string, structured: string -> Result<Json, string>)
    requires !(UsesCache(cache, options) && cache.value.lookup.Some?)
    ensures var r := Scrape(url, options, cache, settingsTtl, fetch, parse, markdown, structured);
            var processed := if fetch.Ok? then ProcessPageData(fetch.value, options, url, parse, markdown, structured) else Err(fetch.error);
            && (r.response.success <==> processed.Ok? && (UsesCache(cache, options) ==> cache.value.store.Ok?))
            && (r.response.success ==> r.response == Response(true, processed.value, Some(false)))
            && (r.stored.Some? <==> processed.Ok? && UsesCache(cache, options))
            && (r.stored.Some? ==> r.stored.value == (processed.value, options.cacheTtl.GetOr(settingsTtl.GetOr(86400))))
  {
  }

  /**
   * A failed scrape carries no `cached` flag, status 500, the URL, the
   * message as both error and warning, and nothing else.
   */
  lemma ScrapeFailed(url: string, options: Options, cache: Option<Cache>, settingsTtl: Option<int>,
                     fetch: Result<PageData, string>, parse: string -> seq<Node>,
                     markdown: seq<Node> -> string, structured: string -> Result<Json, string>)
    ensures var r := Scrape(url, options, cache, settingsTtl, fetch, parse, markdown, structured).response;
            !r.success ==>
              && r.cached.None?
              && r.data.metadata["statusCode"] == JNum(500)
              && r.data.metadata["sourceURL"] == JStr(url)
              && r.data.warning.Some?
              && r.data.metadata["error"] == JStr(r.data.warning.value)
              && r.data.metadata["title"] == JNull
              && r.data.html.None? && r.data.markdown.None? && r.data.links.None? && r.data.structuredData.None?
              && (fetch.Err? ==> r.data.warning.value == fetch.error)
  {
  }
}

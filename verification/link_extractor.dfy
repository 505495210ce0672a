/**
 * Link normalisation and admission of the crawler's link extractor:
 * resolve a link against its page, keep only the pagination query keys,
 * drop fragment and params, admit same-host links allowed by the
 * include/exclude patterns and robots.txt, and return them de-duplicated
 * with non-pagination links first.
 *
 * The HTML parser, Python's regular expressions, the robots.txt parser and
 * the resolution of relative references (section 5.2 of RFC 3986) are
 * parameters of the model.
 */
module LinkExtraction {
  import opened Wrappers
  import opened Strings

  type QueryPair = (string, string)

  /** A URL as `urlparse` splits it; the query is already split into pairs by `parse_qsl`. */
  datatype Url = Url(
    scheme: string,
    netloc: string,
    path: string,
    params: string,
    query: seq<QueryPair>,
    fragment: string)

  /**
   * The `href` of an anchor. A reference with a scheme and a network location
   * is returned by `urljoin` unchanged; any other reference is resolved against
   * the page URL. `resolve` stands for `urljoin` followed by `urlparse` and
   * yields None where those raise.
   */
  datatype Href = Absolute(url: Url) | Relative(ref: string)

  /** One `<a href=...>` of the page, with its `rel` values. */
  datatype Anchor = Anchor(href: Href, rel: seq<string>)

  /**
   * The settings a `LinkExtractor` fixes at construction. `search(p, s)` is
   * `re.search(p, s) is not None`; `robotsAllows(s)` is the robots.txt parser's
   * verdict for user agent `*` (the rules are fetched once, outside the model).
   */
  datatype LinkExtractor = LinkExtractor(
    baseDomain: string,
    excludePatterns: seq<string>,
    includePatterns: seq<string>,
    respectRobots: bool,
    robotsAllows: string -> bool,
    search: (string, string) -> bool)

  /** `urlencode(pairs)` without percent-encoding. */
  function EncodeQuery(pairs: seq<QueryPair>): string {
    Join(seq(|pairs|, i requires 0 <= i < |pairs| => pairs[i].0 + "=" + pairs[i].1), "&")
  }

  /** `geturl()`: the URL put back together as a string. */
  function Render(u: Url): string {
    (if u.scheme != [] then u.scheme + ":" else [])
    + (if u.netloc != [] then "//" + u.netloc else [])
    + u.path
    + (if u.params != [] then ";" + u.params else [])
    + (if u.query != [] then "?" + EncodeQuery(u.query) else [])
    + (if u.fragment != [] then "#" + u.fragment else [])
  }

  predicate IsPaginationKey(k: string) {
    k == "page" || k == "p" || k == "start"
  }

  /** The query pairs whose key is `page`, `p` or `start`, in their original order. */
  function FilterQuery(q: seq<QueryPair>): (r: seq<QueryPair>)
    ensures |r| <= |q|
    ensures forall i :: 0 <= i < |r| ==> IsPaginationKey(r[i].0) && r[i] in q
    ensures forall i :: 0 <= i < |q| && IsPaginationKey(q[i].0) ==> q[i] in r
  {
    if q == [] then []
    else if IsPaginationKey(q[0].0) then [q[0]] + FilterQuery(q[1..])
    else FilterQuery(q[1..])
  }

  /** Filtering is stable: a filtered query is its own filter. */
  lemma {:induction false} FilterQueryIdempotent(q: seq<QueryPair>)
    ensures FilterQuery(FilterQuery(q)) == FilterQuery(q)
  {
    if q != [] {
      FilterQueryIdempotent(q[1..]);
      if IsPaginationKey(q[0].0) {
        assert FilterQuery(q)[1..] == FilterQuery(q[1..]);
      }
    }
  }

  /** Order is kept: filtering a concatenation filters each part. */
  lemma {:induction false} FilterQueryAppend(a: seq<QueryPair>, b: seq<QueryPair>)
    ensures FilterQuery(a + b) == FilterQuery(a) + FilterQuery(b)
  {
    if a == [] {
      assert a + b == b;
    } else {
      assert (a + b)[1..] == a[1..] + b;
      FilterQueryAppend(a[1..], b);
    }
  }

  /** `_normalize_url`: None when resolution raises. */
  function NormalizeUrl(href: Href, baseUrl: string, resolve: (string, string) -> Option<Url>): (r: Option<Url>)
    ensures href.Absolute? ==> r.Some?
    ensures r.Some? ==> r.value.fragment == [] && r.value.params == []
    ensures href.Absolute? ==>
              && r.value.query == FilterQuery(href.url.query)
              && r.value.(query := href.url.query, fragment := href.url.fragment, params := href.url.params) == href.url
    ensures href.Relative? ==> (r.None? <==> resolve(baseUrl, href.ref).None?)
    ensures href.Relative? && r.Some? ==>
              && r.value.query == FilterQuery(resolve(baseUrl, href.ref).value.query)
              && r.value.(query := resolve(baseUrl, href.ref).value.query,
                          fragment := resolve(baseUrl, href.ref).value.fragment,
                          params := resolve(baseUrl, href.ref).value.params) == resolve(baseUrl, href.ref).value
  {
    var absolute := match href
      case Absolute(u) => Some(u)
      case Relative(ref) => resolve(baseUrl, ref);
    match absolute
    case None => None
    case Some(u) => Some(u.(fragment := [], params := [], query := FilterQuery(u.query)))
  }

  /** Normalising an already-normalised URL against the same base returns it unchanged. */
  lemma NormalizeIdempotent(href: Href, baseUrl: string, resolve: (string, string) -> Option<Url>)
    requires NormalizeUrl(href, baseUrl, resolve).Some?
    ensures NormalizeUrl(Absolute(NormalizeUrl(href, baseUrl, resolve).value), baseUrl, resolve)
         == NormalizeUrl(href, baseUrl, resolve)
  {
    var u := if href.Absolute? then href.url else resolve(baseUrl, href.ref).value;
    FilterQueryIdempotent(u.query);
  }

  /** Some pattern of `patterns` is found in `s`. */
  function AnyMatch(search: (string, string) -> bool, patterns: seq<string>, s: string): (r: bool)
    ensures r <==> exists i :: 0 <= i < |patterns| && search(patterns[i], s)
  {
    if patterns == [] then false
    else if search(patterns[0], s) then true
    else AnyMatch(search, patterns[1..], s)
  }

  /** `_should_include_url`: same host, no exclude match, and an include match when any are configured. */
  function ShouldInclude(ex: LinkExtractor, u: Url): bool {
    if u.netloc != ex.baseDomain then false
    else if AnyMatch(ex.search, ex.excludePatterns, Render(u)) then false
    else if ex.includePatterns != [] then AnyMatch(ex.search, ex.includePatterns, Render(u))
    else true
  }

  /** The admission rule spelled out case by case. */
  lemma ShouldIncludeCases(ex: LinkExtractor, u: Url)
    ensures u.netloc != ex.baseDomain ==> !ShouldInclude(ex, u)
    ensures (exists i :: 0 <= i < |ex.excludePatterns| && ex.search(ex.excludePatterns[i], Render(u)))
            ==> !ShouldInclude(ex, u)
    ensures ex.includePatterns != [] ==>
              (ShouldInclude(ex, u) <==>
                 u.netloc == ex.baseDomain
                 && (forall i :: 0 <= i < |ex.excludePatterns| ==> !ex.search(ex.excludePatterns[i], Render(u)))
                 && (exists i :: 0 <= i < |ex.includePatterns| && ex.search(ex.includePatterns[i], Render(u))))
    ensures ex.includePatterns == [] ==>
              (ShouldInclude(ex, u) <==>
                 u.netloc == ex.baseDomain
                 && (forall i :: 0 <= i < |ex.excludePatterns| ==> !ex.search(ex.excludePatterns[i], Render(u))))
  {
  }

  /** `_is_allowed_by_robots`. */
  function AllowedByRobots(ex: LinkExtractor, s: string): (r: bool)
    ensures !ex.respectRobots ==> r
    ensures ex.respectRobots ==> (r <==> ex.robotsAllows(s))
  {
    !ex.respectRobots || ex.robotsAllows(s)
  }

  /** `key=` followed by a digit occurs at index `i` of `s`. */
  predicate ParamDigitAt(s: string, key: string, i: nat) {
    OccursAt(s, key + "=", i) && i + |key| + 1 < |s| && IsDigit(s[i + |key| + 1])
  }

  /** `re.search(r'(?:page|p|start)=\d+', s)` finds a match. */
  predicate HasPaginationParam(s: string) {
    exists i: nat :: i < |s| && (ParamDigitAt(s, "page", i) || ParamDigitAt(s, "p", i) || ParamDigitAt(s, "start", i))
  }

  /** Some `rel` value is `next`, ignoring case. */
  function RelHasNext(rel: seq<string>): (r: bool)
    ensures r <==> exists i :: 0 <= i < |rel| && Lower(rel[i]) == "next"
  {
    if rel == [] then false else Lower(rel[0]) == "next" || RelHasNext(rel[1..])
  }

  predicate IsPagination(rel: seq<string>, s: string) {
    RelHasNext(rel) || HasPaginationParam(s)
  }

  /** A link the extractor keeps, with its classification. */
  datatype Kept = Kept(url: string, pagination: bool)

  function Urls(ks: seq<Kept>): (r: seq<string>)
    ensures |r| == |ks|
    ensures forall i :: 0 <= i < |ks| ==> r[i] == ks[i].url
  {
    if ks == [] then [] else Urls(ks[..|ks| - 1]) + [ks[|ks| - 1].url]
  }

  /** The URLs of the non-pagination links, in order. */
  function Profiles(ks: seq<Kept>): seq<string> {
    if ks == [] then []
    else Profiles(ks[..|ks| - 1]) + (if ks[|ks| - 1].pagination then [] else [ks[|ks| - 1].url])
  }

  /** The URLs of the pagination links, in order. */
  function Paginations(ks: seq<Kept>): seq<string> {
    if ks == [] then []
    else Paginations(ks[..|ks| - 1]) + (if ks[|ks| - 1].pagination then [ks[|ks| - 1].url] else [])
  }

  /** Anchor `a` normalises to `url` and passes both the include and the robots checks. */
  predicate Admits(ex: LinkExtractor, baseUrl: string, resolve: (string, string) -> Option<Url>, a: Anchor, url: string) {
    var n := NormalizeUrl(a.href, baseUrl, resolve);
    n.Some? && Render(n.value) == url && url != []
    && ShouldInclude(ex, n.value) && AllowedByRobots(ex, url)
  }

  /**
   * One iteration of the anchor loop of `extract_links`: the anchor is
   * skipped when normalisation fails or its URL was kept before, and kept,
   * classified, when it is admitted.
   */
  function Step(ex: LinkExtractor, baseUrl: string, resolve: (string, string) -> Option<Url>, prev: seq<Kept>, a: Anchor): (r: seq<Kept>)
    ensures r == prev
            || (&& |r| == |prev| + 1 && r[..|prev|] == prev
                && Admits(ex, baseUrl, resolve, a, r[|prev|].url)
                && r[|prev|].url !in Urls(prev)
                && r[|prev|].pagination == IsPagination(a.rel, r[|prev|].url))
    ensures forall url :: Admits(ex, baseUrl, resolve, a, url) ==> url in Urls(r)
  {
    var n := NormalizeUrl(a.href, baseUrl, resolve);
    if n.None? || Render(n.value) == [] || Render(n.value) in Urls(prev) then prev
    else if ShouldInclude(ex, n.value) && AllowedByRobots(ex, Render(n.value)) then
      var r := prev + [Kept(Render(n.value), IsPagination(a.rel, Render(n.value)))];
      assert Urls(r)[|prev|] == Render(n.value);
      r
    else prev
  }

  /** The links `extract_links` keeps from `anchors`, in document order. */
  function Scan(ex: LinkExtractor, baseUrl: string, resolve: (string, string) -> Option<Url>, anchors: seq<Anchor>): seq<Kept> {
    if anchors == [] then []
    else Step(ex, baseUrl, resolve, Scan(ex, baseUrl, resolve, anchors[..|anchors| - 1]), anchors[|anchors| - 1])
  }

  /** Some anchor of `anchors` admits `k.url` and classifies it as `k` says. */
  predicate AdmittedBy(ex: LinkExtractor, baseUrl: string, resolve: (string, string) -> Option<Url>, anchors: seq<Anchor>, k: Kept) {
    exists j :: 0 <= j < |anchors|
      && Admits(ex, baseUrl, resolve, anchors[j], k.url)
      && k.pagination == IsPagination(anchors[j].rel, k.url)
  }

  /** Every kept link was admitted by some anchor, and classified from that anchor. */
  lemma {:induction false} ScanSound(ex: LinkExtractor, baseUrl: string, resolve: (string, string) -> Option<Url>, anchors: seq<Anchor>)
    ensures forall k :: k in Scan(ex, baseUrl, resolve, anchors) ==> AdmittedBy(ex, baseUrl, resolve, anchors, k)
  {
    if anchors != [] {
      var n := |anchors| - 1;
      var init := anchors[..n];
      ScanSound(ex, baseUrl, resolve, init);
      var prev := Scan(ex, baseUrl, resolve, init);
      var ks := Step(ex, baseUrl, resolve, prev, anchors[n]);
      assert ks == Scan(ex, baseUrl, resolve, anchors);
      forall k | k in ks ensures AdmittedBy(ex, baseUrl, resolve, anchors, k) {
        var i :| 0 <= i < |ks| && ks[i] == k;
        if i < |prev| {
          assert ks[i] == prev[i];
          assert AdmittedBy(ex, baseUrl, resolve, init, k);
          var j :| 0 <= j < |init| && Admits(ex, baseUrl, resolve, init[j], k.url)
                   && k.pagination == IsPagination(init[j].rel, k.url);
          assert anchors[j] == init[j];
        } else {
          assert Admits(ex, baseUrl, resolve, anchors[n], k.url);
        }
      }
    }
  }

  /** No URL is kept twice. */
  lemma {:induction false} ScanDistinct(ex: LinkExtractor, baseUrl: string, resolve: (string, string) -> Option<Url>, anchors: seq<Anchor>)
    ensures Distinct(Urls(Scan(ex, baseUrl, resolve, anchors)))
  {
    if anchors != [] {
      var n := |anchors| - 1;
      ScanDistinct(ex, baseUrl, resolve, anchors[..n]);
      var prev := Scan(ex, baseUrl, resolve, anchors[..n]);
      var ks := Step(ex, baseUrl, resolve, prev, anchors[n]);
      assert ks == Scan(ex, baseUrl, resolve, anchors);
      if ks != prev {
        AppendKept(prev, ks[|prev|]);
        assert ks == prev + [ks[|prev|]];
        DistinctSnoc(Urls(prev), ks[|prev|].url);
      }
    }
  }

  /** Every admitted anchor's URL is kept. */
  lemma {:induction false} ScanComplete(ex: LinkExtractor, baseUrl: string, resolve: (string, string) -> Option<Url>, anchors: seq<Anchor>, j: nat, url: string)
    requires j < |anchors| && Admits(ex, baseUrl, resolve, anchors[j], url)
    ensures url in Urls(Scan(ex, baseUrl, resolve, anchors))
  {
    var init := anchors[..|anchors| - 1];
    var prev := Scan(ex, baseUrl, resolve, init);
    var ks := Scan(ex, baseUrl, resolve, anchors);
    if j < |init| {
      assert init[j] == anchors[j];
      ScanComplete(ex, baseUrl, resolve, init, j, url);
      var k :| 0 <= k < |prev| && Urls(prev)[k] == url;
      assert ks[k] == prev[k];
      assert Urls(ks)[k] == url;
    }
  }

  /** Splitting the kept links by classification loses or adds nothing. */
  lemma {:induction false} SplitMembers(ks: seq<Kept>, url: string)
    ensures url in Profiles(ks) + Paginations(ks) <==> url in Urls(ks)
    ensures url in Profiles(ks) ==> exists i :: 0 <= i < |ks| && ks[i].url == url && !ks[i].pagination
    ensures url in Paginations(ks) ==> exists i :: 0 <= i < |ks| && ks[i].url == url && ks[i].pagination
  {
    if ks != [] {
      var init := ks[..|ks| - 1];
      SplitMembers(init, url);
      assert Urls(ks) == Urls(init) + [ks[|ks| - 1].url];
      if url in Profiles(init) {
        var i :| 0 <= i < |init| && init[i].url == url && !init[i].pagination;
        assert ks[i] == init[i];
      }
      if url in Paginations(init) {
        var i :| 0 <= i < |init| && init[i].url == url && init[i].pagination;
        assert ks[i] == init[i];
      }
    }
  }

  /** Splitting distinct links gives distinct lists that share no URL. */
  lemma {:induction false} SplitDistinct(ks: seq<Kept>)
    requires Distinct(Urls(ks))
    ensures Distinct(Profiles(ks)) && Distinct(Paginations(ks))
    ensures forall x :: x in Profiles(ks) ==> x !in Paginations(ks)
  {
    if ks != [] {
      var init := ks[..|ks| - 1];
      var last := ks[|ks| - 1];
      assert ks == init + [last];
      AppendKept(init, last);
      DistinctSnoc(Urls(init), last.url);
      SplitDistinct(init);
      SplitMembers(init, last.url);
      var p, g := Profiles(init), Paginations(init);
      assert last.url !in p && last.url !in g;
      if last.pagination {
        DistinctSnoc(g, last.url);
      } else {
        DistinctSnoc(p, last.url);
      }
    }
  }

  /** Scanning one more anchor is one more step. */
  lemma ScanPrefix(ex: LinkExtractor, baseUrl: string, resolve: (string, string) -> Option<Url>, anchors: seq<Anchor>, i: nat)
    requires i < |anchors|
    ensures Scan(ex, baseUrl, resolve, anchors[..i + 1])
         == Step(ex, baseUrl, resolve, Scan(ex, baseUrl, resolve, anchors[..i]), anchors[i])
  {
    assert anchors[..i + 1][..i] == anchors[..i];
  }

  /** Appending one kept link extends each view by at most that link. */
  lemma AppendKept(prev: seq<Kept>, k: Kept)
    ensures Urls(prev + [k]) == Urls(prev) + [k.url]
    ensures Profiles(prev + [k]) == Profiles(prev) + (if k.pagination then [] else [k.url])
    ensures Paginations(prev + [k]) == Paginations(prev) + (if k.pagination then [k.url] else [])
  {
    assert (prev + [k])[..|prev|] == prev;
  }

  /**
   * `extract_links`: walks the anchors in document order, growing the set of
   * seen URLs and the two output lists, and returns the non-pagination links
   * followed by the pagination links.
   */
  method ExtractLinks(ex: LinkExtractor, anchors: seq<Anchor>, baseUrl: string, resolve: (string, string) -> Option<Url>)
    returns (links: seq<string>)
    ensures links == Profiles(Scan(ex, baseUrl, resolve, anchors)) + Paginations(Scan(ex, baseUrl, resolve, anchors))
  {
    var seen: set<string> := {};
    var profileLinks: seq<string> := [];
    var paginationLinks: seq<string> := [];
    ghost var kept: seq<Kept> := [];
    var i := 0;
    while i < |anchors|
      invariant 0 <= i <= |anchors|
      invariant kept == Scan(ex, baseUrl, resolve, anchors[..i])
      invariant forall u :: u in seen <==> u in Urls(kept)
      invariant profileLinks == Profiles(kept)
      invariant paginationLinks == Paginations(kept)
    {
      ScanPrefix(ex, baseUrl, resolve, anchors, i);
      var a := anchors[i];
      var normalized := NormalizeUrl(a.href, baseUrl, resolve);
      if normalized.Some? && Render(normalized.value) != [] && Render(normalized.value) !in seen {
        var url := Render(normalized.value);
        if ShouldInclude(ex, normalized.value) && AllowedByRobots(ex, url) {
          var k := Kept(url, IsPagination(a.rel, url));
          assert Step(ex, baseUrl, resolve, kept, a) == kept + [k];
          AppendKept(kept, k);
          if k.pagination {
            paginationLinks := paginationLinks + [url];
          } else {
            profileLinks := profileLinks + [url];
          }
          seen := seen + {url};
          kept := kept + [k];
        } else {
          assert Step(ex, baseUrl, resolve, kept, a) == kept;
        }
      } else {
        assert Step(ex, baseUrl, resolve, kept, a) == kept;
      }
      i := i + 1;
    }
    assert anchors[..i] == anchors;
    links := profileLinks + paginationLinks;
  }

  /**
   * What `extract_links` promises: distinct URLs, each admitted by some
   * anchor; every admitted anchor's URL present; the first part holds the
   * non-pagination links and the rest the pagination links.
   */
  lemma ExtractLinksProperties(ex: LinkExtractor, anchors: seq<Anchor>, baseUrl: string, resolve: (string, string) -> Option<Url>)
    ensures var ks := Scan(ex, baseUrl, resolve, anchors);
            && Distinct(Profiles(ks) + Paginations(ks))
            && (forall u :: u in Profiles(ks) ==> AdmittedBy(ex, baseUrl, resolve, anchors, Kept(u, false)))
            && (forall u :: u in Paginations(ks) ==> AdmittedBy(ex, baseUrl, resolve, anchors, Kept(u, true)))
            && (forall j, u :: 0 <= j < |anchors| && Admits(ex, baseUrl, resolve, anchors[j], u) ==> u in Profiles(ks) + Paginations(ks))
  {
    var ks := Scan(ex, baseUrl, resolve, anchors);
    ScanDistinct(ex, baseUrl, resolve, anchors);
    SplitDistinct(ks);
    DistinctConcat(Profiles(ks), Paginations(ks));
    ScanSound(ex, baseUrl, resolve, anchors);
    forall j, u | 0 <= j < |anchors| && Admits(ex, baseUrl, resolve, anchors[j], u)
      ensures u in Profiles(ks) + Paginations(ks)
    {
      ScanComplete(ex, baseUrl, resolve, anchors, j, u);
      SplitMembers(ks, u);
    }
    forall u | u in Profiles(ks) ensures AdmittedBy(ex, baseUrl, resolve, anchors, Kept(u, false)) {
      SplitMembers(ks, u);
      var i :| 0 <= i < |ks| && ks[i].url == u && !ks[i].pagination;
      assert ks[i] == Kept(u, false) && ks[i] in ks;
    }
    forall u | u in Paginations(ks) ensures AdmittedBy(ex, baseUrl, resolve, anchors, Kept(u, true)) {
      SplitMembers(ks, u);
      var i :| 0 <= i < |ks| && ks[i].url == u && ks[i].pagination;
      assert ks[i] == Kept(u, true) && ks[i] in ks;
    }
  }
}

/**
 * The list-page walk of a campaign: fetch a list page, yield the profile
 * URLs its link selectors find, follow the "next page" selector, and stop
 * at a page already visited or when there is no next page.
 *
 * Fetching (`httpx.get` with `raise_for_status`) and the CSS selector
 * engine are parameters. URL joining is a parameter too: it stands for the
 * intended resolution of a href against the list page (`urljoin`), because
 * the call as written raises (`NewProfilesAsWritten`). The walk is bounded
 * by a number of list pages (`fuel`).
 */
module ListPageCrawler {
  import opened Wrappers
  import opened Strings
  import opened Html
  import ConfigLoader

  const XPathMessage := "XPath selectors not implemented in MVP"

  /** The values of the matched elements: `href` of anchors, stripped text of others. */
  function Values(elems: seq<Element>): (r: seq<Option<string>>)
    ensures |r| == |elems|
    ensures forall i :: 0 <= i < |elems| ==> r[i] == HrefOrText(elems[i])
  {
    seq(|elems|, i requires 0 <= i < |elems| => HrefOrText(elems[i]))
  }

  /** A CSS selector that matches something. */
  predicate Hit(html: string, sel: SelectorDict, select: (string, string) -> seq<Element>) {
    sel.CssKey? && select(html, sel.css) != []
  }

  /** A selector the search moves past: one with no known key, or a CSS selector matching nothing. */
  predicate Passes(html: string, sel: SelectorDict, select: (string, string) -> seq<Element>) {
    sel.NoKey? || (sel.CssKey? && select(html, sel.css) == [])
  }

  /** `_apply_selectors(soup, selectors)`; `select(html, css)` is `soup.select(css)`. */
  function Applied(html: string, sels: seq<SelectorDict>, select: (string, string) -> seq<Element>): Result<seq<Option<string>>, string>
    decreases |sels|
  {
    if sels == [] then Ok([])
    else match sels[0]
      case XPathKey(_) => Err(XPathMessage)
      case NoKey => Applied(html, sels[1..], select)
      case CssKey(css) =>
        if select(html, css) != [] then Ok(Values(select(html, css))) else Applied(html, sels[1..], select)
  }

  /**
   * The search is decided by the first selector that does not pass: a
   * matching CSS selector gives its values, an XPath selector raises; a
   * selector that passes hands the decision to the rest.
   */
  lemma {:induction false} AppliedFirstMatch(html: string, sels: seq<SelectorDict>, select: (string, string) -> seq<Element>, i: nat)
    requires i < |sels|
    requires forall j :: 0 <= j < i ==> Passes(html, sels[j], select)
    ensures Hit(html, sels[i], select) ==> Applied(html, sels, select) == Ok(Values(select(html, sels[i].css)))
    ensures sels[i].XPathKey? ==> Applied(html, sels, select) == Err(XPathMessage)
    ensures Passes(html, sels[i], select) ==> Applied(html, sels, select) == Applied(html, sels[i + 1..], select)
  {
    if i > 0 {
      assert Passes(html, sels[0], select);
      AppliedFirstMatch(html, sels[1..], select, i - 1);
      assert sels[1..][i - 1 + 1..] == sels[i + 1..];
    }
  }

  /** When every selector passes, the result is the empty list. */
  lemma {:induction false} AppliedNoMatch(html: string, sels: seq<SelectorDict>, select: (string, string) -> seq<Element>)
    requires forall j :: 0 <= j < |sels| ==> Passes(html, sels[j], select)
    ensures Applied(html, sels, select) == Ok([])
  {
    if sels != [] {
      assert Passes(html, sels[0], select);
      AppliedNoMatch(html, sels[1..], select);
    }
  }

  /** `_apply_selectors`, as the loop it is. */
  method ApplySelectors(html: string, sels: seq<SelectorDict>, select: (string, string) -> seq<Element>)
    returns (r: Result<seq<Option<string>>, string>)
    ensures r == Applied(html, sels, select)
  {
    var i := 0;
    while i < |sels|
      invariant 0 <= i <= |sels|
      invariant Applied(html, sels, select) == Applied(html, sels[i..], select)
    {
      var sel := sels[i];
      if sel.XPathKey? {
        return Err(XPathMessage);
      }
      if sel.CssKey? {
        var elems := select(html, sel.css);
        if elems != [] {
          return Ok(Values(elems));
        }
      }
      assert sels[i..][1..] == sels[i + 1..];
      i := i + 1;
    }
    return Ok([]);
  }

  /** The configured selectors as the mappings they stand for. */
  function AsDicts(sels: seq<ConfigLoader.Selector>): (r: seq<SelectorDict>)
    ensures |r| == |sels|
    ensures forall i :: 0 <= i < |sels| && sels[i].Css? ==> r[i] == CssKey(sels[i].css)
    ensures forall i :: 0 <= i < |sels| && sels[i].XPath? ==> r[i] == XPathKey(sels[i].xpath)
  {
    seq(|sels|, i requires 0 <= i < |sels| => if sels[i].Css? then CssKey(sels[i].css) else XPathKey(sels[i].xpath))
  }

  /** The next-page selectors: the configured `next_css`, or none. */
  function NextSelectors(nextCss: Option<string>): seq<SelectorDict> {
    if nextCss.Some? && nextCss.value != [] then [CssKey(nextCss.value)] else []
  }

  /**
   * `[{"css": s} for s in next_css or []]` as written: `next_css` is a
   * string, so the comprehension makes one selector per character.
   */
  function NextSelectorsAsWritten(nextCss: Option<string>): (r: seq<SelectorDict>)
    ensures nextCss.Some? ==> |r| == |nextCss.value|
    ensures nextCss.Some? ==> forall i :: 0 <= i < |r| ==> r[i] == CssKey([nextCss.value[i]])
  {
    if nextCss.Some? && nextCss.value != [] then
      seq(|nextCss.value|, i requires 0 <= i < |nextCss.value| => CssKey([nextCss.value[i]]))
    else []
  }

  /**
   * With `next_css = "a.next"`, the selector as written is split into "a",
   * ".", "n", ...; on a page whose only anchor is an ordinary link, that link
   * becomes the next page, where the intended selector finds no next page.
   */
  lemma NextSelectorAsWrittenFollowsAnyAnchor()
    ensures var select := (h: string, css: string) => if css == "a" then [Element("a", map["href" := "/about"], [])] else [];
            && Applied("", NextSelectorsAsWritten(Some("a.next")), select) == Ok([Some("/about")])
            && Applied("", NextSelectors(Some("a.next")), select) == Ok([])
  {
    var select := (h: string, css: string) => if css == "a" then [Element("a", map["href" := "/about"], [])] else [];
    var sels := NextSelectorsAsWritten(Some("a.next"));
    assert sels[0] == CssKey("a");
    assert Values(select("", "a")) == [Some("/about")];
    AppliedFirstMatch("", sels, select, 0);
    assert "a.next" != "a";
    assert NextSelectors(Some("a.next")) == [CssKey("a.next")];
    assert select("", "a.next") == [];
  }

  /** The next page is the first candidate of the `next_css` selector, and None without one. */
  lemma NextPageIsFirstCandidate(html: string, nextCss: Option<string>, select: (string, string) -> seq<Element>)
    ensures var r := Applied(html, NextSelectors(nextCss), select);
            && r.Ok?
            && (nextCss.Some? && nextCss.value != [] && select(html, nextCss.value) != [] ==>
                  r.value != [] && r.value[0] == HrefOrText(select(html, nextCss.value)[0]))
            && (!(nextCss.Some? && nextCss.value != [] && select(html, nextCss.value) != []) ==> r.value == [])
  {
    var sels := NextSelectors(nextCss);
    if sels != [] {
      AppliedFirstMatch(html, sels, select, 0);
      if Passes(html, sels[0], select) {
        assert sels[1..] == [];
      }
    }
  }

  /**
   * The profile URLs one list page yields, given those yielded before: each
   * non-empty href is joined with the page URL and yielded unless that URL
   * was already yielded.
   */
  function NewProfiles(hrefs: seq<Option<string>>, page: string, join: (string, string) -> string, seen: seq<string>): (r: seq<string>)
    ensures Distinct(r)
    ensures forall u :: u in r ==> u !in seen
    ensures forall u :: u in r ==> exists h :: Some(h) in hrefs && h != [] && u == join(page, h)
  {
    if hrefs == [] then []
    else
      var prev := NewProfiles(hrefs[..|hrefs| - 1], page, join, seen);
      var h := hrefs[|hrefs| - 1];
      if h.Some? && h.value != [] && join(page, h.value) !in seen && join(page, h.value) !in prev then
        DistinctSnoc(prev, join(page, h.value));
        prev + [join(page, h.value)]
      else prev
  }

  /**
   * The other half of "exactly once": every non-empty href whose URL was not
   * yielded before is yielded by this page.
   */
  lemma {:induction false} NewProfilesComplete(hrefs: seq<Option<string>>, page: string, join: (string, string) -> string, seen: seq<string>)
    ensures forall i :: 0 <= i < |hrefs| && hrefs[i].Some? && hrefs[i].value != [] && join(page, hrefs[i].value) !in seen ==>
              join(page, hrefs[i].value) in NewProfiles(hrefs, page, join, seen)
  {
    if hrefs != [] {
      var init := hrefs[..|hrefs| - 1];
      NewProfilesComplete(init, page, join, seen);
      forall i | 0 <= i < |hrefs| - 1
        ensures hrefs[i] == init[i]
      {
      }
    }
  }

  /** What `httpx.URL(href, base=...)` raises: `base` is not a keyword `URL` accepts. */
  const JoinTypeErrorMessage := "'base' is an invalid keyword argument for URL()"

  /**
   * The profile URLs one list page yields as written: the URL is built by
   * `httpx.URL(href, base=next_url)`, which raises `TypeError`, so the first
   * non-empty href that passes the `discovered_profiles` test ends the walk
   * before anything is yielded. Nothing is ever added to that set (the add
   * follows the raise), so every non-empty href passes the test.
   */
  function NewProfilesAsWritten(hrefs: seq<Option<string>>): (r: Result<seq<string>, string>)
    ensures r.Err? <==> exists i :: 0 <= i < |hrefs| && hrefs[i].Some? && hrefs[i].value != []
    ensures r.Err? ==> r.error == JoinTypeErrorMessage
    ensures r.Ok? ==> r.value == []
  {
    if hrefs == [] then Ok([])
    else
      var init := hrefs[..|hrefs| - 1];
      assert forall i :: 0 <= i < |init| ==> init[i] == hrefs[i];
      var prev := NewProfilesAsWritten(init);
      var h := hrefs[|hrefs| - 1];
      if prev.Err? then prev
      else if h.Some? && h.value != [] then Err(JoinTypeErrorMessage)
      else prev
  }

  /**
   * A list page with one relative profile link: as written the walk raises
   * `TypeError` and yields nothing; with the href resolved against the page
   * the profile URL is yielded.
   */
  lemma AsWrittenRaisesOnFirstHref()
    ensures var join := (base: string, h: string) => "https://e.com" + h;
            var hrefs := [Some("/p")];
            && NewProfilesAsWritten(hrefs) == Err(JoinTypeErrorMessage)
            && NewProfiles(hrefs, "https://e.com/list", join, []) == ["https://e.com/p"]
  {
    var join := (base: string, h: string) => "https://e.com" + h;
    var hrefs := [Some("/p")];
    assert hrefs[0].Some? && hrefs[0].value != [];
    assert hrefs[..|hrefs| - 1] == [];
    assert NewProfiles([], "https://e.com/list", join, []) == [];
    assert join("https://e.com/list", "/p") == "https://e.com/p";
  }

  /** `for href in ...: if ...: discovered_profiles.add(full_url); yield full_url` */
  method YieldProfiles(hrefs: seq<Option<string>>, page: string, join: (string, string) -> string, seen: seq<string>)
    returns (out: seq<string>)
    ensures out == NewProfiles(hrefs, page, join, seen)
  {
    out := [];
    var discovered := set u | u in seen;
    var i := 0;
    while i < |hrefs|
      invariant 0 <= i <= |hrefs|
      invariant out == NewProfiles(hrefs[..i], page, join, seen)
      invariant forall u :: u in discovered <==> u in seen || u in out
    {
      assert hrefs[..i + 1][..i] == hrefs[..i];
      var h := hrefs[i];
      if h.Some? && h.value != [] {
        var full := join(page, h.value);
        if full !in discovered {
          discovered := discovered + {full};
          out := out + [full];
        }
      }
      i := i + 1;
    }
    assert hrefs[..i] == hrefs;
  }

  /** The state of the walk: URLs yielded, list pages fetched, and the exception that ended it. */
  datatype Walk = Walk(yielded: seq<string>, visited: seq<string>, error: Option<string>)

  /** What the walk needs besides the campaign's selectors. */
  datatype Env = Env(
    fetch: string -> Result<string, string>,
    select: (string, string) -> seq<Element>,
    join: (string, string) -> string)

  /**
   * The walk from `next`: it stops at a missing or empty URL, at a page
   * already visited, or when the page budget is spent; otherwise the page
   * is fetched, its profile URLs yielded and the walk continues at the first
   * next-page candidate. An exception ends the walk with what was yielded.
   */
  function WalkFrom(next: Option<string>, w: Walk, linkSels: seq<SelectorDict>, nextCss: Option<string>, env: Env, fuel: nat): Walk
    decreases fuel
  {
    if next.None? || next.value == [] || next.value in w.visited || fuel == 0 then w
    else
      var url := next.value;
      var w1 := w.(visited := w.visited + [url]);
      match env.fetch(url)
      case Err(e) => w1.(error := Some(e))
      case Ok(html) =>
        match Applied(html, linkSels, env.select)
        case Err(e) => w1.(error := Some(e))
        case Ok(hrefs) =>
          var w2 := w1.(yielded := w1.yielded + NewProfiles(hrefs, url, env.join, w1.yielded));
          match Applied(html, NextSelectors(nextCss), env.select)
          case Err(e) => w2.(error := Some(e))
          case Ok(cands) => WalkFrom(if cands != [] then cands[0] else None, w2, linkSels, nextCss, env, fuel - 1)
  }

  /**
   * Every profile URL is yielded at most once, every list page is fetched
   * at most once, and no more pages are fetched than the budget allows.
   */
  lemma {:induction false} WalkDistinct(next: Option<string>, w: Walk, linkSels: seq<SelectorDict>, nextCss: Option<string>, env: Env, fuel: nat)
    requires Distinct(w.yielded) && Distinct(w.visited)
    ensures var r := WalkFrom(next, w, linkSels, nextCss, env, fuel);
            && Distinct(r.yielded) && Distinct(r.visited)
            && |r.visited| <= |w.visited| + fuel
            && w.yielded <= r.yielded && w.visited <= r.visited
    decreases fuel
  {
    if !(next.None? || next.value == [] || next.value in w.visited || fuel == 0) {
      var url := next.value;
      DistinctSnoc(w.visited, url);
      var w1 := w.(visited := w.visited + [url]);
      if env.fetch(url).Ok? {
        var html := env.fetch(url).value;
        var hrefs := Applied(html, linkSels, env.select);
        if hrefs.Ok? {
          var found := NewProfiles(hrefs.value, url, env.join, w1.yielded);
          DistinctConcat(w1.yielded, found);
          var w2 := w1.(yielded := w1.yielded + found);
          var cands := Applied(html, NextSelectors(nextCss), env.select);
          if cands.Ok? {
            WalkDistinct(if cands.value != [] then cands.value[0] else None, w2, linkSels, nextCss, env, fuel - 1);
          }
        }
      }
    }
  }

  /**
   * Every non-empty href that a fetched list page's link selectors found has
   * its URL among `yielded`, whether this page or an earlier one yielded it.
   */
  predicate PageCovered(url: string, linkSels: seq<SelectorDict>, env: Env, yielded: seq<string>) {
    env.fetch(url).Ok? && Applied(env.fetch(url).value, linkSels, env.select).Ok? ==>
      var hrefs := Applied(env.fetch(url).value, linkSels, env.select).value;
      forall i :: 0 <= i < |hrefs| && hrefs[i].Some? && hrefs[i].value != [] ==> env.join(url, hrefs[i].value) in yielded
  }

  /** Every list page the walk fetched is covered by what it yielded. */
  predicate WalkCovered(w: Walk, linkSels: seq<SelectorDict>, env: Env) {
    forall k :: 0 <= k < |w.visited| ==> PageCovered(w.visited[k], linkSels, env, w.yielded)
  }

  /** A page covered by some yielded URLs stays covered when more are yielded. */
  lemma PageCoveredGrows(url: string, linkSels: seq<SelectorDict>, env: Env, yielded: seq<string>, more: seq<string>)
    requires PageCovered(url, linkSels, env, yielded) && yielded <= more
    ensures PageCovered(url, linkSels, env, more)
  {
    if env.fetch(url).Ok? && Applied(env.fetch(url).value, linkSels, env.select).Ok? {
      var hrefs := Applied(env.fetch(url).value, linkSels, env.select).value;
      forall i | 0 <= i < |hrefs| && hrefs[i].Some? && hrefs[i].value != []
        ensures env.join(url, hrefs[i].value) in more
      {
        var u := env.join(url, hrefs[i].value);
        var j :| 0 <= j < |yielded| && yielded[j] == u;
        assert more[j] == u;
      }
    }
  }

  /** The page a walk reads is covered once its new profile URLs are added to what was yielded. */
  lemma PageCoveredAfter(url: string, linkSels: seq<SelectorDict>, env: Env, yielded: seq<string>)
    requires env.fetch(url).Ok? && Applied(env.fetch(url).value, linkSels, env.select).Ok?
    ensures PageCovered(url, linkSels, env,
              yielded + NewProfiles(Applied(env.fetch(url).value, linkSels, env.select).value, url, env.join, yielded))
  {
    NewProfilesComplete(Applied(env.fetch(url).value, linkSels, env.select).value, url, env.join, yielded);
  }

  /**
   * Nothing discovered is lost: every list page the walk fetched and read
   * the links of has all its profile URLs yielded.
   */
  lemma {:induction false} WalkYieldsAll(next: Option<string>, w: Walk, linkSels: seq<SelectorDict>, nextCss: Option<string>, env: Env, fuel: nat)
    ensures var r := WalkFrom(next, w, linkSels, nextCss, env, fuel);
            forall k :: |w.visited| <= k < |r.visited| ==> PageCovered(r.visited[k], linkSels, env, r.yielded)
    decreases fuel
  {
    if !(next.None? || next.value == [] || next.value in w.visited || fuel == 0) {
      var url := next.value;
      var w1 := w.(visited := w.visited + [url]);
      var page := env.fetch(url);
      if page.Err? {
        assert WalkFrom(next, w, linkSels, nextCss, env, fuel) == w1.(error := Some(page.error));
        return;
      }
      var hrefs := Applied(page.value, linkSels, env.select);
      if hrefs.Err? {
        assert WalkFrom(next, w, linkSels, nextCss, env, fuel) == w1.(error := Some(hrefs.error));
        return;
      }
      var w2 := w1.(yielded := w1.yielded + NewProfiles(hrefs.value, url, env.join, w1.yielded));
      PageCoveredAfter(url, linkSels, env, w1.yielded);
      assert PageCovered(url, linkSels, env, w2.yielded);
      var cands := Applied(page.value, NextSelectors(nextCss), env.select);
      if cands.Err? {
        assert WalkFrom(next, w, linkSels, nextCss, env, fuel) == w2.(error := Some(cands.error));
        return;
      }
      var nxt := if cands.value != [] then cands.value[0] else None;
      var r := WalkFrom(nxt, w2, linkSels, nextCss, env, fuel - 1);
      assert WalkFrom(next, w, linkSels, nextCss, env, fuel) == r;
      WalkYieldsAll(nxt, w2, linkSels, nextCss, env, fuel - 1);
      WalkGrows(nxt, w2, linkSels, nextCss, env, fuel - 1);
      PageCoveredGrows(url, linkSels, env, w2.yielded, r.yielded);
      assert r.visited[|w.visited|] == url;
    }
  }

  /** The walk only adds to what was yielded and visited. */
  lemma {:induction false} WalkGrows(next: Option<string>, w: Walk, linkSels: seq<SelectorDict>, nextCss: Option<string>, env: Env, fuel: nat)
    ensures var r := WalkFrom(next, w, linkSels, nextCss, env, fuel);
            w.yielded <= r.yielded && w.visited <= r.visited
    decreases fuel
  {
    if !(next.None? || next.value == [] || next.value in w.visited || fuel == 0) {
      var url := next.value;
      var w1 := w.(visited := w.visited + [url]);
      if env.fetch(url).Ok? {
        var html := env.fetch(url).value;
        var hrefs := Applied(html, linkSels, env.select);
        if hrefs.Ok? {
          var w2 := w1.(yielded := w1.yielded + NewProfiles(hrefs.value, url, env.join, w1.yielded));
          var cands := Applied(html, NextSelectors(nextCss), env.select);
          if cands.Ok? {
            var nxt := if cands.value != [] then cands.value[0] else None;
            WalkGrows(nxt, w2, linkSels, nextCss, env, fuel - 1);
          }
        }
      }
    }
  }

  /** The walk from the start URL yields each URL at most once and covers every page it reads. */
  lemma StartSound(startUrl: string, linkSels: seq<SelectorDict>, nextCss: Option<string>, env: Env, fuel: nat)
    ensures var r := WalkFrom(Some(startUrl), Walk([], [], None), linkSels, nextCss, env, fuel);
            && Distinct(r.yielded) && Distinct(r.visited) && |r.visited| <= fuel
            && WalkCovered(r, linkSels, env)
  {
    WalkDistinct(Some(startUrl), Walk([], [], None), linkSels, nextCss, env, fuel);
    WalkYieldsAll(Some(startUrl), Walk([], [], None), linkSels, nextCss, env, fuel);
  }

  /** The `while` loop of `iter_profile_urls`: the walk from `startUrl`, page by page. */
  method WalkListPages(startUrl: string, linkSels: seq<SelectorDict>, nextCss: Option<string>, env: Env, fuel: nat)
    returns (w: Walk)
    ensures w == WalkFrom(Some(startUrl), Walk([], [], None), linkSels, nextCss, env, fuel)
  {
    ghost var spec := WalkFrom(Some(startUrl), Walk([], [], None), linkSels, nextCss, env, fuel);
    w := Walk([], [], None);
    var next: Option<string> := Some(startUrl);
    var budget := fuel;
    while next.Some? && next.value != [] && next.value !in w.visited && budget > 0
      invariant WalkFrom(next, w, linkSels, nextCss, env, budget) == spec
      invariant w.error.None?
      decreases budget
    {
      ghost var w0, next0 := w, next;
      var url := next.value;
      w := w.(visited := w.visited + [url]);
      var page := env.fetch(url);
      if page.Err? {
        assert WalkFrom(next0, w0, linkSels, nextCss, env, budget) == w.(error := Some(page.error));
        return w.(error := Some(page.error));
      }
      var hrefs := ApplySelectors(page.value, linkSels, env.select);
      if hrefs.Err? {
        assert WalkFrom(next0, w0, linkSels, nextCss, env, budget) == w.(error := Some(hrefs.error));
        return w.(error := Some(hrefs.error));
      }
      var found := YieldProfiles(hrefs.value, url, env.join, w.yielded);
      w := w.(yielded := w.yielded + found);
      var candidates := ApplySelectors(page.value, NextSelectors(nextCss), env.select);
      if candidates.Err? {
        assert WalkFrom(next0, w0, linkSels, nextCss, env, budget) == w.(error := Some(candidates.error));
        return w.(error := Some(candidates.error));
      }
      next := if candidates.value != [] then candidates.value[0] else None;
      assert WalkFrom(next0, w0, linkSels, nextCss, env, budget) == WalkFrom(next, w, linkSels, nextCss, env, budget - 1);
      budget := budget - 1;
    }
  }

  /**
   * `iter_profile_urls(campaign_name, start_url)`: looks the campaign up and
   * walks its list pages from `startUrl`. Each discovered profile URL is
   * yielded exactly once: the yielded URLs are distinct, and every href found
   * on a list page that was read has its URL among them.
   */
  method IterProfileUrls(campaigns: map<string, ConfigLoader.CampaignConfig>, campaignName: string, startUrl: string, env: Env, fuel: nat)
    returns (w: Walk)
    ensures campaignName !in campaigns ==> w == Walk([], [], Some(ConfigLoader.NotFoundMessage(campaignName)))
    ensures campaignName in campaigns ==>
              var cfg := campaigns[campaignName];
              w == WalkFrom(Some(startUrl), Walk([], [], None), AsDicts(cfg.listPage.linkSelectors), cfg.listPage.pagination.nextCss, env, fuel)
    ensures Distinct(w.yielded) && Distinct(w.visited) && |w.visited| <= fuel
    ensures campaignName in campaigns ==> WalkCovered(w, AsDicts(campaigns[campaignName].listPage.linkSelectors), env)
  {
    if campaignName !in campaigns {
      return Walk([], [], Some(ConfigLoader.NotFoundMessage(campaignName)));
    }
    var cfg := campaigns[campaignName];
    var linkSels := AsDicts(cfg.listPage.linkSelectors);
    var nextCss := cfg.listPage.pagination.nextCss;
    w := WalkListPages(startUrl, linkSels, nextCss, env, fuel);
    StartSound(startUrl, linkSels, nextCss, env, fuel);
  }
}

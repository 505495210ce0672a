/**
 * `ContentExtractor`: cleaning a parsed page (removing script-like elements
 * and every attribute outside an allow-list), pulling common meta tags
 * under canonical names, and locating the main content.
 *
 * A parsed page is a sequence of nodes; parsing, serialisation and the
 * markdown conversion are left to the caller.
 */
module ContentExtraction {
  import opened Wrappers
  import opened Strings

  /** A node of a parsed page: an element or a piece of text. */
  datatype Node = Tag(name: string, attrs: map<string, string>, children: seq<Node>) | Str(text: string)

  /** The elements `_clean_html` decomposes, with everything inside them. */
  const RemovedTags: set<string> := {"script", "style", "iframe", "nav", "footer", "noscript", "meta", "link", "comment"}

  /** The attributes `_clean_html` keeps. */
  const AllowedAttrs: set<string> := {"href", "src", "alt", "title"}

  // ---------------------------------------------------------------------
  // `_clean_html`
  // ---------------------------------------------------------------------

  /** The attributes of a kept element. */
  function Restrict(attrs: map<string, string>): (r: map<string, string>)
    ensures r.Keys == attrs.Keys * AllowedAttrs
    ensures forall k :: k in r ==> r[k] == attrs[k]
  {
    map k | k in attrs && k in AllowedAttrs :: attrs[k]
  }

  /** A node after cleaning: nothing if it is removed, otherwise itself with cleaned attributes and children. */
  function CleanNode(n: Node): seq<Node>
    decreases n
  {
    match n
    case Str(_) => [n]
    case Tag(name, attrs, cs) => if name in RemovedTags then [] else [Tag(name, Restrict(attrs), CleanNodes(cs))]
  }

  /** `_clean_html` on a sequence of sibling nodes. */
  function CleanNodes(ns: seq<Node>): seq<Node>
    decreases ns
  {
    if ns == [] then [] else CleanNode(ns[0]) + CleanNodes(ns[1..])
  }

  /** A clean node holds no removed element and no attribute outside the allow-list, at any depth. */
  predicate CleanTree(n: Node)
    decreases n
  {
    match n
    case Str(_) => true
    case Tag(name, attrs, cs) => name !in RemovedTags && attrs.Keys <= AllowedAttrs && AllClean(cs)
  }

  predicate AllClean(ns: seq<Node>)
    decreases ns
  {
    ns == [] || (CleanTree(ns[0]) && AllClean(ns[1..]))
  }

  lemma {:induction false} AllCleanConcat(a: seq<Node>, b: seq<Node>)
    ensures AllClean(a + b) <==> AllClean(a) && AllClean(b)
    decreases |a|
  {
    if a == [] {
      assert a + b == b;
    } else {
      assert (a + b)[0] == a[0];
      assert (a + b)[1..] == a[1..] + b;
      AllCleanConcat(a[1..], b);
    }
  }

  /** Cleaning leaves no removed element and no disallowed attribute. */
  lemma {:induction false} CleanNodeClean(n: Node)
    ensures AllClean(CleanNode(n))
    decreases n
  {
    match n
    case Str(_) =>
      assert AllClean([n][1..]);
    case Tag(name, attrs, cs) =>
      if name !in RemovedTags {
        CleanNodesClean(cs);
        assert AllClean(CleanNode(n)[1..]);
      }
  }

  lemma {:induction false} CleanNodesClean(ns: seq<Node>)
    ensures AllClean(CleanNodes(ns))
    decreases ns
  {
    if ns != [] {
      CleanNodeClean(ns[0]);
      CleanNodesClean(ns[1..]);
      AllCleanConcat(CleanNode(ns[0]), CleanNodes(ns[1..]));
    }
  }

  /** A page that is already clean is left as it is. */
  lemma {:induction false} CleanNodeFixed(n: Node)
    requires CleanTree(n)
    ensures CleanNode(n) == [n]
    decreases n
  {
    match n
    case Str(_) =>
    case Tag(name, attrs, cs) =>
      CleanNodesFixed(cs);
      assert Restrict(attrs) == attrs;
  }

  lemma {:induction false} CleanNodesFixed(ns: seq<Node>)
    requires AllClean(ns)
    ensures CleanNodes(ns) == ns
    decreases ns
  {
    if ns != [] {
      CleanNodeFixed(ns[0]);
      CleanNodesFixed(ns[1..]);
      assert ns == [ns[0]] + ns[1..];
    }
  }

  /** Cleaning twice is cleaning once. */
  lemma CleanIdempotent(ns: seq<Node>)
    ensures CleanNodes(CleanNodes(ns)) == CleanNodes(ns)
  {
    CleanNodesClean(ns);
    CleanNodesFixed(CleanNodes(ns));
  }

  // ---------------------------------------------------------------------
  // Traversal
  // ---------------------------------------------------------------------

  /** The elements of a node, itself first, in document order (`find_all(True)`). */
  function ElementsOf(n: Node): seq<Node>
    decreases n
  {
    match n
    case Str(_) => []
    case Tag(_, _, cs) => [n] + Elements(cs)
  }

  function Elements(ns: seq<Node>): seq<Node>
    decreases ns
  {
    if ns == [] then [] else ElementsOf(ns[0]) + Elements(ns[1..])
  }

  /** `get_text()`: every piece of text inside a node, in order. */
  function TextOf(n: Node): string
    decreases n
  {
    match n
    case Str(t) => t
    case Tag(_, _, cs) => TextOfAll(cs)
  }

  function TextOfAll(ns: seq<Node>): string
    decreases ns
  {
    if ns == [] then [] else TextOf(ns[0]) + TextOfAll(ns[1..])
  }

  /** `.string`: the text of a node with a single text descendant chain, None otherwise. */
  function StringOf(n: Node): Option<string>
    decreases n
  {
    match n
    case Str(t) => Some(t)
    case Tag(_, _, cs) => if |cs| == 1 then StringOf(cs[0]) else None
  }

  /** `el.get(key)`. */
  function Get(n: Node, key: string): Option<string> {
    if n.Tag? && key in n.attrs then Some(n.attrs[key]) else None
  }

  // ---------------------------------------------------------------------
  // `_extract_metadata`
  // ---------------------------------------------------------------------

  /** The extracted meta data; `title` may be None. */
  type Meta = map<string, Option<string>>

  /** `mappings`: canonical name and the tag names that feed it, in declaration order. */
  const Mappings: seq<(string, seq<string>)> := [
    ("description", ["description", "og:description"]),
    ("language", ["language", "og:locale"]),
    ("author", ["author", "article:author"]),
    ("published_date", ["article:published_time", "publishedDate"]),
    ("keywords", ["keywords"]),
    ("image", ["og:image"])]

  /** The canonical names. */
  function MappedKeys(ms: seq<(string, seq<string>)>): set<string> {
    set i | 0 <= i < |ms| :: ms[i].0
  }

  /** `soup.find('meta', property='og:title') or soup.find('title')`. */
  function TitleTag(elems: seq<Node>): Option<Node> {
    var og := FirstWhere(elems, (e: Node) => e.Tag? && e.name == "meta" && Get(e, "property") == Some("og:title"));
    if og.Some? then og else FirstWhere(elems, (e: Node) => e.Tag? && e.name == "title")
  }

  /** The first element satisfying `p`, in document order. */
  function FirstWhere(elems: seq<Node>, p: Node -> bool): (r: Option<Node>)
    ensures r.Some? ==> r.value in elems && p(r.value)
    ensures r.None? <==> forall e :: e in elems ==> !p(e)
  {
    if elems == [] then None else if p(elems[0]) then Some(elems[0]) else FirstWhere(elems[1..], p)
  }

  /** The meta data before the meta-tag loop: the title, when a title tag is found. */
  function TitleEntry(elems: seq<Node>): Meta {
    match TitleTag(elems)
    case None => map[]
    case Some(t) =>
      var content := Get(t, "content").GetOr("");
      map["title" := if content != "" then Some(content) else StringOf(t)]
  }

  /** `meta.get('name') or meta.get('property')`, empty when neither is truthy. */
  function MetaName(e: Node): string {
    if Get(e, "name").Some? && Get(e, "name").value != "" then Get(e, "name").value
    else Get(e, "property").GetOr("")
  }

  /** The content of a meta tag that contributes: both its name and content are non-empty. */
  predicate Contributes(e: Node) {
    MetaName(e) != "" && Get(e, "content").Some? && Get(e, "content").value != ""
  }

  /** `for key, candidates in mappings.items(): if name.lower() in candidates: metadata[key] = content.strip()`. */
  function ApplyMappings(m: Meta, lname: string, content: string, ms: seq<(string, seq<string>)>): (r: Meta)
    ensures r.Keys == m.Keys + set i | 0 <= i < |ms| && lname in ms[i].1 :: ms[i].0
  {
    if ms == [] then m
    else
      var prev := ApplyMappings(m, lname, content, ms[..|ms| - 1]);
      var (key, candidates) := ms[|ms| - 1];
      assert forall i :: 0 <= i < |ms| - 1 ==> ms[..|ms| - 1][i] == ms[i];
      if lname in candidates then prev[key := Some(Strip(content))] else prev
  }

  /** One meta tag of the loop. */
  function MetaStep(m: Meta, e: Node): Meta {
    if Contributes(e) then ApplyMappings(m, Lower(MetaName(e)), Get(e, "content").value, Mappings) else m
  }

  /** The loop over the meta tags. */
  function MetaLoop(m: Meta, metas: seq<Node>): Meta {
    if metas == [] then m else MetaStep(MetaLoop(m, metas[..|metas| - 1]), metas[|metas| - 1])
  }

  /** The meta tags, in document order. */
  function Metas(elems: seq<Node>): (r: seq<Node>)
    ensures forall e :: e in r <==> e in elems && e.Tag? && e.name == "meta"
  {
    if elems == [] then []
    else (if elems[0].Tag? && elems[0].name == "meta" then [elems[0]] else []) + Metas(elems[1..])
  }

  /** `_extract_metadata(soup)`. */
  function Metadata(doc: seq<Node>): Meta {
    var elems := Elements(doc);
    MetaLoop(TitleEntry(elems), Metas(elems))
  }

  /** The canonical name a lowercased tag name feeds, if any. */
  function KeyFor(lname: string): Option<string> {
    if lname == "description" || lname == "og:description" then Some("description")
    else if lname == "language" || lname == "og:locale" then Some("language")
    else if lname == "author" || lname == "article:author" then Some("author")
    else if lname == "article:published_time" || lname == "publishedDate" then Some("published_date")
    else if lname == "keywords" then Some("keywords")
    else if lname == "og:image" then Some("image")
    else None
  }

  /** A name in no candidate list changes nothing. */
  lemma {:induction false} ApplyMappingsMiss(m: Meta, lname: string, content: string, ms: seq<(string, seq<string>)>)
    requires forall i :: 0 <= i < |ms| ==> lname !in ms[i].1
    ensures ApplyMappings(m, lname, content, ms) == m
  {
    if ms != [] {
      var init := ms[..|ms| - 1];
      assert forall i :: 0 <= i < |init| ==> init[i] == ms[i];
      ApplyMappingsMiss(m, lname, content, init);
    }
  }

  /** The last candidate list's effect on top of the others'. */
  lemma ApplyMappingsLast(m: Meta, lname: string, content: string, ms: seq<(string, seq<string>)>)
    requires ms != []
    ensures var prev := ApplyMappings(m, lname, content, ms[..|ms| - 1]);
            ApplyMappings(m, lname, content, ms) ==
              if lname in ms[|ms| - 1].1 then prev[ms[|ms| - 1].0 := Some(Strip(content))] else prev
  {
  }

  /** A name in exactly one candidate list sets that list's canonical name. */
  lemma {:induction false} ApplyMappingsHit(m: Meta, lname: string, content: string, ms: seq<(string, seq<string>)>, i: nat)
    requires i < |ms| && lname in ms[i].1
    requires forall j :: 0 <= j < |ms| && j != i ==> lname !in ms[j].1
    ensures ApplyMappings(m, lname, content, ms) == m[ms[i].0 := Some(Strip(content))]
  {
    var init := ms[..|ms| - 1];
    assert forall j :: 0 <= j < |init| ==> init[j] == ms[j];
    ApplyMappingsLast(m, lname, content, ms);
    if i == |ms| - 1 {
      ApplyMappingsMiss(m, lname, content, init);
    } else {
      ApplyMappingsHit(m, lname, content, init, i);
    }
  }

  /** The candidate lists are disjoint, so a tag feeds at most the one name `KeyFor` gives. */
  lemma ApplyMappingsKeyFor(m: Meta, lname: string, content: string)
    ensures ApplyMappings(m, lname, content, Mappings) ==
              if KeyFor(lname).Some? then m[KeyFor(lname).value := Some(Strip(content))] else m
  {
    var ms := Mappings;
    assert ms[0].1 == ["description", "og:description"] && ms[1].1 == ["language", "og:locale"];
    assert ms[2].1 == ["author", "article:author"] && ms[3].1 == ["article:published_time", "publishedDate"];
    assert ms[4].1 == ["keywords"] && ms[5].1 == ["og:image"];
    if lname == "description" || lname == "og:description" {
      ApplyMappingsHit(m, lname, content, ms, 0);
    } else if lname == "language" || lname == "og:locale" {
      ApplyMappingsHit(m, lname, content, ms, 1);
    } else if lname == "author" || lname == "article:author" {
      ApplyMappingsHit(m, lname, content, ms, 2);
    } else if lname == "article:published_time" || lname == "publishedDate" {
      ApplyMappingsHit(m, lname, content, ms, 3);
    } else if lname == "keywords" {
      ApplyMappingsHit(m, lname, content, ms, 4);
    } else if lname == "og:image" {
      ApplyMappingsHit(m, lname, content, ms, 5);
    } else {
      ApplyMappingsMiss(m, lname, content, ms);
    }
  }

  /** A meta tag that feeds canonical name `key`. */
  predicate Feeds(e: Node, key: string) {
    Contributes(e) && KeyFor(Lower(MetaName(e))) == Some(key)
  }

  /** Later tags win: a canonical name holds the stripped content of the last meta tag that feeds it. */
  lemma {:induction false} MetaLoopLastWins(m: Meta, metas: seq<Node>, key: string, j: nat)
    requires j < |metas| && Feeds(metas[j], key)
    requires forall i :: j < i < |metas| ==> !Feeds(metas[i], key)
    ensures key in MetaLoop(m, metas)
    ensures MetaLoop(m, metas)[key] == Some(Strip(Get(metas[j], "content").value))
  {
    var init := metas[..|metas| - 1];
    var last := metas[|metas| - 1];
    if j == |metas| - 1 {
      ApplyMappingsKeyFor(MetaLoop(m, init), Lower(MetaName(last)), Get(last, "content").value);
    } else {
      assert init[j] == metas[j];
      assert forall i :: j < i < |init| ==> init[i] == metas[i];
      MetaLoopLastWins(m, init, key, j);
      if Contributes(last) {
        ApplyMappingsKeyFor(MetaLoop(m, init), Lower(MetaName(last)), Get(last, "content").value);
      }
    }
  }

  /** A canonical name no meta tag feeds keeps its value from before the loop, or stays absent. */
  lemma {:induction false} MetaLoopUntouched(m: Meta, metas: seq<Node>, key: string)
    requires forall i :: 0 <= i < |metas| ==> !Feeds(metas[i], key)
    ensures key in MetaLoop(m, metas) <==> key in m
    ensures key in m ==> MetaLoop(m, metas)[key] == m[key]
  {
    if metas != [] {
      var init := metas[..|metas| - 1];
      var last := metas[|metas| - 1];
      assert forall i :: 0 <= i < |init| ==> init[i] == metas[i];
      MetaLoopUntouched(m, init, key);
      if Contributes(last) {
        ApplyMappingsKeyFor(MetaLoop(m, init), Lower(MetaName(last)), Get(last, "content").value);
      }
    }
  }

  /** The title comes only from the title tag: no meta tag of the loop feeds it. */
  lemma TitleKept(doc: seq<Node>)
    ensures var elems := Elements(doc);
            && ("title" in Metadata(doc) <==> TitleTag(elems).Some?)
            && ("title" in Metadata(doc) ==> Metadata(doc)["title"] == TitleEntry(elems)["title"])
  {
    var elems := Elements(doc);
    var metas := Metas(elems);
    forall i | 0 <= i < |metas| ensures !Feeds(metas[i], "title") {
      var l := Lower(MetaName(metas[i]));
      assert KeyFor(l) != Some("title");
    }
    MetaLoopUntouched(TitleEntry(elems), metas, "title");
  }

  /** No lowercased name equals the mixed-case alias `publishedDate`, so that alias never matches. */
  lemma PublishedDateNeverMatches(name: string)
    ensures Lower(name) != "publishedDate"
    ensures KeyFor(Lower(name)) == Some("published_date") <==> Lower(name) == "article:published_time"
  {
    if |name| == 13 {
      assert Lower(name)[9] == LowerChar(name[9]) != 'D' == "publishedDate"[9];
    }
  }

  /** The meta data has only the title and the canonical names. */
  lemma {:induction false} MetaLoopKeys(m: Meta, metas: seq<Node>)
    ensures MetaLoop(m, metas).Keys <= m.Keys + MappedKeys(Mappings)
  {
    if metas != [] {
      MetaLoopKeys(m, metas[..|metas| - 1]);
    }
  }

  /** The inner loop over the mappings, for one meta tag. */
  method ApplyMappingsLoop(m0: Meta, lname: string, content: string) returns (m: Meta)
    ensures m == ApplyMappings(m0, lname, content, Mappings)
  {
    m := m0;
    var k := 0;
    while k < |Mappings|
      invariant 0 <= k <= |Mappings|
      invariant m == ApplyMappings(m0, lname, content, Mappings[..k])
    {
      assert Mappings[..k + 1][..k] == Mappings[..k];
      var (key, candidates) := Mappings[k];
      if lname in candidates {
        m := m[key := Some(Strip(content))];
      }
      k := k + 1;
    }
    assert Mappings[..k] == Mappings;
  }

  /** `_extract_metadata`: the title, then the loop over the meta tags. */
  method ExtractMetadata(doc: seq<Node>) returns (m: Meta)
    ensures m == Metadata(doc)
  {
    var elems := Elements(doc);
    m := TitleEntry(elems);
    var metas := Metas(elems);
    var i := 0;
    while i < |metas|
      invariant 0 <= i <= |metas|
      invariant m == MetaLoop(TitleEntry(elems), metas[..i])
    {
      assert metas[..i + 1][..i] == metas[..i];
      var e := metas[i];
      if Contributes(e) {
        m := ApplyMappingsLoop(m, Lower(MetaName(e)), Get(e, "content").value);
      }
      i := i + 1;
    }
    assert metas[..i] == metas;
  }

  // ---------------------------------------------------------------------
  // `_find_main_content`
  // ---------------------------------------------------------------------

  /** `re.compile(r'content|main|article', re.I)` searched in a value. */
  predicate NamesContent(v: string) {
    Contains(Lower(v), "content") || Contains(Lower(v), "main") || Contains(Lower(v), "article")
  }

  /**
   * What a pattern's `tag` entry is compared with. `soup.find(**pat)` passes
   * `tag=` as a keyword that BeautifulSoup takes as an attribute filter, so
   * as written it is the element's attribute called `tag`; the evident
   * intent is the element's name.
   */
  function TagOf(e: Node, asWritten: bool): Option<string> {
    if asWritten then Get(e, "tag") else if e.Tag? then Some(e.name) else None
  }

  /** The five patterns, in order: `main`, `article`, a div by id, a div by class, a div with role main. */
  predicate MatchesPattern(e: Node, p: nat, asWritten: bool) {
    && e.Tag?
    && (p == 0 ==> TagOf(e, asWritten) == Some("main"))
    && (p == 1 ==> TagOf(e, asWritten) == Some("article"))
    && (p == 2 ==> TagOf(e, asWritten) == Some("div") && Get(e, "id").Some? && NamesContent(Get(e, "id").value))
    && (p == 3 ==> TagOf(e, asWritten) == Some("div") && Get(e, "class").Some? && NamesContent(Get(e, "class").value))
    && (p == 4 ==> TagOf(e, asWritten) == Some("div") && Get(e, "role") == Some("main"))
    && p < 5
  }

  /** `soup.find(**pat)`: the first element matching pattern `p`. */
  function FirstMatching(elems: seq<Node>, p: nat, asWritten: bool): (r: Option<Node>)
    ensures r.Some? ==> r.value in elems && MatchesPattern(r.value, p, asWritten)
    ensures r.None? <==> forall e :: e in elems ==> !MatchesPattern(e, p, asWritten)
  {
    if elems == [] then None
    else if MatchesPattern(elems[0], p, asWritten) then Some(elems[0])
    else FirstMatching(elems[1..], p, asWritten)
  }

  /** A `div` or `section`. */
  predicate IsContainer(e: Node) {
    e.Tag? && (e.name == "div" || e.name == "section")
  }

  /** The containers, in document order. */
  function Containers(elems: seq<Node>): (r: seq<Node>)
    ensures forall e :: e in r <==> e in elems && IsContainer(e)
  {
    if elems == [] then []
    else (if IsContainer(elems[0]) then [elems[0]] else []) + Containers(elems[1..])
  }

  /** `max(containers, key=len(get_text()))`: the first of the containers with the longest text. */
  function Largest(cs: seq<Node>): (i: nat)
    requires cs != []
    ensures i < |cs|
    ensures forall j :: 0 <= j < |cs| ==> |TextOf(cs[j])| <= |TextOf(cs[i])|
    ensures forall j :: 0 <= j < i ==> |TextOf(cs[j])| < |TextOf(cs[i])|
  {
    if |cs| == 1 then 0
    else
      var b := Largest(cs[1..]) + 1;
      assert forall j :: 1 <= j < |cs| ==> cs[j] == cs[1..][j - 1];
      if |TextOf(cs[b])| > |TextOf(cs[0])| then b else 0
  }

  /** The patterns from `p` on, then the largest container. */
  function MainFrom(elems: seq<Node>, p: nat, asWritten: bool): Option<Node>
    decreases 5 - p
  {
    if p >= 5 then
      var cs := Containers(elems);
      if cs == [] then None else Some(cs[Largest(cs)])
    else if FirstMatching(elems, p, asWritten).Some? then FirstMatching(elems, p, asWritten)
    else MainFrom(elems, p + 1, asWritten)
  }

  /** `_find_main_content(soup)`, with the patterns matched on element names. */
  function FindMainContent(doc: seq<Node>): Option<Node> {
    MainFrom(Elements(doc), 0, false)
  }

  /** `_find_main_content(soup)` as written: the patterns look for an attribute called `tag`. */
  function FindMainContentAsWritten(doc: seq<Node>): Option<Node> {
    MainFrom(Elements(doc), 0, true)
  }

  /**
   * The first pattern that matches anything decides, with its first match;
   * past the patterns, the fallback decides.
   */
  lemma {:induction false} MainFromDecided(elems: seq<Node>, p: nat, q: nat, asWritten: bool)
    requires p <= q <= 5
    requires forall e, k :: e in elems && p <= k < q ==> !MatchesPattern(e, k, asWritten)
    ensures q < 5 && FirstMatching(elems, q, asWritten).Some? ==> MainFrom(elems, p, asWritten) == FirstMatching(elems, q, asWritten)
    ensures q == 5 ==> MainFrom(elems, p, asWritten) == MainFrom(elems, 5, asWritten)
    decreases q - p
  {
    if p < q {
      assert FirstMatching(elems, p, asWritten).None?;
      MainFromDecided(elems, p + 1, q, asWritten);
    }
  }

  /** The fallback is the first of the longest containers, and None only when there is no `div` or `section`. */
  lemma MainFallback(elems: seq<Node>, asWritten: bool)
    ensures var r := MainFrom(elems, 5, asWritten);
            && (r.None? <==> forall e :: e in elems ==> !IsContainer(e))
            && (r.Some? ==>
                  && r.value in elems && IsContainer(r.value)
                  && forall e :: e in elems && IsContainer(e) ==> |TextOf(e)| <= |TextOf(r.value)|)
  {
    var cs := Containers(elems);
    if cs != [] {
      var i := Largest(cs);
      forall e | e in elems && IsContainer(e) ensures |TextOf(e)| <= |TextOf(cs[i])| {
        var j :| 0 <= j < |cs| && cs[j] == e;
      }
      assert cs[0] in cs;
    } else {
      forall e | e in elems ensures !IsContainer(e) {
        assert e !in cs;
      }
    }
  }

  /** A `main` element, when the page has one, is the main content. */
  lemma MainElementWins(doc: seq<Node>)
    requires exists e :: e in Elements(doc) && e.Tag? && e.name == "main"
    ensures FindMainContent(doc).Some? && FindMainContent(doc).value.Tag? && FindMainContent(doc).value.name == "main"
  {
    var e :| e in Elements(doc) && e.Tag? && e.name == "main";
    assert MatchesPattern(e, 0, false);
    MainFromDecided(Elements(doc), 0, 0, false);
  }

  /** As written, on a page where no element has an attribute called `tag`, only the fallback is ever used. */
  lemma AsWrittenOnlyFallsBack(doc: seq<Node>)
    requires forall e :: e in Elements(doc) ==> Get(e, "tag").None?
    ensures FindMainContentAsWritten(doc) == MainFrom(Elements(doc), 5, true)
  {
    MainFromDecided(Elements(doc), 0, 5, true);
  }

  /** As written, a page made of a `main` element and an empty `div` gives the empty `div`. */
  lemma AsWrittenMissesMain()
    ensures var doc := [Tag("main", map[], [Str("story")]), Tag("div", map[], [])];
            && FindMainContentAsWritten(doc) == Some(Tag("div", map[], []))
            && FindMainContent(doc) == Some(Tag("main", map[], [Str("story")]))
  {
    var main := Tag("main", map[], [Str("story")]);
    var div := Tag("div", map[], []);
    var doc := [main, div];
    assert Elements([div]) == [div] + Elements([]);
    assert Elements(doc) == [main] + Elements([Str("story")]) + Elements([div]);
    assert Elements(doc) == [main, div];
    AsWrittenOnlyFallsBack(doc);
    assert Containers([div]) == [div] + Containers([]);
    assert Containers(Elements(doc)) == [div];
    assert MatchesPattern(main, 0, false);
  }

  // ---------------------------------------------------------------------
  // `extract_content`
  // ---------------------------------------------------------------------

  /** The cleaned page and its meta data (the markdown is made from the cleaned page by the caller). */
  datatype Extracted = Extracted(html: seq<Node>, metadata: Meta)

  /** `extract_content(html, only_main)`: meta data from the whole page; the main content, when asked for and found, is what is cleaned. */
  function ExtractContent(doc: seq<Node>, onlyMain: bool): (r: Extracted)
    ensures AllClean(r.html)
    ensures r.metadata == Metadata(doc)
    ensures !onlyMain || FindMainContent(doc).None? ==> r.html == CleanNodes(doc)
    ensures onlyMain && FindMainContent(doc).Some? ==> r.html == CleanNode(FindMainContent(doc).value)
  {
    var body := if onlyMain && FindMainContent(doc).Some? then [FindMainContent(doc).value] else doc;
    CleanNodesClean(body);
    if onlyMain && FindMainContent(doc).Some? then
      assert CleanNodes(body) == CleanNode(FindMainContent(doc).value) + CleanNodes([]);
      Extracted(CleanNodes(body), Metadata(doc))
    else Extracted(CleanNodes(body), Metadata(doc))
  }
}

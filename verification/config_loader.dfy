/**
 * The campaign selector configuration: a YAML document mapping campaign
 * names to the selectors that drive the list-page crawl and the
 * profile-page extraction, validated once and then served from a cache.
 *
 * Reading the file and the YAML parser are outside the model: each
 * operation takes the document the parser would return at that moment.
 * Validation errors are reported by the name of the offending part rather
 * than by the validation library's messages.
 */
module ConfigLoader {
  import opened Wrappers
  import opened JsonValues
  import opened Strings

  /** `Selector = CssSelector | XPathSelector`. */
  datatype Selector = Css(css: string) | XPath(xpath: string)

  /** Lead field to selector list; every list defaults to empty. */
  datatype ProfileFields = ProfileFields(
    name: seq<Selector>,
    email: seq<Selector>,
    phone: seq<Selector>,
    socials: seq<Selector>,
    title: seq<Selector>,
    organization: seq<Selector>)

  /** How the next list page is found; every entry defaults to None. */
  datatype PaginationConfig = PaginationConfig(nextCss: Option<string>, nextXPath: Option<string>, nextUrlRegex: Option<string>)

  datatype ListPageConfig = ListPageConfig(linkSelectors: seq<Selector>, pagination: PaginationConfig)

  datatype ProfilePageConfig = ProfilePageConfig(fields: ProfileFields)

  datatype CampaignConfig = CampaignConfig(listPage: ListPageConfig, profilePage: ProfilePageConfig)

  const NoProfileFields := ProfileFields([], [], [], [], [], [])
  const NoPagination := PaginationConfig(None, None, None)
  const DefaultCampaign := CampaignConfig(ListPageConfig([], NoPagination), ProfilePageConfig(NoProfileFields))

  /** The entry `key` of a mapping, None when the key is absent. */
  function Get(fields: map<string, Json>, key: string): Option<Json> {
    if key in fields then Some(fields[key]) else None
  }

  /** A selector: a mapping with a string `css` entry, else one with a string `xpath` entry. */
  function ParseSelector(j: Json): (r: Result<Selector, string>)
    ensures r.Ok? ==> j.JObj?
    ensures r.Ok? && r.value.Css? ==> Get(j.fields, "css") == Some(JStr(r.value.css))
    ensures r.Ok? && r.value.XPath? ==> Get(j.fields, "xpath") == Some(JStr(r.value.xpath))
  {
    if j.JObj? && "css" in j.fields && j.fields["css"].JStr? then Ok(Css(j.fields["css"].s))
    else if j.JObj? && "xpath" in j.fields && j.fields["xpath"].JStr? then Ok(XPath(j.fields["xpath"].s))
    else Err("selector")
  }

  /** The selectors of a list, in order. */
  function ParseSelectorItems(items: seq<Json>): (r: Result<seq<Selector>, string>)
    ensures r.Ok? ==> |r.value| == |items|
    ensures r.Ok? ==> forall i :: 0 <= i < |items| ==> ParseSelector(items[i]) == Ok(r.value[i])
    ensures r.Err? <==> exists i :: 0 <= i < |items| && ParseSelector(items[i]).Err?
  {
    if items == [] then Ok([])
    else
      var init :- ParseSelectorItems(items[..|items| - 1]);
      var last :- ParseSelector(items[|items| - 1]);
      Ok(init + [last])
  }

  /** A selector list field: omitted means empty, otherwise a list of selectors. */
  function ParseSelectorList(j: Option<Json>): (r: Result<seq<Selector>, string>)
    ensures j.None? ==> r == Ok([])
  {
    match j
    case None => Ok([])
    case Some(JList(items)) => ParseSelectorItems(items)
    case Some(_) => Err("selector list")
  }

  /** An optional string field: omitted or null means None. */
  function ParseOptionalString(j: Option<Json>): (r: Result<Option<string>, string>)
    ensures j.None? || j == Some(JNull) ==> r == Ok(None)
    ensures r.Ok? && r.value.Some? ==> j == Some(JStr(r.value.value))
  {
    match j
    case None => Ok(None)
    case Some(JNull) => Ok(None)
    case Some(JStr(s)) => Ok(Some(s))
    case Some(_) => Err("string")
  }

  /** A nested model field: omitted means the default, otherwise it must be a mapping. */
  function SubObject(j: Option<Json>): Result<map<string, Json>, string> {
    match j
    case None => Ok(map[])
    case Some(JObj(fields)) => Ok(fields)
    case Some(_) => Err("object")
  }

  function ParseProfileFields(j: Option<Json>): (r: Result<ProfileFields, string>)
    ensures j.None? ==> r == Ok(NoProfileFields)
  {
    var f :- SubObject(j);
    var name :- ParseSelectorList(Get(f, "name"));
    var email :- ParseSelectorList(Get(f, "email"));
    var phone :- ParseSelectorList(Get(f, "phone"));
    var socials :- ParseSelectorList(Get(f, "socials"));
    var title :- ParseSelectorList(Get(f, "title"));
    var organization :- ParseSelectorList(Get(f, "organization"));
    Ok(ProfileFields(name, email, phone, socials, title, organization))
  }

  function ParsePagination(j: Option<Json>): (r: Result<PaginationConfig, string>)
    ensures j.None? ==> r == Ok(NoPagination)
  {
    var f :- SubObject(j);
    var nextCss :- ParseOptionalString(Get(f, "next_css"));
    var nextXPath :- ParseOptionalString(Get(f, "next_xpath"));
    var nextUrlRegex :- ParseOptionalString(Get(f, "next_url_regex"));
    Ok(PaginationConfig(nextCss, nextXPath, nextUrlRegex))
  }

  function ParseListPage(j: Option<Json>): (r: Result<ListPageConfig, string>)
    ensures j.None? ==> r == Ok(ListPageConfig([], NoPagination))
  {
    var f :- SubObject(j);
    var links :- ParseSelectorList(Get(f, "link_selectors"));
    var pagination :- ParsePagination(Get(f, "pagination"));
    Ok(ListPageConfig(links, pagination))
  }

  function ParseProfilePage(j: Option<Json>): (r: Result<ProfilePageConfig, string>)
    ensures j.None? ==> r == Ok(ProfilePageConfig(NoProfileFields))
  {
    var f :- SubObject(j);
    var fields :- ParseProfileFields(Get(f, "fields"));
    Ok(ProfilePageConfig(fields))
  }

  /** `CampaignConfig(**j)`: every omitted section takes its default. */
  function ParseCampaign(j: Json): (r: Result<CampaignConfig, string>)
    ensures j == JObj(map[]) ==> r == Ok(DefaultCampaign)
  {
    var f :- SubObject(Some(j));
    var listPage :- ParseListPage(Get(f, "list_page"));
    var profilePage :- ParseProfilePage(Get(f, "profile_page"));
    Ok(CampaignConfig(listPage, profilePage))
  }

  /** An omitted list page or profile page section takes its default. */
  lemma OmittedSectionsDefault(f: map<string, Json>)
    requires ParseCampaign(JObj(f)).Ok?
    ensures "list_page" !in f ==> ParseCampaign(JObj(f)).value.listPage == ListPageConfig([], NoPagination)
    ensures "profile_page" !in f ==> ParseCampaign(JObj(f)).value.profilePage == ProfilePageConfig(NoProfileFields)
  {
  }

  /** `AllCampaigns(campaigns=raw)`: a mapping whose every value is a valid campaign. */
  function ParseCampaigns(raw: Json): (r: Result<map<string, CampaignConfig>, string>)
    ensures r.Ok? <==> raw.JObj? && forall k :: k in raw.fields ==> ParseCampaign(raw.fields[k]).Ok?
    ensures r.Ok? ==> r.value.Keys == raw.fields.Keys
    ensures r.Ok? ==> forall k :: k in r.value ==> Ok(r.value[k]) == ParseCampaign(raw.fields[k])
  {
    if raw.JObj? && forall k :: k in raw.fields ==> ParseCampaign(raw.fields[k]).Ok? then
      Ok(map k | k in raw.fields :: ParseCampaign(raw.fields[k]).value)
    else Err("campaigns")
  }

  /**
   * `_load_yaml`: an empty (falsy) document counts as an empty mapping; a
   * mapping with a `selectors` key is unwrapped to that entry, any other
   * mapping is returned whole; a document that is not a mapping has no
   * `.get` and raises.
   */
  function LoadYaml(doc: Json): (r: Result<Json, string>)
    ensures !Truthy(doc) ==> r == Ok(JObj(map[]))
    ensures Truthy(doc) && doc.JObj? && "selectors" in doc.fields ==> r == Ok(doc.fields["selectors"])
    ensures Truthy(doc) && doc.JObj? && "selectors" !in doc.fields ==> r == Ok(doc)
    ensures Truthy(doc) && !doc.JObj? ==> r.Err?
  {
    var raw := if Truthy(doc) then doc else JObj(map[]);
    if raw.JObj? then Ok(if "selectors" in raw.fields then raw.fields["selectors"] else raw)
    else Err("object has no attribute 'get'")
  }

  /** Reading and validating the whole configuration. */
  function LoadCampaigns(doc: Json): Result<map<string, CampaignConfig>, string> {
    var raw :- LoadYaml(doc);
    ParseCampaigns(raw)
  }

  /** A document wrapped under `selectors` loads like the unwrapped one. */
  lemma LoadUnwrapsSelectors(inner: Json)
    ensures LoadCampaigns(JObj(map["selectors" := inner])) == ParseCampaigns(inner)
  {
  }

  /** The message of `CampaignNotFoundError`. */
  function NotFoundMessage(name: string): string {
    "Campaign '" + name + "' not found."
  }

  /** The message names the campaign. */
  lemma NotFoundMessageNames(name: string)
    ensures Contains(NotFoundMessage(name), name)
  {
    assert OccursAt(NotFoundMessage(name), name, 10);
  }

  /** What `get_campaign_config` raises. */
  datatype ConfigError =
    | InvalidConfig(reason: string)
    | CampaignNotFound(campaignName: string, message: string)

  /** The process-wide configuration cache. */
  class Loader {
    var cached: Option<map<string, CampaignConfig>>
    /** How many times the file was read and validated. */
    var loads: nat

    constructor ()
      ensures cached.None? && loads == 0
    {
      cached := None;
      loads := 0;
    }

    /**
     * `_load_all`: the first successful call reads and validates `doc` and
     * caches the result; later calls return the cache without reading.
     */
    method LoadAll(doc: Json) returns (r: Result<map<string, CampaignConfig>, string>)
      modifies this
      ensures old(cached).Some? ==> r == Ok(old(cached).value) && cached == old(cached) && loads == old(loads)
      ensures old(cached).None? ==> && r == LoadCampaigns(doc) && loads == old(loads) + 1
                                    && cached == (if r.Ok? then Some(r.value) else None)
    {
      if cached.Some? {
        return Ok(cached.value);
      }
      loads := loads + 1;
      r := LoadCampaigns(doc);
      if r.Ok? {
        cached := Some(r.value);
      }
    }

    /**
     * `get_campaign_config`: the configuration stored for `name`, or
     * `CampaignNotFoundError` carrying the name.
     */
    method GetCampaignConfig(name: string, doc: Json) returns (r: Result<CampaignConfig, ConfigError>)
      modifies this
      ensures var all := if old(cached).Some? then Ok(old(cached).value) else LoadCampaigns(doc);
              && (all.Err? ==> r == Err(InvalidConfig(all.error)))
              && (all.Ok? && name in all.value ==> r == Ok(all.value[name]))
              && (all.Ok? && name !in all.value ==> r == Err(CampaignNotFound(name, NotFoundMessage(name))))
      ensures old(cached).Some? ==> cached == old(cached) && loads == old(loads)
    {
      var all := LoadAll(doc);
      if all.Err? {
        return Err(InvalidConfig(all.error));
      }
      if name in all.value {
        return Ok(all.value[name]);
      }
      return Err(CampaignNotFound(name, NotFoundMessage(name)));
    }

    /**
     * `list_available_campaigns`: exactly the campaign names. The source
     * returns them as a list in the file's order; the configuration here is a
     * map, so the names are a set and their order is not modelled.
     */
    method ListAvailableCampaigns(doc: Json) returns (r: Result<set<string>, string>)
      modifies this
      ensures var all := if old(cached).Some? then Ok(old(cached).value) else LoadCampaigns(doc);
              && (all.Err? ==> r == Err(all.error))
              && (all.Ok? ==> r == Ok(all.value.Keys))
      ensures old(cached).Some? ==> cached == old(cached) && loads == old(loads)
    {
      var all := LoadAll(doc);
      if all.Err? {
        return Err(all.error);
      }
      return Ok(all.value.Keys);
    }
  }

  /** Once a load succeeded, every later load returns the cached configuration and reads nothing. */
  method LoadTwice(loader: Loader, first: Json, second: Json) returns (a: Result<map<string, CampaignConfig>, string>, b: Result<map<string, CampaignConfig>, string>)
    modifies loader
    ensures a.Ok? ==> b == a && loader.loads == old(loader.loads) + (if old(loader.cached).None? then 1 else 0)
  {
    a := loader.LoadAll(first);
    b := loader.LoadAll(second);
  }
}

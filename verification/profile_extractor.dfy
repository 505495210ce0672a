/**
 * Extraction of one lead from a profile page: each configured field is the
 * first non-empty value its selectors find, and the lead is constructed
 * from those values and the profile URL.
 *
 * Fetching the page (`httpx.get` with `raise_for_status`) and the CSS
 * engine's `select_one` are parameters.
 */
module ProfileExtractor {
  import opened Wrappers
  import opened Html
  import opened Leads
  import ConfigLoader
  import ListPageCrawler

  const XPathMessage := "XPath not supported in MVP"

  /** A CSS selector whose element offers a truthy value: a non-empty `href` or stripped text. */
  predicate Yields(html: string, sel: SelectorDict, selectOne: (string, string) -> Option<Element>) {
    && sel.CssKey?
    && selectOne(html, sel.css).Some?
    && HrefOrText(selectOne(html, sel.css).value).Some?
    && HrefOrText(selectOne(html, sel.css).value).value != []
  }

  /** A selector the search moves past: no known key, no element, or an empty value. */
  predicate Skips(html: string, sel: SelectorDict, selectOne: (string, string) -> Option<Element>) {
    sel.NoKey? || (sel.CssKey? && !Yields(html, sel, selectOne))
  }

  /** `_extract_one_field(soup, selectors)`; `selectOne(html, css)` is `soup.select_one(css)`. */
  function FirstValue(html: string, sels: seq<SelectorDict>, selectOne: (string, string) -> Option<Element>): (r: Result<Option<string>, string>)
    ensures r.Ok? && r.value.Some? ==> r.value.value != []
    ensures r.Err? ==> r.error == XPathMessage
    decreases |sels|
  {
    if sels == [] then Ok(None)
    else if sels[0].XPathKey? then Err(XPathMessage)
    else if Yields(html, sels[0], selectOne) then Ok(HrefOrText(selectOne(html, sels[0].css).value))
    else FirstValue(html, sels[1..], selectOne)
  }

  /**
   * The first selector that is not skipped decides: one that yields gives
   * its value, an XPath selector raises; a skipped selector hands the
   * decision to the rest, and when all are skipped the field is None.
   */
  lemma {:induction false} FirstValueDecided(html: string, sels: seq<SelectorDict>, selectOne: (string, string) -> Option<Element>, i: nat)
    requires i <= |sels|
    requires forall j :: 0 <= j < i ==> Skips(html, sels[j], selectOne)
    ensures i == |sels| ==> FirstValue(html, sels, selectOne) == Ok(None)
    ensures i < |sels| && Yields(html, sels[i], selectOne) ==>
              FirstValue(html, sels, selectOne) == Ok(HrefOrText(selectOne(html, sels[i].css).value))
    ensures i < |sels| && sels[i].XPathKey? ==> FirstValue(html, sels, selectOne) == Err(XPathMessage)
  {
    if i > 0 {
      assert Skips(html, sels[0], selectOne);
      FirstValueDecided(html, sels[1..], selectOne, i - 1);
    }
  }

  /** `_extract_one_field`, as the loop it is. */
  method ExtractOneField(html: string, sels: seq<SelectorDict>, selectOne: (string, string) -> Option<Element>)
    returns (r: Result<Option<string>, string>)
    ensures r == FirstValue(html, sels, selectOne)
  {
    var i := 0;
    while i < |sels|
      invariant 0 <= i <= |sels|
      invariant FirstValue(html, sels, selectOne) == FirstValue(html, sels[i..], selectOne)
    {
      var sel := sels[i];
      if sel.XPathKey? {
        return Err(XPathMessage);
      }
      if sel.CssKey? {
        var elem := selectOne(html, sel.css);
        if elem.Some? {
          var val := HrefOrText(elem.value);
          if val.Some? && val.value != [] {
            return Ok(val);
          }
        }
      }
      assert sels[i..][1..] == sels[i + 1..];
      i := i + 1;
    }
    return Ok(None);
  }

  /** The fields `extract_lead` looks up, in the order it looks them up. */
  const ProfileFieldNames: seq<string> := ["name", "title", "email", "phone", "socials", "organization"]

  /** `getattr(fields_cfg, name, [])`, as selector mappings. */
  function SelectorsOf(fields: ConfigLoader.ProfileFields, name: string): seq<SelectorDict> {
    ListPageCrawler.AsDicts(
      if name == "name" then fields.name
      else if name == "title" then fields.title
      else if name == "email" then fields.email
      else if name == "phone" then fields.phone
      else if name == "socials" then fields.socials
      else if name == "organization" then fields.organization
      else [])
  }

  /**
   * The `data` mapping after the fields `names`: a field with selectors is
   * set to what they find; the first XPath selector met raises.
   */
  function FieldData(html: string, fields: ConfigLoader.ProfileFields, names: seq<string>, selectOne: (string, string) -> Option<Element>)
    : (r: Result<map<string, Option<string>>, string>)
    ensures r.Ok? ==> forall n :: n in r.value <==> n in names && SelectorsOf(fields, n) != []
    ensures r.Ok? ==> forall n :: n in r.value ==> FirstValue(html, SelectorsOf(fields, n), selectOne) == Ok(r.value[n])
    ensures r.Err? ==> r.error == XPathMessage
  {
    if names == [] then Ok(map[])
    else
      var prev :- FieldData(html, fields, names[..|names| - 1], selectOne);
      var n := names[|names| - 1];
      var sels := SelectorsOf(fields, n);
      assert forall x :: x in names <==> x in names[..|names| - 1] || x == n;
      if sels == [] then Ok(prev)
      else
        var v :- FirstValue(html, sels, selectOne);
        Ok(prev[n := v])
  }

  /** One more field: the mapping grows by what its selectors find, or the exception stands. */
  lemma FieldDataNext(html: string, fields: ConfigLoader.ProfileFields, names: seq<string>, i: nat, selectOne: (string, string) -> Option<Element>)
    requires i < |names|
    ensures var prev := FieldData(html, fields, names[..i], selectOne);
            var sels := SelectorsOf(fields, names[i]);
            FieldData(html, fields, names[..i + 1], selectOne) ==
              if prev.Err? || sels == [] then prev
              else if FirstValue(html, sels, selectOne).Err? then Err(FirstValue(html, sels, selectOne).error)
              else Ok(prev.value[names[i] := FirstValue(html, sels, selectOne).value])
  {
    assert names[..i + 1][..i] == names[..i];
  }

  /** Once a prefix of the fields raises, so do all of them, with the same exception. */
  lemma {:induction false} FieldDataErrorSticks(html: string, fields: ConfigLoader.ProfileFields, names: seq<string>, j: nat, selectOne: (string, string) -> Option<Element>)
    requires j <= |names|
    requires FieldData(html, fields, names[..j], selectOne).Err?
    ensures FieldData(html, fields, names, selectOne) == FieldData(html, fields, names[..j], selectOne)
    decreases |names|
  {
    if j < |names| {
      var init := names[..|names| - 1];
      assert init[..j] == names[..j];
      FieldDataErrorSticks(html, fields, init, j, selectOne);
    } else {
      assert names[..j] == names;
    }
  }

  /** A string keyword argument: None when the field was not found. */
  function Arg(data: map<string, Option<string>>, name: string): FieldValue {
    if name in data && data[name].Some? then Text(data[name].value) else Null
  }

  /** The keyword arguments that are lead fields. */
  function LeadArgs(data: map<string, Option<string>>): map<string, FieldValue> {
    map["name" := Arg(data, "name"), "email" := Arg(data, "email"), "phone" := Arg(data, "phone")]
  }

  /** The keyword arguments of `Lead(source_url=..., name=..., ...)`. */
  function Kwargs(profileUrl: string, data: map<string, Option<string>>): map<string, FieldValue> {
    LeadArgs(data)["title" := Arg(data, "title")]["socials" := Arg(data, "socials")]
      ["organization" := Arg(data, "organization")]["source_url" := Text(profileUrl)]
  }

  /** Construction ignores the keyword arguments that are not lead fields. */
  lemma KwargsIgnored(profileUrl: string, data: map<string, Option<string>>)
    ensures Parse(Kwargs(profileUrl, data)) == Parse(LeadArgs(data))
  {
    var m0 := LeadArgs(data);
    var m1 := m0["title" := Arg(data, "title")];
    var m2 := m1["socials" := Arg(data, "socials")];
    var m3 := m2["organization" := Arg(data, "organization")];
    NotLeadField("title");
    ParseIgnoresUnknown(m0, "title", Arg(data, "title"));
    NotLeadField("socials");
    ParseIgnoresUnknown(m1, "socials", Arg(data, "socials"));
    NotLeadField("organization");
    ParseIgnoresUnknown(m2, "organization", Arg(data, "organization"));
    NotLeadField("source_url");
    ParseIgnoresUnknown(m3, "source_url", Text(profileUrl));
  }

  /** The extra keyword arguments `extract_lead` passes are not lead fields. */
  lemma NotLeadField(k: string)
    requires k == "title" || k == "socials" || k == "organization" || k == "source_url"
    ensures k !in FieldNames
  {
  }

  /** What `extract_lead` raises. */
  datatype ExtractError =
    | CampaignNotFound(message: string)
    | HttpError(message: string)
    | NotImplemented(message: string)
    | ValidationError(fields: seq<string>)

  /** `extract_lead(campaign_name, profile_url)` as a value. */
  function ExtractedLead(
    campaigns: map<string, ConfigLoader.CampaignConfig>, campaignName: string, profileUrl: string,
    fetch: string -> Result<string, string>, selectOne: (string, string) -> Option<Element>)
    : Result<LeadData, ExtractError>
  {
    if campaignName !in campaigns then Err(CampaignNotFound(ConfigLoader.NotFoundMessage(campaignName)))
    else if fetch(profileUrl).Err? then Err(HttpError(fetch(profileUrl).error))
    else
      var data := FieldData(fetch(profileUrl).value, campaigns[campaignName].profilePage.fields, ProfileFieldNames, selectOne);
      if data.Err? then Err(NotImplemented(data.error))
      else
        var lead := Parse(Kwargs(profileUrl, data.value));
        if lead.Err? then Err(ValidationError(lead.error)) else Ok(lead.value)
  }

  /** `extract_lead`, with its loop over the field names. */
  method ExtractLead(
    campaigns: map<string, ConfigLoader.CampaignConfig>, campaignName: string, profileUrl: string,
    fetch: string -> Result<string, string>, selectOne: (string, string) -> Option<Element>)
    returns (r: Result<LeadData, ExtractError>)
    ensures r == ExtractedLead(campaigns, campaignName, profileUrl, fetch, selectOne)
  {
    if campaignName !in campaigns {
      return Err(CampaignNotFound(ConfigLoader.NotFoundMessage(campaignName)));
    }
    var fields := campaigns[campaignName].profilePage.fields;
    var page := fetch(profileUrl);
    if page.Err? {
      return Err(HttpError(page.error));
    }
    var data: map<string, Option<string>> := map[];
    var i := 0;
    while i < |ProfileFieldNames|
      invariant 0 <= i <= |ProfileFieldNames|
      invariant FieldData(page.value, fields, ProfileFieldNames[..i], selectOne) == Ok(data)
    {
      FieldDataNext(page.value, fields, ProfileFieldNames, i, selectOne);
      var name := ProfileFieldNames[i];
      var sels := SelectorsOf(fields, name);
      if sels != [] {
        var v := ExtractOneField(page.value, sels, selectOne);
        if v.Err? {
          FieldDataErrorSticks(page.value, fields, ProfileFieldNames, i + 1, selectOne);
          return Err(NotImplemented(v.error));
        }
        data := data[name := v.value];
      }
      i := i + 1;
    }
    assert ProfileFieldNames[..i] == ProfileFieldNames;
    var lead := Parse(Kwargs(profileUrl, data));
    if lead.Err? {
      return Err(ValidationError(lead.error));
    }
    return Ok(lead.value);
  }

  /** A field `data` holds a found value for. */
  predicate Found(data: map<string, Option<string>>, name: string) {
    name in data && data[name].Some?
  }

  /** The lead fields `extract_lead` passes, with their positions among the lead fields. */
  lemma PassedLeadFields()
    ensures "name" in FieldNames && "email" in FieldNames && "phone" in FieldNames
  {
    assert FieldNames[0] == "name" && FieldNames[3] == "email" && FieldNames[4] == "phone";
  }

  /** The lead built from the lead-field arguments has no field besides the name, email and phone. */
  lemma LeadArgsKeys(data: map<string, Option<string>>)
    requires Parse(LeadArgs(data)).Ok?
    ensures var d := Parse(LeadArgs(data)).value;
            && WellFormed(d)
            && (forall k :: k in d ==> k == "name" || k == "email" || k == "phone")
            && "source_urls" !in d
  {
    var m := LeadArgs(data);
    ParseSets(m);
    var d := Parse(m).value;
    forall k | k in d ensures k == "name" || k == "email" || k == "phone" {
      assert k in m;
    }
    assert "source_urls" !in m;
  }

  /** The lead built from the lead-field arguments holds the name, email and phone found, the phone cleaned. */
  lemma LeadArgsValues(data: map<string, Option<string>>)
    requires Parse(LeadArgs(data)).Ok?
    ensures var d := Parse(LeadArgs(data)).value;
            && ("name" in d <==> Found(data, "name")) && ("name" in d ==> d["name"] == Text(data["name"].value))
            && ("email" in d <==> Found(data, "email")) && ("email" in d ==> d["email"] == Text(data["email"].value))
            && ("phone" in d <==> Found(data, "phone"))
            && ("phone" in d ==> d["phone"] == Text(KeepPhoneChars(data["phone"].value)))
  {
    ParseSets(LeadArgs(data));
    PassedLeadFields();
  }

  /**
   * The lead built from the extracted values sets exactly the name, email
   * and phone that were found (the phone cleaned); `title`, `socials`,
   * `organization` and `source_url` are not lead fields, so the lead keeps
   * none of them and records no source URLs.
   */
  lemma LeadFromData(profileUrl: string, data: map<string, Option<string>>)
    requires Parse(Kwargs(profileUrl, data)).Ok?
    ensures var d := Parse(Kwargs(profileUrl, data)).value;
            && WellFormed(d)
            && (forall k :: k in d ==> k == "name" || k == "email" || k == "phone")
            && ("name" in d <==> Found(data, "name")) && ("name" in d ==> d["name"] == Text(data["name"].value))
            && ("email" in d <==> Found(data, "email")) && ("email" in d ==> d["email"] == Text(data["email"].value))
            && ("phone" in d <==> Found(data, "phone"))
            && ("phone" in d ==> d["phone"] == Text(KeepPhoneChars(data["phone"].value)))
            && "source_urls" !in d
  {
    KwargsIgnored(profileUrl, data);
    LeadArgsKeys(data);
    LeadArgsValues(data);
  }

  /**
   * Construction fails exactly when a found email is malformed or a found
   * phone number is too short.
   */
  lemma LeadFromDataFails(profileUrl: string, data: map<string, Option<string>>)
    ensures Parse(Kwargs(profileUrl, data)).Err? <==>
              (Found(data, "email") && ValidateEmail(data["email"]).Err?)
              || (Found(data, "phone") && ValidatePhone(data["phone"]).Err?)
  {
    KwargsIgnored(profileUrl, data);
    var m := LeadArgs(data);
    ParseFails(m);
    PassedLeadFields();
    forall k | k in FieldNames && CheckField(m, k).Err?
      ensures (k == "email" && Found(data, "email") && ValidateEmail(data["email"]).Err?)
              || (k == "phone" && Found(data, "phone") && ValidatePhone(data["phone"]).Err?)
    {
    }
    if Found(data, "email") && ValidateEmail(data["email"]).Err? {
      assert CheckField(m, "email").Err?;
    }
    if Found(data, "phone") && ValidatePhone(data["phone"]).Err? {
      assert CheckField(m, "phone").Err?;
    }
  }

  /** Fields without selectors are left out of `data`. */
  lemma {:induction false} FieldDataNoSelectors(html: string, fields: ConfigLoader.ProfileFields, names: seq<string>, selectOne: (string, string) -> Option<Element>)
    requires forall n :: n in names ==> SelectorsOf(fields, n) == []
    ensures FieldData(html, fields, names, selectOne) == Ok(map[])
  {
    if names != [] {
      FieldDataNoSelectors(html, fields, names[..|names| - 1], selectOne);
      assert names[|names| - 1] in names;
    }
  }

  /**
   * A campaign without profile fields gives a lead with no field set, once
   * the page is fetched; a missing campaign raises before anything else.
   */
  lemma NoProfileFieldsEmptyLead(
    campaigns: map<string, ConfigLoader.CampaignConfig>, campaignName: string, profileUrl: string,
    fetch: string -> Result<string, string>, selectOne: (string, string) -> Option<Element>)
    ensures campaignName !in campaigns ==>
              ExtractedLead(campaigns, campaignName, profileUrl, fetch, selectOne)
                == Err(CampaignNotFound(ConfigLoader.NotFoundMessage(campaignName)))
    ensures campaignName in campaigns && campaigns[campaignName].profilePage.fields == ConfigLoader.NoProfileFields
            && fetch(profileUrl).Ok? ==>
              ExtractedLead(campaigns, campaignName, profileUrl, fetch, selectOne) == Ok(map[])
  {
    if campaignName in campaigns && campaigns[campaignName].profilePage.fields == ConfigLoader.NoProfileFields
       && fetch(profileUrl).Ok? {
      assert forall n :: SelectorsOf(ConfigLoader.NoProfileFields, n) == [];
      FieldDataNoSelectors(fetch(profileUrl).value, ConfigLoader.NoProfileFields, ProfileFieldNames, selectOne);
      KwargsIgnored(profileUrl, map[]);
      var m := LeadArgs(map[]);
      assert forall k :: CheckField(m, k) == Ok(None);
      ErrorsExact(m, FieldNames);
      assert Built(m) == map[];
    }
  }
}

/**
 * The lead record: a scraped business contact whose setters store a value
 * and record, per field, the URL(s) it came from.
 *
 * A lead's state is the mapping from field name to value of the fields that
 * are set; a field that is None is absent from it. That mapping is what
 * `to_dict` (`model_dump(exclude_none=True)`) returns, and `Parse` is the
 * construction `Lead(**m)` with the email and phone validators.
 */
module Leads {
  import opened Wrappers
  import opened Strings

  /** A location: free text or a structured mapping. */
  datatype Location = Address(text: string) | Structured(parts: map<string, string>)

  /** A testimonial: a quote or a small mapping such as author and text. */
  datatype Testimonial = Quote(text: string) | Attributed(parts: map<string, string>)

  /** A provenance entry: a list of URLs, or for social handles a list per platform. */
  datatype Source = Urls(urls: seq<string>) | PerPlatform(platforms: map<string, seq<string>>)

  /** A value a lead field holds, or a keyword argument passes (`Null` is Python's None). */
  datatype FieldValue =
    | Null
    | Text(text: string)
    | Texts(texts: seq<string>)
    | Handles(handles: map<string, string>)
    | Place(place: Location)
    | Quotes(quotes: seq<Testimonial>)
    | Score(score: real)
    | Sources(sources: map<string, Source>)

  /** The field names of a lead, in declaration order. */
  const FieldNames: seq<string> := [
    "name", "business_name", "profile_link", "email", "phone", "social_handles",
    "services_offered", "style_vibe_descriptors", "location", "team_member_names",
    "portfolio_links", "booking_contact_links", "testimonials_social_proof",
    "values_mission_statement", "raw_page_text", "confidence", "flags", "source_urls"]

  /** The fields typed `Optional[str]`. */
  const TextFields: set<string> := {
    "name", "business_name", "profile_link", "email", "phone", "values_mission_statement", "raw_page_text"}

  /** The fields typed `Optional[List[str]]`. */
  const ListFields: set<string> := {
    "services_offered", "style_vibe_descriptors", "team_member_names", "portfolio_links",
    "booking_contact_links", "flags"}

  /** `v` has the type declared for field `k` (and is not None). */
  predicate Fits(k: string, v: FieldValue) {
    match v
    case Null => false
    case Text(_) => k in TextFields
    case Texts(_) => k in ListFields
    case Handles(_) => k == "social_handles"
    case Place(_) => k == "location"
    case Quotes(_) => k == "testimonials_social_proof"
    case Score(_) => k == "confidence"
    case Sources(_) => k == "source_urls"
  }

  lemma FitsField(k: string, v: FieldValue)
    requires Fits(k, v)
    ensures k in FieldNames
  {
  }

  /** The set fields of a lead: every key is a field and every value has its field's type. */
  type LeadData = map<string, FieldValue>

  predicate WellFormed(d: LeadData) {
    forall k :: k in d ==> Fits(k, d[k])
  }

  /** A text field, None when unset. */
  function TextOf(d: LeadData, k: string): Option<string> {
    if k in d && d[k].Text? then Some(d[k].text) else None
  }

  /** A list field, None when unset. */
  function ListOf(d: LeadData, k: string): Option<seq<string>> {
    if k in d && d[k].Texts? then Some(d[k].texts) else None
  }

  /** The social handles, None when unset. */
  function HandlesOf(d: LeadData): Option<map<string, string>> {
    if "social_handles" in d && d["social_handles"].Handles? then Some(d["social_handles"].handles) else None
  }

  /** The provenance map, None when unset. */
  function SourcesOf(d: LeadData): Option<map<string, Source>> {
    if "source_urls" in d && d["source_urls"].Sources? then Some(d["source_urls"].sources) else None
  }

  // ---------------------------------------------------------------------
  // Field validators
  // ---------------------------------------------------------------------

  /** The text after the last `@` of `s` (all of `s` when there is none): `s.split("@")[-1]`. */
  function AfterLastAt(s: string): (r: string)
    ensures |r| <= |s| && r == s[|s| - |r|..]
    ensures '@' !in r
    ensures |r| < |s| ==> s[|s| - |r| - 1] == '@'
  {
    if s == [] then []
    else if s[|s| - 1] == '@' then []
    else AfterLastAt(s[..|s| - 1]) + [s[|s| - 1]]
  }

  /** `_validate_email`: None passes; otherwise there must be an `@` and a `.` after the last one. */
  function ValidateEmail(v: Option<string>): (r: Result<Option<string>, string>)
    ensures r.Ok? ==> r.value == v
    ensures r.Err? ==> v.Some? && r.error == "Invalid email format: " + v.value
  {
    match v
    case None => Ok(None)
    case Some(s) =>
      if '@' !in s || '.' !in AfterLastAt(s) then Err("Invalid email format: " + s)
      else Ok(v)
  }

  /**
   * The email validator accepts exactly the strings with an `@` at some
   * position `i` such that no later `@` follows and a `.` follows it.
   */
  lemma EmailAccepted(s: string)
    ensures ValidateEmail(Some(s)).Ok? <==>
              exists i :: 0 <= i < |s| && s[i] == '@' && '@' !in s[i + 1..] && '.' in s[i + 1..]
  {
    var r := AfterLastAt(s);
    if '@' in s {
      var i := |s| - |r| - 1;
      assert s[i + 1..] == r;
      if '.' in r {
        assert 0 <= i < |s| && s[i] == '@' && '@' !in s[i + 1..] && '.' in s[i + 1..];
      }
      forall j | 0 <= j < |s| && s[j] == '@' && '@' !in s[j + 1..]
        ensures j == i
      {
      }
    }
  }

  predicate IsPhoneChar(c: char) {
    IsDigit(c) || c == '+' || c == '-' || c == ' '
  }

  /** The characters of `s` the phone validator keeps, in order. */
  function KeepPhoneChars(s: string): (r: string)
    ensures |r| <= |s|
    ensures forall i :: 0 <= i < |r| ==> IsPhoneChar(r[i])
    ensures (forall i :: 0 <= i < |s| ==> IsPhoneChar(s[i])) ==> r == s
  {
    if s == [] then []
    else KeepPhoneChars(s[..|s| - 1]) + (if IsPhoneChar(s[|s| - 1]) then [s[|s| - 1]] else [])
  }

  /** `_validate_phone`: None passes; otherwise the kept characters, which must number at least 7. */
  function ValidatePhone(v: Option<string>): (r: Result<Option<string>, string>)
    ensures v.None? ==> r == Ok(None)
    ensures r.Ok? && v.Some? ==> r.value.Some? && |r.value.value| >= 7
                                 && forall i :: 0 <= i < |r.value.value| ==> IsPhoneChar(r.value.value[i])
    ensures r.Err? ==> v.Some? && |KeepPhoneChars(v.value)| < 7 && r.error == "Phone number looks too short: " + v.value
    ensures v.Some? ==> (r.Err? <==> |KeepPhoneChars(v.value)| < 7)
    ensures r.Ok? && v.Some? ==> r.value == Some(KeepPhoneChars(v.value))
  {
    match v
    case None => Ok(None)
    case Some(s) =>
      var cleaned := KeepPhoneChars(s);
      if |cleaned| < 7 then Err("Phone number looks too short: " + s) else Ok(Some(cleaned))
  }

  /** Cleaning is idempotent: a number the validator returned passes it again unchanged. */
  lemma ValidatePhoneIdempotent(v: Option<string>)
    requires ValidatePhone(v).Ok?
    ensures ValidatePhone(ValidatePhone(v).value) == ValidatePhone(v)
  {
  }

  // ---------------------------------------------------------------------
  // Construction from keyword arguments: `Lead(**m)`
  // ---------------------------------------------------------------------

  /**
   * Validation of field `k` of the keyword mapping `m`: a missing or null
   * argument leaves the field None, a value of another type fails, and email
   * and phone go through their validators (the phone is stored cleaned).
   */
  function CheckField(m: map<string, FieldValue>, k: string): (r: Result<Option<FieldValue>, string>)
    ensures r.Err? ==> r.error == k
    ensures r.Ok? && r.value.Some? ==> Fits(k, r.value.value)
  {
    var v := if k in m then m[k] else Null;
    if v.Null? then Ok(None)
    else if !Fits(k, v) then Err(k)
    else if k == "email" then
      if ValidateEmail(Some(v.text)).Ok? then Ok(Some(v)) else Err(k)
    else if k == "phone" then
      var checked := ValidatePhone(Some(v.text));
      if checked.Ok? then Ok(Some(Text(checked.value.value))) else Err(k)
    else Ok(Some(v))
  }

  /** The names, in order, of the fields of `names` that fail validation. */
  function Errors(m: map<string, FieldValue>, names: seq<string>): seq<string> {
    if names == [] then []
    else
      var k := names[|names| - 1];
      Errors(m, names[..|names| - 1]) + (if CheckField(m, k).Err? then [k] else [])
  }

  /**
   * `Lead(**m)`: the validated value of every field the mapping sets;
   * unknown keys are ignored; a failed field yields the names of all failed
   * fields in declaration order.
   */
  function Parse(m: map<string, FieldValue>): Result<LeadData, seq<string>> {
    var errors := Errors(m, FieldNames);
    if errors != [] then Err(errors) else Ok(Built(m))
  }

  /** The fields that validated to a value. */
  function Built(m: map<string, FieldValue>): LeadData {
    map k | k in FieldNames && CheckField(m, k).Ok? && CheckField(m, k).value.Some? :: CheckField(m, k).value.value
  }

  /** Exactly the fields of `names` that fail validation are reported. */
  lemma {:induction false} ErrorsExact(m: map<string, FieldValue>, names: seq<string>)
    ensures forall x :: x in Errors(m, names) <==> x in names && CheckField(m, x).Err?
    ensures Errors(m, names) == [] <==> forall x :: x in names ==> CheckField(m, x).Ok?
  {
    if names != [] {
      var init := names[..|names| - 1];
      ErrorsExact(m, init);
      assert names == init + [names[|names| - 1]];
    }
  }

  /** Construction fails exactly when some field fails, and then names each failed field. */
  lemma ParseFails(m: map<string, FieldValue>)
    ensures Parse(m).Err? <==> exists k :: k in FieldNames && CheckField(m, k).Err?
    ensures Parse(m).Err? ==> forall x :: x in Parse(m).error <==> x in FieldNames && CheckField(m, x).Err?
  {
    ErrorsExact(m, FieldNames);
    if exists k :: k in FieldNames && CheckField(m, k).Err? {
      var k :| k in FieldNames && CheckField(m, k).Err?;
      assert k in Errors(m, FieldNames);
    }
    if Parse(m).Err? {
      assert Errors(m, FieldNames)[0] in Errors(m, FieldNames);
    }
  }

  /**
   * A constructed lead is well formed and sets exactly the fields the mapping
   * passes a non-null value for; every such value is kept, except that the
   * phone is stored cleaned.
   */
  lemma ParseSets(m: map<string, FieldValue>)
    requires Parse(m).Ok?
    ensures WellFormed(Parse(m).value)
    ensures forall k :: k in Parse(m).value <==> k in FieldNames && k in m && m[k] != Null
    ensures forall k :: k in Parse(m).value && k != "phone" ==> Parse(m).value[k] == m[k]
    ensures "phone" in Parse(m).value ==>
              "phone" in m && m["phone"].Text? && Parse(m).value["phone"] == Text(KeepPhoneChars(m["phone"].text))
  {
    ParseFails(m);
    assert Parse(m).value == Built(m);
    forall k | k in FieldNames ensures CheckField(m, k).Ok? {
    }
    forall k | k in FieldNames ensures CheckField(m, k).Ok? ==> CheckedValue(m, k) {
      CheckFieldValue(m, k);
    }
  }

  /** What a field that passed validation holds: the value passed, the phone cleaned. */
  predicate CheckedValue(m: map<string, FieldValue>, k: string)
    requires CheckField(m, k).Ok?
  {
    && (CheckField(m, k).value.Some? <==> k in m && m[k] != Null)
    && (CheckField(m, k).value.Some? && k != "phone" ==> CheckField(m, k).value.value == m[k])
    && (CheckField(m, k).value.Some? && k == "phone" ==>
          m[k].Text? && CheckField(m, k).value.value == Text(KeepPhoneChars(m[k].text)))
  }

  lemma CheckFieldValue(m: map<string, FieldValue>, k: string)
    requires CheckField(m, k).Ok?
    ensures CheckedValue(m, k)
  {
  }

  /** Keys that are not lead fields do not influence construction. */
  lemma ParseIgnoresUnknown(m: map<string, FieldValue>, k: string, v: FieldValue)
    requires k !in FieldNames
    ensures Parse(m[k := v]) == Parse(m)
  {
    ParseAgrees(m, m[k := v]);
  }

  /** Two mappings that agree on every lead field build the same lead. */
  lemma ParseAgrees(m: map<string, FieldValue>, m': map<string, FieldValue>)
    requires forall f :: f in FieldNames ==> (f in m <==> f in m')
    requires forall f :: f in FieldNames && f in m ==> m[f] == m'[f]
    ensures Parse(m') == Parse(m)
  {
    forall f | f in FieldNames ensures CheckField(m', f) == CheckField(m, f) {
    }
    ErrorsSame(m, m', FieldNames);
    assert Built(m') == Built(m);
  }

  lemma {:induction false} ErrorsSame(m: map<string, FieldValue>, m': map<string, FieldValue>, names: seq<string>)
    requires forall f :: f in names ==> CheckField(m', f) == CheckField(m, f)
    ensures Errors(m', names) == Errors(m, names)
  {
    if names != [] {
      ErrorsSame(m, m', names[..|names| - 1]);
    }
  }

  /** A lead whose email passes its validator and whose phone is already clean. */
  predicate Validated(d: LeadData) {
    && ("email" in d && d["email"].Text? ==> ValidateEmail(Some(d["email"].text)).Ok?)
    && ("phone" in d && d["phone"].Text? ==> ValidatePhone(Some(d["phone"].text)) == Ok(Some(d["phone"].text)))
  }

  /** Every field of a validated lead passes validation unchanged. */
  lemma CheckFieldValidated(d: LeadData, k: string)
    requires WellFormed(d) && Validated(d)
    ensures CheckField(d, k) == (if k in d then Ok(Some(d[k])) else Ok(None))
  {
    if k in d && k == "phone" {
      assert ValidatePhone(Some(d[k].text)) == Ok(Some(d[k].text));
    }
  }

  /** Constructing a lead from its own `to_dict` gives the same lead back. */
  lemma ParseRoundTrip(d: LeadData)
    requires WellFormed(d) && Validated(d)
    ensures Parse(d) == Ok(d)
  {
    forall k | k in FieldNames ensures CheckField(d, k).Ok? {
      CheckFieldValidated(d, k);
    }
    ErrorsExact(d, FieldNames);
    forall k | k in d ensures k in FieldNames {
      FitsField(k, d[k]);
    }
    forall k | k in FieldNames || k in d ensures (k in Built(d) <==> k in d) && (k in d ==> Built(d)[k] == d[k]) {
      CheckFieldValidated(d, k);
    }
    assert Built(d) == d;
  }

  // ---------------------------------------------------------------------
  // Pure parts of the setters
  // ---------------------------------------------------------------------

  /** `_ensure_source_dict()[key] = [url]`: the provenance map with `key` set to exactly `[url]`. */
  function Stamp(src: Option<map<string, Source>>, key: string, url: string): (r: map<string, Source>)
    ensures key in r && r[key] == Urls([url])
    ensures forall k :: k != key ==> (k in r <==> src.Some? && k in src.value)
    ensures forall k :: k != key && k in r ==> r[k] == src.value[k]
  {
    src.GetOr(map[])[key := Urls([url])]
  }

  /** Setting a field twice from the same URL leaves a single provenance entry. */
  lemma StampTwice(src: Option<map<string, Source>>, key: string, url: string)
    ensures Stamp(Some(Stamp(src, key, url)), key, url) == Stamp(src, key, url)
  {
  }

  /** The per-platform provenance after `url` is appended for each platform of `platforms`. */
  function AppendPlatforms(per: map<string, seq<string>>, platforms: set<string>, url: string): (r: map<string, seq<string>>)
    ensures r.Keys == per.Keys + platforms
  {
    map p | p in per.Keys + platforms :: if p in platforms then (if p in per then per[p] else []) + [url] else per[p]
  }

  /**
   * The loop of `set_social_handles`: for each platform, in turn, the
   * platform's URL list (created empty when missing) gains `url`.
   */
  method AppendEach(per: map<string, seq<string>>, platforms: set<string>, url: string) returns (r: map<string, seq<string>>)
    ensures r == AppendPlatforms(per, platforms, url)
  {
    r := per;
    var remaining := platforms;
    while remaining != {}
      invariant remaining <= platforms
      invariant r == AppendPlatforms(per, platforms - remaining, url)
      decreases remaining
    {
      var platform :| platform in remaining;
      AppendPlatformsStep(per, platforms - remaining, platform, url);
      assert platforms - (remaining - {platform}) == (platforms - remaining) + {platform};
      var urls := if platform in r then r[platform] else [];
      r := r[platform := urls + [url]];
      remaining := remaining - {platform};
    }
    assert platforms - remaining == platforms;
  }

  /** Appending for one more platform extends the map by that platform's entry. */
  lemma AppendPlatformsStep(per: map<string, seq<string>>, done: set<string>, p: string, url: string)
    requires p !in done
    ensures AppendPlatforms(per, done + {p}, url)
         == AppendPlatforms(per, done, url)[p := (if p in per then per[p] else []) + [url]]
  {
  }

  /** Earlier URLs of every platform are kept, and each handled platform gains exactly `url`. */
  lemma AppendPlatformsKeeps(per: map<string, seq<string>>, platforms: set<string>, url: string, p: string)
    requires p in per
    ensures var r := AppendPlatforms(per, platforms, url);
            p in r && r[p][..|per[p]|] == per[p]
            && (p in platforms ==> r[p] == per[p] + [url])
            && (p !in platforms ==> r[p] == per[p])
  {
  }

  /** `add_flag` on the flag list: append `flag` only when it is absent. */
  function WithFlag(flags: seq<string>, flag: string): (r: seq<string>)
    ensures flag in r
    ensures forall f :: f in r <==> f in flags || f == flag
    ensures |flags| <= |r| <= |flags| + 1 && r[..|flags|] == flags
  {
    if flag in flags then flags else flags + [flag]
  }

  /** Adding a flag twice is the same as adding it once. */
  lemma WithFlagIdempotent(flags: seq<string>, flag: string)
    ensures WithFlag(WithFlag(flags, flag), flag) == WithFlag(flags, flag)
  {
  }

  /** Flags never repeat. */
  lemma WithFlagDistinct(flags: seq<string>, flag: string)
    requires forall i, j :: 0 <= i < j < |flags| ==> flags[i] != flags[j]
    ensures var r := WithFlag(flags, flag);
            forall i, j :: 0 <= i < j < |r| ==> r[i] != r[j]
  {
  }

  /** A social handle counts as a channel only when some handle is non-empty. */
  predicate HasHandle(d: LeadData) {
    HandlesOf(d).Some? && exists p :: p in HandlesOf(d).value && HandlesOf(d).value[p] != []
  }

  /** Truthiness of an optional string. */
  predicate Truthy(o: Option<string>) {
    o.Some? && o.value != []
  }

  /** `is_three_source_valid`: the channel count as the source computes it. */
  function ChannelCount(d: LeadData): int {
    var handlesTruthy := HandlesOf(d).Some? && HandlesOf(d).value != map[];
    var channels := (if Truthy(TextOf(d, "email")) then 1 else 0) + (if Truthy(TextOf(d, "phone")) then 1 else 0)
                    + (if handlesTruthy then 1 else 0);
    if handlesTruthy then channels - 1 + (if HasHandle(d) then 1 else 0) else channels
  }

  predicate ThreeSourceValid(d: LeadData) {
    ChannelCount(d) >= 2
  }

  /** At least two of: a non-empty email, a non-empty phone, some non-empty social handle. */
  lemma ThreeSourceValidIff(d: LeadData)
    ensures ThreeSourceValid(d) <==>
              (Truthy(TextOf(d, "email")) && Truthy(TextOf(d, "phone")))
              || (Truthy(TextOf(d, "email")) && HasHandle(d))
              || (Truthy(TextOf(d, "phone")) && HasHandle(d))
  {
    if HandlesOf(d).Some? && HandlesOf(d).value == map[] {
      assert !HasHandle(d);
    }
  }

  /** The per-platform provenance recorded so far (empty when there is none). */
  function PerPlatformOf(src: map<string, Source>): map<string, seq<string>> {
    if "socialHandles" in src && src["socialHandles"].PerPlatform? then src["socialHandles"].platforms else map[]
  }

  /**
   * `set_social_handles` fails when the `socialHandles` provenance entry
   * holds a plain URL list (possible only for a lead constructed with such a
   * `source_urls`) and there is a platform to record: the first append
   * raises.
   */
  predicate HandlesFail(d: LeadData, handles: map<string, string>) {
    var src := SourcesOf(d).GetOr(map[]);
    "socialHandles" in src && src["socialHandles"].Urls? && handles != map[]
  }

  /**
   * The lead after `set_social_handles`: the handles are stored and the
   * provenance map exists. A `socialHandles` entry holding a plain URL list
   * is left as it is (`setdefault` keeps it, and the loop either does not
   * run or raises on its first append); otherwise the entry becomes a
   * per-platform map in which every handled platform's URL list gains `url`.
   */
  function WithHandles(d: LeadData, handles: map<string, string>, url: string): LeadData {
    var src := SourcesOf(d).GetOr(map[]);
    var stored := d["social_handles" := Handles(handles)];
    if "socialHandles" in src && src["socialHandles"].Urls? then stored["source_urls" := Sources(src)]
    else stored["source_urls" := Sources(src["socialHandles" := PerPlatform(AppendPlatforms(PerPlatformOf(src), handles.Keys, url))])]
  }

  /**
   * Setting social handles keeps every earlier provenance entry other than
   * `socialHandles`, keeps each platform's earlier URLs and appends `url`
   * exactly for the handled platforms; no other field changes.
   */
  lemma WithHandlesKeeps(d: LeadData, handles: map<string, string>, url: string)
    requires WellFormed(d) && !HandlesFail(d, handles)
    ensures var r := WithHandles(d, handles, url);
            var src := SourcesOf(d).GetOr(map[]);
            var per := PerPlatformOf(SourcesOf(r).value);
            && WellFormed(r)
            && HandlesOf(r) == Some(handles)
            && (forall f :: f != "social_handles" && f != "source_urls" ==> (f in r <==> f in d) && (f in d ==> r[f] == d[f]))
            && (forall key :: key in src && key != "socialHandles" ==> key in SourcesOf(r).value && SourcesOf(r).value[key] == src[key])
            && per.Keys == PerPlatformOf(src).Keys + handles.Keys
            && (forall p :: p in handles ==> per[p] == (if p in PerPlatformOf(src) then PerPlatformOf(src)[p] else []) + [url])
            && (forall p :: p in PerPlatformOf(src) && p !in handles ==> per[p] == PerPlatformOf(src)[p])
  {
  }

  /** The fields a list setter may write. */
  datatype ListField = ServicesOffered | StyleVibeDescriptors | TeamMemberNames | PortfolioLinks | BookingContactLinks

  function AttrName(f: ListField): (r: string)
    ensures r in ListFields
  {
    match f
    case ServicesOffered => "services_offered"
    case StyleVibeDescriptors => "style_vibe_descriptors"
    case TeamMemberNames => "team_member_names"
    case PortfolioLinks => "portfolio_links"
    case BookingContactLinks => "booking_contact_links"
  }

  /** `src_key or attr_name`: an absent or empty key falls back to the attribute name. */
  function ProvenanceKey(f: ListField, srcKey: Option<string>): (r: string)
    ensures srcKey.Some? && srcKey.value != [] ==> r == srcKey.value
    ensures !(srcKey.Some? && srcKey.value != []) ==> r == AttrName(f)
  {
    if srcKey.Some? && srcKey.value != [] then srcKey.value else AttrName(f)
  }

  /** The lead after a setter stored `v` in field `k` and recorded `[url]` under provenance `key`. */
  function Assigned(d: LeadData, k: string, v: FieldValue, key: string, url: string): (r: LeadData)
    requires WellFormed(d) && Fits(k, v) && k != "source_urls"
    ensures WellFormed(r)
    ensures k in r && r[k] == v
    ensures SourcesOf(r) == Some(Stamp(SourcesOf(d), key, url))
    ensures forall f :: f != k && f != "source_urls" ==> (f in r <==> f in d) && (f in d ==> r[f] == d[f])
  {
    d[k := v]["source_urls" := Sources(Stamp(SourcesOf(d), key, url))]
  }

  /** The mutable lead: `values` holds the fields that are not None. */
  class Lead {
    var values: LeadData

    ghost predicate Valid()
      reads this
    {
      WellFormed(values)
    }

    /** `Lead()`: every field None. */
    constructor ()
      ensures Valid() && values == map[]
    {
      values := map[];
    }

    /** `Lead(**m)`: the validated lead, or the names of the fields that failed. */
    static method Create(m: map<string, FieldValue>) returns (r: Result<Lead, seq<string>>)
      ensures r.Ok? <==> Parse(m).Ok?
      ensures r.Ok? ==> fresh(r.value) && r.value.Valid() && r.value.values == Parse(m).value
      ensures r.Err? ==> r.error == Parse(m).error
    {
      var p := Parse(m);
      if p.Err? {
        return Err(p.error);
      }
      ParseSets(m);
      var lead := new Lead();
      lead.values := p.value;
      return Ok(lead);
    }

    /** `_ensure_source_dict`: creates the provenance map when it is None and returns it. */
    method EnsureSourceDict() returns (src: map<string, Source>)
      requires Valid()
      modifies this
      ensures Valid()
      ensures src == SourcesOf(old(values)).GetOr(map[])
      ensures values == old(values)["source_urls" := Sources(src)]
    {
      if SourcesOf(values).None? {
        values := values["source_urls" := Sources(map[])];
      }
      src := SourcesOf(values).value;
      assert values == old(values)["source_urls" := Sources(src)];
    }

    /** Stores `v` in field `k` and records `[url]` as the provenance under `key`. */
    method Store(k: string, v: FieldValue, key: string, url: string)
      requires Valid() && Fits(k, v) && k != "source_urls"
      modifies this
      ensures Valid()
      ensures values == Assigned(old(values), k, v, key, url)
    {
      values := values[k := v];
      var src := EnsureSourceDict();
      values := values["source_urls" := Sources(src[key := Urls([url])])];
    }

    method SetName(name: string, sourceUrl: string)
      requires Valid()
      modifies this
      ensures Valid() && values == Assigned(old(values), "name", Text(name), "name", sourceUrl)
    {
      Store("name", Text(name), "name", sourceUrl);
    }

    method SetBusinessName(businessName: string, sourceUrl: string)
      requires Valid()
      modifies this
      ensures Valid() && values == Assigned(old(values), "business_name", Text(businessName), "businessName", sourceUrl)
    {
      Store("business_name", Text(businessName), "businessName", sourceUrl);
    }

    /** The profile link is its own provenance. */
    method SetProfileLink(url: string)
      requires Valid()
      modifies this
      ensures Valid() && values == Assigned(old(values), "profile_link", Text(url), "profileLink", url)
    {
      Store("profile_link", Text(url), "profileLink", url);
    }

    method SetEmail(email: string, sourceUrl: string)
      requires Valid()
      modifies this
      ensures Valid() && values == Assigned(old(values), "email", Text(email), "email", sourceUrl)
    {
      Store("email", Text(email), "email", sourceUrl);
    }

    method SetPhone(phone: string, sourceUrl: string)
      requires Valid()
      modifies this
      ensures Valid() && values == Assigned(old(values), "phone", Text(phone), "phone", sourceUrl)
    {
      Store("phone", Text(phone), "phone", sourceUrl);
    }

    /**
     * `set_social_handles`: stores the handles and appends `sourceUrl` to the
     * provenance of every platform in them; fails as `WithHandles` describes.
     */
    method SetSocialHandles(handles: map<string, string>, sourceUrl: string) returns (r: Result<(), string>)
      requires Valid()
      modifies this
      ensures Valid()
      ensures r.Err? <==> HandlesFail(old(values), handles)
      ensures values == WithHandles(old(values), handles, sourceUrl)
    {
      var stored := values["social_handles" := Handles(handles)];
      values := stored;
      var src := EnsureSourceDict();
      // `setdefault("socialHandles", {})`
      var entry := if "socialHandles" in src then src["socialHandles"] else PerPlatform(map[]);
      if entry.Urls? {
        if handles != map[] {
          return Err("'list' object has no attribute 'setdefault'");
        }
        return Ok(());
      }
      var per := AppendEach(entry.platforms, handles.Keys, sourceUrl);
      values := stored["source_urls" := Sources(src["socialHandles" := PerPlatform(per)])];
      return Ok(());
    }

    /** `_list_setter`: stores the list and records `[sourceUrl]` under `src_key or attr_name`. */
    method ListSetter(field: ListField, items: seq<string>, sourceUrl: string, srcKey: Option<string>)
      requires Valid()
      modifies this
      ensures Valid()
      ensures values == Assigned(old(values), AttrName(field), Texts(items), ProvenanceKey(field, srcKey), sourceUrl)
    {
      var key := if srcKey.Some? && srcKey.value != [] then srcKey.value else AttrName(field);
      Store(AttrName(field), Texts(items), key, sourceUrl);
    }

    method SetServicesOffered(services: seq<string>, sourceUrl: string)
      requires Valid()
      modifies this
      ensures Valid() && values == Assigned(old(values), "services_offered", Texts(services), "servicesOffered", sourceUrl)
    {
      ListSetter(ServicesOffered, services, sourceUrl, Some("servicesOffered"));
    }

    method SetStyleVibeDescriptors(descriptors: seq<string>, sourceUrl: string)
      requires Valid()
      modifies this
      ensures Valid() && values == Assigned(old(values), "style_vibe_descriptors", Texts(descriptors), "styleVibeDescriptors", sourceUrl)
    {
      ListSetter(StyleVibeDescriptors, descriptors, sourceUrl, Some("styleVibeDescriptors"));
    }

    method SetLocation(location: Location, sourceUrl: string)
      requires Valid()
      modifies this
      ensures Valid() && values == Assigned(old(values), "location", Place(location), "location", sourceUrl)
    {
      Store("location", Place(location), "location", sourceUrl);
    }

    method SetTeamMemberNames(names: seq<string>, sourceUrl: string)
      requires Valid()
      modifies this
      ensures Valid() && values == Assigned(old(values), "team_member_names", Texts(names), "teamMemberNames", sourceUrl)
    {
      ListSetter(TeamMemberNames, names, sourceUrl, Some("teamMemberNames"));
    }

    method SetPortfolioLinks(links: seq<string>, sourceUrl: string)
      requires Valid()
      modifies this
      ensures Valid() && values == Assigned(old(values), "portfolio_links", Texts(links), "portfolioLinks", sourceUrl)
    {
      ListSetter(PortfolioLinks, links, sourceUrl, Some("portfolioLinks"));
    }

    method SetBookingContactLinks(links: seq<string>, sourceUrl: string)
      requires Valid()
      modifies this
      ensures Valid() && values == Assigned(old(values), "booking_contact_links", Texts(links), "bookingContactLinks", sourceUrl)
    {
      ListSetter(BookingContactLinks, links, sourceUrl, Some("bookingContactLinks"));
    }

    method SetTestimonialsSocialProof(testimonials: seq<Testimonial>, sourceUrl: string)
      requires Valid()
      modifies this
      ensures Valid() && values == Assigned(old(values), "testimonials_social_proof", Quotes(testimonials), "testimonialsSocialProof", sourceUrl)
    {
      Store("testimonials_social_proof", Quotes(testimonials), "testimonialsSocialProof", sourceUrl);
    }

    method SetValuesMissionStatement(statement: string, sourceUrl: string)
      requires Valid()
      modifies this
      ensures Valid() && values == Assigned(old(values), "values_mission_statement", Text(statement), "valuesMissionStatement", sourceUrl)
    {
      Store("values_mission_statement", Text(statement), "valuesMissionStatement", sourceUrl);
    }

    method SetRawPageText(text: string, sourceUrl: string)
      requires Valid()
      modifies this
      ensures Valid() && values == Assigned(old(values), "raw_page_text", Text(text), "rawPageText", sourceUrl)
    {
      Store("raw_page_text", Text(text), "rawPageText", sourceUrl);
    }

    /** The confidence score carries no provenance. */
    method SetConfidence(confidence: real)
      requires Valid()
      modifies this
      ensures Valid() && values == old(values)["confidence" := Score(confidence)]
    {
      values := values["confidence" := Score(confidence)];
    }

    /** `add_flag`: creates the list when None and appends the flag only when absent. */
    method AddFlag(flag: string)
      requires Valid()
      modifies this
      ensures Valid() && values == old(values)["flags" := Texts(WithFlag(ListOf(old(values), "flags").GetOr([]), flag))]
    {
      if ListOf(values, "flags").None? {
        values := values["flags" := Texts([])];
      }
      var flags := ListOf(values, "flags").value;
      if flag !in flags {
        values := values["flags" := Texts(flags + [flag])];
      }
    }

    /** `to_dict`: the fields that are not None, under their field names. */
    function ToDict(): (r: map<string, FieldValue>)
      requires Valid()
      reads this
      ensures forall k :: k in r ==> k in FieldNames && r[k] != Null
    {
      forall k | k in values ensures k in FieldNames {
        FitsField(k, values[k]);
      }
      values
    }

    predicate IsThreeSourceValid()
      reads this
    {
      ThreeSourceValid(values)
    }
  }
}

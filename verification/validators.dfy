/**
 * Validation of the structured data scraped from a page: JSON-LD blocks,
 * OpenGraph and Twitter-card tags, and the page's meta data, which must
 * always carry a `language` entry.
 */
module Validators {
  import opened Wrappers
  import opened JsonValues

  /** `dict.get(key)` viewed through truthiness: a missing key is None. */
  predicate TruthyAt(fields: map<string, Json>, key: string) {
    key in fields && Truthy(fields[key])
  }

  /**
   * `JsonLdData.check_required_fields`: a mapping must carry a truthy
   * `@context` and a truthy `@type`; any other value passes unchanged.
   */
  function CheckRequiredFields(v: Json): (r: Result<Json, string>)
    ensures r.Ok? ==> r.value == v
    ensures r.Err? <==> v.JObj? && !(TruthyAt(v.fields, "@context") && TruthyAt(v.fields, "@type"))
    ensures r.Err? ==> r.error == "JSON-LD must contain @context and @type"
  {
    if v.JObj? && (!TruthyAt(v.fields, "@context") || !TruthyAt(v.fields, "@type")) then
      Err("JSON-LD must contain @context and @type")
    else Ok(v)
  }

  /** Meta data: tag name to content, where `language` may be None. */
  type MetaData = map<string, Option<string>>

  /**
   * `ensure_metadata_fields`: None becomes an empty mapping, and `language`
   * is added, as None, only when it is absent.
   */
  function EnsureMetadataFields(v: Option<MetaData>): (r: MetaData)
    ensures r.Keys == v.GetOr(map[]).Keys + {"language"}
    ensures forall k :: k in v.GetOr(map[]) ==> r[k] == v.GetOr(map[])[k]
    ensures "language" !in v.GetOr(map[]) ==> r["language"] == None
  {
    var m := v.GetOr(map[]);
    if "language" !in m then m["language" := None] else m
  }

  /** Ensuring the fields twice is ensuring them once. */
  lemma EnsureMetadataIdempotent(v: Option<MetaData>)
    ensures EnsureMetadataFields(Some(EnsureMetadataFields(v))) == EnsureMetadataFields(v)
  {
  }

  /** The validated structured data of a page. */
  datatype StructuredData = StructuredData(
    jsonLd: Option<seq<map<string, Json>>>,
    openGraph: Option<map<string, string>>,
    twitterCard: Option<map<string, string>>,
    metaData: MetaData)

  const DefaultMetaData: MetaData := map["language" := None]

  /** The type error pydantic reports for a `metaData` value that is not a string. */
  const NotAStringMessage := "Input should be a valid string"

  /** A `metaData` argument that fails the `Optional[Dict[str, str]]` type check: some value is None. */
  predicate HasNullValue(m: MetaData) {
    exists k :: k in m && m[k].None?
  }

  /**
   * `StructuredDataValidator(**kwargs)` with only `metaData` given or not:
   * the defaults are an empty JSON-LD list, empty OpenGraph and Twitter-card
   * mappings and meta data holding just `language: None` (a default is not
   * validated). A `metaData` argument is first checked against
   * `Optional[Dict[str, str]]`, so a null value is refused; a None argument or
   * a mapping of strings then goes through `ensure_metadata_fields`.
   */
  function NewStructuredData(metaData: Option<Option<MetaData>>): (r: Result<StructuredData, string>)
    ensures r.Err? <==> metaData.Some? && metaData.value.Some? && HasNullValue(metaData.value.value)
    ensures r.Err? ==> r.error == NotAStringMessage
    ensures r.Ok? ==> r.value.jsonLd == Some([]) && r.value.openGraph == Some(map[]) && r.value.twitterCard == Some(map[])
    ensures metaData.None? ==> r == Ok(StructuredData(Some([]), Some(map[]), Some(map[]), map["language" := None]))
    ensures metaData.Some? && r.Ok? ==> r.value.metaData == EnsureMetadataFields(metaData.value)
  {
    if metaData.Some? && metaData.value.Some? && HasNullValue(metaData.value.value) then Err(NotAStringMessage)
    else
      Ok(StructuredData(Some([]), Some(map[]), Some(map[]),
        if metaData.None? then DefaultMetaData else EnsureMetadataFields(metaData.value)))
  }

  /**
   * Whatever is accepted, the meta data of the result has a `language`
   * entry; the default is exactly what validating None gives; and the
   * validator's own output, once `language` is added as None, would itself
   * be refused if passed in again.
   */
  lemma StructuredDataHasLanguage(metaData: Option<Option<MetaData>>)
    ensures NewStructuredData(metaData).Ok? ==> "language" in NewStructuredData(metaData).value.metaData
    ensures NewStructuredData(None).value.metaData == EnsureMetadataFields(None)
    ensures NewStructuredData(Some(None)).Ok?
    ensures NewStructuredData(Some(Some(EnsureMetadataFields(None)))).Err?
  {
    assert EnsureMetadataFields(None)["language"].None?;
  }
}

/**
 * `lead_from_mapping`: builds a lead from any mapping by keeping only the
 * keys that are lead fields, so stray scraper keys never reach validation.
 */
module LeadFactory {
  import opened Wrappers
  import opened Leads

  /** `{k: v for k, v in data.items() if k in allowed_keys}` */
  function FilterLeadFields(data: map<string, FieldValue>): (r: map<string, FieldValue>)
    ensures forall k :: k in r <==> k in data && k in FieldNames
    ensures forall k :: k in r ==> r[k] == data[k]
  {
    map k | k in data && k in FieldNames :: data[k]
  }

  /** `lead_from_mapping(data)`: `Lead(**filtered)`. */
  function LeadFromMapping(data: map<string, FieldValue>): Result<LeadData, seq<string>> {
    Parse(FilterLeadFields(data))
  }

  /**
   * Filtering changes nothing that construction looks at: the lead built from
   * the filtered mapping is the one `Lead(**data)` builds (which ignores
   * unknown keys), so an unknown key such as `extra` is dropped without error.
   */
  lemma LeadFromMappingIgnoresExtra(data: map<string, FieldValue>)
    ensures LeadFromMapping(data) == Parse(data)
  {
    ParseAgrees(data, FilterLeadFields(data));
  }

  /**
   * The built lead holds only lead fields; every lead field the mapping
   * passes a non-null value for is set to that value (the phone cleaned), and
   * every lead field it does not pass keeps its None default.
   */
  lemma LeadFromMappingFields(data: map<string, FieldValue>)
    requires LeadFromMapping(data).Ok?
    ensures var d := LeadFromMapping(data).value;
            && (forall k :: k in d ==> k in FieldNames && k in data)
            && (forall k :: k in FieldNames && k !in data ==> k !in d)
            && (forall k :: k in FieldNames && k in data && data[k] != Null ==> k in d)
            && (forall k :: k in d && k != "phone" ==> d[k] == data[k])
            && ("phone" in d ==> data["phone"].Text? && d["phone"] == Text(KeepPhoneChars(data["phone"].text)))
  {
    ParseSets(FilterLeadFields(data));
  }
}

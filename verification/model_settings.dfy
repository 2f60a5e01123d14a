/** The per-model settings: a context length read from the persisted
    settings string through the schema `{ context_length: positive integer }`,
    falling back to 8001 on anything else. */
module ModelSettings {
  import opened Wrappers
  import opened Json

  type PositiveInt = n: int | n > 0 witness 1

  datatype ModelSettings = ModelSettings(context_length: PositiveInt)

  const DefaultContextLength: PositiveInt := 8001
  const Default := ModelSettings(DefaultContextLength)

  /** The schema's check of `context_length`: a number that is an integer
      and greater than zero. Strings, booleans and `null` are rejected even
      when they look numeric. */
  predicate ValidContextLength(v: Json) {
    v.JNumber? && IsInteger(v.n) && v.n > 0.0
  }

  /** The schema's check of the whole value: an object (not an array, not
      `null`) whose `context_length` passes. Other keys are ignored. */
  predicate Conforms(j: Json) {
    j.JObject? && "context_length" in j.fields && ValidContextLength(j.fields["context_length"])
  }

  /** The context length that a value accepted by the schema carries. */
  function AcceptedLength(j: Json): (n: PositiveInt)
    requires Conforms(j)
    ensures n as real == j.fields["context_length"].n
  {
    j.fields["context_length"].n.Floor
  }

  /** Schema validation of a `JSON.parse` result (`None` when parsing threw).
      Never fails: a conforming value yields exactly its context length and
      everything else the default. */
  function ModelSettingsOf(parsed: Option<Json>): (r: ModelSettings)
    ensures parsed.Some? && Conforms(parsed.value) ==>
              r.context_length as real == parsed.value.fields["context_length"].n
    ensures !(parsed.Some? && Conforms(parsed.value)) ==> r == Default
  {
    if parsed.Some? && Conforms(parsed.value) then
      ModelSettings(AcceptedLength(parsed.value))
    else
      Default
  }

  /** `parse_model_settings`: `JSON.parse`, then the schema, with every
      failure of either replaced by the default. */
  function ParseModelSettings(settings: string, jsonParse: string -> Option<Json>): (r: ModelSettings)
    ensures r.context_length != DefaultContextLength ==>
              jsonParse(settings).Some? && Conforms(jsonParse(settings).value)
    ensures jsonParse(settings).None? ==> r == Default
    ensures jsonParse(settings).Some? && Conforms(jsonParse(settings).value) ==>
              r.context_length as real == jsonParse(settings).value.fields["context_length"].n
  {
    ModelSettingsOf(jsonParse(settings))
  }

  /** What the settings form writes for a typed-in number `n`:
      `JSON.stringify({ context_length: n })`. */
  function SettingsJson(n: int): Json {
    JObject(map["context_length" := JNumber(n as real)])
  }

  /** Writing a context length and reading it back returns it when it is
      positive and the default otherwise. */
  lemma SettingsRoundTrip(n: int)
    ensures n > 0 ==> ModelSettingsOf(Some(SettingsJson(n))) == ModelSettings(n)
    ensures n <= 0 ==> ModelSettingsOf(Some(SettingsJson(n))) == Default
  {
    if n > 0 {
      assert IsInteger(n as real);
    }
  }

  /** Each kind of rejected input yields 8001: unparseable text, every
      value that is not an object (`null`, a boolean, a number, a string, an
      array), a missing key, zero, a negative or fractional number, and a
      number written as a string. */
  lemma FallbackCases(m: map<string, Json>, x: real, s: string, b: bool, items: seq<Json>)
    ensures ModelSettingsOf(None) == Default
    ensures ModelSettingsOf(Some(JNull)) == Default
    ensures ModelSettingsOf(Some(JBool(b))) == Default
    ensures ModelSettingsOf(Some(JNumber(x))) == Default
    ensures ModelSettingsOf(Some(JString(s))) == Default
    ensures ModelSettingsOf(Some(JArray(items))) == Default
    ensures "context_length" !in m ==> ModelSettingsOf(Some(JObject(m))) == Default
    ensures ModelSettingsOf(Some(JObject(m["context_length" := JNumber(0.0)]))) == Default
    ensures x < 0.0 ==> ModelSettingsOf(Some(JObject(m["context_length" := JNumber(x)]))) == Default
    ensures !IsInteger(x) ==> ModelSettingsOf(Some(JObject(m["context_length" := JNumber(x)]))) == Default
    ensures ModelSettingsOf(Some(JObject(m["context_length" := JString(s)]))) == Default
  {
  }

  /** The empty settings string, which the form substitutes for missing
      settings, yields the default under any `JSON.parse` that rejects it. */
  lemma EmptySettingsDefault(jsonParse: string -> Option<Json>)
    requires jsonParse("") == None
    ensures ParseModelSettings("", jsonParse) == Default
  {
  }
}

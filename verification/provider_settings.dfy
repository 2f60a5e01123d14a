/** The provider settings shared by every model: an API key and the proxy's
    base URL, parsed from the persisted settings string with a fallback to
    two empty strings, and the merge the settings form performs when one
    field is edited. */
module ProviderSettings {
  import opened Wrappers
  import opened Json

  const ApiKey := "api_key"
  const ProxyBaseUrl := "proxy_base_url"

  /** A resolved settings object. The parser returns the parsed object as it
      is, so any keys besides the two fields survive in `others`. */
  datatype Settings = Settings(api_key: string, proxy_base_url: string, others: map<string, Json>)

  /** `{ api_key: "", proxy_base_url: "" }` */
  const Empty := Settings("", "", map[])

  /** `others` holds only the keys besides the two fields. */
  predicate WellFormed(s: Settings) {
    ApiKey !in s.others && ProxyBaseUrl !in s.others
  }

  /** The settings as the JavaScript object they are. */
  function ToJson(s: Settings): (j: Json)
    ensures j.JObject? && j.fields.Keys == s.others.Keys + {ApiKey, ProxyBaseUrl}
    ensures j.fields[ApiKey] == JString(s.api_key)
    ensures j.fields[ProxyBaseUrl] == JString(s.proxy_base_url)
    ensures forall k :: k in s.others && k != ApiKey && k != ProxyBaseUrl ==> j.fields[k] == s.others[k]
  {
    JObject(s.others[ApiKey := JString(s.api_key)][ProxyBaseUrl := JString(s.proxy_base_url)])
  }

  /** `typeof value[name] === "string"`, where reading from `null` throws
      (the parser's catch turns that into the fallback as well). */
  predicate StringField(value: Json, name: string) {
    var f := Field(Defined(value), name);
    f.Success? && f.value.Defined? && f.value.value.JString?
  }

  /** Both fields are strings: the only shape the parser keeps. */
  predicate Valid(value: Json) {
    StringField(value, ApiKey) && StringField(value, ProxyBaseUrl)
  }

  /** The settings a parsed value resolves to: the value itself when both
      fields are strings, otherwise two empty strings; a field is never
      salvaged on its own. */
  function SettingsOf(value: Json): (s: Settings)
    ensures WellFormed(s)
    ensures Valid(value) ==> ToJson(s) == value
    ensures !Valid(value) ==> s == Empty
  {
    if Valid(value) then
      var m := value.fields;
      var s := Settings(m[ApiKey].s, m[ProxyBaseUrl].s, m - {ApiKey, ProxyBaseUrl});
      assert ToJson(s).fields == m;
      s
    else
      Empty
  }

  /** `parse_settings`: `null` and text that `JSON.parse` rejects resolve
      to the empty settings; otherwise the parsed value is checked. Never
      fails. */
  function ParseSettings(data: Option<string>, jsonParse: string -> Option<Json>): (s: Settings)
    ensures WellFormed(s)
    ensures data.None? ==> s == Empty
    ensures data.Some? && jsonParse(data.value).None? ==> s == Empty
    ensures s != Empty ==> data.Some? && jsonParse(data.value).Some? && ToJson(s) == jsonParse(data.value).value
    ensures data.Some? && jsonParse(data.value).Some? && Valid(jsonParse(data.value).value) ==>
              ToJson(s) == jsonParse(data.value).value
  {
    match data
    case None => Empty
    case Some(text) =>
      match jsonParse(text)
      case None => Empty
      case Some(value) => SettingsOf(value)
  }

  /** Serialising well-formed settings and resolving them again gives them
      back. */
  lemma SettingsRoundTrip(s: Settings)
    requires WellFormed(s)
    ensures SettingsOf(ToJson(s)) == s
  {
    var m := ToJson(s).fields;
    assert m - {ApiKey, ProxyBaseUrl} == s.others;
  }

  /** A string API key is discarded when the base URL is missing or not a
      string, and vice versa; values that are not objects never resolve. */
  lemma NoSalvage(m: map<string, Json>, v: Json)
    ensures (ProxyBaseUrl !in m || !m[ProxyBaseUrl].JString?) ==> SettingsOf(JObject(m)) == Empty
    ensures (ApiKey !in m || !m[ApiKey].JString?) ==> SettingsOf(JObject(m)) == Empty
    ensures !v.JObject? ==> SettingsOf(v) == Empty
  {
  }

  /** A partial update from the settings form: the edited field(s). */
  datatype Change = Change(api_key: Option<string>, proxy_base_url: Option<string>)

  /** `{ ...parsedSettings, ...newSettings }`: the parsed settings with the
      changed fields overwritten. */
  function Merge(s: Settings, c: Change): (j: Json)
    ensures j.JObject? && j.fields.Keys == s.others.Keys + {ApiKey, ProxyBaseUrl}
    ensures j.fields[ApiKey] == JString(c.api_key.GetOr(s.api_key))
    ensures j.fields[ProxyBaseUrl] == JString(c.proxy_base_url.GetOr(s.proxy_base_url))
    ensures forall k :: k in j.fields && k != ApiKey && k != ProxyBaseUrl ==> k in s.others && j.fields[k] == s.others[k]
  {
    var m := ToJson(s).fields;
    var m1 := if c.api_key.Some? then m[ApiKey := JString(c.api_key.value)] else m;
    var m2 := if c.proxy_base_url.Some? then m1[ProxyBaseUrl := JString(c.proxy_base_url.value)] else m1;
    JObject(m2)
  }

  /** The merged object, once saved and parsed again, is the old settings
      with exactly the changed fields replaced: editing one field leaves the
      other and every extra key as they were. */
  lemma MergeThenParse(s: Settings, c: Change)
    requires WellFormed(s)
    ensures SettingsOf(Merge(s, c)) ==
              s.(api_key := c.api_key.GetOr(s.api_key), proxy_base_url := c.proxy_base_url.GetOr(s.proxy_base_url))
  {
    var s' := s.(api_key := c.api_key.GetOr(s.api_key), proxy_base_url := c.proxy_base_url.GetOr(s.proxy_base_url));
    assert Merge(s, c) == ToJson(s');
    SettingsRoundTrip(s');
  }
}

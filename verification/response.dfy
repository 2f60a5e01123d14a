/** Extraction of the completion from the proxy's JSON response:
    `data.choices[0].text || ""`, evaluated with JavaScript's property
    access, so a response of the wrong shape throws a `TypeError`. */
module Response {
  import opened Wrappers
  import opened Json

  /** The value `complete` resolves with. A missing or falsy `text` gives
      the empty string; a truthy `text` is returned as it is, whatever its
      JSON type. */
  function ExtractText(data: Json): (r: Result<Json, TypeError>)
    ensures r.Success? ==> Truthy(Defined(r.value)) || r.value == JString("")
    ensures data.JObject? && "choices" !in data.fields ==> r.Failure?
  {
    var choices :- Field(Defined(data), "choices");
    var first :- Index0(choices);
    var text :- Field(first, "text");
    Success(if Truthy(text) then text.value else JString(""))
  }

  /** A response whose `choices` array starts with an object never fails:
      the result is that object's `text` when truthy and `""` otherwise. */
  lemma FirstChoiceText(others: map<string, Json>, choice: map<string, Json>, rest: seq<Json>)
    ensures ExtractText(JObject(others["choices" := JArray([JObject(choice)] + rest)])) ==
              Success(if "text" in choice && Truthy(Defined(choice["text"])) then choice["text"] else JString(""))
  {
  }

  /** A string `text` comes back exactly, the empty string included. */
  lemma StringTextReturned(others: map<string, Json>, choice: map<string, Json>, rest: seq<Json>, t: string)
    ensures ExtractText(JObject(others["choices" := JArray([JObject(choice["text" := JString(t)])] + rest)])) ==
              Success(JString(t))
  {
    FirstChoiceText(others, choice["text" := JString(t)], rest);
  }

  /** A response without `choices`, with an empty `choices` array, with a
      `null` first choice, or that is `null` itself throws, and the error
      goes to the classifier. */
  lemma MalformedResponsesThrow(others: map<string, Json>, rest: seq<Json>)
    ensures "choices" !in others ==> ExtractText(JObject(others)).Failure?
    ensures ExtractText(JObject(others["choices" := JArray([])])).Failure?
    ensures ExtractText(JObject(others["choices" := JArray([JNull] + rest)])).Failure?
    ensures ExtractText(JNull).Failure?
  {
  }

  /** The shape the proxy is expected to send: `{ choices: [{ text }, ...] }`. */
  function CompletionResponse(texts: seq<string>): Json {
    JObject(map["choices" := JArray(seq(|texts|, i requires 0 <= i < |texts| => JObject(map["text" := JString(texts[i])])))])
  }

  /** On the expected shape, extraction returns the first choice's text, and
      fails exactly when there is no choice. */
  lemma ExpectedShape(texts: seq<string>)
    ensures texts != [] ==> ExtractText(CompletionResponse(texts)) == Success(JString(texts[0]))
    ensures texts == [] <==> ExtractText(CompletionResponse(texts)).Failure?
  {
    var choices := seq(|texts|, i requires 0 <= i < |texts| => JObject(map["text" := JString(texts[i])]));
    if texts != [] {
      assert choices == [JObject(map["text" := JString(texts[0])])] + choices[1..];
      StringTextReturned(map[], map[], choices[1..], texts[0]);
      assert map["text" := JString(texts[0])] == map[]["text" := JString(texts[0])];
      assert CompletionResponse(texts) == JObject(map[]["choices" := JArray([JObject(map[]["text" := JString(texts[0])])] + choices[1..])]);
    } else {
      assert choices == [];
      MalformedResponsesThrow(map[], []);
      assert CompletionResponse(texts) == JObject(map[]["choices" := JArray([])]);
    }
  }
}

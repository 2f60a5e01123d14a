/** One completion model of the openai-cd2-proxy provider and the call it
    performs: resolve the model settings, build the request (endpoint,
    bearer token, truncated prompt), hand it to the server, extract the
    text, and on any throw run the error classifier. The server, `fetch`
    together with `response.json()`, is a parameter. */
module Adapter {
  import opened Wrappers
  import opened Json
  import opened Text
  import opened ProviderSettings
  import opened ModelSettings
  import opened Endpoint
  import opened Truncation
  import opened Response
  import opened RateLimitNotice
  import opened ApiErrors

  /** An entry of the static model catalog. */
  datatype CatalogEntry = CatalogEntry(id: string, name: string, description: string)

  /** A model instance: its catalog identity, the provider settings resolved
      once at construction, and its own rate-limit notice slots. */
  datatype Adapter = Adapter(id: string, name: string, description: string, provider: Settings, notices: Notices)

  /** The POST request: URL, `Authorization` header, content type, and the
      prompt placed in the JSON body. */
  datatype Request = Request(url: string, authorization: string, contentType: string, prompt: string)

  /** What the server side yields: the parsed response body, or a thrown
      value (a network failure, a body that is not JSON, ...). */
  datatype Reply = Body(data: Json) | Raised(e: Thrown)

  /** How `complete` settles: resolved with a value, or rejected. */
  datatype Outcome = Completed(text: Json) | Failed(raised: Raised)

  datatype Call = Call(request: Request, outcome: Outcome, adapter: Adapter, effects: seq<Effect>)

  const BearerPrefix := "Bearer "
  const JsonContentType := "application/json"

  /** The constructor: provider settings parsed from the settings string,
      both notice slots empty. */
  function NewAdapter(entry: CatalogEntry, providerSettings: string, jsonParse: string -> Option<Json>): (a: Adapter)
    ensures a.id == entry.id && a.name == entry.name && a.description == entry.description
    ensures a.notices == Initial && Consistent(a.notices)
    ensures WellFormed(a.provider)
    ensures jsonParse(providerSettings).None? ==> a.provider == Empty
    ensures a.provider == ParseSettings(Some(providerSettings), jsonParse)
  {
    Adapter(entry.id, entry.name, entry.description, ParseSettings(Some(providerSettings), jsonParse), Initial)
  }

  /** The request for a prefix under resolved model settings: posted to an
      endpoint ending in `/v1/completions`, authorised with the API key, and
      carrying the last `context_length` characters of the prefix. */
  function RequestFor(a: Adapter, prefix: string, ms: ModelSettings): (req: Request)
    ensures req.url == Resolve(a.provider.proxy_base_url) && EndsWith(req.url, EndpointSuffix)
    ensures req.authorization == BearerPrefix + a.provider.api_key && req.contentType == JsonContentType
    ensures EndsWith(prefix, req.prompt) && |req.prompt| == Min(ms.context_length, |prefix|)
  {
    Request(Resolve(a.provider.proxy_base_url), BearerPrefix + a.provider.api_key, JsonContentType,
            Prompt(prefix, ms.context_length))
  }

  /** The catch block: classify, which always throws, so the call is
      rejected with whatever the classifier throws. */
  function Catch(a: Adapter, req: Request, e: Thrown, now: int): (c: Call)
    requires Consistent(a.notices)
    ensures c.outcome.Failed? && c.request == req
    ensures Consistent(c.adapter.notices)
    ensures c.adapter == a.(notices := c.adapter.notices)
  {
    var k := ParseApiError(e, a.notices, now);
    Call(req, Failed(k.raised), a.(notices := k.notices), k.effects)
  }

  /** The `try` block once the request is built: the reply either yields
      text or throws into the catch. A successful call has no side effect; a
      reply of the wrong shape is rejected with its `TypeError`, which has no
      status and so is rethrown as it is; a fresh handled error means the
      thrown value carried status 429 or 401. */
  function Settle(a: Adapter, req: Request, reply: Reply, now: int): (c: Call)
    requires Consistent(a.notices)
    ensures c.request == req
    ensures Consistent(c.adapter.notices)
    ensures c.adapter == a.(notices := c.adapter.notices)
    ensures c.outcome.Completed? ==> c.adapter == a && c.effects == []
    ensures reply.Body? ==>
              match ExtractText(reply.data)
              case Success(t) => c.outcome == Completed(t)
              case Failure(te) => c.outcome == Failed(Rethrown(Thrown(ResponseShape(te), None))) && c.adapter == a
    ensures c.outcome == Failed(Handled) ==>
              reply.Raised? && (HasStatus(reply.e, 429) || HasStatus(reply.e, 401))
  {
    match reply
    case Body(data) =>
      (match ExtractText(data)
       case Success(text) => Call(req, Completed(text), a, [])
       case Failure(te) => Catch(a, req, Thrown(ResponseShape(te), None), now))
    case Raised(e) => Catch(a, req, e, now)
  }

  /** `complete(prompt, settings)` at time `now`: the model settings are
      resolved afresh, the request goes to an endpoint ending in
      `/v1/completions` with the last `context_length` characters of the
      prefix, and the server's reply to that very request is settled: its
      extracted text completes the call, a wrong-shaped body rejects with the
      `TypeError`, and a thrown value rejects as the classifier decides. Only
      the notice slots of the adapter can change, they stay consistent, and a
      completed call changes nothing. */
  function Complete(a: Adapter, prefix: string, settings: string, jsonParse: string -> Option<Json>,
                    server: Request -> Reply, now: int): (c: Call)
    requires Consistent(a.notices)
    ensures c.request.url == Resolve(a.provider.proxy_base_url) && EndsWith(c.request.url, EndpointSuffix)
    ensures c.request.authorization == BearerPrefix + a.provider.api_key && c.request.contentType == JsonContentType
    ensures EndsWith(prefix, c.request.prompt)
    ensures |c.request.prompt| == Min(ParseModelSettings(settings, jsonParse).context_length, |prefix|)
    ensures Consistent(c.adapter.notices)
    ensures c.adapter == a.(notices := c.adapter.notices)
    ensures c.outcome.Completed? ==> c.adapter == a && c.effects == []
    ensures c == Settle(a, c.request, server(c.request), now)
    ensures server(c.request).Body? && ExtractText(server(c.request).data).Success? ==>
              c.outcome == Completed(ExtractText(server(c.request).data).value)
    ensures server(c.request).Body? && ExtractText(server(c.request).data).Failure? ==>
              c.outcome == Failed(Rethrown(Thrown(ResponseShape(ExtractText(server(c.request).data).error), None)))
    ensures server(c.request).Raised? ==>
              c.outcome == Failed(ParseApiError(server(c.request).e, a.notices, now).raised)
              && c.adapter.notices == ParseApiError(server(c.request).e, a.notices, now).notices
  {
    var req := RequestFor(a, prefix, ParseModelSettings(settings, jsonParse));
    Settle(a, req, server(req), now)
  }

  /** A thrown value reaches the caller as the classifier decides: a 429
      runs the debounce and a 401 shows the key notice, both rejecting with a
      fresh message-less error; any other value is rejected as it is, with
      the adapter untouched. */
  lemma SettleErrorPaths(a: Adapter, req: Request, e: Thrown, now: int)
    requires Consistent(a.notices)
    ensures var c := Settle(a, req, Raised(e), now);
            && (HasStatus(e, 429) ==>
                  c.outcome == Failed(Handled) && Step(c.adapter.notices, c.effects) == RateLimited(a.notices, now))
            && (HasStatus(e, 401) ==>
                  c.outcome == Failed(Handled) && c.adapter == a && c.effects == [ShowApiKeyNotice(ApiKeyMessage, ApiKeyDuration)])
            && (!HasStatus(e, 429) && !HasStatus(e, 401) ==>
                  c.outcome == Failed(Rethrown(e)) && c.adapter == a && c.effects == [])
  {
  }

  /** A reply of the expected shape completes with the first choice's text
      and leaves the adapter as it was. */
  lemma SettleExpectedReply(a: Adapter, req: Request, texts: seq<string>, now: int)
    requires Consistent(a.notices) && texts != []
    ensures Settle(a, req, Body(CompletionResponse(texts)), now) == Call(req, Completed(JString(texts[0])), a, [])
  {
    ExpectedShape(texts);
  }

  /** `get_models`: one adapter per catalog entry, in catalog order, all
      with the same provider settings and idle notice slots. */
  method GetModels(catalog: seq<CatalogEntry>, settings: string, jsonParse: string -> Option<Json>)
    returns (models: seq<Adapter>)
    ensures |models| == |catalog|
    ensures forall i :: 0 <= i < |models| ==>
              && models[i].id == catalog[i].id
              && models[i].name == catalog[i].name
              && models[i].description == catalog[i].description
              && models[i].notices == Initial
    ensures forall i, j :: 0 <= i < |models| && 0 <= j < |models| ==> models[i].provider == models[j].provider
    ensures forall i :: 0 <= i < |models| ==> models[i].provider == ParseSettings(Some(settings), jsonParse)
  {
    models := [];
    var k := 0;
    while k < |catalog|
      invariant 0 <= k <= |catalog| && |models| == k
      invariant forall i :: 0 <= i < k ==> models[i] == NewAdapter(catalog[i], settings, jsonParse)
    {
      models := models + [NewAdapter(catalog[k], settings, jsonParse)];
      k := k + 1;
    }
  }
}

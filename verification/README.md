# openai-cd2-proxy completer, modelled in Dafny

This project models the per-call pipeline of the `openai-cd2-proxy`
completion provider of an Obsidian completion plugin: parsing of the
provider settings (API key, proxy base URL) and of the per-model settings
(context length), resolution of the completions endpoint, truncation of
the prompt to the last `context_length` characters, extraction of
`choices[0].text` from the reply, classification of thrown errors, and the
debounced rate-limit notice with its two state slots. Apart from the
network call, everything in the core is pure string and record
manipulation plus one small state machine, and the model keeps it that
way: pure functions over `seq<char>` and an abstract JSON datatype, and an
explicit notice state with a logical clock.

Modules, one per component:

- `Wrappers` (`wrappers.dfy`): `Option` and `Result`.
- `Json` (`json.dfy`): parsed JSON values, `undefined`, and the JavaScript
  semantics the code relies on: property access (with the `TypeError` on
  `null`/`undefined`), `[0]`, truthiness, `Number.isInteger`.
- `Text` (`text.dfy`): `trim` over the ECMAScript whitespace set, and `endsWith`.
- `ProviderSettings` (`provider_settings.dfy`): `parse_settings` and the settings-change merge.
- `ModelSettings` (`model_settings.dfy`): `parse_model_settings` and its zod schema.
- `Endpoint` (`endpoint.dfy`): base-URL normalisation and the `completions` / `v1/completions` rule.
- `Truncation` (`truncation.dfy`): `String.prototype.slice` with a negative start, and the prompt.
- `Response` (`response.dfy`): `data.choices[0].text || ""`.
- `RateLimitNotice` (`rate_limit_notice.dfy`): `create_rate_limit_notice`, its hide timer, and the
  replay of effects over arbitrary event histories.
- `ApiErrors` (`api_errors.dfy`): `parse_api_error`.
- `Adapter` (`adapter.dfy`): the model object, `complete`, and `get_models`.

`JSON.parse` is a parameter `jsonParse: string -> Option<Json>` (`None`
when it throws). `fetch` together with `response.json()` is a parameter
`server: Request -> Reply`, which either yields the parsed body or a thrown
value with an optional `status`. Time is an integer clock in milliseconds
passed to each transition.

Behaviour of the code a reader might not expect:

- The response's HTTP status is never inspected. The 429 and 401 branches
  fire only for a thrown value that carries a `status` property; an HTTP
  error reply goes through `response.json()` and extraction like any other.
- Any falsy `text` (missing, `""`, `0`, `false`, `null`) yields `""`, and a
  truthy `text` is returned as it is even when it is not a string.
- The two notice slots change together in every transition, so "a hide is
  pending exactly when a notice is up" holds at every step, not only
  eventually.
- `parse_model_settings` takes a string (never `null`); `complete` passes
  the settings string to it as received.
- The provider parser returns the parsed object itself, so keys besides
  `api_key` and `proxy_base_url` survive parsing and the merge; the model
  keeps them in `Settings.others`.
- `openai_cd2_proxy.tsx` imports `parse_settings` from `./provider_settings`
  in its own directory; the parser modelled is the one in
  `completers/openai/provider_settings.tsx`.

## Model

| member | source | states |
|---|---|---|
| `ProviderSettings.ParseSettings` | src/complete/completers/openai/provider_settings.tsx:9-23 | Total; `null` and unparseable text give two empty strings; a parsed object with string `api_key` and `proxy_base_url` is returned as it is, and any non-empty result is exactly the parsed object |
| `ProviderSettings.SettingsOf` | src/complete/completers/openai/provider_settings.tsx:13-19 | When both fields are strings the settings are the parsed object unchanged; otherwise both fields are `""` |
| `ProviderSettings.NoSalvage` | src/complete/completers/openai/provider_settings.tsx:15-18 | A missing or non-string field discards the other, valid, field too; a non-object never resolves |
| `ProviderSettings.SettingsRoundTrip` | src/complete/completers/openai/provider_settings.tsx:15-19 | Resolving the object form of well-formed settings gives the same settings back |
| `ProviderSettings.Merge` | src/complete/completers/openai/provider_settings.tsx:35-37 | The merged object has the changed fields' new values, the old values of the rest, and the same keys |
| `ProviderSettings.MergeThenParse` | src/complete/completers/openai/provider_settings.tsx:32-37 | Re-parsing the merged object yields the old settings with exactly the changed fields replaced |
| `ModelSettings.ModelSettingsOf` | src/complete/completers/openai-cd2-proxy/openai_cd2_proxy.tsx:13-25 | Never fails; a value passing the schema yields exactly its positive integer `context_length`, anything else 8001 |
| `ModelSettings.ParseModelSettings` | src/complete/completers/openai-cd2-proxy/openai_cd2_proxy.tsx:17-25 | Unparseable text gives 8001; a parsed value accepted by the schema yields its own `context_length`; a result other than 8001 comes from a conforming parsed object |
| `ModelSettings.SettingsRoundTrip` | src/complete/completers/openai-cd2-proxy/openai_cd2_proxy.tsx:13-25 | The object `{context_length: n}` reads back as `n` when `n > 0` and as 8001 otherwise |
| `ModelSettings.FallbackCases` | src/complete/completers/openai-cd2-proxy/openai_cd2_proxy.tsx:13-25 | Unparseable text, `null`, booleans, numbers, strings and arrays, a missing key, 0, negatives, fractions and numeric strings all give 8001 |
| `ModelSettings.EmptySettingsDefault` | src/complete/completers/openai-cd2-proxy/openai_cd2_proxy.tsx:17-25 | The empty settings string gives 8001 |
| `Text.Trim` | src/complete/completers/openai-cd2-proxy/openai_cd2_proxy.tsx:76 | The trimmed base has no whitespace at either end |
| `Text.TrimIsInfix` | src/complete/completers/openai-cd2-proxy/openai_cd2_proxy.tsx:76 | The trimmed base is an infix of the base and only whitespace was removed around it |
| `Text.TrimUnique` | src/complete/completers/openai-cd2-proxy/openai_cd2_proxy.tsx:76 | Whitespace, a trimmed core, whitespace: trimming yields that core |
| `Text.TrimIdempotent` | src/complete/completers/openai-cd2-proxy/openai_cd2_proxy.tsx:76 | Trimming twice is trimming once |
| `Text.TrimAround` | src/complete/completers/openai-cd2-proxy/openai_cd2_proxy.tsx:76 | Whitespace added before and after a string does not change its trimmed form |
| `Endpoint.SlashTerminated` | src/complete/completers/openai-cd2-proxy/openai_cd2_proxy.tsx:77-79 | The base ends in `/`, and a `/` was added only when the trimmed base lacked one |
| `Endpoint.CompletionsUnder` | src/complete/completers/openai-cd2-proxy/openai_cd2_proxy.tsx:82-87 | Under a slash-terminated base the endpoint ends in `/v1/completions` |
| `Endpoint.Resolve` | src/complete/completers/openai-cd2-proxy/openai_cd2_proxy.tsx:76-87 | Every configured base, the empty string included, resolves to a URL ending in `/v1/completions` |
| `Endpoint.RootUnder` | src/complete/completers/openai-cd2-proxy/openai_cd2_proxy.tsx:82-87 | A slash-terminated base is an API root plus `/` or `/v1/`, and the endpoint is that root plus `/v1/completions` |
| `Endpoint.EndpointHasRoot` | src/complete/completers/openai-cd2-proxy/openai_cd2_proxy.tsx:76-87 | The endpoint is a root plus one `/v1/completions` where the trimmed base is that root bare, with `/`, with `/v1` or with `/v1/`; a slash-terminated base ending in `/v1/` only gets `completions` appended, so the version is never doubled, and any other gets `v1/completions` |
| `Endpoint.RootOfSpelling` | src/complete/completers/openai-cd2-proxy/openai_cd2_proxy.tsx:77-87 | A trimmed base is a spelling of the root that its endpoint is built on |
| `Endpoint.SpellingsAgree` | src/complete/completers/openai-cd2-proxy/openai_cd2_proxy.tsx:76-87 | All four spellings of a root resolve to the root plus `/v1/completions` |
| `Endpoint.ResolveExamples` | src/complete/completers/openai-cd2-proxy/openai_cd2_proxy.tsx:76-87 | `http://host`, `http://host/`, `http://host/v1`, `http://host/v1/` all give `http://host/v1/completions` |
| `Endpoint.ResolveIgnoresSurroundingWhitespace` | src/complete/completers/openai-cd2-proxy/openai_cd2_proxy.tsx:76 | Any whitespace before and after the base leaves the endpoint unchanged |
| `Endpoint.ResolveEmpty` | src/complete/completers/openai-cd2-proxy/openai_cd2_proxy.tsx:76-87 | An empty base is not rejected and resolves to `/v1/completions` |
| `Truncation.Slice` | src/complete/completers/openai-cd2-proxy/openai_cd2_proxy.tsx:97 | `slice(start)` yields a suffix; a negative start keeps `min(-start, length)` characters |
| `Truncation.Prompt` | src/complete/completers/openai-cd2-proxy/openai_cd2_proxy.tsx:97 | The prompt is the suffix of the prefix of length `min(context_length, length)`; a prefix that fits is sent unchanged |
| `Truncation.PromptKeepsRecentContext` | src/complete/completers/openai-cd2-proxy/openai_cd2_proxy.tsx:97 | Every suffix of the prefix that fits the context length is kept |
| `Truncation.PromptExample` | src/complete/completers/openai-cd2-proxy/openai_cd2_proxy.tsx:97 | Length 5 over `abcdefgh` sends `defgh` |
| `Response.ExtractText` | src/complete/completers/openai-cd2-proxy/openai_cd2_proxy.tsx:104 | The result is a truthy value or `""`; a body without `choices` throws |
| `Response.FirstChoiceText` | src/complete/completers/openai-cd2-proxy/openai_cd2_proxy.tsx:104 | With an object as `choices[0]` extraction never fails and yields its truthy `text` or `""` |
| `Response.StringTextReturned` | src/complete/completers/openai-cd2-proxy/openai_cd2_proxy.tsx:104 | A string `text` is returned exactly, `""` included |
| `Response.MalformedResponsesThrow` | src/complete/completers/openai-cd2-proxy/openai_cd2_proxy.tsx:101-107 | Missing `choices`, empty `choices`, a `null` first choice, or a `null` body throw into the catch |
| `Response.ExpectedShape` | src/complete/completers/openai-cd2-proxy/openai_cd2_proxy.tsx:101-104 | On `{choices: [{text}, ...]}` the first text is returned, and it fails exactly when there is no choice |
| `RateLimitNotice.RateLimited` | src/complete/completers/openai-cd2-proxy/openai_cd2_proxy.tsx:112-131 | Keeps the slot invariant; the hide is due at now+5000 on a fresh timer; idle shows exactly one new notice, active shows none and clears the old hide first |
| `RateLimitNotice.TimerFired` | src/complete/completers/openai-cd2-proxy/openai_cd2_proxy.tsx:115-119 | The pending hide hides the notice and empties both slots; a cleared timer changes nothing |
| `RateLimitNotice.Tick` | src/complete/completers/openai-cd2-proxy/openai_cd2_proxy.tsx:125-129 | On the abstract machine, a due deadline goes to idle and everything else stays as it was |
| `RateLimitNotice.ReplacedTimerIsInert` | src/complete/completers/openai-cd2-proxy/openai_cd2_proxy.tsx:113-119 | After a 429 while active the replaced hide can no longer run |
| `RateLimitNotice.DebounceTrace` | src/complete/completers/openai-cd2-proxy/openai_cd2_proxy.tsx:112-131 | Two 429s within the window show one notice that outlives the first deadline and disappears 5000 ms after the second |
| `RateLimitNotice.HandleMovesScreen` | src/complete/completers/openai-cd2-proxy/openai_cd2_proxy.tsx:112-131 | A transition's effects move the screen from the old state's notice and timer to the new state's |
| `RateLimitNotice.ReplayAppend` | src/complete/completers/openai-cd2-proxy/openai_cd2_proxy.tsx:112-131 | Replaying effects in two batches is replaying them at once |
| `RateLimitNotice.RunMatchesScreen` | src/complete/completers/openai-cd2-proxy/openai_cd2_proxy.tsx:31-32 | Over every history the screen replayed from the effect log shows exactly the slots' notice and timer: at most one notice shown, at most one hide pending |
| `ApiErrors.ParseApiError` | src/complete/completers/openai-cd2-proxy/openai_cd2_proxy.tsx:141-150 | Never returns normally; 429 runs the debounce and 401 shows a key notice, both throwing a fresh error; anything else is rethrown unchanged with no effect |
| `ApiErrors.StatusMustBeNumber` | src/complete/completers/openai-cd2-proxy/openai_cd2_proxy.tsx:142-149 | A string status `"429"` or no status is rethrown untouched |
| `Adapter.NewAdapter` | src/complete/completers/openai-cd2-proxy/openai_cd2_proxy.tsx:60-70 | The model keeps its catalog identity, starts idle, and holds exactly the provider parser's result for the settings string |
| `Adapter.RequestFor` | src/complete/completers/openai-cd2-proxy/openai_cd2_proxy.tsx:89-99 | The request goes to the endpoint resolved from the configured `proxy_base_url`, which ends in `/v1/completions`, with `Bearer <api_key>`, the `application/json` content type and the truncated prompt |
| `Adapter.Catch` | src/complete/completers/openai-cd2-proxy/openai_cd2_proxy.tsx:105-108 | The catch always rejects the call (the `throw e` after the classifier is never reached) and changes only the notice slots |
| `Adapter.Settle` | src/complete/completers/openai-cd2-proxy/openai_cd2_proxy.tsx:89-108 | A success has no side effect; a wrong-shaped reply is rejected with its own `TypeError`; a fresh handled error implies a thrown 429 or 401; only notice slots change |
| `Adapter.Complete` | src/complete/completers/openai-cd2-proxy/openai_cd2_proxy.tsx:72-109 | The request goes to the endpoint resolved from the configured `proxy_base_url` with the bearer key, the JSON content type and the last `context_length` characters of the prefix under freshly parsed model settings; the outcome is the server's reply to that request settled: its extracted text, the shape `TypeError`, or what the classifier raises; only notice slots change and stay consistent |
| `Adapter.SettleErrorPaths` | src/complete/completers/openai-cd2-proxy/openai_cd2_proxy.tsx:105-108 | A thrown 429, 401 or other value reaches the caller as the classification table says |
| `Adapter.SettleExpectedReply` | src/complete/completers/openai-cd2-proxy/openai_cd2_proxy.tsx:101-104 | A well-formed reply completes with the first choice's text and no side effect |
| `Adapter.GetModels` | src/complete/completers/openai-cd2-proxy/openai_cd2_proxy.tsx:158-168 | One idle model per catalog entry, in order, with its id, name and description, all sharing the parsed provider settings |

## Left out

- `fetch` and `response.json()`: a parameter of `Complete`; which values they throw, and whether those carry a `status`, is up to that parameter.
- `JSON.parse` and `JSON.stringify`: `JSON.parse` is a parameter; the request body and the saved settings string are kept as values, not serialised text.
- Numbers are finite: a literal that `JSON.parse` turns into `Infinity` is not representable (zod would reject it like any non-integer).
- zod internals: the schema is the predicate `ModelSettings.Conforms` (an object, not an array or `null`, whose `context_length` is an integer number above zero).
- Strings are sequences of Dafny `char` (Unicode scalar values), which cannot hold a lone UTF-16 surrogate; no whitespace or URL character involved is one.
- Truncation.Prompt: counts Unicode scalar values, where `slice` counts UTF-16 code units; for a prefix holding characters outside the Basic Multilingual Plane JavaScript keeps fewer characters and can split a surrogate pair, and such prefixes are outside the model.
- `Json.Field` covers only named properties that no built-in prototype defines, which are the only ones the code reads.
- Thrown values are objects: a thrown `null` or `undefined`, on which `e.status` would itself throw, is not modelled.
- The Obsidian `Notice` widget, `hide()` and `createEl` (openai_cd2_proxy.tsx:121-124, 133-139): shown and hidden notices are effects; the 250000 ms duration is only recorded.
- RateLimitNotice.RunMatchesScreen: the widget's own expiry after 250000 ms and its dismissal by a click are not modelled, so the screen it speaks of is the replayed effect log, not the widget. With 429s arriving less than 5000 ms apart for more than 250 s, the real notice disappears while `rate_limit_notice` is still set, and later 429s show nothing until the hide timer finally runs.
- `window.setTimeout`/`clearTimeout`: a timer is a handle with a deadline; the callback runs through `Tick` or `TimerFired`.
- The React settings components (openai_cd2_proxy.tsx:35-58, provider_settings.tsx:39-69) and their `parseInt` handling: only the merge is kept.
- The contents of `models.json`: the catalog is a parameter of `GetModels`.
- Concurrency: the event loop runs each transition atomically, so transitions are sequential steps.

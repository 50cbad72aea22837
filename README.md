# FetchODataClient, modelled in Dafny

This project models `FetchODataClient`, the HTTP transport adapter that
implements the OData client contract on top of the `fetch` primitive. The
model covers four parts.

- **Configuration layering.** The constructor retains `DEFAULT_CONFIG` overlaid by the caller's
  configuration. Every call overlays its own configuration on that. Headers are merged name by name,
  and the verb's method (and, for writing verbs, the serialized body) is written last.
- **Hook registries.** Two append-only sequences live on the instance.
- **Response mapping.** A non-ok status is thrown as an error carrying status, status text and body.
  An ok response becomes the envelope `{ data, headers, status, statusText }`: header names are
  lower-cased, and `data` is null when `content-length` is `"0"`.
- **The verbs.** `fetch` (raw), `get`, `post`, `put`, `patch`, `merge` (an alias of `patch`) and `delete`.

The network call is not performed. Each operation takes its settlement as an
argument (`NetworkReply`: a `Response` or a rejection). It returns an `Exchange`
recording four things: the URL and request that call received, the hooks run
before and after it, and what the operation returns or throws. The raw `fetch`
returns a `RawExchange` instead: the URL, the request, the before-request hooks
and the unmapped reply.
`JSON.stringify` and `response.json()` are the two functions of a `Codec`
value held by the client. The class has two type parameters: `P` for the
payloads of `post`, `put` and `patch` (`any` in the code), and `D` for the parsed
response data (`ResponseModel`; `void` for `delete`, which the model does not
distinguish).

Files, one module each:

- `wrappers.dfy`: `Option` and `Result`.
- `header_names.dfy`: lower-casing header names; the dictionary built from the response headers.
- `decimal.dfy`: the decimal text of a status code.
- `request_config.dfy`: `RequestInit`, `DEFAULT_CONFIG`, the layering, the requests each verb sends.
- `response_mapping.dfy`: `Response`, the envelope, the errors, the specification of `mapResponse`.
- `fetch_odata_client.dfy`: the class, with its registries, `MapResponse` and the verbs.

Three behaviours of the code are worth knowing:

- A body that parses to JSON `null` also gives null `data`. The model keeps `None` (the null the
  client writes for a declared-empty body) apart from `Some(v)` (a parsed value, which may be JSON's null).
- A response without a `content-length` header is parsed (`AbsentContentLengthIsParsed`).
- A response header named `__proto__` (in any case) never reaches the envelope: assigning that name on
  a plain object calls an inherited setter that ignores a string. The model drops it.

## Model

| member | source | states |
|---|---|---|
| `HeaderNames.LowerChar` | src/client/fetch-odata-client.ts:59 | the result has no upper-case letter; it equals the input exactly when the input is not an upper-case letter, and otherwise is that letter's lower-case form |
| `HeaderNames.Lower` | src/client/fetch-odata-client.ts:59 | `toLowerCase` keeps the length of a name and lower-cases each of its characters, leaving no upper-case letter |
| `HeaderNames.LowerIdempotent` | src/client/fetch-odata-client.ts:59 | lower-casing twice is lower-casing once |
| `HeaderNames.LowerFixesExactlyLowerCase` | src/client/fetch-odata-client.ts:59 | a name is unchanged by lower-casing if and only if it has no upper-case letter |
| `HeaderNames.LowerCaseHeaders` | src/client/fetch-odata-client.ts:57-60 | every key of the header dictionary is lower-case and none is `__proto__`; no pairs give the empty dictionary |
| `HeaderNames.LowerCaseHeadersKeys` | src/client/fetch-odata-client.ts:57-60 | a name is a key of the dictionary if and only if it is not `__proto__` and some response header's name lower-cases to it |
| `HeaderNames.LowerCaseHeadersLastWins` | src/client/fetch-odata-client.ts:57-60 | among header names equal up to case (other than `__proto__`), the value of the last one iterated is the one kept |
| `Decimal.DecimalString` | src/client/fetch-odata-client.ts:50 | the status is rendered as digits only, with a leading zero only for 0 |
| `Decimal.DecimalRoundTrip` | src/client/fetch-odata-client.ts:50 | reading the rendered digits back gives the status code |
| `RequestConfig.Layer` | src/client/fetch-odata-client.ts:86-93 | the overlay keeps every header and option name of either layer; the overriding layer's value wins, and other values are kept; two well-formed layers give a well-formed result |
| `RequestConfig.InitialConfig` | src/client/fetch-odata-client.ts:20-26 | the retained headers are `Accept`, `Content-Type` and the caller's headers, the caller's value winning; credentials is `"include"` unless the caller supplies another value; method, body and other options are the caller's |
| `RequestConfig.EffectiveConfig` | src/client/fetch-odata-client.ts:86-93 | the raw `fetch` request is the retained configuration overlaid by the per-call one; the method and body pass through from the caller, or from the retained configuration when the caller has none |
| `RequestConfig.ReadRequest` | src/client/fetch-odata-client.ts:125-133 | `get` and `delete` send their own method whatever the caller or the client held, and otherwise exactly what the raw `fetch` would send |
| `RequestConfig.WriteRequest` | src/client/fetch-odata-client.ts:105-114 | `post`, `put` and `patch` send their own method and the given serialized body, whatever the caller supplied; everything else is what the raw `fetch` would send |
| `RequestConfig.SentHeaderPrecedence` | src/client/fetch-odata-client.ts:105-114 | for every verb, a header's sent value is the per-call one, else the constructor argument's, else the built-in default's; a header named by none of them is not sent |
| `RequestConfig.HeaderNamesAreCaseSensitive` | src/client/fetch-odata-client.ts:125-133 | a per-call `accept` header is sent beside the default `Accept`, not instead of it |
| `ResponseMapping.ResponseOutcome` | src/client/fetch-odata-client.ts:44-80 | an envelope is produced exactly for an ok (200-299) response whose body is declared empty or parses; it copies status and status text and holds lower-cased header names; a rejection is passed on unchanged |
| `ResponseMapping.NonOkStatusIsThrown` | src/client/fetch-odata-client.ts:48-53 | a non-ok response is thrown as an error and no after-response hook runs; the message is the status digits, a space, the status text, a blank line and the whole body, and the digits read back as the status |
| `ResponseMapping.NotFoundExample` | src/client/fetch-odata-client.ts:48-53 | a 404 "Not Found" with body "not found" throws "404 Not Found", a blank line, then "not found" |
| `ResponseMapping.NullDataExactlyWhenDeclaredEmpty` | src/client/fetch-odata-client.ts:62-79 | on an ok response, `data` is null if and only if the lower-cased `content-length` is exactly `"0"` |
| `ResponseMapping.ParsedUnlessDeclaredEmpty` | src/client/fetch-odata-client.ts:70-79 | otherwise the parsed body becomes `data`, and a parse failure is thrown unwrapped |
| `ResponseMapping.DeclaredEmptyIgnoresBody` | src/client/fetch-odata-client.ts:62-69 | a response declared empty is never parsed: any body and any parser give the same envelope, so nothing is thrown |
| `ResponseMapping.ZeroContentLengthInAnyCase` | src/client/fetch-odata-client.ts:57-69 | a `Content-Length: 0` in any letter case, not followed by another header of that name, gives null `data` |
| `ResponseMapping.AbsentContentLengthIsParsed` | src/client/fetch-odata-client.ts:62-79 | a response with no `content-length` header is parsed |
| `Client.FetchODataClient.constructor` | src/client/fetch-odata-client.ts:20-26 | retains the layered default configuration; both hook registries start empty |
| `Client.FetchODataClient.AddBeforeRequestHandler` | src/client/fetch-odata-client.ts:28-36 | appends exactly one hook, bound to the context object when one is given; earlier hooks, the other registry and the configuration are unchanged; duplicates are kept |
| `Client.FetchODataClient.AddAfterResponseHandler` | src/client/fetch-odata-client.ts:38-42 | appends exactly one hook; earlier hooks, the other registry and the configuration are unchanged |
| `Client.FetchODataClient.MapResponse` | src/client/fetch-odata-client.ts:44-80 | the loop over the header pairs builds the lower-cased dictionary; the result is the `mapResponse` specification, and every after-response hook runs for an ok response and none otherwise |
| `Client.FetchODataClient.Fetch` | src/client/fetch-odata-client.ts:82-98 | sends the layered configuration with no method or body injected, runs every before-request hook, and returns the reply unmapped, with no after-response hook |
| `Client.FetchODataClient.Post` | src/client/fetch-odata-client.ts:100-119 | when the payload cannot be serialized, throws that error before any hook or request; otherwise sends the `POST` request with the serialized payload, after every before-request hook, and returns the mapped reply |
| `Client.FetchODataClient.Get` | src/client/fetch-odata-client.ts:121-138 | sends the `GET` request after every before-request hook and returns the mapped reply |
| `Client.FetchODataClient.Put` | src/client/fetch-odata-client.ts:140-159 | as `post`, with method `PUT` |
| `Client.FetchODataClient.Patch` | src/client/fetch-odata-client.ts:161-180 | as `post`, with method `PATCH` |
| `Client.FetchODataClient.Merge` | src/client/fetch-odata-client.ts:182-188 | does exactly what `patch` does with the same arguments |
| `Client.FetchODataClient.Delete` | src/client/fetch-odata-client.ts:190-207 | sends the `DELETE` request after every before-request hook and returns the mapped reply |

## Left out

- The network call, `Response.clone()` and body streams are I/O. Each operation takes the call's settlement as its `reply` argument.
- `async`/`await` and the `Promise.all` fan-out of hooks are concurrency. The model records which hooks run, in registration order, and where they run relative to the call. It does not model their running, their completion order, or their failures (a throwing hook would abort the call). The after-response hooks are taken from the registry as it stands when the call starts; the code reads the registry only once the response has arrived, so a hook registered during the call (by a before-request hook, say) also runs for that call.
- A before-request hook may mutate the request object it receives before the network call. The model sends the request as the client built it.
- `handler.bind(contextObject)` is recorded as the stored hook's `boundTo` context. `None` stands for every falsy `contextObject`.
- `JSON.stringify` and `response.json()` are the `Codec` functions, left uninterpreted. JSON itself is not modelled. Their failures are modelled: a serializer failure throws before any hook runs, a parse failure after the after-response hooks.
- `RequestConfig.Layer`: `Option` cannot tell a key that is present with the value `undefined` from a missing key. In a JavaScript spread, such a key overrides the lower layer with `undefined`; in the model, the lower layer's value is kept.
- `RequestConfig.Layer`: `headers` are a plain record of names and values. A `Headers` object (whose spread adds no entries) and an array of pairs (whose spread adds entries named by index, `"0"`, `"1"`, ..., each valued with its pair) are not modelled.
- Options other than `credentials`, `headers`, `method` and `body` are kept in `others` by key, with opaque string values (object values such as `signal` are not modelled). `WellFormed` says `others` holds none of the four named options.
- `HeaderNames.Lower` lower-cases ASCII letters only. Header names are tokens (section 5.1 of RFC 9110), so non-ASCII case mapping does not arise for valid names.
- The `Headers` object's own normalisation is not modelled: it yields lower-case names, sorted, with the values of a repeated name combined, except `set-cookie`, whose values come as separate pairs. The model takes any sequence of pairs.
- The `fetch` primitive's own checks are not modelled (for example, rejecting a body on `GET` or `HEAD`). A `delete` sends whatever body the caller or the constructor supplied.
- `odata2ts.config.ts` is static options for a code generator, with no logic. `src/custom.ts` is a script that drives an external client and a generated service. Neither is part of this model.

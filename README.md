# Movie-database MCP server: a Dafny model of its decision logic

The server offers two tools over the Model Context Protocol:
"movie_database_search_person" and "movie_database_discover_films". Each tool
turns its typed parameters into a query string and sends an authenticated GET
to The Movie Database. It then returns the upstream JSON, or an error-flagged
text, as the tool's result. Two helpers (`searchPerson`, `discoverMovie`) do the
same through a small HTTP client, `ApiClient`, which wraps every outcome in an
`ApiResponse` envelope `{ data, error?, status }`. An Express front end keeps a
registry from SSE session id to transport. It answers discovery messages
itself and forwards every other message to the session's transport.

The model covers the deterministic part of this:

- `js.dfy` (`Js`): the JavaScript values involved: JSON documents, parameter
  values (`Undef | Null | Str | Int | Bool | Num`), truthiness, thrown values
  and their messages, promise settlement, decimal printing of integers, and
  `process.env` as a mutable object (`ProcessEnv`). Library behaviour that is
  out of scope is bundled in a `Builtins` value whose fields are uninterpreted
  functions: form-urlencoded escaping and its decoder, `Number#toString` for
  non-integral numbers, `JSON.stringify` (plain and pretty), `JSON.parse`, and
  `String(error)`.
- `query.dfy` (`QueryParams`): the keep/drop rule shared by all four call
  sites. `AppendEntries` is the `forEach` loop and `Filter` its specification.
  Also the serialization of a `URLSearchParams`, with its parser and their
  round trip.
- `api.dfy` (`Api`): `ApiClient.fetch`, `get` and `post` as functions of the
  configuration and of the network's answer. The network is an input, a
  function from the request sent to how `fetch` settled.
- `tools.dfy` (`Tools`): the two tool handlers. Both share `Handle`, which
  mutates `process.env` and restores it.
- `helpers.dfy` (`Helpers`): `searchPerson` and `discoverMovie`. The client
  call is an input, so that both settlements of the promise can be followed.
- `server.dfy` (`Server`): the `transports` registry as a class over a map,
  the `/messages` decision, the reply for each decision, and `getTools`.

Behaviour of the code that the model keeps, and that a reader may not expect:

- The tool handlers do not call the helpers; `searchPerson` and `discoverMovie`
  are imported there but never used. The person-search tool therefore has no
  empty-query guard. A call with `query: ""` is sent upstream with the empty
  query dropped. Only the helper answers 400.
- `ApiClient.fetch` parses the body before it looks at `ok`. A body that is not
  JSON gives "Failed to parse response" with `data: null`, whatever the status.
  A non-2xx status with a JSON body reports the status text, or the serialized
  body when the status text is empty.
- The helpers send `Authorization: Bearer undefined` when `ACCESS_TOKEN` is
  absent. They have no missing-token check.
- With the real `ApiClient` and arguments of the declared types, the helpers'
  `catch` blocks are never reached, because `ApiClient.fetch` catches everything itself (`Helpers.MovieClientNeverRejects`).
- An absent `sessionId` query parameter is looked up under the key "undefined".
- `req.body` is modelled as an optional JSON value. With no body-parsing
  middleware in `src/index.ts` it would be absent, and then nothing is a
  discovery message.

## Model

| member | source | states |
|---|---|---|
| `Js.MessageOr` | src/api.ts:67-68 | a thrown `Error` gives its message, any other thrown value gives the fallback text |
| `Js.IntTextRoundTrip` | src/mcp/tools.ts:66 | the decimal text printed for an integer (a status, an integral parameter) reads back as that integer |
| `QueryParams.AppendEntries` | src/mcp/tools.ts:21-28 | the in-order append loop builds exactly `Filter(entries)` |
| `QueryParams.FilterSelects` | src/mcp/tools.ts:24-28 | the pairs kept are exactly the entries whose value is not undefined, null or '', in input order; each key is paired with its value's text |
| `QueryParams.FilterMembership` | src/mcp/tools.ts:25-26 | `(k, t)` is kept if and only if some entry has key `k`, a kept value, and text `t` |
| `QueryParams.NumberTextIgnoresForm` | src/mcp/tools.ts:26 | `value.toString()` of an integral number is its decimal text, whichever of the two number forms holds it |
| `QueryParams.SerializeRoundTrip` | src/mcp/tools.ts:43 | parsing `queryParams.toString()` gives back the accumulated pairs, in order, given the laws of the form-urlencoded escape |
| `QueryParams.SplitJoin` | src/mcp/tools.ts:43 | splitting at `&` after a separator-free segment yields that segment and then the rest |
| `Api.MergeHeaders` | src/api.ts:23-27 | the merged keys are the union of `Content-Type` with the config's and the caller's keys; the caller wins over the config, and the config wins over the default `application/json` |
| `Api.RequestFor` | src/api.ts:20-34 | the URL is `baseUrl + endpoint` with no separator inserted; the method and body are passed on; the headers are the merge |
| `Api.Classify` | src/api.ts:38-71 | network failure gives `{null, message, 500}`; an unparsable body gives `{null, "Failed to parse response", status}` at any status; non-ok gives `{body, statusText or serialized body, status}`; ok gives `{body, no error field, status}` |
| `Api.ClassifySucceeds` | src/api.ts:41-54 | there is no error field exactly when the status is 2xx and the body parses; data is the parsed body when one parsed, and null otherwise |
| `Api.Fetch` | src/api.ts:15-72 | never rejects: the status is the response's, or 500 when `fetch` failed, and there is no error field exactly when a 2xx body parsed |
| `Api.Get` | src/api.ts:74-83 | the envelope of the network's answer to a GET with no body at `baseUrl + endpoint` with the merged headers |
| `Api.Post` | src/api.ts:85-96 | the same for a POST whose body is the serialized argument |
| `Api.MovieGet` | src/api.ts:101-106 | `movieApiClient.get` is always fulfilled, with the envelope `Get` builds for the TMDB base URL |
| `Api.NotFoundExample` | src/api.ts:41-47 | a 404 "Not Found" with a JSON body yields `{body, "Not Found", 404}` |
| `Tools.HttpErrorMessage` | src/mcp/tools.ts:66 | the text starts with "HTTP error! status: ", ends with ", response: " and the body text, and what lies between is the status's canonical decimal text, which reads back as the status |
| `Tools.ToolRequest` | src/mcp/tools.ts:52-61 | a GET with no body whose only headers are `accept: application/json` and `Authorization: Bearer <token>` |
| `Tools.ShapeOutcome` | src/mcp/tools.ts:63-95 | one text item always; no error flag exactly when the status is 2xx and the body parses, and then the text is the pretty JSON; otherwise the tool's failure prefix plus the fetch rejection, the "HTTP error! status: S, response: T" message, or the parse error |
| `Tools.Handle` | src/mcp/tools.ts:18-96 | env is unchanged afterwards; one text item; a falsy token gives the missing-token failure with no fetch; otherwise fetch gets the prefix plus the filtered query and the bearer token while `NODE_TLS_REJECT_UNAUTHORIZED` is "0" |
| `Tools.SearchPersonTool` | src/mcp/tools.ts:9-97 | the person-search handler: "Failed to search for person: Missing API access token" with no fetch, or a fetch of `https://api.themoviedb.org/3/search/person?<query>`; env restored |
| `Tools.DiscoverFilmsTool` | src/mcp/tools.ts:100-218 | the discovery handler: "Failed to discover films: Missing API access token" with no fetch, or a fetch of `https://api.themoviedb.org/3/discover/movie?<query>`; env restored |
| `Tools.UrlCarriesFilteredParams` | src/mcp/tools.ts:164 | the query part of the URL a handler sends parses back to exactly the filtered parameters |
| `Helpers.Field` | src/helpers/searchPerson.ts:44 | `params.query` is the value of the first entry with that key, or undefined when there is none |
| `Helpers.AuthHeaders` | src/helpers/searchPerson.ts:64-66 | a single `Authorization: Bearer <ACCESS_TOKEN>` header, with the text "undefined" when the variable is absent |
| `Helpers.Settle` | src/helpers/searchPerson.ts:77-101 | a fulfilled client call is returned as it is, including one carrying an error; a rejected one gives the fallback |
| `Helpers.PersonFallback` | src/helpers/searchPerson.ts:95-101 | status 500, the thrown message (or "Unknown error occurred"), and data `{page:0, results:[], total_pages:0, total_results:0}` |
| `Helpers.MovieFallback` | src/helpers/discoverMovie.ts:114-121 | status 500, the thrown message (or "Unknown error occurred"), and data `{page:0, results:[]}` |
| `Helpers.SearchPerson` | src/helpers/searchPerson.ts:40-103 | a falsy query gives 400 "Search query is required" with empty results and no client call; otherwise the client gets `/search/person?<filtered query>` and the bearer header, and its result is passed through |
| `Helpers.DiscoverMovie` | src/helpers/discoverMovie.ts:68-122 | every call reaches the client with `/discover/movie?<filtered query>`, an omitted argument acting as `{}`, and its result is passed through |
| `Helpers.DefaultDiscoverEndpoint` | src/helpers/discoverMovie.ts:93 | with the default `{}` the endpoint is exactly `/discover/movie?` |
| `Helpers.MovieClientNeverRejects` | src/helpers/searchPerson.ts:91-94 | with `movieApiClient` the helpers return `ApiClient.get`'s envelope, never the fallback |
| `Server.SessionKey` | src/index.ts:71-74 | the registry is indexed by the sessionId text, or by "undefined" when it is absent |
| `Server.IsDiscovery` | src/index.ts:77 | a message is a discovery exactly when its body is an object whose `type` is "discover" and whose `payload` is an object with a truthy `requestManifest` |
| `Server.ManifestEntry` | src/index.ts:58-62 | a manifest entry has exactly the tool's `name`, `description` and `parameters` properties, with their values |
| `Server.GetTools` | src/index.ts:54-67 | one manifest entry per registered tool, in order; `[]` when there is no collection or reading it throws |
| `Server.Decide` | src/index.ts:74-103 | a discovery-shaped message gets the manifest whether or not the session exists; any other message is forwarded exactly when its id is registered, to that id's transport; otherwise it is refused |
| `Server.Respond` | src/index.ts:84-107 | discovery gives `discover_response` with the manifest, empty resources and empty prompts; unknown sessions get 400 "No transport found for sessionId"; a throwing transport gives 500 "Internal server error" |
| `Server.UnknownSessionRefused` | src/index.ts:100-103 | every non-discovery message for an unregistered id gets 400, whatever else is registered |
| `Server.Registry.constructor` | src/index.ts:11 | the registry starts empty |
| `Server.Registry.Connect` | src/index.ts:34-35 | adds `sessionId ↦ transport` and leaves every other entry as it was |
| `Server.Registry.Close` | src/index.ts:39-42 | removes that id and leaves every other entry as it was; removing an absent id changes nothing |
| `Server.Registry.Dispatch` | src/index.ts:69-108 | computes `Decide` over the current registry without modifying it; a forwarded transport belongs to the message's session |
| `Server.SessionLifecycle` | src/index.ts:35-42 | once connected, a session's messages reach its transport; once closed, they are refused; another session stays reachable throughout |
| `Server.LookupAsWritten` | src/index.ts:74 | `transports[key]` finds the own entry under that key (and that entry's transport), else an inherited `Object.prototype` member, else nothing |
| `Server.DispatchAsWritten` | src/index.ts:69-108 | as written, discovery gets the manifest; 400 only when the id is neither registered nor an inherited property name; an inherited name gets 500; a registered id is forwarded |
| `Server.PrototypeKeyAnswered500` | src/index.ts:97-103 | as written, a message for session "toString" gets 500; `Decide` and `Respond` give 400 |
| `Server.AsWrittenAgreesOffPrototype` | src/index.ts:74-103 | away from the inherited property names, the code as written and the corrected decision give the same reply |

## Findings

| source | as written | input that shows it | evidently intended | confidence | as-written member | corrected member |
|---|---|---|---|---|---|---|
| src/index.ts:74 | `transports` is a plain `{}`, so `transports[sessionId]` also returns members inherited from `Object.prototype`. Such a value is truthy, `handlePostMessage` is not a function on it, and the TypeError becomes a 500 reply | `POST /messages?sessionId=toString` with a non-discovery body and no session registered | 400 `{error: "No transport found for sessionId"}` for every id that was never registered | high, not executed | `Server.PrototypeKeyAnswered500` | `Server.UnknownSessionRefused` |

## Left out

- Express routing, CORS headers and the 204 preflight answers: HTTP server plumbing.
- SSE transport construction, `server.connect` and what `handlePostMessage` does with a message: SDK internals. A transport is an opaque object, and how its handling ends is an input of `Server.Respond`.
- The network, DNS and TLS, and the effect of `NODE_TLS_REJECT_UNAUTHORIZED`: only the save and restore of the variable is modelled.
- Percent-encoding, `JSON.parse`, `JSON.stringify`, `String(error)` and the rendering of non-integral numbers: library behaviour, kept as uninterpreted fields of `Js.Builtins`. `QueryParams.SerializeRoundTrip` assumes only that the escape never emits `&` or `=` and that its decoder undoes it.
- Js.IntText: prints every integer exactly, in plain decimal. This is JavaScript's `Number#toString` only for integers of magnitude at most 2^53. Above that a JavaScript number is rounded, so it prints the shortest digits that identify the double, padded with zeros (`2**60` gives "1152921504606847000"). From 10^21 on it prints in exponent notation. `Int` parameters and integral `Num` values are therefore meant to be at most 2^53 in magnitude, as every status code and page number is.
- Zod validation of the tool parameters: inputs are already typed. `params.query` of a helper is found by key among the entries, as in a plain object.
- Async interleaving: two handlers running at once could each restore `process.env` over the other's change. Each handler is modelled as running alone.
- Logging, `dotenv.config()`, `src/mcp/prompts.ts` (canned messages) and `src/mcp/server.ts` (SDK instance): no decision logic.
- The `Movie` and `PersonResult` record shapes: bodies are opaque JSON values.
- Js.Json: objects are maps, so the key order of an upstream body is not kept. `JSON.stringify(data, null, 2)` in the tools' success text does keep it; the model leaves that text to the uninterpreted `prettyJson`.
- Helpers called with `null`, or with a missing parameter object: the declared types exclude these. (`Object.entries(null)` would throw and reach the 500 fallback.)
- A repeated `sessionId` query parameter, which Express would turn into an array: session ids are modelled as one optional string.

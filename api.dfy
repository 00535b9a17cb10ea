/**
 `ApiClient` and the `ApiResponse` envelope. The client's only state, its
 `config`, is fixed at construction, so its operations are functions of the
 configuration, the request and the network's answer. The network is an input:
 a function from the request that `fetch` would send to what came back.
 */
module Api {
  import opened Js

  type Headers = map<string, string>

  /** `ApiConfig`: the base URL and optional default headers. */
  datatype ApiConfig = ApiConfig(baseUrl: string, headers: Option<Headers>)

  /** `ApiResponse<T>`: `error` is `None` when the record has no error field. */
  datatype ApiResponse = ApiResponse(data: Json, error: Option<string>, status: int)

  /** The `RequestInit` that `get` and `post` pass to the private `fetch`;
      `verb` is its `method` field. */
  datatype RequestOptions = RequestOptions(verb: string, body: Option<string>, headers: Option<Headers>)

  /** What reaches the global `fetch`: URL and init. */
  datatype Request = Request(url: string, verb: string, headers: Headers, body: Option<string>)

  /** A response: status, status text and the body's text. */
  datatype HttpResponse = HttpResponse(status: int, statusText: string, bodyText: string)
  {
    /** `response.ok`: the status is in the range 200 to 299. */
    predicate Ok()
    {
      200 <= status <= 299
    }
  }

  /** How `fetch` settles: rejected (DNS, refused connection, ...) or a response. */
  datatype NetOutcome = NetworkFailure(reason: Exception) | Responded(response: HttpResponse)

  type Network = Request -> NetOutcome

  /** `{...base, ...extra}` with `extra` possibly undefined. */
  function Overlay(base: Headers, extra: Option<Headers>): Headers
  {
    if extra.Some? then base + extra.value else base
  }

  /** The header object of `ApiClient.fetch`: `Content-Type: application/json`,
      then the configured headers, then the caller's; a later source wins on a
      shared key and no key of any source is lost. */
  function MergeHeaders(config: Option<Headers>, caller: Option<Headers>): (h: Headers)
    ensures forall k :: k in h <==>
              k == "Content-Type" || (config.Some? && k in config.value) || (caller.Some? && k in caller.value)
    ensures forall k :: caller.Some? && k in caller.value ==> h[k] == caller.value[k]
    ensures forall k :: config.Some? && k in config.value && !(caller.Some? && k in caller.value) ==>
              h[k] == config.value[k]
    ensures !(config.Some? && "Content-Type" in config.value) && !(caller.Some? && "Content-Type" in caller.value) ==>
              h["Content-Type"] == "application/json"
  {
    Overlay(Overlay(map["Content-Type" := "application/json"], config), caller)
  }

  /** The request `ApiClient.fetch` sends for `endpoint`. */
  function RequestFor(config: ApiConfig, endpoint: string, options: RequestOptions): (r: Request)
    ensures r.url == config.baseUrl + endpoint
    ensures r.verb == options.verb && r.body == options.body
    ensures r.headers == MergeHeaders(config.headers, options.headers)
  {
    Request(config.baseUrl + endpoint, options.verb, MergeHeaders(config.headers, options.headers), options.body)
  }

  /** The envelope `ApiClient.fetch` builds from what `fetch` gave. The body
      is parsed before `ok` is looked at, so a body that does not parse gives
      "Failed to parse response" whatever the status. */
  function Classify(outcome: NetOutcome, js: Builtins): (r: ApiResponse)
    ensures outcome.NetworkFailure? ==>
              r == ApiResponse(JNull, Some(MessageOr(outcome.reason, "Unknown error occurred")), 500)
    ensures outcome.Responded? ==> r.status == outcome.response.status
    ensures outcome.Responded? && js.parseJson(outcome.response.bodyText).SyntaxError? ==>
              r.data == JNull && r.error == Some("Failed to parse response")
    ensures outcome.Responded? && js.parseJson(outcome.response.bodyText).Parsed? ==>
              r.data == js.parseJson(outcome.response.bodyText).json
    ensures outcome.Responded? && js.parseJson(outcome.response.bodyText).Parsed? && !outcome.response.Ok() ==>
              r.error == Some(if outcome.response.statusText != "" then outcome.response.statusText
                              else js.jsonText(r.data))
    ensures outcome.Responded? && js.parseJson(outcome.response.bodyText).Parsed? && outcome.response.Ok() ==>
              r.error.None?
  {
    match outcome
    case NetworkFailure(reason) =>
      ApiResponse(JNull, Some(MessageOr(reason, "Unknown error occurred")), 500)
    case Responded(response) =>
      match js.parseJson(response.bodyText)
      case SyntaxError(_) => ApiResponse(JNull, Some("Failed to parse response"), response.status)
      case Parsed(data) =>
        if !response.Ok() then
          ApiResponse(data, Some(if response.statusText != "" then response.statusText else js.jsonText(data)),
                      response.status)
        else ApiResponse(data, None, response.status)
  }

  /** The envelope has no error field exactly when a response with a 2xx status
      and a well-formed body came back. Its data is the parsed body when one
      parsed, and null otherwise (a failed fetch or a body that did not parse);
      a body whose text is `null` also gives null data. */
  lemma ClassifySucceeds(outcome: NetOutcome, js: Builtins)
    ensures Classify(outcome, js).error.None? <==>
              outcome.Responded? && outcome.response.Ok() && js.parseJson(outcome.response.bodyText).Parsed?
    ensures outcome.Responded? && js.parseJson(outcome.response.bodyText).Parsed? ==>
              Classify(outcome, js).data == js.parseJson(outcome.response.bodyText).json
    ensures !(outcome.Responded? && js.parseJson(outcome.response.bodyText).Parsed?) ==>
              Classify(outcome, js).data == JNull
  {
  }

  /** `ApiClient.fetch`: the envelope for whatever the network answers to the
      request built from the configuration. It never rejects: every outcome,
      including a failed `fetch`, is an envelope. */
  function Fetch(config: ApiConfig, endpoint: string, options: RequestOptions, net: Network, js: Builtins): (r: ApiResponse)
    ensures var outcome := net(RequestFor(config, endpoint, options));
            && r.status == (if outcome.Responded? then outcome.response.status else 500)
            && (r.error.None? <==>
                  outcome.Responded? && outcome.response.Ok() && js.parseJson(outcome.response.bodyText).Parsed?)
  {
    ClassifySucceeds(net(RequestFor(config, endpoint, options)), js);
    Classify(net(RequestFor(config, endpoint, options)), js)
  }

  /** `ApiClient.get`: a GET with no body and the caller's headers. */
  function Get(config: ApiConfig, endpoint: string, headers: Option<Headers>, net: Network, js: Builtins): (r: ApiResponse)
    ensures r == Classify(net(Request(config.baseUrl + endpoint, "GET", MergeHeaders(config.headers, headers), None)), js)
  {
    Fetch(config, endpoint, RequestOptions("GET", None, headers), net, js)
  }

  /** `ApiClient.post`: a POST whose body is the serialized `body`. */
  function Post(config: ApiConfig, endpoint: string, body: Json, headers: Option<Headers>, net: Network, js: Builtins): (r: ApiResponse)
    ensures r == Classify(net(Request(config.baseUrl + endpoint, "POST", MergeHeaders(config.headers, headers),
                                      Some(js.jsonText(body)))), js)
  {
    Fetch(config, endpoint, RequestOptions("POST", Some(js.jsonText(body)), headers), net, js)
  }

  /** `movieApiClient`. */
  const MovieConfig := ApiConfig("https://api.themoviedb.org/3", Some(map["Content-Type" := "application/json"]))

  /** `movieApiClient.get` seen as a call that may settle either way; it is
      always fulfilled. */
  function MovieGet(net: Network, js: Builtins): (get: (string, Headers) -> Settled<ApiResponse>)
    ensures forall endpoint, headers :: get(endpoint, headers) == Fulfilled(Get(MovieConfig, endpoint, Some(headers), net, js))
  {
    (endpoint: string, headers: Headers) => Fulfilled(Get(MovieConfig, endpoint, Some(headers), net, js))
  }

  /** The outcome of the 404 example: a JSON error body and a status text. */
  lemma NotFoundExample(js: Builtins, body: string, message: Json)
    requires js.parseJson(body) == Parsed(message)
    ensures Get(MovieConfig, "/search/person?query=x", None,
                (req: Request) => Responded(HttpResponse(404, "Not Found", body)), js)
         == ApiResponse(message, Some("Not Found"), 404)
  {
  }
}

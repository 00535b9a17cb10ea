/**
 The helpers `searchPerson` and `discoverMovie`. Each builds the same filtered
 query, calls `movieApiClient.get` with a bearer header read from
 `process.env`, and hands the client's envelope back; anything thrown becomes
 a status-500 envelope.

 The client call is an input (`get`), so that both the fulfilled and the
 rejected settlement can be followed; `Api.MovieGet` is the client the source
 uses, and it is always fulfilled.
 */
module Helpers {
  import opened Js
  import opened QueryParams
  import opened Api

  /** A call of `movieApiClient.get(endpoint, { headers })`. */
  type ClientGet = (string, Headers) -> Settled<ApiResponse>

  /** `params.key` when `params` is a plain object given by its entries: the
      value of the first entry with that key, undefined when there is none. */
  function Field(params: seq<Entry>, key: string): (v: ParamValue)
    ensures forall i :: 0 <= i < |params| && params[i].0 == key && (forall j :: 0 <= j < i ==> params[j].0 != key) ==>
              v == params[i].1
    ensures v != Undef ==> exists i :: 0 <= i < |params| && params[i] == (key, v)
    ensures (forall i :: 0 <= i < |params| ==> params[i].0 != key) ==> v == Undef
  {
    if params == [] then Undef
    else if params[0].0 == key then params[0].1
    else Field(params[1..], key)
  }

  /** `` `Bearer ${process.env.ACCESS_TOKEN}` ``: no presence check, so an absent
      token is sent as the text "undefined". */
  function AuthHeaders(vars: map<string, string>): (h: Headers)
    ensures h.Keys == {"Authorization"}
    ensures h["Authorization"] == "Bearer " + (if "ACCESS_TOKEN" in vars then vars["ACCESS_TOKEN"] else "undefined")
  {
    map["Authorization" := "Bearer " + (match EnvGet(vars, "ACCESS_TOKEN") case Some(t) => t case None => "undefined")]
  }

  /** What the `try` gives: the client's envelope as it is, or the fallback
      for what was thrown. */
  function Settle(got: Settled<ApiResponse>, fallback: Exception -> ApiResponse): (r: ApiResponse)
    ensures got.Fulfilled? ==> r == got.value
    ensures got.Rejected? ==> r == fallback(got.reason)
  {
    match got
    case Fulfilled(response) => response
    case Rejected(e) => fallback(e)
  }

  /** `{ page: 0, results: [], total_pages: 0, total_results: 0 }`. */
  const EmptyPersonData := JObj(map["page" := JNum(0.0), "results" := JArr([]),
                                    "total_pages" := JNum(0.0), "total_results" := JNum(0.0)])

  /** `{ page: 0, results: [] }`. */
  const EmptyMovieData := JObj(map["page" := JNum(0.0), "results" := JArr([])])

  /** The `catch` of `searchPerson`. */
  function PersonFallback(e: Exception): (r: ApiResponse)
    ensures r.status == 500 && r.data == EmptyPersonData
    ensures r.error == Some(if e.Error? then e.message else "Unknown error occurred")
  {
    ApiResponse(EmptyPersonData, Some(MessageOr(e, "Unknown error occurred")), 500)
  }

  /** The `catch` of `discoverMovie`. */
  function MovieFallback(e: Exception): (r: ApiResponse)
    ensures r.status == 500 && r.data == EmptyMovieData
    ensures r.error == Some(if e.Error? then e.message else "Unknown error occurred")
  {
    ApiResponse(EmptyMovieData, Some(MessageOr(e, "Unknown error occurred")), 500)
  }

  /** `searchPerson(params)`. A falsy `query` is answered with 400 and the
      client is never called; otherwise the client gets the filtered query and
      the bearer header, and its envelope comes back unchanged. `called` is
      the call made, if any. */
  method SearchPerson(params: seq<Entry>, env: ProcessEnv, get: ClientGet, js: Builtins)
    returns (r: ApiResponse, ghost called: Option<(string, Headers)>)
    ensures !ParamTruthy(Field(params, "query")) ==>
              called.None? && r == ApiResponse(EmptyPersonData, Some("Search query is required"), 400)
    ensures ParamTruthy(Field(params, "query")) ==>
              && called == Some(("/search/person?" + Serialize(Filter(params, js), js.formEscape), AuthHeaders(env.vars)))
              && r == Settle(get(called.value.0, called.value.1), PersonFallback)
  {
    if !ParamTruthy(Field(params, "query")) {
      r, called := ApiResponse(EmptyPersonData, Some("Search query is required"), 400), None;
      return;
    }
    var query := AppendEntries(params, js);
    var headers := AuthHeaders(env.vars);
    var endpoint := "/search/person?" + Serialize(query, js.formEscape);
    called := Some((endpoint, headers));
    r := Settle(get(endpoint, headers), PersonFallback);
  }

  /** `discoverMovie(params = {})`: no field is required, so every call reaches
      the client; an omitted argument (`None`) is the empty object. */
  method DiscoverMovie(params: Option<seq<Entry>>, env: ProcessEnv, get: ClientGet, js: Builtins)
    returns (r: ApiResponse, ghost called: (string, Headers))
    ensures var entries := if params.Some? then params.value else [];
            called == ("/discover/movie?" + Serialize(Filter(entries, js), js.formEscape), AuthHeaders(env.vars))
    ensures r == Settle(get(called.0, called.1), MovieFallback)
  {
    var entries := if params.Some? then params.value else [];
    var query := AppendEntries(entries, js);
    var headers := AuthHeaders(env.vars);
    var endpoint := "/discover/movie?" + Serialize(query, js.formEscape);
    called := (endpoint, headers);
    r := Settle(get(endpoint, headers), MovieFallback);
  }

  /** With the default parameters the endpoint is exactly "/discover/movie?". */
  lemma DefaultDiscoverEndpoint(js: Builtins)
    ensures "/discover/movie?" + Serialize(Filter([], js), js.formEscape) == "/discover/movie?"
  {
  }

  /** With the source's client, the helpers return what `ApiClient.get` built
      for the endpoint: the fallback of the `catch` is never reached. */
  lemma MovieClientNeverRejects(endpoint: string, headers: Headers, net: Network, js: Builtins)
    ensures Settle(MovieGet(net, js)(endpoint, headers), PersonFallback) == Get(MovieConfig, endpoint, Some(headers), net, js)
    ensures Settle(MovieGet(net, js)(endpoint, headers), MovieFallback) == Get(MovieConfig, endpoint, Some(headers), net, js)
  {
  }
}

/**
 The two `server.tool` handlers: "movie_database_search_person" and
 "movie_database_discover_films". Both run the same steps and differ only in
 the upstream URL and in the prefix of their failure texts, so the steps are
 written once, in `Handle`, and each tool is `Handle` at its `ToolKind`.

 `process.env` is the `ProcessEnv` object the handler mutates; the global
 `fetch` is the `Network` input.
 */
module Tools {
  import opened Js
  import opened QueryParams
  import opened Api

  const TokenVar := "ACCESS_TOKEN"
  const TlsVar := "NODE_TLS_REJECT_UNAUTHORIZED"

  /** One `{ type: "text", text }` item of a tool result. */
  datatype Content = Text(text: string)

  /** `{ content, isError? }`: `isError` is false when the field is absent. */
  datatype ToolResult = ToolResult(content: seq<Content>, isError: bool)

  datatype ToolKind = SearchPerson | DiscoverFilms
  {
    /** Everything of the upstream URL before the query string. */
    function UrlPrefix(): string
    {
      match this
      case SearchPerson => "https://api.themoviedb.org/3/search/person?"
      case DiscoverFilms => "https://api.themoviedb.org/3/discover/movie?"
    }

    /** What every failure text of this tool starts with. */
    function FailurePrefix(): string
    {
      match this
      case SearchPerson => "Failed to search for person: "
      case DiscoverFilms => "Failed to discover films: "
    }
  }

  /** An error-flagged result with one text item. */
  function Failure(kind: ToolKind, message: string): (r: ToolResult)
    ensures |r.content| == 1 && r.isError
    ensures r.content[0].text == kind.FailurePrefix() + message
  {
    ToolResult([Text(kind.FailurePrefix() + message)], true)
  }

  /** `if (!token)`: the token is absent or empty. */
  predicate HasToken(vars: map<string, string>)
  {
    TokenVar in vars && vars[TokenVar] != ""
  }

  /** The request each handler gives to `fetch`. */
  function ToolRequest(url: string, token: string): (r: Request)
    ensures r.verb == "GET" && r.body.None? && r.url == url
    ensures r.headers.Keys == {"accept", "Authorization"}
    ensures r.headers["accept"] == "application/json" && r.headers["Authorization"] == "Bearer " + token
  {
    Request(url, "GET", map["accept" := "application/json", "Authorization" := "Bearer " + token], None)
  }

  const HttpErrorLead := "HTTP error! status: "
  const HttpErrorSeparator := ", response: "

  /** The message of the `Error` thrown for a non-ok response: it starts with
      the lead text and ends with the body's text, and what lies between the
      lead and the separator reads back as the status. */
  function HttpErrorMessage(response: HttpResponse): (m: string)
    ensures |m| >= |HttpErrorLead| + |HttpErrorSeparator| + |response.bodyText|
    ensures m[..|HttpErrorLead|] == HttpErrorLead
    ensures m[|m| - |HttpErrorSeparator| - |response.bodyText|..] == HttpErrorSeparator + response.bodyText
    ensures m[|HttpErrorLead|..|m| - |HttpErrorSeparator| - |response.bodyText|] == IntText(response.status)
    ensures IntValue(m[|HttpErrorLead|..|m| - |HttpErrorSeparator| - |response.bodyText|]) == Some(response.status)
  {
    var status := IntText(response.status);
    IntTextRoundTrip(response.status);
    var m := HttpErrorLead + status + (HttpErrorSeparator + response.bodyText);
    assert m[..|HttpErrorLead|] == HttpErrorLead;
    assert m[|HttpErrorLead|..|m| - |HttpErrorSeparator| - |response.bodyText|] == status;
    assert m[|m| - |HttpErrorSeparator| - |response.bodyText|..] == HttpErrorSeparator + response.bodyText;
    m
  }

  /** The result for what `fetch` gave: the pretty-printed JSON of a 2xx body
      that parses, with no error flag; otherwise an error-flagged text made of
      the tool's prefix and the message of what was thrown (the rejection of
      `fetch`, the HTTP error, or the `SyntaxError` of `response.json()`). */
  function ShapeOutcome(kind: ToolKind, outcome: NetOutcome, js: Builtins): (r: ToolResult)
    ensures |r.content| == 1
    ensures !r.isError <==>
              outcome.Responded? && outcome.response.Ok() && js.parseJson(outcome.response.bodyText).Parsed?
    ensures !r.isError ==> r.content[0].text == js.prettyJson(js.parseJson(outcome.response.bodyText).json)
    ensures outcome.NetworkFailure? ==> r == Failure(kind, MessageOr(outcome.reason, "Unknown error"))
    ensures outcome.Responded? && !outcome.response.Ok() ==> r == Failure(kind, HttpErrorMessage(outcome.response))
    ensures outcome.Responded? && outcome.response.Ok() && js.parseJson(outcome.response.bodyText).SyntaxError? ==>
              r == Failure(kind, js.parseJson(outcome.response.bodyText).message)
  {
    match outcome
    case NetworkFailure(reason) => Failure(kind, MessageOr(reason, "Unknown error"))
    case Responded(response) =>
      if !response.Ok() then Failure(kind, HttpErrorMessage(response))
      else
        match js.parseJson(response.bodyText)
        case Parsed(data) => ToolResult([Text(js.prettyJson(data))], false)
        case SyntaxError(message) => Failure(kind, message)
  }

  /** The steps of either handler. `sent` is the request `fetch` received, if
      any, and `envAtFetch` the environment at that moment. */
  method Handle(kind: ToolKind, params: seq<Entry>, env: ProcessEnv, net: Network, js: Builtins)
    returns (r: ToolResult, ghost sent: Option<Request>, ghost envAtFetch: map<string, string>)
    modifies env
    ensures env.vars == old(env.vars)
    ensures |r.content| == 1
    ensures !HasToken(old(env.vars)) ==> sent.None? && r == Failure(kind, "Missing API access token")
    ensures HasToken(old(env.vars)) ==>
              && sent == Some(ToolRequest(kind.UrlPrefix() + Serialize(Filter(params, js), js.formEscape),
                                          old(env.vars)[TokenVar]))
              && r == ShapeOutcome(kind, net(sent.value), js)
    ensures sent.Some? ==> envAtFetch == old(env.vars)[TlsVar := "0"]
  {
    var query := AppendEntries(params, js);
    if !HasToken(env.vars) {
      r, sent, envAtFetch := Failure(kind, "Missing API access token"), None, env.vars;
      return;
    }
    var token := env.vars[TokenVar];
    var url := kind.UrlPrefix() + Serialize(query, js.formEscape);
    var originalValue := EnvGet(env.vars, TlsVar);
    env.vars := env.vars[TlsVar := "0"];
    var request := ToolRequest(url, token);
    sent, envAtFetch := Some(request), env.vars;
    var outcome := net(request);
    r := ShapeOutcome(kind, outcome, js);
    // the `finally` block
    if originalValue.None? {
      env.vars := env.vars - {TlsVar};
    } else {
      env.vars := env.vars[TlsVar := originalValue.value];
    }
    RestoreUndoesSet(old(env.vars), TlsVar, "0");
  }

  /** Setting a variable and then restoring its saved value, or deleting it
      when it had none, gives back the environment as it was. */
  lemma RestoreUndoesSet(vars: map<string, string>, name: string, value: string)
    ensures var changed := vars[name := value];
            (if name in vars then changed[name := vars[name]] else changed - {name}) == vars
  {
  }

  /** The person-search tool's missing-token text written out. */
  lemma SearchPersonTokenText()
    ensures SearchPerson.FailurePrefix() + "Missing API access token"
         == "Failed to search for person: Missing API access token"
  {
  }

  /** The discovery tool's missing-token text written out. */
  lemma DiscoverFilmsTokenText()
    ensures DiscoverFilms.FailurePrefix() + "Missing API access token"
         == "Failed to discover films: Missing API access token"
  {
  }

  /** "movie_database_search_person". */
  method SearchPersonTool(params: seq<Entry>, env: ProcessEnv, net: Network, js: Builtins)
    returns (r: ToolResult, ghost sent: Option<Request>)
    modifies env
    ensures env.vars == old(env.vars)
    ensures |r.content| == 1
    ensures !HasToken(old(env.vars)) ==>
              sent.None? && r == ToolResult([Text("Failed to search for person: Missing API access token")], true)
    ensures HasToken(old(env.vars)) ==>
              && sent.Some?
              && sent.value.url == "https://api.themoviedb.org/3/search/person?" + Serialize(Filter(params, js), js.formEscape)
              && sent.value == ToolRequest(sent.value.url, old(env.vars)[TokenVar])
              && r == ShapeOutcome(SearchPerson, net(sent.value), js)
  {
    ghost var envAtFetch;
    r, sent, envAtFetch := Handle(SearchPerson, params, env, net, js);
    SearchPersonTokenText();
  }

  /** "movie_database_discover_films". */
  method DiscoverFilmsTool(params: seq<Entry>, env: ProcessEnv, net: Network, js: Builtins)
    returns (r: ToolResult, ghost sent: Option<Request>)
    modifies env
    ensures env.vars == old(env.vars)
    ensures |r.content| == 1
    ensures !HasToken(old(env.vars)) ==>
              sent.None? && r == ToolResult([Text("Failed to discover films: Missing API access token")], true)
    ensures HasToken(old(env.vars)) ==>
              && sent.Some?
              && sent.value.url == "https://api.themoviedb.org/3/discover/movie?" + Serialize(Filter(params, js), js.formEscape)
              && sent.value == ToolRequest(sent.value.url, old(env.vars)[TokenVar])
              && r == ShapeOutcome(DiscoverFilms, net(sent.value), js)
  {
    ghost var envAtFetch;
    r, sent, envAtFetch := Handle(DiscoverFilms, params, env, net, js);
    DiscoverFilmsTokenText();
  }

  /** The request URL determines the kept pairs: parsing the query string of
      what a handler sends gives back exactly the filtered parameters. */
  lemma UrlCarriesFilteredParams(kind: ToolKind, params: seq<Entry>, js: Builtins)
    requires EscapeLaws(js)
    ensures var url := kind.UrlPrefix() + Serialize(Filter(params, js), js.formEscape);
            Parse(url[|kind.UrlPrefix()|..], js.formUnescape) == Filter(params, js)
  {
    var q := Serialize(Filter(params, js), js.formEscape);
    assert (kind.UrlPrefix() + q)[|kind.UrlPrefix()|..] == q;
    SerializeRoundTrip(Filter(params, js), js);
  }
}

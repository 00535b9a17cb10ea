/**
 The HTTP entry points of the server: the session registry that `GET /sse`
 fills and its `close` callback empties, and the decision `POST /messages`
 takes for each incoming message. The SSE transport is an opaque object with
 a session id; what it does with a forwarded message is an input.
 */
module Server {
  import opened Js

  /** An `SSEServerTransport`, known by its session id and its identity. */
  class Transport {
    const sessionId: string

    constructor (sessionId: string)
      ensures this.sessionId == sessionId
    {
      this.sessionId := sessionId;
    }
  }

  /** `req.query.sessionId as string` used as a property key: an absent
      parameter is `undefined`, whose key is the text "undefined". */
  function SessionKey(sessionId: Option<string>): (key: string)
    ensures sessionId.Some? ==> key == sessionId.value
    ensures sessionId.None? ==> key == "undefined"
  {
    match sessionId
    case Some(id) => id
    case None => "undefined"
  }

  /** `req.body && req.body.type === "discover" && req.body.payload?.requestManifest`:
      the body is an object whose `type` is the string "discover" and whose
      `payload` is an object with a truthy `requestManifest`. */
  predicate IsDiscovery(body: Option<Json>)
    ensures IsDiscovery(body) <==>
              && body.Some? && body.value.JObj?
              && "type" in body.value.fields && body.value.fields["type"] == JStr("discover")
              && "payload" in body.value.fields && body.value.fields["payload"].JObj?
              && "requestManifest" in body.value.fields["payload"].fields
              && Truthy(body.value.fields["payload"].fields["requestManifest"])
  {
    && body.Some?
    && Truthy(body.value)
    && Prop(body.value, "type") == Some(JStr("discover"))
    && var payload := Prop(body.value, "payload");
       && payload.Some?
       && var flag := Prop(payload.value, "requestManifest");
          flag.Some? && Truthy(flag.value)
  }

  /** A registered tool, as its enumerable properties. */
  type ToolObject = map<string, Json>

  /** What reading `(server as any)._tools` finds: nothing (a falsy value,
      read as `{}`), an object whose values are the tools in insertion order,
      or an exception. */
  datatype ToolsField = Unset | Tools(entries: seq<ToolObject>) | Unreadable(reason: Exception)

  const ManifestKeys: set<string> := {"name", "description", "parameters"}

  /** `{ name, description, parameters }` of one tool; a property the tool
      does not have is left out, as `JSON.stringify` drops `undefined`. */
  function ManifestEntry(tool: ToolObject): (m: Json)
    ensures m.JObj? && m.fields.Keys == tool.Keys * ManifestKeys
    ensures forall k :: k in m.fields ==> m.fields[k] == tool[k]
  {
    JObj(map k | k in ManifestKeys && k in tool :: tool[k])
  }

  /** `getTools()`: the projection of every registered tool, in order, or the
      empty list when there is no collection or reading it throws. */
  function GetTools(field: ToolsField): (tools: seq<Json>)
    ensures field.Tools? ==> |tools| == |field.entries|
    ensures field.Tools? ==> forall i :: 0 <= i < |tools| ==>
              tools[i].JObj? && tools[i].fields.Keys == field.entries[i].Keys * ManifestKeys &&
              forall k :: k in tools[i].fields ==> tools[i].fields[k] == field.entries[i][k]
    ensures !field.Tools? ==> tools == []
  {
    match field
    case Tools(entries) => seq(|entries|, i requires 0 <= i < |entries| => ManifestEntry(entries[i]))
    case _ => []
  }

  /** The `discover_response` document. */
  function DiscoverResponse(tools: seq<Json>): Json
  {
    JObj(map["type" := JStr("discover_response"),
             "payload" := JObj(map["manifest" := JObj(map["tools" := JArr(tools),
                                                          "resources" := JArr([]),
                                                          "prompts" := JArr([])])])])
  }

  /** What `POST /messages` does with a message. */
  datatype Decision =
    | Discover(tools: seq<Json>)      // answer with the manifest
    | Forward(transport: Transport)   // `transport.handlePostMessage(req, res)`
    | NoTransport                     // 400

  /** The decision for a message, given the registry's contents: a discovery
      message is answered whether or not the session exists; any other message
      goes to the transport registered under its session id, or is refused. */
  function Decide(transports: map<string, Transport>, sessionId: Option<string>, body: Option<Json>,
                  tools: ToolsField): (d: Decision)
    ensures d.Discover? <==> IsDiscovery(body)
    ensures d.Discover? ==> d.tools == GetTools(tools)
    ensures d.Forward? <==> !IsDiscovery(body) && SessionKey(sessionId) in transports
    ensures d.Forward? ==> d.transport == transports[SessionKey(sessionId)]
  {
    if IsDiscovery(body) then Discover(GetTools(tools))
    else if SessionKey(sessionId) in transports then Forward(transports[SessionKey(sessionId)])
    else NoTransport
  }

  /** An HTTP answer: a JSON body with a status, or the transport's own. */
  datatype Reply = JsonReply(status: int, body: Json) | ByTransport

  function ErrorBody(message: string): Json
  {
    JObj(map["error" := JStr(message)])
  }

  /** `{ error: "Internal server error", details: String(error) }`. */
  function InternalError(e: Exception, js: Builtins): Json
  {
    JObj(map["error" := JStr("Internal server error"), "details" := JStr(js.errorText(e))])
  }

  /** The answer for a decision; `forwarded` is how the transport's handling
      ended (`None`: it answered; `Some(e)`: it threw `e`). */
  function Respond(d: Decision, forwarded: Option<Exception>, js: Builtins): (r: Reply)
    ensures d.Discover? ==> r == JsonReply(200, DiscoverResponse(d.tools))
    ensures d.Forward? && forwarded.None? ==> r == ByTransport
    ensures d.Forward? && forwarded.Some? ==> r == JsonReply(500, InternalError(forwarded.value, js))
    ensures d.NoTransport? ==> r == JsonReply(400, ErrorBody("No transport found for sessionId"))
  {
    match d
    case Discover(tools) => JsonReply(200, DiscoverResponse(tools))
    case Forward(_) =>
      if forwarded.None? then ByTransport else JsonReply(500, InternalError(forwarded.value, js))
    case NoTransport => JsonReply(400, ErrorBody("No transport found for sessionId"))
  }

  /** A non-discovery message whose session id is not registered is refused
      with 400, whatever the text of the id and whatever else is registered. */
  lemma UnknownSessionRefused(transports: map<string, Transport>, sessionId: Option<string>, body: Option<Json>,
                              tools: ToolsField, forwarded: Option<Exception>, js: Builtins)
    requires !IsDiscovery(body) && SessionKey(sessionId) !in transports
    ensures Respond(Decide(transports, sessionId, body, tools), forwarded, js)
         == JsonReply(400, ErrorBody("No transport found for sessionId"))
  {
  }

  /** The module-level `transports` dictionary. */
  class Registry {
    var transports: map<string, Transport>

    /** Every transport is registered under its own session id. */
    ghost predicate Valid()
      reads this
    {
      forall id :: id in transports ==> transports[id].sessionId == id
    }

    constructor ()
      ensures Valid() && transports == map[]
    {
      transports := map[];
    }

    /** `transports[transport.sessionId] = transport` on `GET /sse`. */
    method Connect(transport: Transport)
      requires Valid()
      modifies this
      ensures Valid()
      ensures transports == old(transports)[transport.sessionId := transport]
    {
      transports := transports[transport.sessionId := transport];
    }

    /** `delete transports[transport.sessionId]` when the stream closes; a
        session id that is not registered leaves the registry as it was. */
    method Close(transport: Transport)
      requires Valid()
      modifies this
      ensures Valid()
      ensures transports == old(transports) - {transport.sessionId}
      ensures transport.sessionId !in old(transports) ==> transports == old(transports)
    {
      transports := transports - {transport.sessionId};
    }

    /** The decision of `POST /messages`. It only reads the registry. */
    method Dispatch(sessionId: Option<string>, body: Option<Json>, tools: ToolsField) returns (d: Decision)
      requires Valid()
      ensures d == Decide(transports, sessionId, body, tools)
      ensures d.Forward? ==> d.transport.sessionId == SessionKey(sessionId)
    {
      var key := SessionKey(sessionId);
      var found := if key in transports then Some(transports[key]) else None;
      if IsDiscovery(body) {
        return Discover(GetTools(tools));
      }
      if found.Some? {
        d := Forward(found.value);
      } else {
        d := NoTransport;
      }
    }
  }

  /** A session's life: while its stream is open its messages reach its
      transport, after the stream closes they are refused, and another
      session's entry is untouched throughout. */
  method SessionLifecycle(a: Transport, b: Transport, body: Option<Json>, tools: ToolsField)
    returns (whileOpen: Decision, afterClose: Decision, other: Decision)
    requires a.sessionId != b.sessionId && !IsDiscovery(body)
    ensures whileOpen == Forward(a) && afterClose == NoTransport && other == Forward(b)
  {
    var registry := new Registry();
    registry.Connect(a);
    registry.Connect(b);
    whileOpen := registry.Dispatch(Some(a.sessionId), body, tools);
    registry.Close(a);
    afterClose := registry.Dispatch(Some(a.sessionId), body, tools);
    other := registry.Dispatch(Some(b.sessionId), body, tools);
  }

  // The dispatcher as the source writes it: `transports` is a plain `{}`, so
  // `transports[sessionId]` also finds what every object inherits from
  // `Object.prototype`. Such a value is truthy but has no `handlePostMessage`,
  // so the call throws a TypeError and the message gets 500 instead of 400.

  /** Property names every plain object inherits, each with a truthy value. */
  const InheritedKeys: set<string> := {
    "constructor", "toString", "toLocaleString", "valueOf", "hasOwnProperty", "isPrototypeOf",
    "propertyIsEnumerable", "__proto__", "__defineGetter__", "__defineSetter__",
    "__lookupGetter__", "__lookupSetter__"
  }

  /** `transports[key]` on a plain object. */
  datatype Lookup = Own(transport: Transport) | Inherited | Missing

  function LookupAsWritten(transports: map<string, Transport>, key: string): (l: Lookup)
    ensures l.Own? <==> key in transports
    ensures l.Own? ==> l.transport == transports[key]
    ensures l.Inherited? <==> key !in transports && key in InheritedKeys
  {
    if key in transports then Own(transports[key])
    else if key in InheritedKeys then Inherited
    else Missing
  }

  /** The reply of `POST /messages` as written: 400 only for an id that is
      neither registered nor an inherited property name; an inherited name
      gets the 500 of the failed call. */
  function DispatchAsWritten(transports: map<string, Transport>, sessionId: Option<string>, body: Option<Json>,
                             tools: ToolsField, forwarded: Option<Exception>, js: Builtins): (r: Reply)
    ensures IsDiscovery(body) ==> r == JsonReply(200, DiscoverResponse(GetTools(tools)))
    ensures r == JsonReply(400, ErrorBody("No transport found for sessionId")) <==>
              !IsDiscovery(body) && SessionKey(sessionId) !in transports && SessionKey(sessionId) !in InheritedKeys
    ensures !IsDiscovery(body) && SessionKey(sessionId) !in transports && SessionKey(sessionId) in InheritedKeys ==>
              r.JsonReply? && r.status == 500
    ensures !IsDiscovery(body) && SessionKey(sessionId) in transports ==>
              r == Respond(Forward(transports[SessionKey(sessionId)]), forwarded, js)
  {
    if IsDiscovery(body) then JsonReply(200, DiscoverResponse(GetTools(tools)))
    else
      match LookupAsWritten(transports, SessionKey(sessionId))
      case Own(_) => if forwarded.None? then ByTransport else JsonReply(500, InternalError(forwarded.value, js))
      case Inherited =>
        JsonReply(500, InternalError(Error("transport.handlePostMessage is not a function"), js))
      case Missing => JsonReply(400, ErrorBody("No transport found for sessionId"))
  }

  /** With no session registered, a message for session "toString" is
      answered 500 by the code as written, where the intended answer (and that
      of `Decide`) is 400. */
  lemma PrototypeKeyAnswered500(js: Builtins, body: Option<Json>)
    requires !IsDiscovery(body)
    ensures DispatchAsWritten(map[], Some("toString"), body, Unset, None, js).status == 500
    ensures Respond(Decide(map[], Some("toString"), body, Unset), None, js).status == 400
  {
    assert "toString" in InheritedKeys;
  }

  /** Apart from the inherited names, the code as written and `Decide` agree. */
  lemma AsWrittenAgreesOffPrototype(transports: map<string, Transport>, sessionId: Option<string>, body: Option<Json>,
                                    tools: ToolsField, forwarded: Option<Exception>, js: Builtins)
    requires SessionKey(sessionId) in transports || SessionKey(sessionId) !in InheritedKeys
    ensures DispatchAsWritten(transports, sessionId, body, tools, forwarded, js)
         == Respond(Decide(transports, sessionId, body, tools), forwarded, js)
  {
  }
}

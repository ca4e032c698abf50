/** The older `GraphQLRouteCollection`: GET and POST handlers over Vapor's `JSON`, with the
    GraphiQL page, the introspection shortcut and the status codes 415, 405 and 400. */
module RouteCollection {
  import opened Wrappers
  import opened Values
  import opened Errors
  import opened JsonConvertible
  import opened Engine
  import opened RouteIntrospection

  /** A request as the handlers read it: the media types of its Accept header, its parsed query
      string (none when the URL has no query) and its body, when it is JSON. */
  datatype LegacyRequest = LegacyRequest(accept: seq<string>, searchQuery: Option<StructuredData>, json: Option<JSON>)

  /** The collection's configuration; its schema provider cannot fail. */
  datatype GraphQLRouteCollection = GraphQLRouteCollection(
    enableGraphiQL: bool,
    enableIntrospectionQuery: bool,
    schemaProvider: LegacyRequest -> ExecutionContext)

  /** The collaborators of this collection: the conversions of `Map.init(json:)` and Vapor's
      parser of JSON text. */
  datatype Vapor = Vapor(collaborators: Collaborators, parseJson: string -> Option<JSON>)

  /** What a handler returns: a `Map` (sent with status 200), a bare response, or the GraphiQL page. */
  datatype Reply = MapReply(value: Map) | StatusReply(status: Status, body: string) | GraphiQLPage

  /** A handler either returns a reply or throws. */
  datatype Response = Replied(reply: Reply) | Thrown(error: Error)

  /** `node[key]?.string`: the text under `key` when the node is an object holding a string there. */
  function StringField(node: StructuredData, key: string): (r: Option<string>)
    ensures r.Some? <==> node.SObject? && key in node.fields && node.fields[key].SString?
    ensures r.Some? ==> r.value == node.fields[key].s
  {
    if node.SObject? && key in node.fields && node.fields[key].SString? then Some(node.fields[key].s) else None
  }

  /** A `catch`-shaped outcome as a handler response. */
  function Respond(o: Outcome): Response {
    match o
    case Succeeded(m) => Replied(MapReply(m))
    case Failed(e) => Thrown(e)
  }

  /** `execute(for:query:variables:operationName:)`: the schema provider is asked first; the
      variables are converted to a `Map` and replaced by [:] unless they are a dictionary; a
      `GraphQLError` becomes the error envelope and other errors are thrown. */
  ghost function Execute(rc: GraphQLRouteCollection, eng: Engine, vapor: Vapor, req: LegacyRequest,
                         query: string, variables: JSON, operationName: Option<string>): (r: Run<Response>)
    ensures |r.calls| >= 1 && r.calls[0] == ContextProvided && |r.calls| <= 2
    ensures |r.calls| == 2 <==> FromJson(variables, vapor.collaborators).Success?
    ensures |r.calls| == 2 ==>
      && r.calls[1].EngineInvoked?
      && r.calls[1].context == rc.schemaProvider(req)
      && r.calls[1].query == query && r.calls[1].operationName == operationName
      && (FromJson(variables, vapor.collaborators).value.Dictionary? ==>
            r.calls[1].variables == FromJson(variables, vapor.collaborators).value.fields)
      && (!FromJson(variables, vapor.collaborators).value.Dictionary? ==> r.calls[1].variables == map[])
    ensures |r.calls| == 2 ==>
      r.outcome == Respond(Catch(eng.graphql(r.calls[1].context, query, r.calls[1].variables, operationName), eng.errorMap))
    ensures |r.calls| == 1 ==>
      r.outcome == Respond(Catch(Failure(FromJson(variables, vapor.collaborators).error), eng.errorMap))
  {
    var ctx := rc.schemaProvider(req);
    match FromJson(variables, vapor.collaborators)
    case Failure(e) => Run(Respond(Catch(Failure(e), eng.errorMap)), [ContextProvided])
    case Success(m) =>
      var vars := if m.Dictionary? then m.fields else map[];
      Run(Respond(Catch(eng.graphql(ctx, query, vars, operationName), eng.errorMap)),
          [ContextProvided, EngineInvoked(ctx, query, vars, operationName)])
  }

  /** `executeIntrospectionQuery(withRequest:)`: the fixed query, the empty object as variables and
      the default operation name nil, through the same `Execute`. */
  ghost function ExecuteIntrospectionQuery(rc: GraphQLRouteCollection, eng: Engine, vapor: Vapor, req: LegacyRequest)
    : (r: Run<Response>)
    ensures r.calls == [ContextProvided, EngineInvoked(rc.schemaProvider(req), IntrospectionQuery, map[], None)]
    ensures r.outcome == Respond(Catch(eng.graphql(rc.schemaProvider(req), IntrospectionQuery, map[], None), eng.errorMap))
  {
    Execute(rc, eng, vapor, req, IntrospectionQuery, JSON(SObject(map[])), None)
  }

  /** `JSON(rawVariables)` as written: Vapor wraps the text as a JSON string; it is not parsed. */
  function GetVariablesAsWritten(raw: Option<string>): (r: JSON)
    ensures raw.None? ==> r == JSON(SObject(map[]))
    ensures raw.Some? ==> r.wrapped.SString? && r.wrapped.s == raw.value
  {
    match raw
    case None => JSON(SObject(map[]))
    case Some(text) => JSON(SString(text))
  }

  /** The evidently intended GET variables: the text parsed as JSON; text that does not parse
      counts as absent, like variables that are not a dictionary. */
  function GetVariables(vapor: Vapor, raw: Option<string>): (r: JSON)
    ensures raw.None? ==> r == JSON(SObject(map[]))
    ensures raw.Some? && vapor.parseJson(raw.value).Some? ==> r == vapor.parseJson(raw.value).value
    ensures raw.Some? && vapor.parseJson(raw.value).None? ==> r == JSON(SObject(map[]))
  {
    match raw
    case None => JSON(SObject(map[]))
    case Some(text) => vapor.parseJson(text).GetOr(JSON(SObject(map[])))
  }

  /** `executeGetQuery`. Without a query string the result is the introspection execution when
      enabled and 405 otherwise; without a string "query" it is 400; otherwise the query, the
      wrapped "variables" text and the operation name of the query string are executed. */
  ghost function ExecuteGetQuery(rc: GraphQLRouteCollection, eng: Engine, vapor: Vapor, req: LegacyRequest)
    : (r: Run<Response>)
    ensures req.searchQuery.None? && rc.enableIntrospectionQuery ==> r == ExecuteIntrospectionQuery(rc, eng, vapor, req)
    ensures req.searchQuery.None? && !rc.enableIntrospectionQuery ==>
      r == Run(Replied(StatusReply(MethodNotAllowed, "")), [])
    ensures req.searchQuery.Some? && StringField(req.searchQuery.value, "query").None? ==>
      r == Run(Replied(StatusReply(BadRequest, "Missing valid query parameter")), [])
    ensures req.searchQuery.Some? && StringField(req.searchQuery.value, "query").Some? ==>
      var sq := req.searchQuery.value;
      r == Execute(rc, eng, vapor, req, StringField(sq, "query").value,
                   GetVariablesAsWritten(StringField(sq, "variables")), StringField(sq, "operationName"))
  {
    match req.searchQuery
    case None =>
      if rc.enableIntrospectionQuery then ExecuteIntrospectionQuery(rc, eng, vapor, req)
      else Run(Replied(StatusReply(MethodNotAllowed, "")), [])
    case Some(sq) =>
      match StringField(sq, "query")
      case None => Run(Replied(StatusReply(BadRequest, "Missing valid query parameter")), [])
      case Some(query) =>
        Execute(rc, eng, vapor, req, query, GetVariablesAsWritten(StringField(sq, "variables")),
                StringField(sq, "operationName"))
  }

  /** As written, GET variables never reach the engine: whatever the query string holds under
      "variables", the engine is invoked with the empty map. */
  lemma GetVariablesDropped(rc: GraphQLRouteCollection, eng: Engine, vapor: Vapor, req: LegacyRequest)
    ensures var r := ExecuteGetQuery(rc, eng, vapor, req);
      forall i :: 0 <= i < |r.calls| && r.calls[i].EngineInvoked? ==> r.calls[i].variables == map[]
  {
  }

  /** The concrete case: `variables={"episode":"EMPIRE"}` reaches the engine as [:]. */
  lemma GetVariablesDroppedExample(rc: GraphQLRouteCollection, eng: Engine, vapor: Vapor, accept: seq<string>, query: string)
    ensures var raw := "{\"episode\":\"EMPIRE\"}";
      var req := LegacyRequest(accept, Some(SObject(map["query" := SString(query), "variables" := SString(raw)])), None);
      ExecuteGetQuery(rc, eng, vapor, req).calls[1].variables == map[]
  {
    var raw := "{\"episode\":\"EMPIRE\"}";
    var sq := SObject(map["query" := SString(query), "variables" := SString(raw)]);
    assert StringField(sq, "query") == Some(query);
  }

  /** `executeGetQuery` corrected: the same, except that the "variables" text is parsed as JSON. */
  ghost function ExecuteGetQueryParsed(rc: GraphQLRouteCollection, eng: Engine, vapor: Vapor, req: LegacyRequest)
    : (r: Run<Response>)
    ensures req.searchQuery.None? && rc.enableIntrospectionQuery ==> r == ExecuteIntrospectionQuery(rc, eng, vapor, req)
    ensures req.searchQuery.None? && !rc.enableIntrospectionQuery ==>
      r == Run(Replied(StatusReply(MethodNotAllowed, "")), [])
    ensures req.searchQuery.Some? && StringField(req.searchQuery.value, "query").None? ==>
      r == Run(Replied(StatusReply(BadRequest, "Missing valid query parameter")), [])
    ensures req.searchQuery.Some? && StringField(req.searchQuery.value, "query").Some? ==>
      var sq := req.searchQuery.value;
      r == Execute(rc, eng, vapor, req, StringField(sq, "query").value,
                   GetVariables(vapor, StringField(sq, "variables")), StringField(sq, "operationName"))
  {
    match req.searchQuery
    case None =>
      if rc.enableIntrospectionQuery then ExecuteIntrospectionQuery(rc, eng, vapor, req)
      else Run(Replied(StatusReply(MethodNotAllowed, "")), [])
    case Some(sq) =>
      match StringField(sq, "query")
      case None => Run(Replied(StatusReply(BadRequest, "Missing valid query parameter")), [])
      case Some(query) =>
        Execute(rc, eng, vapor, req, query, GetVariables(vapor, StringField(sq, "variables")),
                StringField(sq, "operationName"))
  }

  /** The correction changes nothing for a query string without string "variables". */
  lemma ParsedAgreesWithoutVariables(rc: GraphQLRouteCollection, eng: Engine, vapor: Vapor, req: LegacyRequest)
    requires req.searchQuery.None? || StringField(req.searchQuery.value, "variables").None?
    ensures ExecuteGetQueryParsed(rc, eng, vapor, req) == ExecuteGetQuery(rc, eng, vapor, req)
  {
  }

  /** With the correction, GET variables that are a plain JSON object reach the engine converted
      key by key; absent variables reach it as [:]. */
  lemma GetVariablesReachEngine(rc: GraphQLRouteCollection, eng: Engine, vapor: Vapor, req: LegacyRequest, query: string)
    requires req.searchQuery.Some? && StringField(req.searchQuery.value, "query") == Some(query)
    ensures var raw := StringField(req.searchQuery.value, "variables");
      var calls := ExecuteGetQueryParsed(rc, eng, vapor, req).calls;
      && (raw.None? ==> calls == [ContextProvided, EngineInvoked(rc.schemaProvider(req), query, map[],
                                                    StringField(req.searchQuery.value, "operationName"))])
      && (raw.Some? && vapor.parseJson(raw.value).Some? && vapor.parseJson(raw.value).value.wrapped.SObject?
          && Plain(vapor.parseJson(raw.value).value.wrapped) ==>
            && |calls| == 2
            && calls[1].variables.Keys == vapor.parseJson(raw.value).value.wrapped.fields.Keys
            && forall k :: k in calls[1].variables ==>
                 AsStructured(calls[1].variables[k]) == vapor.parseJson(raw.value).value.wrapped.fields[k])
  {
    var raw := StringField(req.searchQuery.value, "variables");
    if raw.Some? && vapor.parseJson(raw.value).Some? {
      var sd := vapor.parseJson(raw.value).value.wrapped;
      if sd.SObject? && Plain(sd) {
        PlainRoundTrip(sd, vapor.collaborators);
      }
    }
  }

  /** `executeGet`: when the Accept header lists text/html the query is never executed: the
      answer is the GraphiQL page when enabled and 415 otherwise. */
  ghost function ExecuteGet(rc: GraphQLRouteCollection, eng: Engine, vapor: Vapor, req: LegacyRequest)
    : (r: Run<Response>)
    ensures "text/html" in req.accept ==>
      r == Run(Replied(if rc.enableGraphiQL then GraphiQLPage else StatusReply(UnsupportedMediaType, "")), [])
    ensures "text/html" !in req.accept ==> r == ExecuteGetQuery(rc, eng, vapor, req)
  {
    if "text/html" in req.accept then
      if rc.enableGraphiQL then Run(Replied(GraphiQLPage), [])
      else Run(Replied(StatusReply(UnsupportedMediaType, "")), [])
    else ExecuteGetQuery(rc, eng, vapor, req)
  }

  /** `payload.get("operationName")` into a `String?`: absent or null gives nil, a string gives
      its text, and any other value throws. */
  function OperationName(payload: StructuredData): (r: Result<Option<string>, Error>)
    ensures r.Failure? <==>
      payload.SObject? && "operationName" in payload.fields
      && !payload.fields["operationName"].SNull? && !payload.fields["operationName"].SString?
    ensures r.Success? && r.value.Some? <==> StringField(payload, "operationName").Some?
    ensures r.Success? && r.value.Some? ==> r.value == StringField(payload, "operationName")
  {
    if !payload.SObject? || "operationName" !in payload.fields then Success(None)
    else
      match payload.fields["operationName"]
      case SNull => Success(None)
      case SString(s) => Success(Some(s))
      case _ => Failure(Decoding(TypeMismatch("operationName")))
  }

  /** `payload.get("variables")` into a `JSON`: the field, or null when it is absent. */
  function PostVariables(payload: StructuredData): (r: JSON)
    ensures payload.SObject? && "variables" in payload.fields ==> r.wrapped == payload.fields["variables"]
    ensures !(payload.SObject? && "variables" in payload.fields) ==> r.wrapped == SNull
  {
    JSON(if payload.SObject? && "variables" in payload.fields then payload.fields["variables"] else SNull)
  }

  /** `executePost`. Without a JSON body the answer is 400 "Invalid JSON" and neither the schema
      provider nor the engine is called; a payload without a string "query", or with an
      operation name that is neither null nor a string, throws before any call; otherwise the
      payload's query, variables and operation name are executed. */
  ghost function ExecutePost(rc: GraphQLRouteCollection, eng: Engine, vapor: Vapor, req: LegacyRequest)
    : (r: Run<Response>)
    ensures req.json.None? ==> r == Run(Replied(StatusReply(BadRequest, "Invalid JSON")), [])
    ensures req.json.Some? && StringField(req.json.value.wrapped, "query").None? ==>
      var p := req.json.value.wrapped;
      r == Run(Thrown(Decoding(if p.SObject? && "query" in p.fields then TypeMismatch("query") else KeyNotFound("query"))), [])
    ensures (req.json.Some? && StringField(req.json.value.wrapped, "query").Some?
             && OperationName(req.json.value.wrapped).Failure?) ==>
      r == Run(Thrown(OperationName(req.json.value.wrapped).error), [])
    ensures req.json.Some? && OperationName(req.json.value.wrapped).Failure? ==> r.outcome.Thrown? && r.calls == []
    ensures (req.json.Some? && StringField(req.json.value.wrapped, "query").Some?
             && OperationName(req.json.value.wrapped).Success?) ==>
      var p := req.json.value.wrapped;
      r == Execute(rc, eng, vapor, req, StringField(p, "query").value, PostVariables(p), OperationName(p).value)
    ensures |r.calls| > 0 ==> r.calls[0] == ContextProvided
  {
    match req.json
    case None => Run(Replied(StatusReply(BadRequest, "Invalid JSON")), [])
    case Some(payload) =>
      var p := payload.wrapped;
      match StringField(p, "query")
      case None =>
        Run(Thrown(Decoding(if p.SObject? && "query" in p.fields then TypeMismatch("query") else KeyNotFound("query"))), [])
      case Some(query) =>
        match OperationName(p)
        case Failure(e) => Run(Thrown(e), [])
        case Success(operationName) => Execute(rc, eng, vapor, req, query, PostVariables(p), operationName)
  }

  /** POST variables that are absent, or are not an object, reach the engine as [:]. */
  lemma PostVariablesDefault(rc: GraphQLRouteCollection, eng: Engine, vapor: Vapor, req: LegacyRequest)
    requires req.json.Some? && req.json.value.wrapped.SObject?
    requires var fields := req.json.value.wrapped.fields;
      "variables" !in fields || fields["variables"].SNull? || fields["variables"].SBool? || fields["variables"].SString?
    ensures var calls := ExecutePost(rc, eng, vapor, req).calls;
      forall i :: 0 <= i < |calls| && calls[i].EngineInvoked? ==> calls[i].variables == map[]
  {
  }

  /** A `GraphQLError` from the engine is answered with the error envelope; any other error is
      thrown; a result is returned as it is. */
  lemma ExecuteErrorMapping(rc: GraphQLRouteCollection, eng: Engine, vapor: Vapor, req: LegacyRequest,
                            query: string, variables: JSON, operationName: Option<string>)
    ensures var r := Execute(rc, eng, vapor, req, query, variables, operationName);
      |r.calls| == 2 ==>
        var result := eng.graphql(r.calls[1].context, query, r.calls[1].variables, operationName);
        && (result.Success? ==> r.outcome == Replied(MapReply(result.value)))
        && (result.Failure? && result.error.GraphQL? ==>
              r.outcome == Replied(MapReply(Envelope(eng.errorMap(result.error.graphQLError)))))
        && (result.Failure? && !result.error.GraphQL? ==> r.outcome == Thrown(result.error))
  {
  }

  /** The introspection execution maps engine errors exactly as any other execution: a
      `GraphQLError` becomes the envelope, any other error is thrown. */
  lemma IntrospectionErrorMapping(rc: GraphQLRouteCollection, eng: Engine, vapor: Vapor, req: LegacyRequest, e: Error)
    requires eng.graphql(rc.schemaProvider(req), IntrospectionQuery, map[], None) == Failure(e)
    ensures e.GraphQL? ==>
      ExecuteIntrospectionQuery(rc, eng, vapor, req).outcome == Replied(MapReply(Envelope(eng.errorMap(e.graphQLError))))
    ensures !e.GraphQL? ==> ExecuteIntrospectionQuery(rc, eng, vapor, req).outcome == Thrown(e)
  {
  }
}

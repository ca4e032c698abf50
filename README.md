# GraphQLRouteCollection in Dafny

A model of the request-handling core of GraphQLRouteCollection. This Swift package serves a
GraphQL schema over HTTP with Vapor, and has two generations of front end.

- **VaporGraphQL**
  - `GraphQLService.execute(_:)` normalises a GET request (from the URL's query items) or a POST
    request (from the JSON body) into a `GraphQLExecutionRequest`.
  - `HTTPGraphQL.execute(_:for:)` replaces an empty request by the introspection query when
    introspection is enabled. It asks the execution-context provider for a context and runs the
    GraphQL engine.
  - A `GraphQLError` becomes the envelope `{"data": {"errors": [e.map]}}`; every other error fails
    the future.
- **GraphQLRouteCollection**: the older `RouteCollection`, which works directly on Vapor's `JSON`.
  - It serves the GraphiQL page or 415 to browsers.
  - It answers 405, or the introspection query, when there is no query string.
  - It answers 400 for a missing query or a body that is not JSON.
  - It runs the engine with the same error envelope.
- **Shared parts**: the conversions between GraphQL's `Map` and Vapor's `StructuredData`, `Map`'s
  `Codable` conformance, and the `withTypedResolve` wrappers, which cast a resolver's `Any`
  arguments to the resolver's types.

## How the model is built

- Modules follow the source files. The shared types are `Values.Map`, `Errors.Error` and
  `Dynamic.Any`.
- Code the core calls but cannot see is passed in as function-valued parameters:
  - the GraphQL engine and `GraphQLError.map` (`Engine.Engine`);
  - the execution-context and schema providers;
  - `bytes.asMap()` and `String(describing: date)`;
  - the numeric conversions of Foundation's `JSONDecoder` and its decoding of a "variables" item;
  - Vapor's parser of JSON text.
- An execution is a `Run`: the outcome together with the sequence of calls made to the provider
  and the engine. "Not called", "called first" and "arguments passed unchanged" are stated on
  that sequence.
- `init(url:)` loops over the query items, reassigning three locals. It is modelled as the method
  `FromUrl`, which is proved equal to the specification function `UrlRequest`.
- The promise `HTTPGraphQL.execute` returns is a small class, `Promise`, whose completion count is
  proved to be one.

## Model

| member | source | states |
|---|---|---|
| JsonConvertible.FromStructured | Sources/GraphQLRouteCollection/Extensions/Map+JSONConvertible.swift:12-38 | null, bool and string map to the same-named case; double stays double; int and uint become int, and a uint above Int64.max fails with an overflow; bytes give what `asMap` gives; a date becomes the string of its description; an array converts element-wise, keeping length and order, and otherwise fails with the failure of its first failing element; an object becomes a dictionary with exactly its keys, each value converted |
| JsonConvertible.ItemsFrom | Sources/GraphQLRouteCollection/Extensions/Map+JSONConvertible.swift:33-34 | `array.map`: succeeds exactly when every element converts, with the elements in order; a failure is the failure of the first element that fails, every element before it converting |
| JsonConvertible.AsStructured | Sources/GraphQLRouteCollection/Extensions/Map+JSONConvertible.swift:44-61 | never produces uint, bytes or a date at any depth; each case maps to its counterpart; arrays and dictionaries convert element-wise with the same length or keys |
| JsonConvertible.MakeJson | Sources/GraphQLRouteCollection/Extensions/Map+JSONConvertible.swift:40-42 | the wrapped data is built from plain cases only |
| JsonConvertible.RoundTrip | Sources/GraphQLRouteCollection/Extensions/Map+JSONConvertible.swift:12-61 | for every `Map` m, converting `asStructuredData()` back gives m |
| JsonConvertible.JsonRoundTrip | Sources/GraphQLRouteCollection/Extensions/Map+JSONConvertible.swift:8-42 | `Map(json: m.makeJSON()) == m` |
| JsonConvertible.FromJson | Sources/GraphQLRouteCollection/Extensions/Map+JSONConvertible.swift:8-10 | `Map(json:)` gives exactly the conversion of the wrapped `StructuredData`: the same value or the same error |
| JsonConvertible.PlainRoundTrip | Sources/GraphQLRouteCollection/Extensions/Map+JSONConvertible.swift:12-61 | plain structured data (no uint, bytes or date) converts without failure and comes back unchanged, so the int/double distinction survives |
| MapCodable.Decode | Sources/VaporGraphQL/Extensions/Map+Codable.swift:8-21 | a boolean becomes `.bool` (Bool is tried first); a number the Int decode accepts becomes that `.int`; any other number becomes the `.double` the Double decode gives, and `.double` arises only that way; a string becomes `.string`; null, arrays and objects become `.null`; the result is never an array or dictionary |
| MapCodable.DecodeDictionary | Sources/VaporGraphQL/GraphQLExecutionRequest.swift:15 | decoding `[String: Map]` succeeds exactly on an object, keeps its keys and decodes each value as a single `Map` |
| MapCodable.Encode | Sources/VaporGraphQL/Extensions/Map+Codable.swift:23-45 | null writes nil; each scalar writes a single value of the same kind; arrays and dictionaries encode element-wise with the same length or keys |
| MapCodable.ScalarRoundTrip | Sources/VaporGraphQL/Extensions/Map+Codable.swift:8-45 | null, bool, int and string decode back from their encoding unchanged |
| MapCodable.DoubleRoundTrip | Sources/VaporGraphQL/Extensions/Map+Codable.swift:8-45 | an encoded double decodes as `.int` when it is exactly an Int, and as the same `.double` otherwise |
| MapCodable.CollectionsCollapse | Sources/VaporGraphQL/Extensions/Map+Codable.swift:8-45 | an encoded array or dictionary decodes to `.null` |
| ExecutionRequests.Make | Sources/VaporGraphQL/GraphQLExecutionRequest.swift:19-23 | absent variables are stored as the empty map; query and operation name are kept |
| ExecutionRequests.FromBody | Sources/VaporGraphQL/GraphQLExecutionRequest.swift:11-17 | succeeds exactly when the body is an object with a string "query"; otherwise fails with the decoding error for a non-object, a missing key, a null or a wrong type; variables are the decoded object or empty; operationName is the string field or nil |
| ExecutionRequests.BodyVariables | Sources/VaporGraphQL/GraphQLExecutionRequest.swift:15 | an object under "variables" gives its decoding as `[String: Map]`; anything else, or no key, gives [:] |
| ExecutionRequests.BodyOperationName | Sources/VaporGraphQL/GraphQLExecutionRequest.swift:16 | the operation name is present exactly when the body holds a string under "operationName", and is that string |
| ExecutionRequests.VariablesNeverFailBody | Sources/VaporGraphQL/GraphQLExecutionRequest.swift:15 | whatever "variables" holds, body decoding succeeds or fails as it would without it, with the same query and operation name |
| ExecutionRequests.LastValue | Sources/VaporGraphQL/GraphQLExecutionRequest.swift:32-48 | none exactly when no non-nil item has the name; otherwise the value of the last such item |
| ExecutionRequests.FirstRejection | Sources/VaporGraphQL/GraphQLExecutionRequest.swift:37-41 | none exactly when no "variables" item is rejected; otherwise the decoder's error for the first rejected one |
| ExecutionRequests.UrlRequest | Sources/VaporGraphQL/GraphQLExecutionRequest.swift:27-50 | fails exactly when some "variables" item is rejected, with the decoding error of the first rejected one; otherwise the query is the last non-nil "query" value or "", the variables come from the last "variables" item or are [:], and the operation name is the last non-nil "operationName" value |
| ExecutionRequests.FromUrl | Sources/VaporGraphQL/GraphQLExecutionRequest.swift:27-50 | the loop over the query items computes exactly `UrlRequest`: the last occurrence of each name wins, the query defaults to "", and the first rejected "variables" value fails the whole init |
| ExecutionRequests.UrlNoItems | Sources/VaporGraphQL/GraphQLExecutionRequest.swift:28-50 | with no query items the request is ("", [:], nil) |
| ExecutionRequests.UrlDefaultQuery | Sources/VaporGraphQL/GraphQLExecutionRequest.swift:28-46 | without a non-nil "query" item the query is "" |
| ExecutionRequests.UrlIgnoresItem | Sources/VaporGraphQL/GraphQLExecutionRequest.swift:33-46 | an item with a nil value or an unrecognised name changes nothing wherever it sits among the items |
| ExecutionRequests.UrlLastWins | Sources/VaporGraphQL/GraphQLExecutionRequest.swift:32-48 | when a name repeats, its last non-nil occurrence gives the field |
| ExecutionRequests.UrlFailsIffRejected | Sources/VaporGraphQL/GraphQLExecutionRequest.swift:37-41 | the URL form fails exactly when some "variables" value is rejected; it does not default to empty |
| GraphQLService.ExecuteGet | Sources/VaporGraphQL/GraphQLService.swift:25-30 | a GET is normalised from its URL and handed to `HTTPGraphQL.execute`; a URL the init rejects fails with its error and nothing is called |
| GraphQLService.ExecutePost | Sources/VaporGraphQL/GraphQLService.swift:32-40 | a POST is decoded from its body and handed to `HTTPGraphQL.execute`; a missing or rejected body fails before anything is called |
| GraphQLService.Execute | Sources/VaporGraphQL/GraphQLService.swift:16-23 | GET and POST are dispatched to their handlers; every other method fails with 405 and reaches neither the provider nor the engine |
| GraphQLService.ExecutionNeedsRequest | Sources/VaporGraphQL/GraphQLService.swift:16-40 | a run that reached the provider came from a GET or POST whose request was normalised successfully |
| GraphQLService.GetPostAgree | Sources/VaporGraphQL/GraphQLService.swift:16-40 | a GET and a POST that normalise to the same request, with the same context, give the same result and calls |
| GraphQLService.QueryOnlyRequestsAgree | Tests/VaporGraphQLTests/HTTPGraphQLTests.swift:27-62 | the test suite's GET (a single query item) and POST (query and empty variables) normalise to the same request |
| HTTPGraphQL.WithProvider | Sources/VaporGraphQL/HTTPGraphQL.swift:26-37 | introspection is enabled by default |
| HTTPGraphQL.TakesShortcut | Sources/VaporGraphQL/HTTPGraphQL.swift:40 | the shortcut applies exactly when the query is "", the variables are empty and introspection is enabled |
| HTTPGraphQL.RunEngine | Sources/VaporGraphQL/HTTPGraphQL.swift:43-67 | the provider is called first; the engine is called only if the provider succeeds, with the request's query, variables and operation name unchanged; the outcome is the engine result after the `catch` clauses |
| HTTPGraphQL.Execute | Sources/VaporGraphQL/HTTPGraphQL.swift:39-68 | an execution is the engine run on the introspection request when the shortcut applies, and on the request itself otherwise |
| HTTPGraphQL.ExecuteIntrospectionQuery | Sources/VaporGraphQL/GraphQLService+Introspection.swift:95-100 | runs the engine on the fixed introspection request through the same path, without re-entering the shortcut |
| HTTPGraphQL.EngineSeesRequest | Sources/VaporGraphQL/HTTPGraphQL.swift:40-56 | when the provider succeeds the engine is called once, after it, with the provider's context; it sees the introspection query with [:] and operation name "" exactly when the shortcut applies, and the request's own query, variables and operation name otherwise |
| HTTPGraphQL.DisabledIntrospectionRunsRequest | Sources/VaporGraphQL/HTTPGraphQL.swift:40-56 | with introspection disabled an empty request goes to the engine like any other |
| HTTPGraphQL.ResultPassesThrough | Sources/VaporGraphQL/HTTPGraphQL.swift:47-56 | a successful engine result is the outcome, unchanged |
| HTTPGraphQL.ErrorMapping | Sources/VaporGraphQL/HTTPGraphQL.swift:46-65 | a `GraphQLError` from the provider or the engine gives a success holding exactly the envelope; any other error gives a failure with that error; a failure only arises that way |
| HTTPGraphQL.ProviderFirst | Sources/VaporGraphQL/HTTPGraphQL.swift:40-46 | the provider is asked once, first, and only engine calls follow |
| HTTPGraphQL.ExecuteAsync | Sources/VaporGraphQL/HTTPGraphQL.swift:39-68 | the returned promise is new and completed exactly once, with the outcome `Execute` gives |
| HTTPGraphQL.Promise.Succeed | Sources/VaporGraphQL/HTTPGraphQL.swift:47-62 | an uncompleted promise is completed once, with the given value |
| HTTPGraphQL.Promise.Fail | Sources/VaporGraphQL/HTTPGraphQL.swift:64 | an uncompleted promise is completed once, with the given error |
| Engine.Envelope | Sources/VaporGraphQL/HTTPGraphQL.swift:57-62 | the envelope has the single key "data", holding the single key "errors", holding a one-element array of the error |
| Engine.Catch | Sources/VaporGraphQL/HTTPGraphQL.swift:57-65 | a result passes through; a `GraphQLError` becomes a success with the envelope; the outcome is a failure exactly for other errors, carrying that error |
| Dynamic.Cast | Sources/VaporGraphQL/withTypedResolve.swift:44 | `as?` yields the payload exactly when the dynamic type matches |
| ServiceIntrospection.IntrospectionQueryShape | Sources/VaporGraphQL/GraphQLService+Introspection.swift:4-90 | the constant starts with "query IntrospectionQuery" and is not empty |
| ServiceIntrospection.IntrospectionRequest | Sources/VaporGraphQL/GraphQLService+Introspection.swift:95-100 | the fixed query (non-empty), empty variables and operation name "" |
| RouteIntrospection.IntrospectionQueryShape | Sources/GraphQLRouteCollection/GraphQLRouteCollection+Introspection.swift:4-83 | the constant starts with "query IntrospectionQuery" and is not empty |
| RouteCollection.StringField | Sources/GraphQLRouteCollection/GraphQLRouteCollection.swift:54-61 | `node[key]?.string` is the text exactly when the node is an object with a string under the key |
| RouteCollection.Execute | Sources/GraphQLRouteCollection/GraphQLRouteCollection.swift:78-95 | the schema provider is called first; the engine is called exactly when the variables convert to a `Map`, with the converted dictionary or [:] when the result is not a dictionary, and with query and operation name unchanged; the outcome is the engine result after the `catch` |
| RouteCollection.ExecuteErrorMapping | Sources/GraphQLRouteCollection/GraphQLRouteCollection.swift:80-94 | an engine result is returned; a `GraphQLError` is answered with the envelope; any other error is thrown |
| RouteCollection.ExecuteIntrospectionQuery | Sources/GraphQLRouteCollection/GraphQLRouteCollection+Introspection.swift:85-87 | the engine runs the fixed query with [:] and operation name nil, after the provider |
| RouteCollection.IntrospectionErrorMapping | Sources/GraphQLRouteCollection/GraphQLRouteCollection+Introspection.swift:85-87 | introspection errors become the same envelope, or are thrown, as in any execution |
| RouteCollection.ExecuteGet | Sources/GraphQLRouteCollection/GraphQLRouteCollection.swift:39-48 | with text/html accepted the answer is the GraphiQL page when enabled and 415 otherwise, with no call; otherwise it is `executeGetQuery` as written |
| RouteCollection.ExecuteGetQuery | Sources/GraphQLRouteCollection/GraphQLRouteCollection.swift:50-63 | without a query string the introspection execution when enabled and 405 otherwise; without a string "query" 400 "Missing valid query parameter" with no call; otherwise the execution of that query, the wrapped "variables" text (or the empty object) and the "operationName" string |
| RouteCollection.GetVariablesAsWritten | Sources/GraphQLRouteCollection/GraphQLRouteCollection.swift:57-60 | no "variables" text gives the empty object; a text gives a JSON string holding that text, unparsed |
| RouteCollection.GetVariables | Sources/GraphQLRouteCollection/GraphQLRouteCollection.swift:57-60 | the correction: no text gives the empty object; a text that parses gives the parsed JSON; one that does not parse gives the empty object |
| RouteCollection.ExecuteGetQueryParsed | Sources/GraphQLRouteCollection/GraphQLRouteCollection.swift:50-63 | the correction of `executeGetQuery`: the same answers, except that the variables executed are the parsed "variables" text |
| RouteCollection.ParsedAgreesWithoutVariables | Sources/GraphQLRouteCollection/GraphQLRouteCollection.swift:50-63 | without a "variables" string the corrected and the as-written GET handling give the same result and calls |
| RouteCollection.GetVariablesReachEngine | Sources/GraphQLRouteCollection/GraphQLRouteCollection.swift:57-62 | with the correction, absent GET variables reach the engine as [:], and variables that parse to a plain object reach it converted, with the same keys |
| RouteCollection.GetVariablesDropped | Sources/GraphQLRouteCollection/GraphQLRouteCollection.swift:57-60 | as written, the engine is never given GET variables other than [:] |
| RouteCollection.GetVariablesDroppedExample | Sources/GraphQLRouteCollection/GraphQLRouteCollection.swift:57-60 | as written, `variables={"episode":"EMPIRE"}` reaches the engine as [:] |
| RouteCollection.ExecutePost | Sources/GraphQLRouteCollection/GraphQLRouteCollection.swift:65-76 | without a JSON body 400 "Invalid JSON" with neither the provider nor the engine called; a payload without a string query, or with an operation name that is neither null nor a string, throws with no call; otherwise the execution of the payload's query, its "variables" (null when absent) and its operation name |
| RouteCollection.OperationName | Sources/GraphQLRouteCollection/GraphQLRouteCollection.swift:71-74 | `payload.get("operationName")` throws exactly when the field is present and neither null nor a string; it gives the text exactly when the field is a string |
| RouteCollection.PostVariables | Sources/GraphQLRouteCollection/GraphQLRouteCollection.swift:70 | the payload's "variables" field, or null when the payload has none |
| RouteCollection.PostVariablesDefault | Sources/GraphQLRouteCollection/GraphQLRouteCollection.swift:70-86 | POST variables that are absent, null, a boolean or a string reach the engine as [:] |
| TypedResolve.FieldResolve1 | Sources/VaporGraphQL/withTypedResolve.swift:42-49 | a source of the wrong type throws `InvalidType`; otherwise the resolver's result, with the cast source and the args unchanged |
| TypedResolve.FieldResolve2 | Sources/VaporGraphQL/withTypedResolve.swift:51-60 | a source or context of the wrong type throws `InvalidType`; otherwise the resolver's result on the cast values and the args |
| TypedResolve.FieldResolve3 | Sources/VaporGraphQL/withTypedResolve.swift:62-71 | as the two-argument form, with the info passed unchanged |
| TypedResolve.TypeResolve1 | Sources/VaporGraphQL/withTypedResolve.swift:73-82 | a value of the wrong type throws `InvalidType`; otherwise the resolver's result on the cast value |
| TypedResolve.TypeResolve2 | Sources/VaporGraphQL/withTypedResolve.swift:84-95 | a value or context of the wrong type throws `InvalidType`; otherwise the resolver's result on the cast values |
| TypedResolve.TypeResolve3 | Sources/VaporGraphQL/withTypedResolve.swift:97-108 | as the two-argument form, with the info passed unchanged |
| TypedResolve.CastFailureSkipsResolver | Sources/VaporGraphQL/withTypedResolve.swift:62-108 | when a cast fails, any two resolvers give the same `InvalidType`, so the resolver plays no part |
| TypedResolve.ResolverResultPassesThrough | Sources/VaporGraphQL/withTypedResolve.swift:62-71 | after the casts, a resolver's error propagates unchanged and its value is returned unaltered |
| TypedResolve.SingleArgumentIgnoresContext | Sources/VaporGraphQL/withTypedResolve.swift:42-82 | the single-argument wrappers give the same result whatever the context and info |
| TypedResolve.OverloadsAgree | Sources/VaporGraphQL/withTypedResolve.swift:42-71 | the three field wrappers are one guard: with a castable context, a resolver that ignores the extra arguments behaves the same under each |
| TypedResolve.TypeOverloadsAgree | Sources/VaporGraphQL/withTypedResolve.swift:73-108 | the same for the three type-resolver wrappers |

## Left out

- Concurrency: the dispatch queue, event loops and futures. An execution is modelled as its
  outcome. The promise is completed synchronously, and only its single completion is modelled.
- `resolveWithFuture`: it only blocks on a future inside `withTypedResolve`.
- Route registration (`build`), the GraphiQL view rendering and the response rendering of `Map`.
  These are router plumbing; the GraphiQL page is a bare reply.
- The StarWars schema, the example `configure.swift` and `Package.swift`. They are fixtures and
  wiring.
- The GraphQL engine, `GraphQLError.map`, `URLComponents`, `JSONDecoder`, `bytes.asMap()`,
  `String(describing:)` and Vapor's JSON parser. They are foreign code, passed in as parameters.
  - The query items of a URL are given already split.
  - The UTF-16 conversion of a "variables" item is taken to succeed: it cannot fail for a Swift
    string.
- Floating point: a `Double` is an opaque 64-bit payload, compared by its bits. The exact-integer
  and nearest-double conversions are parameters.
- `StructuredData` number cases are `Int64`, `UInt64` and opaque doubles. Foundation's bridging of
  booleans and numbers is not modelled.
- JsonConvertible.FromStructured: for an object with several failing entries it returns the
  failure of some failing entry, not a specific one, because Swift's dictionary iteration order
  is unspecified.
- JsonConvertible.FromStructured: for a uint above Int64.max Swift's `Int(_:)` traps and the
  process aborts. The model returns the failure `IntegerOverflow` instead, which a caller could
  catch; the abort itself is not modelled.
- Swift compares `String`s, and dictionary keys, by canonical equivalence of Unicode. The model
  compares strings as sequences of characters, so two canonically equivalent but differently
  encoded keys or query names are distinct here.
- RouteCollection.StringField: Vapor's `.string` accessor also renders numbers and booleans as
  text. The model reads only string nodes.
- RouteCollection.ExecutePost: Vapor's `get` for a missing "variables" is taken to give null, and
  `get` into a `String` reads only string nodes (Vapor also converts numbers and booleans). The
  errors thrown for a missing or mistyped "query" stand for Vapor's own errors, which are not
  modelled.
- RouteCollection.OperationName: `get` into a `String?` reads only string nodes; Vapor would also
  render a number or a boolean as text, where the model throws.
- RouteCollection.ExecuteGet: `renderGraphiQL` may throw while rendering; that error is not
  modelled.
- Swift's distinction between an error thrown synchronously and a failed future is not modelled.
  Both are a failed outcome.
- Dynamic.Cast: `as?` is modelled as equality of run-time type tags. Casts to superclasses,
  protocols and optionals are not modelled.
- Content negotiation for POST bodies: a body is given already decoded as JSON, or absent.

## Findings

| source | as written | input that shows it | evidently intended | confidence | as-written member | corrected member |
|---|---|---|---|---|---|---|
| Sources/GraphQLRouteCollection/GraphQLRouteCollection.swift:57-60 | `JSON(rawVariables)` wraps the query-string text as a JSON string, so `Map(json:).dictionary` is nil and the engine always gets [:] | a GET with `query=...&variables={"episode":"EMPIRE"}` runs with no variables | the text is parsed as JSON, and an object reaches the engine as its variables | medium, not executed | RouteCollection.GetVariablesDropped | RouteCollection.GetVariablesReachEngine |

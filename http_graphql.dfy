/** `HTTPGraphQL`: the service that executes a normalised request, with the introspection
    shortcut and the mapping of errors into the error envelope. */
module HTTPGraphQL {
  import opened Wrappers
  import opened Values
  import opened Errors
  import opened MapCodable
  import opened ExecutionRequests
  import opened Engine
  import opened ServiceIntrospection

  datatype Method = GET | POST | PUT | PATCH | DELETE | HEAD | OPTIONS | OtherMethod(name: string)

  /** An incoming Vapor request as the core reads it: the method, the URL's query items (empty
      when the URL has none) and the body, when it is a JSON document. */
  datatype Request = Request(httpMethod: Method, queryItems: seq<QueryItem>, body: Option<JsonValue>)

  /** The service's configuration. */
  datatype HttpGraphQL = HttpGraphQL(
    enableIntrospection: bool,
    executionContextProvider: Request -> Result<ExecutionContext, Error>)

  /** `init(enableIntrospection:executionContextProvider:)` with its default: introspection on. */
  function WithProvider(provider: Request -> Result<ExecutionContext, Error>): (svc: HttpGraphQL)
    ensures svc.enableIntrospection
  {
    HttpGraphQL(true, provider)
  }

  /** The shortcut test: an empty query with no variables, and introspection enabled. */
  predicate TakesShortcut(svc: HttpGraphQL, er: ExecutionRequest): (b: bool)
    ensures b <==> er.query == "" && er.variables == map[] && svc.enableIntrospection
  {
    assert |er.variables| == 0 <==> er.variables == map[];
    er.query == "" && |er.variables| == 0 && svc.enableIntrospection
  }

  /** The closure queued on the dispatch queue: the provider is asked for the context, the
      engine runs with the request's own fields, and the `catch` clauses shape the outcome. */
  function RunEngine(svc: HttpGraphQL, eng: Engine, er: ExecutionRequest, req: Request): (r: Run<Outcome>)
    ensures |r.calls| >= 1 && r.calls[0] == ContextProvided && |r.calls| <= 2
    ensures |r.calls| == 2 <==> svc.executionContextProvider(req).Success?
    ensures |r.calls| == 2 ==>
      r.calls[1] == EngineInvoked(svc.executionContextProvider(req).value, er.query, er.variables, er.operationName)
    ensures |r.calls| == 1 ==> r.outcome == Catch(Failure(svc.executionContextProvider(req).error), eng.errorMap)
    ensures |r.calls| == 2 ==>
      r.outcome == Catch(eng.graphql(r.calls[1].context, er.query, er.variables, er.operationName), eng.errorMap)
  {
    match svc.executionContextProvider(req)
    case Failure(e) => Run(Catch(Failure(e), eng.errorMap), [ContextProvided])
    case Success(ctx) =>
      Run(Catch(eng.graphql(ctx, er.query, er.variables, er.operationName), eng.errorMap),
          [ContextProvided, EngineInvoked(ctx, er.query, er.variables, er.operationName)])
  }

  /** `execute(_:for:)`. The introspection request cannot take the shortcut again, so the
      recursion through `ExecuteIntrospectionQuery` goes at most one level deep. */
  function Execute(svc: HttpGraphQL, eng: Engine, er: ExecutionRequest, req: Request): (r: Run<Outcome>)
    decreases if TakesShortcut(svc, er) then 2 else 0
    ensures r == RunEngine(svc, eng, if TakesShortcut(svc, er) then IntrospectionRequest() else er, req)
  {
    if TakesShortcut(svc, er) then ExecuteIntrospectionQuery(svc, eng, req)
    else RunEngine(svc, eng, er, req)
  }

  /** `executeIntrospectionQuery(for:)`: `execute` on the fixed introspection request. */
  function ExecuteIntrospectionQuery(svc: HttpGraphQL, eng: Engine, req: Request): (r: Run<Outcome>)
    decreases 1
    ensures r == RunEngine(svc, eng, IntrospectionRequest(), req)
  {
    assert !TakesShortcut(svc, IntrospectionRequest());
    Execute(svc, eng, IntrospectionRequest(), req)
  }

  /** Once the provider gives a context, the engine is invoked once with it: on the introspection
      query, [:] and operation name "" when the request is empty and introspection is enabled,
      and on the request's own fields, unchanged, otherwise. */
  lemma EngineSeesRequest(svc: HttpGraphQL, eng: Engine, er: ExecutionRequest, req: Request)
    requires svc.executionContextProvider(req).Success?
    ensures var calls := Execute(svc, eng, er, req).calls;
      && |calls| == 2 && calls[1].EngineInvoked?
      && calls[1].context == svc.executionContextProvider(req).value
      && (er.query == "" && er.variables == map[] && svc.enableIntrospection ==>
            calls[1].query == IntrospectionQuery && calls[1].variables == map[] && calls[1].operationName == Some(""))
      && (!(er.query == "" && er.variables == map[] && svc.enableIntrospection) ==>
            calls[1].query == er.query && calls[1].variables == er.variables && calls[1].operationName == er.operationName)
  {
  }

  /** With introspection disabled an empty request goes to the engine like any other. */
  lemma DisabledIntrospectionRunsRequest(svc: HttpGraphQL, eng: Engine, er: ExecutionRequest, req: Request)
    requires !svc.enableIntrospection
    ensures Execute(svc, eng, er, req) == RunEngine(svc, eng, er, req)
  {
  }

  /** A successful engine result is returned unchanged. */
  lemma ResultPassesThrough(svc: HttpGraphQL, eng: Engine, er: ExecutionRequest, req: Request, ctx: ExecutionContext, m: Map)
    requires !TakesShortcut(svc, er)
    requires svc.executionContextProvider(req) == Success(ctx)
    requires eng.graphql(ctx, er.query, er.variables, er.operationName) == Success(m)
    ensures Execute(svc, eng, er, req).outcome == Succeeded(m)
  {
  }

  /** A `GraphQLError`, thrown by the provider or by the engine, yields a success holding exactly
      the error envelope; any other error yields a failure carrying that error. On the shortcut
      path the same holds of the introspection request. */
  lemma ErrorMapping(svc: HttpGraphQL, eng: Engine, er: ExecutionRequest, req: Request, e: Error)
    ensures var run := Execute(svc, eng, er, req);
      var executed := if TakesShortcut(svc, er) then IntrospectionRequest() else er;
      var thrown := match svc.executionContextProvider(req)
        case Failure(pe) => Some(pe)
        case Success(ctx) =>
          (match eng.graphql(ctx, executed.query, executed.variables, executed.operationName)
           case Failure(ee) => Some(ee)
           case Success(_) => None);
      && (thrown == Some(e) && e.GraphQL? ==> run.outcome == Succeeded(Envelope(eng.errorMap(e.graphQLError))))
      && (thrown == Some(e) && !e.GraphQL? ==> run.outcome == Failed(e))
      && (run.outcome.Failed? ==> thrown == Some(run.outcome.error) && !run.outcome.error.GraphQL?)
  {
  }

  /** The provider is asked exactly once per execution, and before the engine. */
  lemma ProviderFirst(svc: HttpGraphQL, eng: Engine, er: ExecutionRequest, req: Request)
    ensures var calls := Execute(svc, eng, er, req).calls;
      && calls[0] == ContextProvided
      && forall i :: 0 < i < |calls| ==> calls[i].EngineInvoked?
  {
  }

  /** A promise that is completed at most once, with a value or with an error. */
  class Promise {
    var result: Option<Outcome>
    ghost var completions: nat

    constructor ()
      ensures result == None && completions == 0
    {
      result := None;
      completions := 0;
    }

    /** `promise.succeed(result:)`. */
    method Succeed(value: Map)
      requires result.None?
      modifies this
      ensures result == Some(Succeeded(value)) && completions == old(completions) + 1
    {
      result := Some(Succeeded(value));
      completions := completions + 1;
    }

    /** `promise.fail(error:)`. */
    method Fail(error: Error)
      requires result.None?
      modifies this
      ensures result == Some(Failed(error)) && completions == old(completions) + 1
    {
      result := Some(Failed(error));
      completions := completions + 1;
    }
  }

  /** `execute(_:for:)` with its promise: the future returned is completed exactly once, with the
      outcome `Execute` describes. */
  method ExecuteAsync(svc: HttpGraphQL, eng: Engine, er: ExecutionRequest, req: Request) returns (p: Promise)
    decreases if TakesShortcut(svc, er) then 1 else 0
    ensures fresh(p)
    ensures p.result == Some(Execute(svc, eng, er, req).outcome) && p.completions == 1
  {
    if TakesShortcut(svc, er) {
      p := ExecuteAsync(svc, eng, IntrospectionRequest(), req);
      return;
    }
    p := new Promise();
    match svc.executionContextProvider(req)
    case Failure(e) =>
      if e.GraphQL? {
        p.Succeed(Envelope(eng.errorMap(e.graphQLError)));
      } else {
        p.Fail(e);
      }
    case Success(ctx) =>
      match eng.graphql(ctx, er.query, er.variables, er.operationName)
      case Success(m) =>
        p.Succeed(m);
      case Failure(e) =>
        if e.GraphQL? {
          p.Succeed(Envelope(eng.errorMap(e.graphQLError)));
        } else {
          p.Fail(e);
        }
  }
}

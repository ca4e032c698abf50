/** The GraphQL engine as the core sees it, the per-request execution context, and the
    mapping of engine errors into the error envelope. */
module Engine {
  import opened Wrappers
  import opened Values
  import opened Errors
  import opened Dynamic

  /** A schema handle, left opaque. */
  datatype Schema = Schema(name: string)

  /** What the execution-context provider returns for a request. */
  datatype ExecutionContext = ExecutionContext(schema: Schema, rootValue: Any, context: Any)

  /** The engine `graphql(schema:request:rootValue:contextValue:variableValues:operationName:)`
      and `GraphQLError.map`, both foreign. */
  datatype Engine = Engine(
    graphql: (ExecutionContext, string, map<string, Map>, Option<string>) -> Result<Map, Error>,
    errorMap: GraphQLError -> Map)

  /** A call the core makes into code it cannot see, in the order it makes them. */
  datatype Call =
    | ContextProvided
    | EngineInvoked(context: ExecutionContext, query: string, variables: map<string, Map>, operationName: Option<string>)

  /** How a GraphQL execution ends: a value for the promise, or an error. */
  datatype Outcome = Succeeded(value: Map) | Failed(error: Error)

  /** An outcome with the calls made to reach it. */
  datatype Run<O> = Run(outcome: O, calls: seq<Call>)

  /** `["data": ["errors": [error]]]`, the error envelope. */
  function Envelope(error: Map): (r: Map)
    ensures r.Dictionary? && r.fields.Keys == {"data"}
    ensures r.fields["data"].Dictionary? && r.fields["data"].fields.Keys == {"errors"}
    ensures r.fields["data"].fields["errors"] == Array([error])
  {
    Dictionary(map["data" := Dictionary(map["errors" := Array([error])])])
  }

  /** The `catch` clauses around an execution: a result passes through, a `GraphQLError` becomes
      a successful envelope, and every other error is a failure. */
  function Catch(result: Result<Map, Error>, errorMap: GraphQLError -> Map): (o: Outcome)
    ensures result.Success? ==> o == Succeeded(result.value)
    ensures result.Failure? && result.error.GraphQL? ==> o == Succeeded(Envelope(errorMap(result.error.graphQLError)))
    ensures o.Failed? <==> result.Failure? && !result.error.GraphQL?
    ensures o.Failed? ==> o.error == result.error
  {
    match result
    case Success(m) => Succeeded(m)
    case Failure(GraphQL(e)) => Succeeded(Envelope(errorMap(e)))
    case Failure(e) => Failed(e)
  }
}

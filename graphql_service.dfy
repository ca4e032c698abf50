/** `GraphQLService.execute(_ req:)`: normalises a GET or POST request and hands it to
    `HTTPGraphQL.execute(_:for:)`. */
module GraphQLService {
  import opened Wrappers
  import opened Errors
  import opened MapCodable
  import opened ExecutionRequests
  import opened Engine
  import opened HTTPGraphQL

  /** The decoders the service relies on: `JSONDecoder`'s numeric conversions for the body and
      its decoding of a "variables" query item. */
  datatype Decoders = Decoders(numerics: Numerics, decodeVariables: VariablesDecoder)

  /** `executeGet`: the request is normalised from the URL's query items. */
  function ExecuteGet(svc: HttpGraphQL, eng: Engine, dec: Decoders, req: Request): (r: Run<Outcome>)
    ensures UrlRequest(req.queryItems, dec.decodeVariables).Failure? ==>
      r == Run(Failed(UrlRequest(req.queryItems, dec.decodeVariables).error), [])
    ensures UrlRequest(req.queryItems, dec.decodeVariables).Success? ==>
      r == HTTPGraphQL.Execute(svc, eng, UrlRequest(req.queryItems, dec.decodeVariables).value, req)
  {
    match UrlRequest(req.queryItems, dec.decodeVariables)
    case Failure(e) => Run(Failed(e), [])
    case Success(er) => HTTPGraphQL.Execute(svc, eng, er, req)
  }

  /** `executePost`: the request is decoded from the body; a body that is not JSON, or that
      `init(from:)` rejects, fails before anything is executed. */
  function ExecutePost(svc: HttpGraphQL, eng: Engine, dec: Decoders, req: Request): (r: Run<Outcome>)
    ensures req.body.None? ==> r == Run(Failed(Decoding(DataCorrupted)), [])
    ensures req.body.Some? && FromBody(req.body.value, dec.numerics).Failure? ==>
      r == Run(Failed(FromBody(req.body.value, dec.numerics).error), [])
    ensures req.body.Some? && FromBody(req.body.value, dec.numerics).Success? ==>
      r == HTTPGraphQL.Execute(svc, eng, FromBody(req.body.value, dec.numerics).value, req)
  {
    match req.body
    case None => Run(Failed(Decoding(DataCorrupted)), [])
    case Some(body) =>
      match FromBody(body, dec.numerics)
      case Failure(e) => Run(Failed(e), [])
      case Success(er) => HTTPGraphQL.Execute(svc, eng, er, req)
  }

  /** `execute(_ req:)`: GET and POST are executed; any other method fails with 405 and
      reaches neither the provider nor the engine. */
  function Execute(svc: HttpGraphQL, eng: Engine, dec: Decoders, req: Request): (r: Run<Outcome>)
    ensures req.httpMethod == GET ==> r == ExecuteGet(svc, eng, dec, req)
    ensures req.httpMethod == POST ==> r == ExecutePost(svc, eng, dec, req)
    ensures req.httpMethod != GET && req.httpMethod != POST ==>
      r == Run(Failed(Abort(MethodNotAllowed)), [])
  {
    if req.httpMethod == GET then ExecuteGet(svc, eng, dec, req)
    else if req.httpMethod == POST then ExecutePost(svc, eng, dec, req)
    else Run(Failed(Abort(MethodNotAllowed)), [])
  }

  /** Nothing is executed unless normalisation succeeded: a run that reached the provider
      came from a GET or POST whose request decoded. */
  lemma ExecutionNeedsRequest(svc: HttpGraphQL, eng: Engine, dec: Decoders, req: Request)
    ensures var r := Execute(svc, eng, dec, req);
      |r.calls| > 0 ==>
        || (req.httpMethod == GET && UrlRequest(req.queryItems, dec.decodeVariables).Success?)
        || (req.httpMethod == POST && req.body.Some? && FromBody(req.body.value, dec.numerics).Success?)
  {
  }

  /** A GET and a POST that normalise to the same request, and for which the provider gives the
      same context, produce the same result. */
  lemma GetPostAgree(svc: HttpGraphQL, eng: Engine, dec: Decoders, get: Request, post: Request)
    requires get.httpMethod == GET && post.httpMethod == POST && post.body.Some?
    requires UrlRequest(get.queryItems, dec.decodeVariables).Success?
    requires FromBody(post.body.value, dec.numerics) == UrlRequest(get.queryItems, dec.decodeVariables)
    requires svc.executionContextProvider(get) == svc.executionContextProvider(post)
    ensures Execute(svc, eng, dec, get) == Execute(svc, eng, dec, post)
  {
  }

  /** The GET and POST of the test suite: a query alone in the URL, and a body holding the same
      query with empty variables, normalise to the same request. */
  lemma QueryOnlyRequestsAgree(query: string, dec: Decoders)
    ensures UrlRequest([QueryItem("query", Some(query))], dec.decodeVariables) ==
      FromBody(JObject(map["query" := JString(query), "variables" := JObject(map[])]), dec.numerics)
  {
    var items := [QueryItem("query", Some(query))];
    assert items[..0] == [];
    assert !HasValueFor(items[0], "variables") && !HasValueFor(items[0], "operationName");
  }
}

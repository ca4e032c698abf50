/** The errors the core throws or passes on. */
module Errors {

  /** An error of the GraphQL engine (parse, validation or resolver error). Its wire form is
      `GraphQLError.map`, which the engine gives (see `Engine.Engine.errorMap`). */
  datatype GraphQLError = GraphQLError(message: string)

  /** The HTTP statuses the core chooses itself. */
  datatype Status = BadRequest | MethodNotAllowed | UnsupportedMediaType {
    /** The status code on the wire; every one of them is a client error. */
    function Code(): (c: int)
      ensures 400 <= c < 500
      ensures this == BadRequest <==> c == 400
    {
      match this
      case BadRequest => 400
      case MethodNotAllowed => 405
      case UnsupportedMediaType => 415
    }
  }

  /** Why a decoder rejected its input, after Swift's `DecodingError` cases. */
  datatype DecodeFailure =
    | NotAnObject                // a keyed container was asked of a non-object
    | KeyNotFound(key: string)   // a required key is absent
    | ValueNotFound(key: string) // a required key holds null
    | TypeMismatch(key: string)  // a key holds a value of the wrong kind
    | DataCorrupted              // the bytes are not a JSON document of the expected shape

  datatype Error =
    | GraphQL(graphQLError: GraphQLError)  // caught and turned into an error envelope
    | Abort(status: Status)                // Vapor's `Abort(status)`
    | InvalidType                          // `TypedFieldResolveError.InvalidType`
    | Decoding(failure: DecodeFailure)
    | IntegerOverflow                      // the run-time trap of `Int(uint)` on a value above `Int.max`
    | Foreign(description: string)         // any other error of a collaborator
}

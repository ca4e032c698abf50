/** `withTypedResolve`: wrappers that give a resolver typed arguments by casting the engine's
    `Any` arguments, failing with `InvalidType` when a cast does not succeed. Each overload
    returns a closure; the model states the closure's application to its arguments. */
module TypedResolve {
  import opened Wrappers
  import opened Values
  import opened Errors
  import opened Dynamic

  /** `GraphQLResolveInfo`, left opaque. */
  datatype ResolveInfo = ResolveInfo(fieldName: string)

  // ---------------------------------------------------------------------------------------------
  // Field resolvers: (source, args, context, info) throws -> Any?

  /** The closure of `withTypedResolve(resolver: TypedFieldResolver1)`: only the source is cast. */
  function FieldResolve1<R>(sourceType: TypeTag, resolver: (Payload, Map) -> Result<Option<R>, Error>,
                            source: Any, args: Map, context: Any, info: ResolveInfo): (r: Result<Option<R>, Error>)
    ensures source.dynamicType != sourceType ==> r == Failure(InvalidType)
    ensures source.dynamicType == sourceType ==> r == resolver(source.payload, args)
  {
    match Cast(source, sourceType)
    case None => Failure(InvalidType)
    case Some(typedSource) => resolver(typedSource, args)
  }

  /** The closure of `withTypedResolve(resolver: TypedFieldResolver2)`: source and context are cast. */
  function FieldResolve2<R>(sourceType: TypeTag, contextType: TypeTag,
                            resolver: (Payload, Map, Payload) -> Result<Option<R>, Error>,
                            source: Any, args: Map, context: Any, info: ResolveInfo): (r: Result<Option<R>, Error>)
    ensures source.dynamicType != sourceType || context.dynamicType != contextType ==> r == Failure(InvalidType)
    ensures source.dynamicType == sourceType && context.dynamicType == contextType ==>
      r == resolver(source.payload, args, context.payload)
  {
    match (Cast(source, sourceType), Cast(context, contextType))
    case (Some(typedSource), Some(typedContext)) => resolver(typedSource, args, typedContext)
    case _ => Failure(InvalidType)
  }

  /** The closure of `withTypedResolve(resolver: TypedFieldResolver3)`: as the second, and the
      resolve info is passed on. */
  function FieldResolve3<R>(sourceType: TypeTag, contextType: TypeTag,
                            resolver: (Payload, Map, Payload, ResolveInfo) -> Result<Option<R>, Error>,
                            source: Any, args: Map, context: Any, info: ResolveInfo): (r: Result<Option<R>, Error>)
    ensures source.dynamicType != sourceType || context.dynamicType != contextType ==> r == Failure(InvalidType)
    ensures source.dynamicType == sourceType && context.dynamicType == contextType ==>
      r == resolver(source.payload, args, context.payload, info)
  {
    match (Cast(source, sourceType), Cast(context, contextType))
    case (Some(typedSource), Some(typedContext)) => resolver(typedSource, args, typedContext, info)
    case _ => Failure(InvalidType)
  }

  // ---------------------------------------------------------------------------------------------
  // Type resolvers: (value, context, info) throws -> TypeResolveResult

  /** The closure of `withTypedResolve(resolver: TypedTypeResolver1)`: only the value is cast. */
  function TypeResolve1<R>(valueType: TypeTag, resolver: Payload -> Result<R, Error>,
                           value: Any, context: Any, info: ResolveInfo): (r: Result<R, Error>)
    ensures value.dynamicType != valueType ==> r == Failure(InvalidType)
    ensures value.dynamicType == valueType ==> r == resolver(value.payload)
  {
    match Cast(value, valueType)
    case None => Failure(InvalidType)
    case Some(typedValue) => resolver(typedValue)
  }

  /** The closure of `withTypedResolve(resolver: TypedTypeResolver2)`: value and context are cast. */
  function TypeResolve2<R>(valueType: TypeTag, contextType: TypeTag, resolver: (Payload, Payload) -> Result<R, Error>,
                           value: Any, context: Any, info: ResolveInfo): (r: Result<R, Error>)
    ensures value.dynamicType != valueType || context.dynamicType != contextType ==> r == Failure(InvalidType)
    ensures value.dynamicType == valueType && context.dynamicType == contextType ==>
      r == resolver(value.payload, context.payload)
  {
    match (Cast(value, valueType), Cast(context, contextType))
    case (Some(typedValue), Some(typedContext)) => resolver(typedValue, typedContext)
    case _ => Failure(InvalidType)
  }

  /** The closure of `withTypedResolve(resolver: TypedTypeResolver3)`: as the second, and the
      resolve info is passed on. */
  function TypeResolve3<R>(valueType: TypeTag, contextType: TypeTag,
                           resolver: (Payload, Payload, ResolveInfo) -> Result<R, Error>,
                           value: Any, context: Any, info: ResolveInfo): (r: Result<R, Error>)
    ensures value.dynamicType != valueType || context.dynamicType != contextType ==> r == Failure(InvalidType)
    ensures value.dynamicType == valueType && context.dynamicType == contextType ==>
      r == resolver(value.payload, context.payload, info)
  {
    match (Cast(value, valueType), Cast(context, contextType))
    case (Some(typedValue), Some(typedContext)) => resolver(typedValue, typedContext, info)
    case _ => Failure(InvalidType)
  }

  // ---------------------------------------------------------------------------------------------
  // Properties

  /** When a cast fails the resolver is not consulted: any two resolvers give the same
      `InvalidType` failure. */
  lemma CastFailureSkipsResolver<R>(sourceType: TypeTag, contextType: TypeTag,
                                    f1: (Payload, Map, Payload, ResolveInfo) -> Result<Option<R>, Error>,
                                    f2: (Payload, Map, Payload, ResolveInfo) -> Result<Option<R>, Error>,
                                    t1: (Payload, Payload, ResolveInfo) -> Result<R, Error>,
                                    t2: (Payload, Payload, ResolveInfo) -> Result<R, Error>,
                                    source: Any, args: Map, context: Any, info: ResolveInfo)
    requires Cast(source, sourceType).None? || Cast(context, contextType).None?
    ensures FieldResolve3(sourceType, contextType, f1, source, args, context, info) ==
            FieldResolve3(sourceType, contextType, f2, source, args, context, info) == Failure(InvalidType)
    ensures TypeResolve3(sourceType, contextType, t1, source, context, info) ==
            TypeResolve3(sourceType, contextType, t2, source, context, info) == Failure(InvalidType)
  {
  }

  /** After a successful cast the wrapper neither inspects nor alters what the resolver returns:
      a value is returned as it is, and an error the resolver throws propagates unchanged. */
  lemma ResolverResultPassesThrough<R>(sourceType: TypeTag, contextType: TypeTag,
                                       resolver: (Payload, Map, Payload, ResolveInfo) -> Result<Option<R>, Error>,
                                       source: Any, args: Map, context: Any, info: ResolveInfo, e: Error)
    requires source.dynamicType == sourceType && context.dynamicType == contextType
    ensures resolver(source.payload, args, context.payload, info) == Failure(e) ==>
      FieldResolve3(sourceType, contextType, resolver, source, args, context, info) == Failure(e)
    ensures resolver(source.payload, args, context.payload, info).Success? ==>
      FieldResolve3(sourceType, contextType, resolver, source, args, context, info) ==
        Success(resolver(source.payload, args, context.payload, info).value)
  {
  }

  /** The single-argument wrappers ignore the context and the info altogether, even a context of
      the wrong type. */
  lemma SingleArgumentIgnoresContext<R, T>(sourceType: TypeTag, resolver: (Payload, Map) -> Result<Option<R>, Error>,
                                           typeResolver: Payload -> Result<T, Error>,
                                           source: Any, args: Map, c1: Any, c2: Any, i1: ResolveInfo, i2: ResolveInfo)
    ensures FieldResolve1(sourceType, resolver, source, args, c1, i1) == FieldResolve1(sourceType, resolver, source, args, c2, i2)
    ensures TypeResolve1(sourceType, typeResolver, source, c1, i1) == TypeResolve1(sourceType, typeResolver, source, c2, i2)
  {
  }

  /** The overloads are one guard at three arities: a resolver that does not use the extra
      argument behaves under the larger overload as under the smaller one, once the context casts. */
  lemma OverloadsAgree<R>(sourceType: TypeTag, contextType: TypeTag, resolver: (Payload, Map) -> Result<Option<R>, Error>,
                          source: Any, args: Map, context: Any, info: ResolveInfo)
    requires context.dynamicType == contextType
    ensures var r2 := (s: Payload, a: Map, c: Payload) => resolver(s, a);
      var r3 := (s: Payload, a: Map, c: Payload, i: ResolveInfo) => resolver(s, a);
      && FieldResolve2(sourceType, contextType, r2, source, args, context, info) == FieldResolve1(sourceType, resolver, source, args, context, info)
      && FieldResolve3(sourceType, contextType, r3, source, args, context, info) == FieldResolve1(sourceType, resolver, source, args, context, info)
  {
  }

  /** The same agreement for the type-resolver overloads. */
  lemma TypeOverloadsAgree<R>(valueType: TypeTag, contextType: TypeTag, resolver: Payload -> Result<R, Error>,
                              value: Any, context: Any, info: ResolveInfo)
    requires context.dynamicType == contextType
    ensures var r2 := (v: Payload, c: Payload) => resolver(v);
      var r3 := (v: Payload, c: Payload, i: ResolveInfo) => resolver(v);
      && TypeResolve2(valueType, contextType, r2, value, context, info) == TypeResolve1(valueType, resolver, value, context, info)
      && TypeResolve3(valueType, contextType, r3, value, context, info) == TypeResolve1(valueType, resolver, value, context, info)
  {
  }
}

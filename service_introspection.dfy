/** The fixed introspection query of `GraphQLService` and the request that carries it. */
module ServiceIntrospection {
  import opened Wrappers
  import opened ExecutionRequests
  import opened Text

  /** The first line of the query. */
  const FirstLine: string := "query IntrospectionQuery {"

  /** The remaining lines of the query: the schema's types, fields, arguments, directives, enum values and
      type references four `ofType` levels deep. */
  const RestLines: seq<string> := [
    "  __schema {",
    "    queryType {",
    "      name",
    "    }",
    "    mutationType {",
    "      name",
    "    }",
    "    subscriptionType {",
    "      name",
    "    }",
    "    types {",
    "      ...FullType",
    "    }",
    "    directives {",
    "      name",
    "      description",
    "      args {",
    "        ...InputValue",
    "      }",
    "      onOperation",
    "      onFragment",
    "      onField",
    "    }",
    "  }",
    "}",
    "",
    "fragment FullType on __Type {",
    "  kind",
    "  name",
    "  description",
    "  fields(includeDeprecated: true) {",
    "    name",
    "    description",
    "    args {",
    "      ...InputValue",
    "    }",
    "    type {",
    "      ...TypeRef",
    "    }",
    "    isDeprecated",
    "    deprecationReason",
    "  }",
    "  inputFields {",
    "    ...InputValue",
    "  }",
    "  interfaces {",
    "    ...TypeRef",
    "  }",
    "  enumValues(includeDeprecated: true) {",
    "    name",
    "    description",
    "    isDeprecated",
    "    deprecationReason",
    "  }",
    "  possibleTypes {",
    "    ...TypeRef",
    "  }",
    "}",
    "",
    "fragment InputValue on __InputValue {",
    "  name",
    "  description",
    "  type {",
    "    ...TypeRef",
    "  }",
    "  defaultValue",
    "}",
    "",
    "fragment TypeRef on __Type {",
    "  kind",
    "  name",
    "  ofType {",
    "    kind",
    "    name",
    "    ofType {",
    "      kind",
    "      name",
    "      ofType {",
    "        kind",
    "        name",
    "      }",
    "    }",
    "  }",
    "}"]

  /** `introspectionQuery`. */
  const IntrospectionQuery: string := FirstLine + "\n" + Unlines(RestLines)

  /** The query starts with `query IntrospectionQuery`, so it is never empty. */
  lemma IntrospectionQueryShape()
    ensures "query IntrospectionQuery" <= IntrospectionQuery
    ensures IntrospectionQuery != ""
  {
    assert "query IntrospectionQuery" <= FirstLine;
    assert FirstLine <= IntrospectionQuery;
  }

  /** The request `executeIntrospectionQuery(for:)` executes: the fixed query, no variables and
      the operation name "". */
  function IntrospectionRequest(): (r: ExecutionRequest)
    ensures r.query == IntrospectionQuery && r.query != ""
    ensures r.variables == map[] && r.operationName == Some("")
  {
    IntrospectionQueryShape();
    Make(IntrospectionQuery, Some(map[]), Some(""))
  }
}

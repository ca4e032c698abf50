/** The fixed introspection query of the older `GraphQLRouteCollection`. */
module RouteIntrospection {
  import opened Text

  /** The first line of the query. */
  const FirstLine: string := "query IntrospectionQuery {"

  /** The remaining lines of the query: the same selection as the service's, with the directives'
      `locations` in addition. */
  const RestLines: seq<string> := [
    "    __schema {",
    "        queryType { name }",
    "        mutationType { name }",
    "        subscriptionType { name }",
    "        types {",
    "            ...FullType",
    "        }",
    "        directives {",
    "            name",
    "            description",
    "            locations",
    "            args {",
    "                ...InputValue",
    "            }",
    "            onOperation",
    "            onFragment",
    "            onField",
    "        }",
    "    }",
    "}",
    "",
    "fragment FullType on __Type {",
    "    kind",
    "    name",
    "    description",
    "    fields(includeDeprecated: true) {",
    "        name",
    "        description",
    "        args {",
    "            ...InputValue",
    "        }",
    "        type {",
    "            ...TypeRef",
    "        }",
    "        isDeprecated",
    "        deprecationReason",
    "    }",
    "    inputFields {",
    "        ...InputValue",
    "    }",
    "    interfaces {",
    "        ...TypeRef",
    "    }",
    "    enumValues(includeDeprecated: true) {",
    "        name",
    "        description",
    "        isDeprecated",
    "        deprecationReason",
    "    }",
    "    possibleTypes {",
    "        ...TypeRef",
    "    }",
    "}",
    "",
    "fragment InputValue on __InputValue {",
    "    name",
    "    description",
    "    type { ...TypeRef }",
    "    defaultValue",
    "}",
    "",
    "fragment TypeRef on __Type {",
    "    kind",
    "    name",
    "    ofType {",
    "        kind",
    "        name",
    "        ofType {",
    "            kind",
    "            name",
    "            ofType {",
    "                kind",
    "                name",
    "            }",
    "        }",
    "    }",
    "}"]

  /** `GraphQLRouteCollection.introspectionQuery`. */
  const IntrospectionQuery: string := FirstLine + "\n" + Unlines(RestLines)

  /** The query starts with `query IntrospectionQuery`, so it is never empty. */
  lemma IntrospectionQueryShape()
    ensures "query IntrospectionQuery" <= IntrospectionQuery
    ensures IntrospectionQuery != ""
  {
    assert "query IntrospectionQuery" <= FirstLine;
    assert FirstLine <= IntrospectionQuery;
  }
}

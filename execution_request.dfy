/** `GraphQLExecutionRequest`: the (query, variables, operationName) triple, built from a POST
    body or from the query items of a URL. */
module ExecutionRequests {
  import opened Wrappers
  import opened Values
  import opened Errors
  import opened MapCodable

  datatype ExecutionRequest = ExecutionRequest(
    query: string,
    variables: map<string, Map>,
    operationName: Option<string>)

  /** The memberwise `init(query:variables:operationName:)`: absent variables become the empty map. */
  function Make(query: string, variables: Option<map<string, Map>>, operationName: Option<string>)
    : (r: ExecutionRequest)
    ensures r.query == query && r.operationName == operationName
    ensures variables.None? ==> r.variables == map[]
    ensures variables.Some? ==> r.variables == variables.value
  {
    ExecutionRequest(query, variables.GetOr(map[]), operationName)
  }

  // ---------------------------------------------------------------------------------------------
  // init(from:): the POST body

  /** `try? container.decode([String: Map].self, forKey: .variables) ?? [:]`. */
  function BodyVariables(fields: map<string, JsonValue>, num: Numerics): (r: map<string, Map>)
    ensures "variables" in fields && fields["variables"].JObject? ==> Some(r) == DecodeDictionary(fields["variables"], num)
    ensures !("variables" in fields && fields["variables"].JObject?) ==> r == map[]
  {
    if "variables" in fields then DecodeDictionary(fields["variables"], num).GetOr(map[]) else map[]
  }

  /** `try? container.decode(String.self, forKey: .operationName)`. */
  function BodyOperationName(fields: map<string, JsonValue>): (r: Option<string>)
    ensures r.Some? <==> "operationName" in fields && fields["operationName"].JString?
    ensures r.Some? ==> r.value == fields["operationName"].s
  {
    if "operationName" in fields && fields["operationName"].JString? then Some(fields["operationName"].s)
    else None
  }

  /** `init(from:)`: the query is required and must be a string; variables and operation name
      fall back to their defaults instead of failing. */
  function FromBody(body: JsonValue, num: Numerics): (r: Result<ExecutionRequest, Error>)
    ensures r.Success? <==> body.JObject? && "query" in body.fields && body.fields["query"].JString?
    ensures !body.JObject? ==> r == Failure(Decoding(NotAnObject))
    ensures body.JObject? && "query" !in body.fields ==> r == Failure(Decoding(KeyNotFound("query")))
    ensures body.JObject? && "query" in body.fields && body.fields["query"].JNull? ==>
      r == Failure(Decoding(ValueNotFound("query")))
    ensures body.JObject? && "query" in body.fields && !body.fields["query"].JNull? && !body.fields["query"].JString? ==>
      r == Failure(Decoding(TypeMismatch("query")))
    ensures r.Success? ==> r.value.query == body.fields["query"].s
    ensures r.Success? && !("variables" in body.fields && body.fields["variables"].JObject?) ==>
      r.value.variables == map[]
    ensures r.Success? && "variables" in body.fields && body.fields["variables"].JObject? ==>
      Some(r.value.variables) == DecodeDictionary(body.fields["variables"], num)
    ensures r.Success? ==>
      (r.value.operationName.Some? <==> "operationName" in body.fields && body.fields["operationName"].JString?)
    ensures r.Success? && r.value.operationName.Some? ==> r.value.operationName.value == body.fields["operationName"].s
  {
    match body
    case JObject(fields) =>
      if "query" !in fields then Failure(Decoding(KeyNotFound("query")))
      else
        (match fields["query"]
         case JString(q) => Success(ExecutionRequest(q, BodyVariables(fields, num), BodyOperationName(fields)))
         case JNull => Failure(Decoding(ValueNotFound("query")))
         case _ => Failure(Decoding(TypeMismatch("query"))))
    case _ => Failure(Decoding(NotAnObject))
  }

  /** Whatever the body holds under "variables", decoding succeeds or fails exactly as it would
      without that field, and the query and operation name are the same. */
  lemma VariablesNeverFailBody(fields: map<string, JsonValue>, v: JsonValue, num: Numerics)
    ensures var with := FromBody(JObject(fields["variables" := v]), num);
            var without := FromBody(JObject(fields - {"variables"}), num);
            && with.Success? == without.Success?
            && (with.Success? ==> with.value.query == without.value.query && with.value.operationName == without.value.operationName)
  {
    assert "variables" != "query" && "variables" != "operationName";
  }

  // ---------------------------------------------------------------------------------------------
  // init(url:): the query items of a URL

  /** A URL query item: a name and, unless the item is a bare name, a value. */
  datatype QueryItem = QueryItem(name: string, value: Option<string>)

  /** `JSONDecoder().decode([String: Map].self, from:)` applied to a query item's text. */
  type VariablesDecoder = string -> Result<map<string, Map>, DecodeFailure>

  /** Whether `item` is a non-nil item called `name`. */
  predicate HasValueFor(item: QueryItem, name: string) {
    item.name == name && item.value.Some?
  }

  /** Whether `item` is a "variables" item whose value the decoder rejects. */
  predicate Rejects(item: QueryItem, decode: VariablesDecoder) {
    HasValueFor(item, "variables") && decode(item.value.value).Failure?
  }

  /** The value of the last non-nil item called `name`. */
  function LastValue(items: seq<QueryItem>, name: string): (r: Option<string>)
    ensures r.None? <==> forall i :: 0 <= i < |items| ==> !HasValueFor(items[i], name)
    ensures r.Some? ==>
      exists i :: 0 <= i < |items| && HasValueFor(items[i], name) && items[i].value == r
        && forall j :: i < j < |items| ==> !HasValueFor(items[j], name)
  {
    if |items| == 0 then None
    else
      var last := items[|items| - 1];
      if HasValueFor(last, name) then last.value else LastValue(items[..|items| - 1], name)
  }

  /** The decoder's error for the first "variables" item it rejects, if any. */
  function FirstRejection(items: seq<QueryItem>, decode: VariablesDecoder): (r: Option<DecodeFailure>)
    ensures r.None? <==> forall i :: 0 <= i < |items| ==> !Rejects(items[i], decode)
    ensures r.Some? ==>
      exists i :: 0 <= i < |items| && Rejects(items[i], decode)
        && decode(items[i].value.value).error == r.value
        && forall j :: 0 <= j < i ==> !Rejects(items[j], decode)
  {
    if |items| == 0 then None
    else
      var front := items[..|items| - 1];
      assert forall i :: 0 <= i < |front| ==> front[i] == items[i];
      var earlier := FirstRejection(front, decode);
      var last := items[|items| - 1];
      if earlier.Some? then earlier
      else if Rejects(last, decode) then Some(decode(last.value.value).error)
      else None
  }

  /** The variables of the last "variables" item, or the empty map. */
  function UrlVariables(items: seq<QueryItem>, decode: VariablesDecoder): map<string, Map> {
    match LastValue(items, "variables")
    case None => map[]
    case Some(text) => (match decode(text) case Success(vars) => vars case Failure(_) => map[])
  }

  /** What `init(url:)` computes: the last occurrence of each recognised name wins, the query
      defaults to "", and a "variables" value the decoder rejects makes the whole init fail. */
  function UrlRequest(items: seq<QueryItem>, decode: VariablesDecoder): (r: Result<ExecutionRequest, Error>)
    ensures r.Failure? <==> FirstRejection(items, decode).Some?
    ensures r.Failure? ==> r.error == Decoding(FirstRejection(items, decode).value)
    ensures r.Success? ==>
      && r.value.query == LastValue(items, "query").GetOr("")
      && r.value.variables == UrlVariables(items, decode)
      && r.value.operationName == LastValue(items, "operationName")
  {
    match FirstRejection(items, decode)
    case Some(failure) => Failure(Decoding(failure))
    case None =>
      Success(Make(LastValue(items, "query").GetOr(""), Some(UrlVariables(items, decode)),
                   LastValue(items, "operationName")))
  }

  /** `init(url:)`: the `forEach` over the query items, reassigning the three locals. */
  method FromUrl(items: seq<QueryItem>, decode: VariablesDecoder) returns (r: Result<ExecutionRequest, Error>)
    ensures r == UrlRequest(items, decode)
  {
    var query := "";
    var variables: map<string, Map> := map[];
    var operationName: Option<string> := None;
    var n := 0;
    while n < |items|
      invariant 0 <= n <= |items|
      invariant query == LastValue(items[..n], "query").GetOr("")
      invariant operationName == LastValue(items[..n], "operationName")
      invariant FirstRejection(items[..n], decode).None?
      invariant variables == UrlVariables(items[..n], decode)
    {
      var item := items[n];
      Step(items, n, decode);
      if item.value.Some? {
        var value := item.value.value;
        if item.name == "query" {
          query := value;
        } else if item.name == "variables" {
          match decode(value)
          case Failure(failure) =>
            FirstRejectionPrefix(items, n + 1, decode);
            return Failure(Decoding(failure));
          case Success(vars) =>
            variables := vars;
        } else if item.name == "operationName" {
          operationName := Some(value);
        }
      }
      n := n + 1;
    }
    assert items[..n] == items;
    r := Success(Make(query, Some(variables), operationName));
  }

  /** One more item: how the three fields and the first rejection of the prefix change. */
  lemma Step(items: seq<QueryItem>, n: nat, decode: VariablesDecoder)
    requires n < |items|
    ensures LastValue(items[..n + 1], "query") ==
      if HasValueFor(items[n], "query") then items[n].value else LastValue(items[..n], "query")
    ensures LastValue(items[..n + 1], "operationName") ==
      if HasValueFor(items[n], "operationName") then items[n].value else LastValue(items[..n], "operationName")
    ensures UrlVariables(items[..n + 1], decode) ==
      if HasValueFor(items[n], "variables") && decode(items[n].value.value).Success? then decode(items[n].value.value).value
      else if HasValueFor(items[n], "variables") then map[]
      else UrlVariables(items[..n], decode)
    ensures FirstRejection(items[..n + 1], decode) ==
      if FirstRejection(items[..n], decode).Some? then FirstRejection(items[..n], decode)
      else if Rejects(items[n], decode) then Some(decode(items[n].value.value).error)
      else None
  {
    assert items[..n + 1][..n] == items[..n];
  }

  /** A rejection in a prefix is the rejection of the whole sequence. */
  lemma {:induction false} FirstRejectionPrefix(items: seq<QueryItem>, n: nat, decode: VariablesDecoder)
    requires n <= |items|
    requires FirstRejection(items[..n], decode).Some?
    ensures FirstRejection(items, decode) == FirstRejection(items[..n], decode)
    decreases |items| - n
  {
    if n < |items| {
      assert items[..n + 1][..n] == items[..n];
      FirstRejectionPrefix(items, n + 1, decode);
    } else {
      assert items[..n] == items;
    }
  }

  /** With no query items at all the request is ("", [:], nil). */
  lemma UrlNoItems(decode: VariablesDecoder)
    ensures UrlRequest([], decode) == Success(ExecutionRequest("", map[], None))
  {
  }

  /** Without a non-nil "query" item the query is "". */
  lemma UrlDefaultQuery(items: seq<QueryItem>, decode: VariablesDecoder)
    requires forall i :: 0 <= i < |items| ==> !HasValueFor(items[i], "query")
    requires UrlRequest(items, decode).Success?
    ensures UrlRequest(items, decode).value.query == ""
  {
  }

  /** One unfolding of `LastValue` at the last item. */
  lemma LastValueLast(items: seq<QueryItem>, name: string)
    requires |items| > 0
    ensures var last := items[|items| - 1];
      LastValue(items, name) == if HasValueFor(last, name) then last.value else LastValue(items[..|items| - 1], name)
  {
  }

  /** An item without a value for `name` plays no part in `LastValue`, wherever it sits. */
  lemma {:induction false} LastValueSkips(pre: seq<QueryItem>, item: QueryItem, post: seq<QueryItem>, name: string)
    requires !HasValueFor(item, name)
    ensures LastValue(pre + [item] + post, name) == LastValue(pre + post, name)
    decreases |post|
  {
    var with, without := pre + [item] + post, pre + post;
    LastValueLast(with, name);
    if |post| == 0 {
      assert with[..|with| - 1] == pre && with[|with| - 1] == item && without == pre;
    } else {
      var front := post[..|post| - 1];
      var last := post[|post| - 1];
      LastValueLast(without, name);
      assert with[..|with| - 1] == pre + [item] + front && with[|with| - 1] == last;
      assert without[..|without| - 1] == pre + front && without[|without| - 1] == last;
      LastValueSkips(pre, item, front, name);
    }
  }

  /** One unfolding of `FirstRejection` at the last item. */
  lemma FirstRejectionLast(items: seq<QueryItem>, decode: VariablesDecoder)
    requires |items| > 0
    ensures var front, last := items[..|items| - 1], items[|items| - 1];
      FirstRejection(items, decode) ==
        if FirstRejection(front, decode).Some? then FirstRejection(front, decode)
        else if Rejects(last, decode) then Some(decode(last.value.value).error)
        else None
  {
  }

  /** An item the decoder does not reject plays no part in `FirstRejection`, wherever it sits. */
  lemma {:induction false} FirstRejectionSkips(pre: seq<QueryItem>, item: QueryItem, post: seq<QueryItem>,
                                              decode: VariablesDecoder)
    requires !Rejects(item, decode)
    ensures FirstRejection(pre + [item] + post, decode) == FirstRejection(pre + post, decode)
    decreases |post|
  {
    var with, without := pre + [item] + post, pre + post;
    FirstRejectionLast(with, decode);
    if |post| == 0 {
      assert with[..|with| - 1] == pre && with[|with| - 1] == item && without == pre;
    } else {
      var front := post[..|post| - 1];
      var last := post[|post| - 1];
      FirstRejectionLast(without, decode);
      assert with[..|with| - 1] == pre + [item] + front && with[|with| - 1] == last;
      assert without[..|without| - 1] == pre + front && without[|without| - 1] == last;
      FirstRejectionSkips(pre, item, front, decode);
    }
  }

  /** An item whose value is nil, or whose name is not recognised, changes nothing, wherever it
      sits among the query items. */
  lemma UrlIgnoresItem(pre: seq<QueryItem>, item: QueryItem, post: seq<QueryItem>, decode: VariablesDecoder)
    requires item.value.None? || (item.name != "query" && item.name != "variables" && item.name != "operationName")
    ensures UrlRequest(pre + [item] + post, decode) == UrlRequest(pre + post, decode)
  {
    LastValueSkips(pre, item, post, "query");
    LastValueSkips(pre, item, post, "variables");
    LastValueSkips(pre, item, post, "operationName");
    FirstRejectionSkips(pre, item, post, decode);
  }

  /** When a name repeats, its last non-nil occurrence determines the field. */
  lemma {:induction false} UrlLastWins(before: seq<QueryItem>, name: string, value: string, after: seq<QueryItem>)
    requires forall i :: 0 <= i < |after| ==> !HasValueFor(after[i], name)
    ensures LastValue(before + [QueryItem(name, Some(value))] + after, name) == Some(value)
    decreases |after|
  {
    var all := before + [QueryItem(name, Some(value))] + after;
    if |after| == 0 {
      assert all[|all| - 1] == QueryItem(name, Some(value));
    } else {
      var shorter := after[..|after| - 1];
      assert all[..|all| - 1] == before + [QueryItem(name, Some(value))] + shorter;
      assert all[|all| - 1] == after[|after| - 1];
      UrlLastWins(before, name, value, shorter);
    }
  }

  /** The URL form fails exactly when some non-nil "variables" item is rejected by the decoder:
      it does not default to empty variables. */
  lemma UrlFailsIffRejected(items: seq<QueryItem>, decode: VariablesDecoder)
    ensures UrlRequest(items, decode).Failure? <==> exists i :: 0 <= i < |items| && Rejects(items[i], decode)
  {
  }
}

/** `Map`'s `Codable` conformance: the ordered scalar decoder and the encoder. */
module MapCodable {
  import opened Wrappers
  import opened Values

  /** A JSON number as Foundation's `JSONDecoder` sees it: written without fraction or exponent
      (any size), or otherwise. */
  datatype JsonNumber = Integral(i: int) | Fractional(d: Float64)

  /** A JSON document, the input of `JSONDecoder` and the output of `JSONEncoder`. */
  datatype JsonValue =
    | JNull
    | JBool(b: bool)
    | JNumber(n: JsonNumber)
    | JString(s: string)
    | JArray(items: seq<JsonValue>)
    | JObject(fields: map<string, JsonValue>)

  /** Foundation's numeric conversions, left opaque: the `Int` a double denotes exactly, if any,
      and the double nearest to an integer. */
  datatype Numerics = Numerics(exactInt: Float64 -> Option<Int64>, nearestDouble: int -> Float64)

  /** Whether an integer lies in the range of `Values.Int64`, Swift's `Int`. */
  predicate InInt64(i: int) {
    Int64Min <= i <= Int64Max
  }

  /** `container.decode(Bool.self)`: only a JSON boolean. */
  function DecodeBool(v: JsonValue): Option<bool> {
    if v.JBool? then Some(v.b) else None
  }

  /** `container.decode(Int.self)`: an integral number in range, or a double that is exactly an `Int`. */
  function DecodeInt(v: JsonValue, num: Numerics): Option<Int64> {
    match v
    case JNumber(Integral(i)) => if InInt64(i) then Some(i as Int64) else None
    case JNumber(Fractional(d)) => num.exactInt(d)
    case _ => None
  }

  /** `container.decode(Double.self)`: any number. */
  function DecodeDouble(v: JsonValue, num: Numerics): Option<Float64> {
    match v
    case JNumber(Integral(i)) => Some(num.nearestDouble(i))
    case JNumber(Fractional(d)) => Some(d)
    case _ => None
  }

  /** `container.decode(String.self)`: only a JSON string. */
  function DecodeString(v: JsonValue): Option<string> {
    if v.JString? then Some(v.s) else None
  }

  /** `Map.init(from:)`: tries Bool, then Int, then Double, then String, and falls back to null.
      It never fails. */
  function Decode(v: JsonValue, num: Numerics): (m: Map)
    ensures v.JBool? ==> m == Bool(v.b)
    ensures v.JString? ==> m == String(v.s)
    ensures v.JNumber? && v.n.Integral? && InInt64(v.n.i) ==> m == Int(v.n.i as Int64)
    ensures DecodeInt(v, num).Some? ==> m == Int(DecodeInt(v, num).value)
    ensures v.JNumber? && DecodeInt(v, num).None? ==> m == Double(DecodeDouble(v, num).value)
    ensures m.Double? ==> v.JNumber? && DecodeInt(v, num).None?
    ensures m.Null? <==> v.JNull? || v.JArray? || v.JObject?
    ensures !m.Array? && !m.Dictionary?
  {
    if DecodeBool(v).Some? then Bool(DecodeBool(v).value)
    else if DecodeInt(v, num).Some? then Int(DecodeInt(v, num).value)
    else if DecodeDouble(v, num).Some? then Double(DecodeDouble(v, num).value)
    else if DecodeString(v).Some? then String(DecodeString(v).value)
    else Null
  }

  /** `container.decode([String: Map].self)`: a JSON object, each value decoded by `Decode`;
      anything else is rejected. */
  function DecodeDictionary(v: JsonValue, num: Numerics): (r: Option<map<string, Map>>)
    ensures r.Some? <==> v.JObject?
    ensures r.Some? ==> r.value.Keys == v.fields.Keys
    ensures r.Some? ==> forall k :: k in r.value ==> r.value[k] == Decode(v.fields[k], num)
    ensures r.Some? ==> forall k :: k in r.value ==> !r.value[k].Array? && !r.value[k].Dictionary?
  {
    match v
    case JObject(fields) => Some(map k | k in fields :: Decode(fields[k], num))
    case _ => None
  }

  /** `encode(to:)`: null writes nil, each scalar writes a single value of its own kind, and
      arrays and dictionaries use the element-wise encoding of `[Map]` and `[String: Map]`. */
  function Encode(m: Map): (v: JsonValue)
    ensures m.Null? <==> v.JNull?
    ensures m.Bool? ==> v == JBool(m.b)
    ensures m.Int? ==> v == JNumber(Integral(m.i as int))
    ensures m.Double? ==> v == JNumber(Fractional(m.d))
    ensures m.String? ==> v == JString(m.s)
    ensures m.Array? ==>
      && v.JArray? && |v.items| == |m.items|
      && forall i :: 0 <= i < |m.items| ==> v.items[i] == Encode(m.items[i])
    ensures m.Dictionary? ==>
      && v.JObject? && v.fields.Keys == m.fields.Keys
      && forall k :: k in m.fields ==> v.fields[k] == Encode(m.fields[k])
  {
    match m
    case Null => JNull
    case Bool(b) => JBool(b)
    case Double(d) => JNumber(Fractional(d))
    case Int(i) => JNumber(Integral(i as int))
    case String(s) => JString(s)
    case Array(items) => JArray(seq(|items|, i requires 0 <= i < |items| => Encode(items[i])))
    case Dictionary(fields) => JObject(map k | k in fields :: Encode(fields[k]))
  }

  /** Null, Bool, Int and String come back unchanged from their encoding. */
  lemma ScalarRoundTrip(m: Map, num: Numerics)
    requires m.Null? || m.Bool? || m.Int? || m.String?
    ensures Decode(Encode(m), num) == m
  {
  }

  /** A Double comes back as a Double only when it is not exactly an `Int`: the Int decoder
      is tried first. */
  lemma DoubleRoundTrip(d: Float64, num: Numerics)
    ensures Decode(Encode(Double(d)), num) ==
      if num.exactInt(d).Some? then Int(num.exactInt(d).value) else Double(d)
  {
  }

  /** Arrays and dictionaries collapse to null when decoded as a single `Map`. */
  lemma CollectionsCollapse(m: Map, num: Numerics)
    requires m.Array? || m.Dictionary?
    ensures Decode(Encode(m), num) == Null
  {
  }
}

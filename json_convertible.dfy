/** Conversion between GraphQL's `Map` and Vapor's `StructuredData` (the payload of Vapor's `JSON`). */
module JsonConvertible {
  import opened Wrappers
  import opened Values
  import opened Errors

  /** The three kinds of number `StructuredData` distinguishes. */
  datatype Number = NDouble(d: Float64) | NInt(i: Int64) | NUInt(u: UInt64)

  /** A point in time, left opaque. */
  datatype Date = Date(seconds: int)

  datatype StructuredData =
    | SNull
    | SBool(b: bool)
    | SNumber(n: Number)
    | SString(s: string)
    | SBytes(bytes: seq<bv8>)
    | SDate(date: Date)
    | SArray(items: seq<StructuredData>)
    | SObject(fields: map<string, StructuredData>)

  /** Vapor's `JSON`, a wrapper around `StructuredData`. */
  datatype JSON = JSON(wrapped: StructuredData)

  /** The library code the conversion calls: `bytes.asMap()` (which may throw) and
      `String(describing: date)`. */
  datatype Collaborators = Collaborators(
    bytesAsMap: seq<bv8> -> Result<Map, Error>,
    dateDescription: Date -> string)

  /** `StructuredData` built from the cases `asStructuredData` produces: no unsigned number,
      no bytes and no date, at any depth. */
  ghost predicate Plain(sd: StructuredData) {
    match sd
    case SNull => true
    case SBool(_) => true
    case SNumber(n) => !n.NUInt?
    case SString(_) => true
    case SBytes(_) => false
    case SDate(_) => false
    case SArray(items) => forall i :: 0 <= i < |items| ==> Plain(items[i])
    case SObject(fields) => forall k :: k in fields ==> Plain(fields[k])
  }

  /** `Map.init(_ structuredData:)`. It is ghost because, for an object, the entry whose failure
      is thrown depends on the dictionary's iteration order, which Swift leaves unspecified:
      the model returns the failure of some failing entry. */
  ghost function FromStructured(sd: StructuredData, c: Collaborators): (r: Result<Map, Error>)
    decreases sd
    ensures sd.SNull? ==> r == Success(Null)
    ensures sd.SBool? ==> r == Success(Bool(sd.b))
    ensures sd.SString? ==> r == Success(String(sd.s))
    ensures sd.SNumber? && sd.n.NDouble? ==> r == Success(Double(sd.n.d))
    ensures sd.SNumber? && sd.n.NInt? ==> r == Success(Int(sd.n.i))
    ensures sd.SNumber? && sd.n.NUInt? ==>
      r == if sd.n.u as int <= Int64Max then Success(Int(sd.n.u as int as Int64)) else Failure(IntegerOverflow)
    ensures sd.SBytes? ==> r == c.bytesAsMap(sd.bytes)
    ensures sd.SDate? ==> r == Success(String(c.dateDescription(sd.date)))
    ensures sd.SArray? ==>
      (r.Success? <==> forall i :: 0 <= i < |sd.items| ==> FromStructured(sd.items[i], c).Success?)
    ensures sd.SArray? && r.Success? ==>
      && r.value.Array? && |r.value.items| == |sd.items|
      && forall i :: 0 <= i < |sd.items| ==> Success(r.value.items[i]) == FromStructured(sd.items[i], c)
    ensures sd.SArray? && r.Failure? ==>
      exists i :: 0 <= i < |sd.items| && r == FromStructured(sd.items[i], c)
        && forall j :: 0 <= j < i ==> FromStructured(sd.items[j], c).Success?
    ensures sd.SObject? ==>
      (r.Success? <==> forall k :: k in sd.fields ==> FromStructured(sd.fields[k], c).Success?)
    ensures sd.SObject? && r.Success? ==>
      && r.value.Dictionary? && r.value.fields.Keys == sd.fields.Keys
      && forall k :: k in sd.fields ==> Success(r.value.fields[k]) == FromStructured(sd.fields[k], c)
    ensures sd.SObject? && r.Failure? ==>
      exists k :: k in sd.fields && r == FromStructured(sd.fields[k], c)
  {
    match sd
    case SNull => Success(Null)
    case SBool(b) => Success(Bool(b))
    case SNumber(n) =>
      (match n
       case NDouble(d) => Success(Double(d))
       case NInt(i) => Success(Int(i))
       case NUInt(u) => if u as int <= Int64Max then Success(Int(u as int as Int64)) else Failure(IntegerOverflow))
    case SString(s) => Success(String(s))
    case SBytes(bytes) => c.bytesAsMap(bytes)
    case SDate(date) => Success(String(c.dateDescription(date)))
    case SArray(items) =>
      (match ItemsFrom(items, c)
       case Success(ms) => Success(Array(ms))
       case Failure(e) => Failure(e))
    case SObject(fields) =>
      if forall k :: k in fields ==> FromStructured(fields[k], c).Success? then
        Success(Dictionary(map k | k in fields :: FromStructured(fields[k], c).value))
      else
        var k :| k in fields && FromStructured(fields[k], c).Failure?;
        FromStructured(fields[k], c)
  }

  /** `array.map { try Map($0) }`: converts in order and stops at the first failure, whose error
      it throws. */
  ghost function ItemsFrom(items: seq<StructuredData>, c: Collaborators): (r: Result<seq<Map>, Error>)
    decreases items
    ensures r.Success? <==> forall i :: 0 <= i < |items| ==> FromStructured(items[i], c).Success?
    ensures r.Success? ==>
      |r.value| == |items| && forall i :: 0 <= i < |items| ==> Success(r.value[i]) == FromStructured(items[i], c)
    ensures r.Failure? ==>
      exists i :: 0 <= i < |items| && Failure(r.error) == FromStructured(items[i], c)
        && forall j :: 0 <= j < i ==> FromStructured(items[j], c).Success?
  {
    if |items| == 0 then Success([])
    else
      match FromStructured(items[0], c)
      case Failure(e) => Failure(e)
      case Success(m) =>
        match ItemsFrom(items[1..], c)
        case Failure(e) =>
          assert forall i :: 1 <= i < |items| ==> items[i] == items[1..][i - 1];
          Failure(e)
        case Success(ms) =>
          assert forall i :: 1 <= i < |items| ==> items[i] == items[1..][i - 1];
          Success([m] + ms)
  }

  /** `Map.init(json:)`: the conversion of the wrapped `StructuredData`. */
  ghost function FromJson(json: JSON, c: Collaborators): (r: Result<Map, Error>)
    ensures r == FromStructured(json.wrapped, c)
  {
    FromStructured(json.wrapped, c)
  }

  /** `asStructuredData()`: total, and built only from plain cases. */
  function AsStructured(m: Map): (sd: StructuredData)
    ensures Plain(sd)
    ensures m.Null? <==> sd.SNull?
    ensures m.Bool? ==> sd == SBool(m.b)
    ensures m.Int? ==> sd == SNumber(NInt(m.i))
    ensures m.Double? ==> sd == SNumber(NDouble(m.d))
    ensures m.String? ==> sd == SString(m.s)
    ensures m.Array? ==>
      && sd.SArray? && |sd.items| == |m.items|
      && forall i :: 0 <= i < |m.items| ==> sd.items[i] == AsStructured(m.items[i])
    ensures m.Dictionary? ==>
      && sd.SObject? && sd.fields.Keys == m.fields.Keys
      && forall k :: k in m.fields ==> sd.fields[k] == AsStructured(m.fields[k])
  {
    match m
    case Null => SNull
    case Bool(b) => SBool(b)
    case Double(d) => SNumber(NDouble(d))
    case Int(i) => SNumber(NInt(i))
    case String(s) => SString(s)
    case Array(items) => SArray(seq(|items|, i requires 0 <= i < |items| => AsStructured(items[i])))
    case Dictionary(fields) => SObject(map k | k in fields :: AsStructured(fields[k]))
  }

  /** `makeJSON()`. */
  function MakeJson(m: Map): (json: JSON)
    ensures Plain(json.wrapped)
  {
    JSON(AsStructured(m))
  }

  /** Every `Map` survives the trip to `StructuredData` and back. */
  lemma {:induction false} RoundTrip(m: Map, c: Collaborators)
    ensures FromStructured(AsStructured(m), c) == Success(m)
  {
    match m
    case Array(items) =>
      forall i | 0 <= i < |items| {
        RoundTrip(items[i], c);
      }
      var r := FromStructured(AsStructured(m), c);
      assert r.value.items == items;
    case Dictionary(fields) =>
      forall k | k in fields {
        RoundTrip(fields[k], c);
      }
      var r := FromStructured(AsStructured(m), c);
      assert r.value.fields == fields;
    case _ =>
  }

  /** The same round trip through Vapor's `JSON`. */
  lemma JsonRoundTrip(m: Map, c: Collaborators)
    ensures FromJson(MakeJson(m), c) == Success(m)
  {
    RoundTrip(m, c);
  }

  /** Conversely, plain `StructuredData` converts without failure and comes back unchanged,
      so the int/double distinction survives both ways. */
  lemma {:induction false} PlainRoundTrip(sd: StructuredData, c: Collaborators)
    requires Plain(sd)
    ensures FromStructured(sd, c).Success?
    ensures AsStructured(FromStructured(sd, c).value) == sd
  {
    match sd
    case SArray(items) =>
      forall i | 0 <= i < |items| {
        PlainRoundTrip(items[i], c);
      }
      assert AsStructured(FromStructured(sd, c).value).items == items;
    case SObject(fields) =>
      forall k | k in fields {
        PlainRoundTrip(fields[k], c);
      }
      assert AsStructured(FromStructured(sd, c).value).fields == fields;
    case _ =>
  }
}

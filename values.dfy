/** The value representation shared by the GraphQL engine and the HTTP layer (GraphQL's `Map`). */
module Values {

  /** A 64-bit floating-point payload. It is kept opaque: the model only compares it for equality. */
  datatype Float64 = Float64(bits: bv64)

  /** Swift's `Int` on a 64-bit platform. */
  newtype Int64 = x: int | -0x8000_0000_0000_0000 <= x < 0x8000_0000_0000_0000

  /** Swift's `UInt` on a 64-bit platform. */
  newtype UInt64 = x: int | 0 <= x < 0x1_0000_0000_0000_0000

  /** The smallest value of `Int64`. */
  const Int64Min: int := -0x8000_0000_0000_0000

  /** The largest value of `Int64`, the bound of the `Int(uint)` conversion. */
  const Int64Max: int := 0x7FFF_FFFF_FFFF_FFFF

  /** The seven cases of GraphQL's `Map`. */
  datatype Map =
    | Null
    | Bool(b: bool)
    | Int(i: Int64)
    | Double(d: Float64)
    | String(s: string)
    | Array(items: seq<Map>)
    | Dictionary(fields: map<string, Map>)
}

/** Swift's `Any`: a value that carries its dynamic type, and the conditional cast `as?`. */
module Dynamic {
  import opened Wrappers

  /** The name of a run-time type. */
  datatype TypeTag = TypeTag(name: string)

  /** The contents of a value, left opaque. */
  datatype Payload = Payload(id: nat)

  datatype Any = Any(dynamicType: TypeTag, payload: Payload)

  /** `v as? T`: the payload when the dynamic type of `v` is `t`, nothing otherwise. */
  function Cast(v: Any, t: TypeTag): (r: Option<Payload>)
    ensures r.Some? <==> v.dynamicType == t
    ensures r.Some? ==> r.value == v.payload
  {
    if v.dynamicType == t then Some(v.payload) else None
  }
}

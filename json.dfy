/**
 * The part of `serde_json::Value` the SDK inspects: the JSON kinds and the
 * accessors `as_i64`, `as_u64`, `as_f64`, `as_bool` and `as_str`.
 */
module Json {
  import opened Wrappers
  import opened RustStd

  /**
   * `serde_json::Number` keeps a non-negative integer as `PosInt(u64)`, a
   * negative integer as `NegInt(i64)` and anything else as `Float(f64)`;
   * a float is modelled by its exact `real` value.
   */
  datatype Number = PosInt(u: u64) | NegInt(i: i64) | Float(f: real)

  datatype JsonValue =
    | Null
    | Bool(b: bool)
    | Number(n: Number)
    | String(s: string)
    | Array(items: seq<JsonValue>)
    | Object(members: seq<(string, JsonValue)>)

  /** `Value::as_i64`: integers that fit in `i64`. */
  function AsI64(v: JsonValue): (r: Option<i64>)
    ensures r.Some? <==> (v.Number? && (v.n.NegInt? || (v.n.PosInt? && (v.n.u as int) < I64_LIMIT)))
    ensures r.Some? && v.n.PosInt? ==> r.value as int == v.n.u as int
    ensures r.Some? && v.n.NegInt? ==> r.value == v.n.i
  {
    match v
    case Number(PosInt(u)) => if (u as int) < I64_LIMIT then Some(u as int as i64) else None
    case Number(NegInt(i)) => Some(i)
    case _ => None
  }

  /** `Value::as_u64`: only the non-negative integers. */
  function AsU64(v: JsonValue): (r: Option<u64>)
    ensures r.Some? <==> v.Number? && v.n.PosInt?
    ensures r.Some? ==> r.value == v.n.u
  {
    match v
    case Number(PosInt(u)) => Some(u)
    case _ => None
  }

  /** `Value::as_f64`: every number, integers converted to their value. */
  function AsF64(v: JsonValue): (r: Option<real>)
    ensures r.Some? <==> v.Number?
    ensures v.Number? && v.n.PosInt? ==> r == Some(v.n.u as int as real)
    ensures v.Number? && v.n.NegInt? ==> r == Some(v.n.i as int as real)
    ensures v.Number? && v.n.Float? ==> r == Some(v.n.f)
  {
    match v
    case Number(PosInt(u)) => Some(u as int as real)
    case Number(NegInt(i)) => Some(i as int as real)
    case Number(Float(f)) => Some(f)
    case _ => None
  }

  /** `Value::as_bool`. */
  function AsBool(v: JsonValue): (r: Option<bool>)
    ensures r.Some? <==> v.Bool?
    ensures r.Some? ==> r.value == v.b
  {
    if v.Bool? then Some(v.b) else None
  }

  /** `Value::as_str`. */
  function AsStr(v: JsonValue): (r: Option<string>)
    ensures r.Some? <==> v.String?
    ensures r.Some? ==> r.value == v.s
  {
    if v.String? then Some(v.s) else None
  }
}

/**
 * `src/network/serialization/config_value.rs`: the exchange format's own
 * `ConfigValue` newtype around a JSON value, and its accessors.
 */
module NetworkConfigValue {
  import opened Wrappers
  import opened RustStd
  import opened Json

  /** A configuration value of the exchange format (a distinct Rust type from `models::ConfigValue`). */
  datatype ConfigValue = ConfigValue(json: JsonValue)

  function AsI64(v: ConfigValue): (r: Option<i64>)
    ensures r.Some? <==> v.json.Number? && (v.json.n.NegInt? || (v.json.n.PosInt? && (v.json.n.u as int) < I64_LIMIT))
    ensures r.Some? && v.json.n.NegInt? ==> r.value == v.json.n.i
    ensures r.Some? && v.json.n.PosInt? ==> r.value as int == v.json.n.u as int
  {
    Json.AsI64(v.json)
  }

  function AsU64(v: ConfigValue): (r: Option<u64>)
    ensures r.Some? <==> v.json.Number? && v.json.n.PosInt?
    ensures r.Some? ==> r.value == v.json.n.u
  {
    Json.AsU64(v.json)
  }

  function AsF64(v: ConfigValue): (r: Option<real>)
    ensures r.Some? <==> v.json.Number?
    ensures v.json.Number? && v.json.n.PosInt? ==> r == Some(v.json.n.u as int as real)
    ensures v.json.Number? && v.json.n.NegInt? ==> r == Some(v.json.n.i as int as real)
    ensures v.json.Number? && v.json.n.Float? ==> r == Some(v.json.n.f)
  {
    Json.AsF64(v.json)
  }

  function AsBoolean(v: ConfigValue): (r: Option<bool>)
    ensures r.Some? <==> v.json.Bool?
    ensures r.Some? ==> r.value == v.json.b
  {
    AsBool(v.json)
  }

  function AsString(v: ConfigValue): (r: Option<string>)
    ensures r.Some? <==> v.json.String?
    ensures r.Some? ==> r.value == v.json.s
  {
    AsStr(v.json)
  }

  /** The `"$default"` sentinel: exactly the JSON string `"$default"`, never a non-string. */
  function IsDefault(v: ConfigValue): (r: bool)
    ensures r <==> v.json == JsonValue.String("$default")
    ensures !v.json.String? ==> !r
  {
    var s := AsStr(v.json);
    if s.Some? then s.value == "$default" else false
  }
}

/**
 * `src/network/serialization/mod.rs`: the conversion of a declared type and
 * an exchange-format `ConfigValue` into a typed `Value`.
 */
module NetworkSerialization {
  import opened Wrappers
  import opened RustStd
  import opened Json
  import opened ConfigModel
  import opened Errors
  import NetworkConfigValue
  import Models

  /**
   * `TryFrom<(ValueType, ConfigValue)> for Value`: a numeric value becomes an
   * `Int64` when it fits, else a `UInt64`, else a `Float64`; a boolean or
   * string kind needs a JSON value of that kind.
   */
  function TryFromValue(kind: ValueType, v: NetworkConfigValue.ConfigValue): (r: Result<Value, Error>)
    ensures kind == Numeric ==>
      match v.json
      case Number(NegInt(i)) => r == Ok(Int64(i))
      case Number(PosInt(u)) =>
        if (u as int) < I64_LIMIT then r.Ok? && r.value.Int64? && r.value.i as int == u as int
        else r == Ok(UInt64(u))
      case Number(Float(f)) => r == Ok(Float64(f))
      case _ => r == Err(ProtocolError("Cannot convert numeric type"))
    ensures kind == ValueType.Boolean ==>
      r == if v.json.Bool? then Ok(Value.Boolean(v.json.b)) else Err(MismatchType)
    ensures kind == ValueType.String ==>
      r == if v.json.String? then Ok(Value.String(v.json.s)) else Err(MismatchType)
    ensures r.Ok? ==> KindOf(r.value) == kind
  {
    match kind
    case Numeric =>
      var i := NetworkConfigValue.AsI64(v);
      var u := NetworkConfigValue.AsU64(v);
      var f := NetworkConfigValue.AsF64(v);
      if i.Some? then Ok(Int64(i.value))
      else if u.Some? then Ok(UInt64(u.value))
      else if f.Some? then Ok(Float64(f.value))
      else Err(ProtocolError("Cannot convert numeric type"))
    case Boolean =>
      var b := NetworkConfigValue.AsBoolean(v);
      if b.Some? then Ok(Value.Boolean(b.value)) else Err(MismatchType)
    case String =>
      var s := NetworkConfigValue.AsString(v);
      if s.Some? then Ok(Value.String(s.value)) else Err(MismatchType)
  }

  /**
   * Writing a value as JSON and converting it back under its own kind gives
   * the value again, except that a `UInt64` below 2^63 comes back as the
   * `Int64` of the same number.
   */
  lemma ConversionRoundTrip(v: Value)
    ensures v.UInt64? && (v.u as int) < I64_LIMIT ==>
      TryFromValue(KindOf(v), NetworkConfigValue.ConfigValue(ToJson(v))) == Ok(Int64(v.u as int as i64))
    ensures !(v.UInt64? && (v.u as int) < I64_LIMIT) ==>
      TryFromValue(KindOf(v), NetworkConfigValue.ConfigValue(ToJson(v))) == Ok(v)
  {
    var r := TryFromValue(KindOf(v), NetworkConfigValue.ConfigValue(ToJson(v)));
    if v.Int64? && v.i >= 0 {
      assert r.value.i as int == v.i as int;
    }
    if v.UInt64? && (v.u as int) < I64_LIMIT {
      assert r.value.i as int == v.u as int;
    }
  }

  /** The exchange-format conversion and the one of `src/models.rs` agree on every JSON value. */
  lemma AgreesWithModels(kind: ValueType, j: JsonValue)
    ensures TryFromValue(kind, NetworkConfigValue.ConfigValue(j)) == Models.TryFromValue(kind, ConfigValue(j))
  {
    var a := TryFromValue(kind, NetworkConfigValue.ConfigValue(j));
    var b := Models.TryFromValue(kind, ConfigValue(j));
    if kind == Numeric && j.Number? && j.n.PosInt? && (j.n.u as int) < I64_LIMIT {
      assert a.value.i as int == b.value.i as int;
    }
  }
}

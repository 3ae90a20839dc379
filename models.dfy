/**
 * `src/models.rs`: the label of a `ValueType`, the `ConfigValue` accessors
 * and the conversion of a `(ValueType, ConfigValue)` pair into a `Value`.
 */
module Models {
  import opened Wrappers
  import opened RustStd
  import opened Json
  import opened ConfigModel
  import opened Errors

  /** `Display for ValueType`. */
  function Display(t: ValueType): (text: string)
    ensures text in {"NUMERIC", "BOOLEAN", "STRING"}
  {
    match t
    case Numeric => "NUMERIC"
    case Boolean => "BOOLEAN"
    case String => "STRING"
  }

  /** The deserialisation of a `ValueType`: the labels named by its serde `rename` attributes. */
  function Deserialize(text: string): (t: Option<ValueType>)
    ensures t.Some? <==> text in {"NUMERIC", "BOOLEAN", "STRING"}
  {
    if text == "NUMERIC" then Some(Numeric)
    else if text == "BOOLEAN" then Some(ValueType.Boolean)
    else if text == "STRING" then Some(ValueType.String)
    else None
  }

  /** The displayed label is the one the type is read back from, and no other type shares it. */
  lemma DisplayRoundTrip(t: ValueType, text: string)
    ensures Deserialize(Display(t)) == Some(t)
    ensures Deserialize(text) == Some(t) <==> text == Display(t)
  {
  }

  function AsI64(v: ConfigValue): (r: Option<i64>)
    ensures r.Some? <==> v.json.Number? && (v.json.n.NegInt? || (v.json.n.PosInt? && (v.json.n.u as int) < I64_LIMIT))
    ensures r.Some? && v.json.n.NegInt? ==> r.value == v.json.n.i
    ensures r.Some? && v.json.n.PosInt? ==> r.value as int == v.json.n.u as int
  {
    Json.AsI64(v.json)
  }

  function AsU64(v: ConfigValue): (r: Option<u64>)
    ensures r.Some? <==> v.json.Number? && v.json.n.PosInt?
    ensures r.Some? ==> r.value == v.json.n.u
  {
    Json.AsU64(v.json)
  }

  function AsF64(v: ConfigValue): (r: Option<real>)
    ensures r.Some? <==> v.json.Number?
    ensures v.json.Number? && v.json.n.PosInt? ==> r == Some(v.json.n.u as int as real)
    ensures v.json.Number? && v.json.n.NegInt? ==> r == Some(v.json.n.i as int as real)
    ensures v.json.Number? && v.json.n.Float? ==> r == Some(v.json.n.f)
  {
    Json.AsF64(v.json)
  }

  function AsBoolean(v: ConfigValue): (r: Option<bool>)
    ensures r.Some? <==> v.json.Bool?
    ensures r.Some? ==> r.value == v.json.b
  {
    AsBool(v.json)
  }

  function AsString(v: ConfigValue): (r: Option<string>)
    ensures r.Some? <==> v.json.String?
    ensures r.Some? ==> r.value == v.json.s
  {
    AsStr(v.json)
  }

  /** The `"$default"` sentinel: exactly the JSON string `"$default"`, never a non-string. */
  function IsDefault(v: ConfigValue): (r: bool)
    ensures r <==> v.json == JsonValue.String("$default")
    ensures !v.json.String? ==> !r
  {
    var s := AsStr(v.json);
    if s.Some? then s.value == "$default" else false
  }

  /**
   * `TryFrom<(ValueType, ConfigValue)> for Value`. A numeric value becomes an
   * `Int64` when it fits, else a `UInt64`, else a `Float64`; a boolean or
   * string kind needs a JSON value of that kind.
   */
  function TryFromValue(kind: ValueType, v: ConfigValue): (r: Result<Value, Error>)
    ensures kind == Numeric ==>
      match v.json
      case Number(NegInt(i)) => r == Ok(Int64(i))
      case Number(PosInt(u)) =>
        if (u as int) < I64_LIMIT then r.Ok? && r.value.Int64? && r.value.i as int == u as int
        else r == Ok(UInt64(u))
      case Number(Float(f)) => r == Ok(Float64(f))
      case _ => r == Err(ProtocolError("Cannot convert numeric type"))
    ensures kind == ValueType.Boolean ==>
      r == if v.json.Bool? then Ok(Value.Boolean(v.json.b)) else Err(MismatchType)
    ensures kind == ValueType.String ==>
      r == if v.json.String? then Ok(Value.String(v.json.s)) else Err(MismatchType)
    ensures r.Ok? ==> KindOf(r.value) == kind
    ensures r.Err? ==> r.error == MismatchType || r.error.ProtocolError?
  {
    match kind
    case Numeric =>
      if AsI64(v).Some? then Ok(Int64(AsI64(v).value))
      else if AsU64(v).Some? then Ok(UInt64(AsU64(v).value))
      else if AsF64(v).Some? then Ok(Float64(AsF64(v).value))
      else Err(ProtocolError("Cannot convert numeric type"))
    case Boolean =>
      if AsBoolean(v).Some? then Ok(Value.Boolean(AsBoolean(v).value)) else Err(MismatchType)
    case String =>
      if AsString(v).Some? then Ok(Value.String(AsString(v).value)) else Err(MismatchType)
  }

  /**
   * Writing a value as JSON and converting it back under its own kind gives
   * the value again, except that a `UInt64` below 2^63 comes back as the
   * `Int64` of the same number.
   */
  lemma ConversionRoundTrip(v: Value)
    ensures v.UInt64? && (v.u as int) < I64_LIMIT ==>
      TryFromValue(KindOf(v), ConfigValue(ToJson(v))) == Ok(Int64(v.u as int as i64))
    ensures !(v.UInt64? && (v.u as int) < I64_LIMIT) ==>
      TryFromValue(KindOf(v), ConfigValue(ToJson(v))) == Ok(v)
  {
    var r := TryFromValue(KindOf(v), ConfigValue(ToJson(v)));
    if v.Int64? && v.i >= 0 {
      assert r.value.i as int == v.i as int;
    }
    if v.UInt64? && (v.u as int) < I64_LIMIT {
      assert r.value.i as int == v.u as int;
    }
  }
}

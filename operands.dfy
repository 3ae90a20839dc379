/**
 * How the operators of a segment rule read their reference value: the
 * `str::parse` calls of the operator implementations, with the parse error
 * turned into the `CheckOperatorErrorDetail` that its `From` conversion
 * produces (`src/segment_evaluation/errors.rs`), and the numeric value of a
 * numeric attribute.
 */
module Operands {
  import opened Wrappers
  import opened RustStd
  import opened ConfigModel
  import opened Errors

  /** `parse::<bool>()?`: a `ParseBoolError` becomes `BooleanExpected`. */
  function ParseBoolRef(x: string): (r: Result<bool, CheckOperatorErrorDetail>)
    ensures r.Ok? <==> ParseBool(x).Some?
    ensures r.Ok? ==> r.value == ParseBool(x).value
    ensures r.Err? ==> r.error == BooleanExpected
  {
    var p := ParseBool(x);
    if p.Some? then Ok(p.value) else Err(BooleanExpected)
  }

  /** `parse::<f64>()?`: a `ParseFloatError` becomes `FloatExpected`. */
  function ParseF64Ref(x: string): (r: Result<real, CheckOperatorErrorDetail>)
    ensures r.Ok? <==> ParseF64(x).Some?
    ensures r.Ok? ==> r.value == ParseF64(x).value
    ensures r.Err? ==> r.error == FloatExpected
  {
    var p := ParseF64(x);
    if p.Some? then Ok(p.value) else Err(FloatExpected)
  }

  /** `parse::<u64>()?`: a `ParseIntError` becomes `IntegerExpected`. */
  function ParseU64Ref(x: string): (r: Result<u64, CheckOperatorErrorDetail>)
    ensures r.Ok? <==> ParseU64(x).Some?
    ensures r.Ok? ==> r.value == ParseU64(x).value
    ensures r.Err? ==> r.error == IntegerExpected
  {
    var p := ParseU64(x);
    if p.Some? then Ok(p.value) else Err(IntegerExpected)
  }

  /** `parse::<i64>()?`: a `ParseIntError` becomes `IntegerExpected`. */
  function ParseI64Ref(x: string): (r: Result<i64, CheckOperatorErrorDetail>)
    ensures r.Ok? <==> ParseI64(x).Some?
    ensures r.Ok? ==> r.value == ParseI64(x).value
    ensures r.Err? ==> r.error == IntegerExpected
  {
    var p := ParseI64(x);
    if p.Some? then Ok(p.value) else Err(IntegerExpected)
  }

  predicate IsNumber(v: Value) {
    v.Float64? || v.UInt64? || v.Int64?
  }

  /** The number a numeric attribute holds. */
  function NumberOf(v: Value): real
    requires IsNumber(v)
  {
    match v
    case Float64(f) => f
    case UInt64(u) => u as int as real
    case Int64(i) => i as int as real
  }

  /**
   * The reference value read at the attribute's own numeric type (the type
   * Rust infers for `reference_value.parse()` next to `*data`), as a number.
   */
  function ReferenceNumber(v: Value, x: string): (r: Result<real, CheckOperatorErrorDetail>)
    requires IsNumber(v)
    ensures r.Err? ==> r.error == (if v.Float64? then FloatExpected else IntegerExpected)
  {
    match v
    case Float64(_) => ParseF64Ref(x)
    case UInt64(_) => var p := ParseU64Ref(x); if p.Ok? then Ok(p.value as int as real) else Err(p.error)
    case Int64(_) => var p := ParseI64Ref(x); if p.Ok? then Ok(p.value as int as real) else Err(p.error)
  }
}

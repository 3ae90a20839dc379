/**
 * `src/segment_evaluation/rule_operator.rs`: the six operators a `Value`
 * implements, and `operate`, which dispatches on the operator name and
 * derives the six negated operators from them.
 */
module RuleOperator {
  import opened Wrappers
  import opened RustStd
  import opened ConfigModel
  import opened Errors
  import opened Operands

  type Outcome = Result<bool, CheckOperatorErrorDetail>

  /** The operator names `operate` knows. */
  const KnownOperators: set<string> := {
    "is", "contains", "startsWith", "endsWith", "greaterThan", "lesserThan",
    "greaterThanEquals", "lesserThanEquals", "isNot", "notContains", "notStartsWith", "notEndsWith"
  }

  /** `.map(Not::not)`: the negated outcome, with an error passed on unchanged. */
  function Not(o: Outcome): (r: Outcome)
    ensures r.Ok? <==> o.Ok?
    ensures r.Ok? ==> r.value == !o.value
    ensures r.Err? ==> r.error == o.error
  {
    if o.Ok? then Ok(!o.value) else o
  }

  /**
   * `is`: string equality for a string attribute (which never fails);
   * otherwise the reference is parsed at the attribute's type and compared.
   */
  function Is(v: Value, x: string): (r: Outcome)
    ensures v.String? ==> r == Ok(v.s == x)
    ensures v.Boolean? ==> (r.Ok? <==> ParseBool(x).Some?) && (r.Ok? ==> (r.value <==> ParseBool(x) == Some(v.b)))
    ensures IsNumber(v) ==> (r.Ok? <==> ReferenceNumber(v, x).Ok?)
    ensures IsNumber(v) && r.Ok? ==> (r.value <==> NumberOf(v) == ReferenceNumber(v, x).value)
    ensures r.Err? ==> r.error in {BooleanExpected, FloatExpected, IntegerExpected}
  {
    match v
    case String(s) => Ok(s == x)
    case Boolean(b) => var p := ParseBoolRef(x); if p.Ok? then Ok(b == p.value) else Err(p.error)
    case Float64(f) => var p := ParseF64Ref(x); if p.Ok? then Ok(f == p.value) else Err(p.error)
    case UInt64(u) => var p := ParseU64Ref(x); if p.Ok? then Ok(u == p.value) else Err(p.error)
    case Int64(i) => var p := ParseI64Ref(x); if p.Ok? then Ok(i == p.value) else Err(p.error)
  }

  /** `contains`: the reference occurs somewhere in a string attribute. */
  function ContainsOp(v: Value, x: string): (r: Outcome)
    ensures r.Ok? <==> v.String?
    ensures r.Ok? ==> (r.value <==> exists i :: OccursAt(v.s, x, i))
    ensures r.Err? ==> r.error == StringExpected
  {
    if v.String? then ContainsIffOccurs(v.s, x); Ok(Contains(v.s, x)) else Err(StringExpected)
  }

  /** `starts_with`: a string attribute is the reference followed by something. */
  function StartsWithOp(v: Value, x: string): (r: Outcome)
    ensures r.Ok? <==> v.String?
    ensures r.Ok? ==> (r.value <==> exists t: string :: v.s == x + t)
    ensures r.Err? ==> r.error == StringExpected
  {
    if v.String? then StartsWithIffPrefix(v.s, x); Ok(StartsWith(v.s, x)) else Err(StringExpected)
  }

  /** `ends_with`: a string attribute is something followed by the reference. */
  function EndsWithOp(v: Value, x: string): (r: Outcome)
    ensures r.Ok? <==> v.String?
    ensures r.Ok? ==> (r.value <==> exists t: string :: v.s == t + x)
    ensures r.Err? ==> r.error == StringExpected
  {
    if v.String? then EndsWithIffSuffix(v.s, x); Ok(EndsWith(v.s, x)) else Err(StringExpected)
  }

  /** `greater_than`: a numeric attribute exceeds the reference read at its type. */
  function GreaterThan(v: Value, x: string): (r: Outcome)
    ensures !IsNumber(v) ==> r == Err(EntityAttrNotANumber)
    ensures IsNumber(v) ==> (r.Ok? <==> ReferenceNumber(v, x).Ok?)
    ensures IsNumber(v) && r.Ok? ==> (r.value <==> NumberOf(v) > ReferenceNumber(v, x).value)
    ensures IsNumber(v) && r.Err? ==> r.error == ReferenceNumber(v, x).error
  {
    match v
    case Float64(f) => var p := ParseF64Ref(x); if p.Ok? then Ok(f > p.value) else Err(p.error)
    case UInt64(u) => var p := ParseU64Ref(x); if p.Ok? then Ok(u > p.value) else Err(p.error)
    case Int64(i) => var p := ParseI64Ref(x); if p.Ok? then Ok(i > p.value) else Err(p.error)
    case _ => Err(EntityAttrNotANumber)
  }

  /** `lesser_than`: a numeric attribute is below the reference read at its type. */
  function LesserThan(v: Value, x: string): (r: Outcome)
    ensures !IsNumber(v) ==> r == Err(EntityAttrNotANumber)
    ensures IsNumber(v) ==> (r.Ok? <==> ReferenceNumber(v, x).Ok?)
    ensures IsNumber(v) && r.Ok? ==> (r.value <==> NumberOf(v) < ReferenceNumber(v, x).value)
    ensures IsNumber(v) && r.Err? ==> r.error == ReferenceNumber(v, x).error
  {
    match v
    case Float64(f) => var p := ParseF64Ref(x); if p.Ok? then Ok(f < p.value) else Err(p.error)
    case UInt64(u) => var p := ParseU64Ref(x); if p.Ok? then Ok(u < p.value) else Err(p.error)
    case Int64(i) => var p := ParseI64Ref(x); if p.Ok? then Ok(i < p.value) else Err(p.error)
    case _ => Err(EntityAttrNotANumber)
  }

  /** `RuleOperator::operate`: dispatch on the operator name. */
  function Operate(v: Value, operator: string, x: string): (r: Outcome)
    ensures operator !in KnownOperators <==> r == Err(OperatorNotImplemented)
  {
    match operator
    case "is" => Is(v, x)
    case "contains" => ContainsOp(v, x)
    case "startsWith" => StartsWithOp(v, x)
    case "endsWith" => EndsWithOp(v, x)
    case "greaterThan" => GreaterThan(v, x)
    case "lesserThan" => LesserThan(v, x)
    case "greaterThanEquals" => Not(LesserThan(v, x))
    case "lesserThanEquals" => Not(GreaterThan(v, x))
    case "isNot" => Not(Is(v, x))
    case "notContains" => Not(ContainsOp(v, x))
    case "notStartsWith" => Not(StartsWithOp(v, x))
    case "notEndsWith" => Not(EndsWithOp(v, x))
    case _ => Err(OperatorNotImplemented)
  }

  /**
   * The derived comparisons mean what their names say: `greaterThanEquals`
   * is `>=` and `lesserThanEquals` is `<=` on numbers; on anything else they
   * fail like the base comparison.
   */
  lemma DerivedComparisons(v: Value, x: string)
    ensures IsNumber(v) && ReferenceNumber(v, x).Ok? ==>
      Operate(v, "greaterThanEquals", x) == Ok(NumberOf(v) >= ReferenceNumber(v, x).value) &&
      Operate(v, "lesserThanEquals", x) == Ok(NumberOf(v) <= ReferenceNumber(v, x).value)
    ensures !IsNumber(v) ==>
      Operate(v, "greaterThanEquals", x) == Err(EntityAttrNotANumber) &&
      Operate(v, "lesserThanEquals", x) == Err(EntityAttrNotANumber)
  {
  }

  /**
   * Every negated operator is the negation of its base operator, and fails
   * exactly when and how the base operator fails.
   */
  lemma NegatedOperators(v: Value, x: string)
    ensures Operate(v, "isNot", x) == Not(Operate(v, "is", x))
    ensures Operate(v, "notContains", x) == Not(Operate(v, "contains", x))
    ensures Operate(v, "notStartsWith", x) == Not(Operate(v, "startsWith", x))
    ensures Operate(v, "notEndsWith", x) == Not(Operate(v, "endsWith", x))
    ensures Operate(v, "greaterThanEquals", x) == Not(Operate(v, "lesserThan", x))
    ensures Operate(v, "lesserThanEquals", x) == Not(Operate(v, "greaterThan", x))
  {
    NegatedIs(v, x);
    NegatedStringOperators(v, x);
    NegatedComparisons(v, x);
  }

  /** `isNot` negates `is`. */
  lemma NegatedIs(v: Value, x: string)
    ensures Operate(v, "isNot", x) == Not(Operate(v, "is", x))
  {
  }

  /** `notContains`, `notStartsWith` and `notEndsWith` negate their base operators. */
  lemma NegatedStringOperators(v: Value, x: string)
    ensures Operate(v, "notContains", x) == Not(Operate(v, "contains", x))
    ensures Operate(v, "notStartsWith", x) == Not(Operate(v, "startsWith", x))
    ensures Operate(v, "notEndsWith", x) == Not(Operate(v, "endsWith", x))
  {
  }

  /** `greaterThanEquals` negates `lesserThan` and `lesserThanEquals` negates `greaterThan`. */
  lemma NegatedComparisons(v: Value, x: string)
    ensures Operate(v, "greaterThanEquals", x) == Not(Operate(v, "lesserThan", x))
    ensures Operate(v, "lesserThanEquals", x) == Not(Operate(v, "greaterThan", x))
  {
  }

  /**
   * On a numeric attribute whose reference parses, exactly one of `is`,
   * `greaterThan` and `lesserThan` holds.
   */
  lemma Trichotomy(v: Value, x: string)
    requires IsNumber(v) && ReferenceNumber(v, x).Ok?
    ensures Operate(v, "is", x).Ok? && Operate(v, "greaterThan", x).Ok? && Operate(v, "lesserThan", x).Ok?
    ensures (if Operate(v, "is", x).value then 1 else 0)
          + (if Operate(v, "greaterThan", x).value then 1 else 0)
          + (if Operate(v, "lesserThan", x).value then 1 else 0) == 1
  {
  }

  /** An integer attribute `is` its own decimal text, and so is an unsigned one. */
  lemma IsOwnDecimalText(i: i64, u: u64)
    ensures Operate(Int64(i), "is", FormatInt(i as int)) == Ok(true)
    ensures Operate(UInt64(u), "is", FormatNat(u as nat)) == Ok(true)
  {
    ParseI64FormatInt(i);
    ParseU64FormatNat(u);
  }
}

/**
 * The configuration data as the server and the offline files deliver it
 * (`ConfigurationJson` and its parts), the typed `Value` an evaluation
 * returns, and the entity an evaluation is asked about.
 */
module ConfigModel {
  import opened Wrappers
  import opened RustStd
  import opened Json

  /** The declared type of a feature or property. */
  datatype ValueType = Numeric | Boolean | String

  /** `crate::Value`: a typed feature or property value, or an entity attribute. */
  datatype Value =
    | Boolean(b: bool)
    | String(s: string)
    | Float64(f: real)
    | UInt64(u: u64)
    | Int64(i: i64)

  /** A raw configuration value: a JSON value as received. */
  datatype ConfigValue = ConfigValue(json: JsonValue)

  /** The declared type a value belongs to. */
  function KindOf(v: Value): ValueType {
    match v
    case Boolean(_) => ValueType.Boolean
    case String(_) => ValueType.String
    case _ => Numeric
  }

  /**
   * How a value is written as JSON (`serde_json::Value::from`): booleans and
   * strings as themselves, an integer as `PosInt` when non-negative and as
   * `NegInt` otherwise, a float as `Float`.
   */
  function ToJson(v: Value): JsonValue {
    match v
    case Boolean(b) => Bool(b)
    case String(s) => JsonValue.String(s)
    case Float64(f) => Number(Float(f))
    case UInt64(u) => Number(PosInt(u))
    case Int64(i) => if i >= 0 then Number(PosInt(i as int as u64)) else Number(NegInt(i))
  }

  /** A rule of a segment: an operator applied to an entity attribute and a list of values. */
  datatype Rule = Rule(attributeName: string, operator: string, values: seq<string>)

  /** A group of targeted segment ids inside a targeting rule. */
  datatype Segments = Segments(segments: seq<string>)

  /** A targeting rule of a feature or property (`SegmentRule` in the exchange format). */
  datatype SegmentRule = SegmentRule(
    rules: seq<Segments>,
    value: ConfigValue,
    order: u32,
    rolloutPercentage: Option<ConfigValue>)

  datatype Segment = Segment(
    name: string,
    segmentId: string,
    description: string,
    tags: Option<string>,
    rules: seq<Rule>)

  datatype Feature = Feature(
    name: string,
    featureId: string,
    kind: ValueType,
    format: Option<string>,
    enabledValue: ConfigValue,
    disabledValue: ConfigValue,
    segmentRules: seq<SegmentRule>,
    enabled: bool,
    rolloutPercentage: u32)

  datatype Property = Property(
    name: string,
    propertyId: string,
    kind: ValueType,
    tags: Option<string>,
    format: Option<string>,
    value: ConfigValue,
    segmentRules: seq<SegmentRule>)

  datatype Environment = Environment(
    environmentId: string,
    features: seq<Feature>,
    properties: seq<Property>)

  datatype ConfigurationJson = ConfigurationJson(
    environments: seq<Environment>,
    segments: seq<Segment>)

  /** An entity: its id and its attributes (the `Entity` trait's two getters). */
  datatype Entity = Entity(id: string, attributes: map<string, Value>)

  /** The ids of the `(collection, environment)` a client is bound to (`ConfigurationId`). */
  datatype ConfigurationId = ConfigurationId(guid: string, environmentId: string, collectionId: string)
}

/** The error enumerations of the core, used as plain data. */
module Errors {

  /** Why an operator could not be applied to an attribute value. */
  datatype CheckOperatorErrorDetail =
    | StringExpected
    | BooleanExpected   // the reference value did not parse as a bool
    | FloatExpected     // ... as an f64
    | IntegerExpected   // ... as a u64 / i64
    | EntityAttrNotANumber
    | OperatorNotImplemented

  datatype SegmentEvaluationError =
    | SegmentEvaluationFailed(
        segmentId: string,
        attributeName: string,
        operator: string,
        value: string,
        source: CheckOperatorErrorDetail)
    | SegmentIdNotFound(id: string)

  /** Errors building or reading a `Configuration`. */
  datatype ConfigurationDataError =
    | EnvironmentNotFound(environmentId: string)
    | FeatureNotFound(featureId: string)
    | PropertyNotFound(propertyId: string)
    | MissingSegments(resourceId: string)

  /** Errors of the offline client's configuration snapshot. */
  datatype ConfigurationAccessError =
    | LockAcquisitionError
    | AccessEnvironmentNotFound(environmentId: string)
    | AccessFeatureNotFound(featureId: string)
    | AccessPropertyNotFound(propertyId: string)
    | AccessMissingSegments(resourceId: string)

  /** `crate::Error`, restricted to the variants the core produces. */
  datatype Error =
    | MismatchType
    | ProtocolError(message: string)
    | EntityEvaluationError(segmentError: SegmentEvaluationError)
    | ConfigurationData(dataError: ConfigurationDataError)
    | ConfigurationAccess(accessError: ConfigurationAccessError)
    | MeteringError
}

/**
 * `src/client/feature_snapshot.rs`: the older feature snapshot. It has no
 * metering, and it asks the targeting rules only for the applicable rule
 * (`find_applicable_segment_rule_for_entity`), not for the segment. Its
 * rollout gate has the same form as the newer one, with `random_value`
 * (again murmur3 scaled to 0..=100) as the bucket.
 */
module ClientFeatureSnapshot {
  import opened Wrappers
  import opened RustStd
  import opened ConfigModel
  import opened Errors
  import opened SegmentEvaluation
  import FeatureSnapshot
  import Json

  /** The older `FeatureSnapshot`. */
  datatype ClientFeatureSnapshot = ClientFeatureSnapshot(
    enabled: bool,
    enabledValue: Value,
    disabledValue: Value,
    rolloutPercentage: u32,
    name: string,
    featureId: string,
    segmentRules: SegmentRules)

  /**
   * `find_applicable_segment_rule_for_entity`: the first applicable
   * targeting rule, in stored order (the configuration sorts the rules by
   * their `order` before a snapshot is built), without its segment.
   */
  function FindApplicableSegmentRule(rules: SegmentRules, entity: Entity): (r: Result<Option<SegmentRule>, Error>)
    ensures r.Ok? && r.value.Some? ==>
      exists i | 0 <= i < |rules.targetingRules| ::
        FirstApplicable(rules.segments, rules.targetingRules, entity.attributes, i) && r.value.value == rules.targetingRules[i]
    ensures r == Ok(None) <==> forall i | 0 <= i < |rules.targetingRules| ::
      FindSegmentOfTargetingRule(rules.segments, rules.targetingRules[i], entity.attributes) == Ok(None)
    ensures r.Err? ==> r.error.EntityEvaluationError?
  {
    match FindApplicableTargetingRuleAndSegment(rules, entity)
    case Err(e) => Err(e)
    case Ok(None) => Ok(None)
    case Ok(Some((rule, _))) => Ok(Some(rule))
  }

  /** `use_rollout_percentage_to_get_value_from_feature_directly`. */
  function DirectValue(f: ClientFeatureSnapshot, entity: Entity, bucket: FeatureSnapshot.Bucket): (r: Value)
    ensures FeatureSnapshot.ShouldRollout(f.rolloutPercentage, entity.id, f.featureId, bucket) ==> r == f.enabledValue
    ensures !FeatureSnapshot.ShouldRollout(f.rolloutPercentage, entity.id, f.featureId, bucket) ==> r == f.disabledValue
  {
    if FeatureSnapshot.ShouldRollout(f.rolloutPercentage, entity.id, f.featureId, bucket) then f.enabledValue else f.disabledValue
  }

  /** `evaluate_feature_for_entity` of the older snapshot. */
  function Evaluate(f: ClientFeatureSnapshot, entity: Entity, bucket: FeatureSnapshot.Bucket): (r: Result<Value, Error>)
    ensures !f.enabled ==> r == Ok(f.disabledValue)
    ensures f.enabled && (IsEmpty(f.segmentRules) || |entity.attributes| == 0) ==> r == Ok(DirectValue(f, entity, bucket))
    ensures r.Err? ==> r.error.EntityEvaluationError? || r.error.ProtocolError? || r.error == MismatchType
    ensures f.enabled && !(IsEmpty(f.segmentRules) || |entity.attributes| == 0) ==>
      var search := FindApplicableSegmentRule(f.segmentRules, entity);
      (search.Err? ==> r == Err(search.error)) &&
      (search == Ok(None) ==> r == Ok(DirectValue(f, entity, bucket))) &&
      (search.Ok? && search.value.Some? ==> r == FeatureSnapshot.RuleResult(Newer(f, false), entity, search.value.value, bucket))
  {
    if !f.enabled then Ok(f.disabledValue)
    else if IsEmpty(f.segmentRules) || |entity.attributes| == 0 then Ok(DirectValue(f, entity, bucket))
    else
      match FindApplicableSegmentRule(f.segmentRules, entity)
      case Err(e) => Err(e)
      case Ok(None) => Ok(DirectValue(f, entity, bucket))
      case Ok(Some(rule)) =>
        match RolloutPercentage(rule, f.rolloutPercentage)
        case Err(e) => Err(e)
        case Ok(p) =>
          if FeatureSnapshot.ShouldRollout(p, entity.id, f.featureId, bucket) then RuleValue(rule, f.segmentRules.kind, f.enabledValue)
          else Ok(f.disabledValue)
  }

  /** The newer snapshot with the same fields and the given metering sender. */
  function Newer(f: ClientFeatureSnapshot, metering: bool): FeatureSnapshot.FeatureSnapshot {
    FeatureSnapshot.FeatureSnapshot(f.enabled, f.enabledValue, f.disabledValue, f.rolloutPercentage, f.name, f.featureId, f.segmentRules, metering)
  }

  /**
   * The older snapshot returns exactly what the newer one returns for the
   * same feature, whatever the metering; the two versions differ only in
   * the metering event the newer one records.
   */
  lemma AgreesWithNewerSnapshot(f: ClientFeatureSnapshot, entity: Entity, bucket: FeatureSnapshot.Bucket, metering: bool)
    ensures Evaluate(f, entity, bucket) == FeatureSnapshot.Evaluate(Newer(f, metering), entity, bucket).result
  {
  }

  /**
   * The file's scenario with the rule "name is heinz" worth -48 at 50%:
   * -48 for "a2" named heinz, 2 for "a1" named heinz, -42 for "a2" named
   * heinzz.
   */
  lemma MatchingARule(bucket: FeatureSnapshot.Bucket)
    requires bucket("a1:f1") == 68 && bucket("a2:f1") == 29
    ensures var rules := SegmentRules([FeatureSnapshot.OneSegmentRule(Json.Number(Json.NegInt(-48)), Json.Number(Json.PosInt(50)))], FeatureSnapshot.Heinz(), Numeric);
      var f := ClientFeatureSnapshot(true, Int64(-42), Int64(2), 50, "F1", "f1", rules);
      Evaluate(f, Entity("a2", map["name" := Value.String("heinz")]), bucket) == Ok(Int64(-48)) &&
      Evaluate(f, Entity("a1", map["name" := Value.String("heinz")]), bucket) == Ok(Int64(2)) &&
      Evaluate(f, Entity("a2", map["name" := Value.String("heinzz")]), bucket) == Ok(Int64(-42))
  {
    var rules := SegmentRules([FeatureSnapshot.OneSegmentRule(Json.Number(Json.NegInt(-48)), Json.Number(Json.PosInt(50)))], FeatureSnapshot.Heinz(), Numeric);
    var f := ClientFeatureSnapshot(true, Int64(-42), Int64(2), 50, "F1", "f1", rules);
    FeatureSnapshot.MatchingARule(bucket);
    AgreesWithNewerSnapshot(f, Entity("a2", map["name" := Value.String("heinz")]), bucket, false);
    AgreesWithNewerSnapshot(f, Entity("a1", map["name" := Value.String("heinz")]), bucket, false);
    AgreesWithNewerSnapshot(f, Entity("a2", map["name" := Value.String("heinzz")]), bucket, false);
  }
}

/**
 * `src/models/feature_snapshot.rs`: the evaluation of a feature for an
 * entity. A disabled feature gives its disabled value; otherwise the first
 * applicable targeting rule (if any) decides the rollout percentage and the
 * value, and the entity's bucket decides whether the entity is rolled out.
 * Every evaluation that gets past the segment search records one metering
 * event.
 *
 * The bucket (`normalized_hash`: murmur3 of the tag scaled to 0..=100) is
 * the parameter `bucket`.
 */
module FeatureSnapshot {
  import opened Wrappers
  import opened RustStd
  import opened ConfigModel
  import opened Errors
  import opened MeteringModels
  import Metering
  import Models
  import Json
  import opened SegmentEvaluation

  /** `FeatureSnapshot`; `metering` says whether a metering sender is attached. */
  datatype FeatureSnapshot = FeatureSnapshot(
    enabled: bool,
    enabledValue: Value,
    disabledValue: Value,
    rolloutPercentage: u32,
    name: string,
    featureId: string,
    segmentRules: SegmentRules,
    metering: bool)

  /** `normalized_hash`, as a parameter of the model. */
  type Bucket = string -> u32

  /** The tag that is hashed: `"{entity_id}:{feature_id}"`. */
  function Tag(entityId: string, featureId: string): (t: string)
    ensures |t| == |entityId| + 1 + |featureId|
    ensures t[..|entityId|] == entityId && t[|entityId|] == ':' && t[|entityId| + 1..] == featureId
  {
    entityId + ":" + featureId
  }

  /** `should_rollout`. */
  function ShouldRollout(percentage: u32, entityId: string, featureId: string, bucket: Bucket): (r: bool)
    ensures percentage == 100 ==> r
    ensures percentage != 100 ==> (r <==> bucket(Tag(entityId, featureId)) < percentage)
  {
    percentage == 100 || bucket(Tag(entityId, featureId)) < percentage
  }

  /** A percentage of 100 rolls out every entity and 0 none, whatever the hash. */
  lemma RolloutExtremes(entityId: string, featureId: string, bucket: Bucket)
    ensures ShouldRollout(100, entityId, featureId, bucket)
    ensures !ShouldRollout(0, entityId, featureId, bucket)
  {
  }

  /**
   * Raising the percentage never withdraws a rollout, given that the bucket
   * lies in 0..=100 as `normalized_hash`'s scaling makes it.
   */
  lemma RolloutMonotonic(p: u32, q: u32, entityId: string, featureId: string, bucket: Bucket)
    requires p <= q && bucket(Tag(entityId, featureId)) <= 100
    ensures ShouldRollout(p, entityId, featureId, bucket) ==> ShouldRollout(q, entityId, featureId, bucket)
  {
  }

  /** The hash vectors of the file's tests: at 50, "a1:f1" (bucket 68) is not rolled out and "a2:f1" (bucket 29) is. */
  lemma RolloutAtFifty(bucket: Bucket)
    requires bucket("a1:f1") == 68 && bucket("a2:f1") == 29
    ensures !ShouldRollout(50, "a1", "f1", bucket)
    ensures ShouldRollout(50, "a2", "f1", bucket)
  {
    assert Tag("a1", "f1") == "a1:f1";
    assert Tag("a2", "f1") == "a2:f1";
  }

  /** What one evaluation returns, and the metering event it enqueues (if any). */
  datatype Evaluation = Evaluation(result: Result<Value, Error>, recorded: Option<EvaluationEvent>)

  /** `use_rollout_percentage_to_get_value_from_feature_directly`. */
  function DirectValue(f: FeatureSnapshot, entity: Entity, bucket: Bucket): (r: Value)
    ensures ShouldRollout(f.rolloutPercentage, entity.id, f.featureId, bucket) ==> r == f.enabledValue
    ensures !ShouldRollout(f.rolloutPercentage, entity.id, f.featureId, bucket) ==> r == f.disabledValue
  {
    if ShouldRollout(f.rolloutPercentage, entity.id, f.featureId, bucket) then f.enabledValue else f.disabledValue
  }

  /** Whether segment matching is skipped: no targeting rules, or an entity without attributes. */
  predicate SkipsSegments(f: FeatureSnapshot, entity: Entity) {
    IsEmpty(f.segmentRules) || |entity.attributes| == 0
  }

  /**
   * The value chosen once the targeting rule `rule` has applied: the rule's
   * rollout percentage (the feature's own for `"$default"`) gates the
   * result; inside the rollout the rule's value (the enabled value for
   * `"$default"`), outside it the disabled value; a rollout that cannot be
   * read is a protocol error.
   */
  function RuleResult(f: FeatureSnapshot, entity: Entity, rule: SegmentRule, bucket: Bucket): (r: Result<Value, Error>)
    ensures rule.rolloutPercentage.None? ==> r == Err(ProtocolError("Rollout is missing"))
    ensures RolloutPercentage(rule, f.rolloutPercentage).Err? ==> r.Err? && r.error.ProtocolError?
    ensures RolloutPercentage(rule, f.rolloutPercentage).Ok? ==>
      var p := RolloutPercentage(rule, f.rolloutPercentage).value;
      (ShouldRollout(p, entity.id, f.featureId, bucket) ==>
        r == if Models.IsDefault(rule.value) then Ok(f.enabledValue) else Models.TryFromValue(f.segmentRules.kind, rule.value)) &&
      (!ShouldRollout(p, entity.id, f.featureId, bucket) ==> r == Ok(f.disabledValue))
    ensures rule.rolloutPercentage.Some? && Models.IsDefault(rule.rolloutPercentage.value) ==>
      r == if !ShouldRollout(f.rolloutPercentage, entity.id, f.featureId, bucket) then Ok(f.disabledValue)
        else if Models.IsDefault(rule.value) then Ok(f.enabledValue)
        else Models.TryFromValue(f.segmentRules.kind, rule.value)
  {
    match RolloutPercentage(rule, f.rolloutPercentage)
    case Err(e) => Err(e)
    case Ok(p) =>
      if ShouldRollout(p, entity.id, f.featureId, bucket) then RuleValue(rule, f.segmentRules.kind, f.enabledValue)
      else Ok(f.disabledValue)
  }

  /** `evaluate_feature_for_entity`. */
  function Evaluate(f: FeatureSnapshot, entity: Entity, bucket: Bucket): (e: Evaluation)
    ensures !f.enabled ==> e == Evaluation(Ok(f.disabledValue), Metering.RecordFeatureEvaluation(f.metering, f.featureId, entity, None))
    ensures f.enabled && SkipsSegments(f, entity) ==>
      e.result == Ok(if ShouldRollout(f.rolloutPercentage, entity.id, f.featureId, bucket) then f.enabledValue else f.disabledValue)
    ensures f.enabled && !SkipsSegments(f, entity) ==>
      var search := FindApplicableTargetingRuleAndSegment(f.segmentRules, entity);
      (search.Err? ==> e == Evaluation(Err(search.error), None)) &&
      (search == Ok(None) ==> e.result == Ok(DirectValue(f, entity, bucket))) &&
      (search.Ok? && search.value.Some? ==> e.result == RuleResult(f, entity, search.value.value.0, bucket))
  {
    if !f.enabled then
      Evaluation(Ok(f.disabledValue), Metering.RecordFeatureEvaluation(f.metering, f.featureId, entity, None))
    else if SkipsSegments(f, entity) then
      Evaluation(Ok(DirectValue(f, entity, bucket)), Metering.RecordFeatureEvaluation(f.metering, f.featureId, entity, None))
    else
      match FindApplicableTargetingRuleAndSegment(f.segmentRules, entity)
      case Err(e) => Evaluation(Err(e), None)
      case Ok(None) =>
        Evaluation(Ok(DirectValue(f, entity, bucket)), Metering.RecordFeatureEvaluation(f.metering, f.featureId, entity, None))
      case Ok(Some((rule, segment))) =>
        Evaluation(RuleResult(f, entity, rule, bucket), Metering.RecordFeatureEvaluation(f.metering, f.featureId, entity, Some(segment)))
  }

  /**
   * Metering: an evaluation enqueues exactly one event when a sender is
   * attached, unless the segment search failed; the event is filed under
   * this feature, the entity and the matched segment (none when no rule
   * applied or the feature is disabled).
   */
  lemma RecordsOnce(f: FeatureSnapshot, entity: Entity, bucket: Bucket)
    ensures var e := Evaluate(f, entity, bucket);
      var search := FindApplicableTargetingRuleAndSegment(f.segmentRules, entity);
      var searched := f.enabled && !SkipsSegments(f, entity);
      (e.recorded.Some? <==> f.metering && !(searched && search.Err?)) &&
      (e.recorded.Some? ==>
        Metering.WellFormed(e.recorded.value) &&
        Metering.KeyOf(e.recorded.value) == FromFeature(f.featureId, entity.id,
          if searched && search.Ok? && search.value.Some? then Some(search.value.value.1.segmentId) else None))
  {
  }

  /** A failing segment search propagates its error and nothing is recorded. */
  lemma SearchErrorPropagates(f: FeatureSnapshot, entity: Entity, bucket: Bucket)
    requires f.enabled && !SkipsSegments(f, entity)
    requires FindApplicableTargetingRuleAndSegment(f.segmentRules, entity).Err?
    ensures Evaluate(f, entity, bucket) == Evaluation(Err(FindApplicableTargetingRuleAndSegment(f.segmentRules, entity).error), None)
  {
  }

  /**
   * Every value an evaluation returns is the feature's enabled value, its
   * disabled value, or the value of one of its targeting rules converted
   * under the feature's type; errors come from the segment search or from a
   * targeting rule's rollout percentage or value.
   */
  lemma {:induction false} ResultOrigin(f: FeatureSnapshot, entity: Entity, bucket: Bucket)
    ensures var r := Evaluate(f, entity, bucket).result;
      r.Ok? ==>
        (r.value == f.enabledValue || r.value == f.disabledValue ||
         exists i | 0 <= i < |f.segmentRules.targetingRules| ::
           Models.TryFromValue(f.segmentRules.kind, f.segmentRules.targetingRules[i].value) == Ok(r.value))
    ensures var r := Evaluate(f, entity, bucket).result;
      r.Err? ==> r.error.EntityEvaluationError? || r.error.ProtocolError? || r.error == MismatchType
  {
    var r := Evaluate(f, entity, bucket).result;
    if f.enabled && !SkipsSegments(f, entity) {
      var search := FindApplicableTargetingRuleAndSegment(f.segmentRules, entity);
      if search.Ok? && search.value.Some? {
        var rule := search.value.value.0;
        var i :| 0 <= i < |f.segmentRules.targetingRules| && FirstApplicable(f.segmentRules.segments, f.segmentRules.targetingRules, entity.attributes, i) &&
          rule == f.segmentRules.targetingRules[i];
        assert r == RuleResult(f, entity, rule, bucket);
        RuleResultOrigin(f, entity, rule, bucket);
      }
    }
  }

  /** Once a rule has applied, the value is the disabled value, the enabled value or the rule's own value converted. */
  lemma RuleResultOrigin(f: FeatureSnapshot, entity: Entity, rule: SegmentRule, bucket: Bucket)
    ensures var r := RuleResult(f, entity, rule, bucket);
      (r.Ok? ==> r.value == f.enabledValue || r.value == f.disabledValue || Models.TryFromValue(f.segmentRules.kind, rule.value) == Ok(r.value)) &&
      (r.Err? ==> r.error.ProtocolError? || r.error == MismatchType)
  {
  }

  /**
   * First match wins, through the whole evaluation: when the targeting rule
   * at `i` is the first that applies, the result is what that rule gives
   * (`RuleResult`: its rollout gates its value), and the metering event
   * names that rule's segment.
   */
  lemma FirstApplicableRuleDecides(f: FeatureSnapshot, entity: Entity, bucket: Bucket, i: nat)
    requires f.enabled && |entity.attributes| > 0
    requires FirstApplicable(f.segmentRules.segments, f.segmentRules.targetingRules, entity.attributes, i)
    ensures Evaluate(f, entity, bucket).result == RuleResult(f, entity, f.segmentRules.targetingRules[i], bucket)
    ensures f.metering ==>
      Evaluate(f, entity, bucket).recorded.Some? && Evaluate(f, entity, bucket).recorded.value.data.segmentId.Some?
  {
    FirstMatchWins(f.segmentRules, entity, i);
  }

  /**
   * When no targeting rule applies (and none fails), the evaluation is the
   * same as for a feature with no targeting rules at all: the feature's own
   * rollout decides.
   */
  lemma NoApplicableRuleIsDirectRollout(f: FeatureSnapshot, entity: Entity, bucket: Bucket)
    requires f.enabled
    requires forall i | 0 <= i < |f.segmentRules.targetingRules| ::
      FindSegmentOfTargetingRule(f.segmentRules.segments, f.segmentRules.targetingRules[i], entity.attributes) == Ok(None)
    ensures Evaluate(f, entity, bucket).result == Ok(if ShouldRollout(f.rolloutPercentage, entity.id, f.featureId, bucket) then f.enabledValue else f.disabledValue)
  {
  }

  // ---------------------------------------------------------------------------
  // The scenarios of the file's own tests
  // ---------------------------------------------------------------------------

  /** The test feature "f1": enabled -42, disabled 2. */
  function TestFeature(enabled: bool, rollout: u32, rules: SegmentRules): FeatureSnapshot {
    FeatureSnapshot(enabled, Int64(-42), Int64(2), rollout, "F1", "f1", rules, false)
  }

  /** The segment of the tests: attribute "name" is "heinz". */
  function Heinz(): map<string, Segment> {
    map["some_segment_id" := Segment("", "", "", None, [Rule("name", "is", ["heinz"])])]
  }

  /** `create_one_segment_rule`. */
  function OneSegmentRule(value: Json.JsonValue, rollout: Json.JsonValue): SegmentRule {
    SegmentRule([Segments(["some_segment_id"])], ConfigValue(value), 0, Some(ConfigValue(rollout)))
  }

  /** A disabled feature gives its disabled value. */
  lemma DisabledFeature(entity: Entity, bucket: Bucket)
    ensures Evaluate(TestFeature(false, 100, SegmentRules([], map[], Numeric)), entity, bucket).result == Ok(Int64(2))
  {
  }

  /** Without segment matching, 50% rollout gives "a1" the disabled and "a2" the enabled value. */
  lemma NoMatchFiftyFiftyRollout(rules: SegmentRules, attributes: map<string, Value>, bucket: Bucket)
    requires bucket("a1:f1") == 68 && bucket("a2:f1") == 29
    requires rules.targetingRules == [] || |attributes| == 0
    ensures Evaluate(TestFeature(true, 50, rules), Entity("a1", attributes), bucket).result == Ok(Int64(2))
    ensures Evaluate(TestFeature(true, 50, rules), Entity("a2", attributes), bucket).result == Ok(Int64(-42))
  {
    RolloutAtFifty(bucket);
  }

  /**
   * With the rule "name is heinz" worth -48 at 50%: "a2" named heinz gets
   * -48, "a1" named heinz is not rolled out and gets 2, and "a2" named
   * heinzz matches nothing and gets the feature's own rollout, -42.
   */
  lemma MatchingARule(bucket: Bucket)
    requires bucket("a1:f1") == 68 && bucket("a2:f1") == 29
    ensures var rules := SegmentRules([OneSegmentRule(Json.Number(Json.NegInt(-48)), Json.Number(Json.PosInt(50)))], Heinz(), Numeric);
      var f := TestFeature(true, 50, rules);
      Evaluate(f, Entity("a2", map["name" := Value.String("heinz")]), bucket).result == Ok(Int64(-48)) &&
      Evaluate(f, Entity("a1", map["name" := Value.String("heinz")]), bucket).result == Ok(Int64(2)) &&
      Evaluate(f, Entity("a2", map["name" := Value.String("heinzz")]), bucket).result == Ok(Int64(-42))
  {
    var rules := SegmentRules([OneSegmentRule(Json.Number(Json.NegInt(-48)), Json.Number(Json.PosInt(50)))], Heinz(), Numeric);
    HeinzMatches(rules, "a2", bucket);
    HeinzMatches(rules, "a1", bucket);
    HeinzzMatchesNothing(rules, bucket);
  }

  /** The entity named heinz gets the rule's value inside the rule's rollout and the disabled value outside it. */
  lemma HeinzMatches(rules: SegmentRules, id: string, bucket: Bucket)
    requires rules == SegmentRules([OneSegmentRule(Json.Number(Json.NegInt(-48)), Json.Number(Json.PosInt(50)))], Heinz(), Numeric)
    requires id in {"a1", "a2"} && bucket("a1:f1") == 68 && bucket("a2:f1") == 29
    ensures Evaluate(TestFeature(true, 50, rules), Entity(id, map["name" := Value.String("heinz")]), bucket).result ==
      if id == "a2" then Ok(Int64(-48)) else Ok(Int64(2))
  {
    RolloutAtFifty(bucket);
    var named := map["name" := Value.String("heinz")];
    assert |named| > 0 by { assert "name" in named; }
    HeinzRuleApplies(rules, Entity(id, named));
  }

  /** The one targeting rule applies to an entity named heinz. */
  lemma HeinzRuleApplies(rules: SegmentRules, entity: Entity)
    requires rules.segments == Heinz() && |rules.targetingRules| == 1
    requires rules.targetingRules[0].rules == [Segments(["some_segment_id"])]
    requires entity.attributes == map["name" := Value.String("heinz")]
    ensures FindApplicableTargetingRuleAndSegment(rules, entity) == Ok(Some((rules.targetingRules[0], Heinz()["some_segment_id"])))
  {
    var heinz := Heinz()["some_segment_id"];
    assert BelongToSegment(heinz, entity.attributes) == Ok(true) by {
      assert FindCandidate(Value.String("heinz"), heinz, heinz.rules[0], ["heinz"]) == Ok(true);
    }
    FirstMatchWins(rules, entity, 0);
  }

  /** The entity named heinzz matches no rule and gets the feature's own rollout. */
  lemma HeinzzMatchesNothing(rules: SegmentRules, bucket: Bucket)
    requires rules == SegmentRules([OneSegmentRule(Json.Number(Json.NegInt(-48)), Json.Number(Json.PosInt(50)))], Heinz(), Numeric)
    requires bucket("a1:f1") == 68 && bucket("a2:f1") == 29
    ensures Evaluate(TestFeature(true, 50, rules), Entity("a2", map["name" := Value.String("heinzz")]), bucket).result == Ok(Int64(-42))
  {
    RolloutAtFifty(bucket);
    var heinz := Heinz()["some_segment_id"];
    var other := map["name" := Value.String("heinzz")];
    assert |other| > 0 by { assert "name" in other; }
    assert BelongToSegment(heinz, other) == Ok(false) by {
      assert "heinzz" != "heinz" by { assert |"heinzz"| != |"heinz"|; }
      assert FindCandidate(Value.String("heinzz"), heinz, heinz.rules[0], ["heinz"]) == Ok(false);
    }
    assert FindSegmentOfTargetingRule(rules.segments, rules.targetingRules[0], other) == Ok(None);
  }

  /** A matched rule whose value is "$default" gives the feature's enabled value. */
  lemma MatchingYieldsDefaultValue(bucket: Bucket)
    requires bucket("a2:f1") == 29
    ensures var rules := SegmentRules([OneSegmentRule(Json.String("$default"), Json.Number(Json.PosInt(50)))], Heinz(), Numeric);
      Evaluate(TestFeature(true, 50, rules), Entity("a2", map["name" := Value.String("heinz")]), bucket).result == Ok(Int64(-42))
  {
    var rule := OneSegmentRule(Json.String("$default"), Json.Number(Json.PosInt(50)));
    var rules := SegmentRules([rule], Heinz(), Numeric);
    var heinz := Heinz()["some_segment_id"];
    var named := map["name" := Value.String("heinz")];
    assert |named| > 0 by { assert "name" in named; }
    assert Tag("a2", "f1") == "a2:f1";
    assert BelongToSegment(heinz, named) == Ok(true) by {
      assert FindCandidate(Value.String("heinz"), heinz, heinz.rules[0], ["heinz"]) == Ok(true);
    }
    FirstMatchWins(rules, Entity("a2", named), 0);
  }

  /** A matched rule whose rollout is "$default" uses the feature's rollout (here 0), so the disabled value. */
  lemma MatchingSegmentRolloutDefault(bucket: Bucket)
    ensures var rules := SegmentRules([OneSegmentRule(Json.Number(Json.PosInt(48)), Json.String("$default"))], Heinz(), Numeric);
      Evaluate(TestFeature(true, 0, rules), Entity("a2", map["name" := Value.String("heinz")]), bucket).result == Ok(Int64(2))
  {
    var rule := OneSegmentRule(Json.Number(Json.PosInt(48)), Json.String("$default"));
    var rules := SegmentRules([rule], Heinz(), Numeric);
    var heinz := Heinz()["some_segment_id"];
    var named := map["name" := Value.String("heinz")];
    assert |named| > 0 by { assert "name" in named; }
    assert BelongToSegment(heinz, named) == Ok(true) by {
      assert FindCandidate(Value.String("heinz"), heinz, heinz.rules[0], ["heinz"]) == Ok(true);
    }
    FirstMatchWins(rules, Entity("a2", named), 0);
  }
}

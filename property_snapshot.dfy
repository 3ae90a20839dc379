/**
 * `src/client/property_snapshot.rs`: the evaluation of a property for an
 * entity. There is no enabled flag and no rollout: the first applicable
 * targeting rule gives its value (or the property's value for
 * `"$default"`), and otherwise the property's value is returned.
 *
 * The metering call (`record_property_evaluation`, whose body is not part
 * of this model) is represented by the notice it is given: the property
 * name, the entity id and the matched segment's name. Its failure is only
 * logged.
 */
module PropertySnapshot {
  import opened Wrappers
  import opened ConfigModel
  import opened Errors
  import opened SegmentEvaluation
  import Models
  import Json

  /** `PropertySnapshot`; `metering` says whether a metering sender is attached. */
  datatype PropertySnapshot = PropertySnapshot(value: Value, segmentRules: SegmentRules, name: string, metering: bool)

  /** What `record_property_evaluation` is given. */
  datatype Notice = Notice(propertyName: string, entityId: string, segmentName: Option<string>)

  datatype Evaluation = Evaluation(result: Result<Value, Error>, notified: Option<Notice>)

  /** The search, skipped when there are no targeting rules or the entity has no attributes. */
  function Applicable(p: PropertySnapshot, entity: Entity): Result<Option<(SegmentRule, Segment)>, Error> {
    if IsEmpty(p.segmentRules) || |entity.attributes| == 0 then Ok(None)
    else FindApplicableTargetingRuleAndSegment(p.segmentRules, entity)
  }

  /** `evaluate_feature_for_entity` of a property. */
  function Evaluate(p: PropertySnapshot, entity: Entity): (e: Evaluation)
    ensures IsEmpty(p.segmentRules) || |entity.attributes| == 0 ==> e.result == Ok(p.value)
    ensures e.notified.Some? <==> p.metering && Applicable(p, entity).Ok?
    ensures e.notified.Some? ==> e.notified.value.propertyName == p.name && e.notified.value.entityId == entity.id
    ensures e.notified.Some? ==>
      e.notified.value.segmentName == if Applicable(p, entity).value.Some? then Some(Applicable(p, entity).value.value.1.name) else None
    ensures e.result.Err? ==> e.result.error.EntityEvaluationError? || e.result.error.ProtocolError? || e.result.error == MismatchType
  {
    match Applicable(p, entity)
    case Err(e) => Evaluation(Err(e), None)
    case Ok(found) =>
      var notice := if p.metering then Some(Notice(p.name, entity.id, if found.Some? then Some(found.value.1.name) else None)) else None;
      match found
      case Some((rule, _)) => Evaluation(RuleValue(rule, p.segmentRules.kind, p.value), notice)
      case None => Evaluation(Ok(p.value), notice)
  }

  /**
   * The result does not depend on metering: with or without a sender (and
   * whether or not the send succeeds) the same value or error is returned.
   */
  lemma MeteringNeverChangesResult(p: PropertySnapshot, entity: Entity)
    ensures Evaluate(p, entity).result == Evaluate(p.(metering := !p.metering), entity).result
  {
  }

  /**
   * First match wins, and no rollout is consulted: when the rule at `i` is
   * the first applicable one, the result is that rule's value (the
   * property's value for `"$default"`), whatever the rule's rollout
   * percentage, even a missing one.
   */
  lemma FirstApplicableRuleDecides(p: PropertySnapshot, entity: Entity, i: nat)
    requires |entity.attributes| > 0
    requires FirstApplicable(p.segmentRules.segments, p.segmentRules.targetingRules, entity.attributes, i)
    ensures Evaluate(p, entity).result ==
      if Models.IsDefault(p.segmentRules.targetingRules[i].value) then Ok(p.value)
      else Models.TryFromValue(p.segmentRules.kind, p.segmentRules.targetingRules[i].value)
  {
    FirstMatchWins(p.segmentRules, entity, i);
  }

  /** When no targeting rule applies (and none fails), the property's own value is returned. */
  lemma NoApplicableRuleGivesValue(p: PropertySnapshot, entity: Entity)
    requires forall i | 0 <= i < |p.segmentRules.targetingRules| ::
      FindSegmentOfTargetingRule(p.segmentRules.segments, p.segmentRules.targetingRules[i], entity.attributes) == Ok(None)
    ensures Evaluate(p, entity).result == Ok(p.value)
  {
  }

  /** A segment-search error propagates, and then nothing is recorded. */
  lemma SearchErrorPropagates(p: PropertySnapshot, entity: Entity)
    requires Applicable(p, entity).Err?
    ensures Evaluate(p, entity) == Evaluation(Err(Applicable(p, entity).error), None)
  {
  }

  /** The file's test: a matched rule whose value is "$default" gives the property's value -42. */
  lemma SegmentWithDefaultValue()
    ensures var segments := map["some_segment_id_1" := Segment("", "", "", None, [Rule("name", "is", ["heinz"])])];
      var rule := SegmentRule([Segments(["some_segment_id_1"])], ConfigValue(Json.String("$default")), 1, Some(ConfigValue(Json.Number(Json.PosInt(100)))));
      var p := PropertySnapshot(Int64(-42), SegmentRules([rule], segments, Numeric), "F1", false);
      Evaluate(p, Entity("a2", map["name" := Value.String("heinz")])).result == Ok(Int64(-42))
  {
    var segment := Segment("", "", "", None, [Rule("name", "is", ["heinz"])]);
    var segments := map["some_segment_id_1" := segment];
    var rule := SegmentRule([Segments(["some_segment_id_1"])], ConfigValue(Json.String("$default")), 1, Some(ConfigValue(Json.Number(Json.PosInt(100)))));
    var p := PropertySnapshot(Int64(-42), SegmentRules([rule], segments, Numeric), "F1", false);
    var named := map["name" := Value.String("heinz")];
    assert |named| > 0 by { assert "name" in named; }
    assert BelongToSegment(segment, named) == Ok(true) by {
      assert FindCandidate(Value.String("heinz"), segment, segment.rules[0], ["heinz"]) == Ok(true);
    }
    FirstApplicableRuleDecides(p, Entity("a2", named), 0);
  }
}

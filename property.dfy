/**
 * `src/client/property.rs`: the older property resource. It keeps the
 * exchange-format property with the segments of the whole configuration
 * and returns a raw `ConfigValue`, never an error.
 *
 * The older `find_applicable_segment_rule_for_entity` it calls is not part
 * of this model; it is modelled as the file's own test shows it: the
 * targeting rules are sorted by `order`, the first applicable one is
 * returned, and a segment-evaluation error counts as no rule.
 */
module ClientProperty {
  import opened Wrappers
  import opened RustStd
  import opened ConfigModel
  import opened Errors
  import opened SegmentEvaluation
  import ClientConfiguration
  import Models
  import Json

  /** `Property`: the exchange-format property and the segments by id. */
  datatype ClientProperty = ClientProperty(property: Property, segments: map<string, Segment>)

  /** The rules as the search sees them: sorted by order. */
  function SortedRules(p: ClientProperty): SegmentRules {
    SegmentRules(ClientConfiguration.SortByOrder(p.property.segmentRules), p.segments, p.property.kind)
  }

  /** `find_applicable_segment_rule_for_entity`: the first applicable rule by order; an error gives none. */
  function FindApplicableSegmentRule(p: ClientProperty, entity: Entity): (r: Option<SegmentRule>)
    ensures r.Some? ==>
      var sorted := SortedRules(p).targetingRules;
      exists i | 0 <= i < |sorted| :: FirstApplicable(p.segments, sorted, entity.attributes, i) && r.value == sorted[i]
    ensures r.None? <==> (
      FindApplicableTargetingRuleAndSegment(SortedRules(p), entity).Err? ||
      forall i | 0 <= i < |p.property.segmentRules| ::
        FindSegmentOfTargetingRule(p.segments, SortedRules(p).targetingRules[i], entity.attributes) == Ok(None))
  {
    match FindApplicableTargetingRuleAndSegment(SortedRules(p), entity)
    case Ok(Some((rule, _))) => Some(rule)
    case _ => None
  }

  /** `evaluate_feature_for_entity` of the older property. */
  function Evaluate(p: ClientProperty, entity: Entity): (r: Result<ConfigValue, Error>)
    ensures r.Ok?
    ensures |p.property.segmentRules| == 0 || |entity.attributes| == 0 ==> r.value == p.property.value
    ensures r.value == p.property.value ||
      exists i | 0 <= i < |p.property.segmentRules| ::
        r.value == p.property.segmentRules[i].value && !Models.IsDefault(r.value)
  {
    if |p.property.segmentRules| == 0 || |entity.attributes| == 0 then Ok(p.property.value)
    else
      match FindApplicableSegmentRule(p, entity)
      case Some(rule) =>
        if Models.IsDefault(rule.value) then Ok(p.property.value)
        else
          assert rule in multiset(p.property.segmentRules);
          Ok(rule.value)
      case None => Ok(p.property.value)
  }

  /**
   * The rule with the smallest order among those that apply decides: when
   * the rule at `i` of the sorted list is the first applicable one, its
   * value is returned, or the property's value for `"$default"`.
   */
  lemma FirstApplicableRuleDecides(p: ClientProperty, entity: Entity, i: nat)
    requires |entity.attributes| > 0
    requires FirstApplicable(p.segments, SortedRules(p).targetingRules, entity.attributes, i)
    ensures var rule := SortedRules(p).targetingRules[i];
      Evaluate(p, entity) == Ok(if Models.IsDefault(rule.value) then p.property.value else rule.value)
  {
    FirstMatchWins(SortedRules(p), entity, i);
  }

  /** With no applicable rule, or a failing segment search, the property's own value is returned. */
  lemma NoApplicableRuleGivesValue(p: ClientProperty, entity: Entity)
    requires FindApplicableTargetingRuleAndSegment(SortedRules(p), entity).Err? ||
      forall i | 0 <= i < |p.property.segmentRules| ::
        FindSegmentOfTargetingRule(p.segments, SortedRules(p).targetingRules[i], entity.attributes) == Ok(None)
    ensures Evaluate(p, entity) == Ok(p.property.value)
  {
  }

  // ---------------------------------------------------------------------------
  // The file's tests
  // ---------------------------------------------------------------------------

  function HeinzSegment(): Segment {
    Segment("", "", "", None, [Rule("name", "is", ["heinz"])])
  }

  function NumericRule(id: string, value: Json.JsonValue, order: u32): SegmentRule {
    SegmentRule([Segments([id])], ConfigValue(value), order, Some(ConfigValue(Json.Number(Json.PosInt(100)))))
  }

  function TestProperty(rules: seq<SegmentRule>): Property {
    Property("F1", "f1", Numeric, None, None, ConfigValue(Json.Number(Json.NegInt(-42))), rules)
  }

  lemma HeinzMatches()
    ensures BelongToSegment(HeinzSegment(), map["name" := Value.String("heinz")]) == Ok(true)
  {
    var segment := HeinzSegment();
    assert FindCandidate(Value.String("heinz"), segment, segment.rules[0], ["heinz"]) == Ok(true);
  }

  /** A matched rule whose value is `"$default"` gives the property's value -42. */
  lemma SegmentWithDefaultValue()
    ensures var p := ClientProperty(
        TestProperty([NumericRule("some_segment_id_1", Json.String("$default"), 1)]),
        map["some_segment_id_1" := HeinzSegment()]);
      Evaluate(p, Entity("a2", map["name" := Value.String("heinz")])) == Ok(ConfigValue(Json.Number(Json.NegInt(-42))))
  {
    var rules := [NumericRule("some_segment_id_1", Json.String("$default"), 1)];
    var p := ClientProperty(TestProperty(rules), map["some_segment_id_1" := HeinzSegment()]);
    var named := map["name" := Value.String("heinz")];
    assert |named| > 0 by { assert "name" in named; }
    assert ClientConfiguration.SortByOrder(rules) == rules;
    HeinzMatches();
    FirstApplicableRuleDecides(p, Entity("a2", named), 0);
  }

  /** Both rules match; the one of order 0, listed second, wins with -49. */
  lemma SegmentRuleOrdering()
    ensures var p := ClientProperty(
        TestProperty([NumericRule("some_segment_id_1", Json.Number(Json.NegInt(-48)), 1),
                      NumericRule("some_segment_id_2", Json.Number(Json.NegInt(-49)), 0)]),
        map["some_segment_id_1" := HeinzSegment(), "some_segment_id_2" := HeinzSegment()]);
      Evaluate(p, Entity("a2", map["name" := Value.String("heinz")])) == Ok(ConfigValue(Json.Number(Json.NegInt(-49))))
  {
    var first := NumericRule("some_segment_id_1", Json.Number(Json.NegInt(-48)), 1);
    var second := NumericRule("some_segment_id_2", Json.Number(Json.NegInt(-49)), 0);
    var p := ClientProperty(TestProperty([first, second]),
      map["some_segment_id_1" := HeinzSegment(), "some_segment_id_2" := HeinzSegment()]);
    var named := map["name" := Value.String("heinz")];
    assert |named| > 0 by { assert "name" in named; }
    assert ClientConfiguration.SortByOrder([first, second]) == [second, first] by {
      assert [first, second][1..] == [second];
      assert ClientConfiguration.SortByOrder([second]) == [second];
    }
    HeinzMatches();
    FirstApplicableRuleDecides(p, Entity("a2", named), 0);
  }
}

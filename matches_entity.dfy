/**
 * `src/segment_evaluation/matches_entity.rs`: the same collecting form of
 * segment membership as `matches_attributes.rs`, over the attributes of an
 * entity and with this file's own `check_operator` (the eight operators of
 * `mod.rs`, with no negated forms).
 *
 * The lemmas at the end relate the three ways the crate decides segment
 * membership.
 */
module MatchesEntity {
  import opened Wrappers
  import opened ConfigModel
  import opened Errors
  import RuleOperator
  import SegmentEvaluation
  import MatchesAttributes

  /** `impl MatchesEntity for Rule`: the collecting rule check with `check_operator`. */
  function RuleMatchesEntity(rule: Rule, entity: Entity): (r: Result<bool, (CheckOperatorErrorDetail, string)>)
    ensures rule.attributeName !in entity.attributes ==> r == Ok(false)
    ensures rule.attributeName in entity.attributes ==>
      var attr := entity.attributes[rule.attributeName];
      r == Ok(true) <==>
        (forall i | 0 <= i < |rule.values| :: SegmentEvaluation.CheckOperator(attr, rule.operator, rule.values[i]).Ok?) &&
        exists i | 0 <= i < |rule.values| :: SegmentEvaluation.CheckOperator(attr, rule.operator, rule.values[i]) == Ok(true)
  {
    MatchesAttributes.RuleMatchesWith(SegmentEvaluation.CheckOperator, rule, entity.attributes)
  }

  /** `impl MatchesEntity for Segment`: all rules, the first failing rule giving the error. */
  function SegmentMatchesEntity(segment: Segment, entity: Entity): (r: Result<bool, SegmentEvaluationError>)
    ensures r == Ok(true) <==> forall k | 0 <= k < |segment.rules| :: RuleMatchesEntity(segment.rules[k], entity) == Ok(true)
    ensures r.Err? ==> r.error.SegmentEvaluationFailed? && r.error.segmentId == segment.segmentId
  {
    MatchesAttributes.SegmentMatchesWith(SegmentEvaluation.CheckOperator, segment, entity.attributes)
  }

  /** Every rule of the segment uses an operator that `check_operator` knows. */
  predicate KnownOperatorsOnly(segment: Segment) {
    forall k | 0 <= k < |segment.rules| ::
      segment.rules[k].operator in {"is"} + SegmentEvaluation.StringOperators + SegmentEvaluation.Comparisons
  }

  /**
   * On segments whose rules use only the operators `check_operator` knows,
   * the entity form and the attribute form decide membership identically,
   * errors included.
   */
  lemma {:induction false} EntityAgreesWithAttributes(segment: Segment, entity: Entity)
    requires KnownOperatorsOnly(segment)
    ensures SegmentMatchesEntity(segment, entity) == MatchesAttributes.SegmentMatchesAttributes(segment, entity.attributes)
  {
    var attrs := entity.attributes;
    forall k | 0 <= k < |segment.rules|
      ensures MatchesAttributes.RuleMatchesWith(SegmentEvaluation.CheckOperator, segment.rules[k], attrs)
           == MatchesAttributes.RuleMatchesWith(RuleOperator.Operate, segment.rules[k], attrs)
    {
      var rule := segment.rules[k];
      if rule.attributeName in attrs {
        var attr := attrs[rule.attributeName];
        forall i | 0 <= i < |rule.values|
          ensures SegmentEvaluation.CheckOperator(attr, rule.operator, rule.values[i]) == RuleOperator.Operate(attr, rule.operator, rule.values[i])
        {
          SegmentEvaluation.CheckOperatorAgreesWithOperate(attr, rule.operator, rule.values[i]);
        }
        assert MatchesAttributes.Evaluations(SegmentEvaluation.CheckOperator, attr, rule)
            == MatchesAttributes.Evaluations(RuleOperator.Operate, attr, rule);
      }
    }
    assert MatchesAttributes.RuleResults(SegmentEvaluation.CheckOperator, segment, attrs)
        == MatchesAttributes.RuleResults(RuleOperator.Operate, segment, attrs);
  }

  /** No operator evaluation of the segment's rules on the entity's attributes fails. */
  predicate NoEvaluationFails(segment: Segment, attrs: map<string, Value>) {
    forall k | 0 <= k < |segment.rules| && segment.rules[k].attributeName in attrs ::
      forall i | 0 <= i < |segment.rules[k].values| ::
        SegmentEvaluation.CheckOperator(attrs[segment.rules[k].attributeName], segment.rules[k].operator, segment.rules[k].values[i]).Ok?
  }

  /** With no failing value, the first satisfied value is where the `belong_to_segment` search stops. */
  lemma FirstSatisfied(attr: Value, operator: string, values: seq<string>, i: nat)
    requires i < |values| && SegmentEvaluation.CheckOperator(attr, operator, values[i]) == Ok(true)
    requires forall j | 0 <= j < |values| :: SegmentEvaluation.CheckOperator(attr, operator, values[j]).Ok?
    ensures exists k | 0 <= k < |values| ::
      SegmentEvaluation.FirstDecisive(attr, operator, values, k) && SegmentEvaluation.CheckOperator(attr, operator, values[k]) == Ok(true)
  {
    var os := seq(|values|, j requires 0 <= j < |values| => SegmentEvaluation.CheckOperator(attr, operator, values[j]));
    FirstTrue(os, i);
    var k :| 0 <= k <= i && os[k] == Ok(true) && forall j | 0 <= j < k :: os[j] == Ok(false);
    forall j | 0 <= j < k ensures SegmentEvaluation.CheckOperator(attr, operator, values[j]) == Ok(false) {
      assert os[j] == Ok(false);
    }
    assert SegmentEvaluation.FirstDecisive(attr, operator, values, k);
  }

  /** In a list of outcomes without errors, the first `true` comes after `false`s only. */
  lemma {:induction false} FirstTrue(os: seq<MatchesAttributes.Outcome>, i: nat)
    requires i < |os| && os[i] == Ok(true)
    requires forall j | 0 <= j < |os| :: os[j].Ok?
    ensures exists k | 0 <= k <= i :: os[k] == Ok(true) && forall j | 0 <= j < k :: os[j] == Ok(false)
    decreases i
  {
    if j :| 0 <= j < i && os[j] == Ok(true) {
      FirstTrue(os, j);
    } else {
      forall j | 0 <= j < i ensures os[j] == Ok(false) {
        assert os[j] != Ok(true);
        assert os[j].value == false;
      }
    }
  }

  /** With no failing value, a rule matches in the searching form iff it matches in the collecting form. */
  lemma RuleAgreesWithBelong(segment: Segment, rule: Rule, entity: Entity)
    requires rule.attributeName in entity.attributes ==>
      forall i | 0 <= i < |rule.values| ::
        SegmentEvaluation.CheckOperator(entity.attributes[rule.attributeName], rule.operator, rule.values[i]).Ok?
    ensures SegmentEvaluation.RuleOutcome(segment, entity.attributes, rule).Ok? && RuleMatchesEntity(rule, entity).Ok?
    ensures SegmentEvaluation.RuleOutcome(segment, entity.attributes, rule).value == RuleMatchesEntity(rule, entity).value
  {
    var attrs := entity.attributes;
    if rule.attributeName in attrs {
      var attr := attrs[rule.attributeName];
      var r := SegmentEvaluation.RuleOutcome(segment, attrs, rule);
      if RuleMatchesEntity(rule, entity) == Ok(true) {
        var i :| 0 <= i < |rule.values| && SegmentEvaluation.CheckOperator(attr, rule.operator, rule.values[i]) == Ok(true);
        FirstSatisfied(attr, rule.operator, rule.values, i);
      }
    }
  }

  /**
   * When no operator evaluation fails, `belong_to_segment` (which stops at
   * the first satisfied value) decides exactly as `matches_entity` (which
   * evaluates every value): the two differ only in which error they report.
   */
  lemma {:induction false} BelongAgreesWithMatchesEntity(segment: Segment, entity: Entity)
    requires NoEvaluationFails(segment, entity.attributes)
    ensures SegmentEvaluation.BelongToSegment(segment, entity.attributes) == SegmentMatchesEntity(segment, entity)
  {
    var attrs := entity.attributes;
    forall k | 0 <= k < |segment.rules|
      ensures SegmentEvaluation.RuleOutcome(segment, attrs, segment.rules[k]).Ok?
      ensures RuleMatchesEntity(segment.rules[k], entity).Ok?
      ensures SegmentEvaluation.RuleMatches(attrs, segment.rules[k]) <==> RuleMatchesEntity(segment.rules[k], entity) == Ok(true)
    {
      RuleAgreesWithBelong(segment, segment.rules[k], entity);
    }
    BelongNeverFails(segment, attrs, segment.rules);
    var b := SegmentEvaluation.BelongToSegment(segment, attrs);
    var m := SegmentMatchesEntity(segment, entity);
    assert m.Ok?;
    assert b.Ok?;
    SegmentEvaluation.BelongToSegmentMeaning(segment, attrs);
    assert b.value == m.value;
  }

  /** The searching loop over rules that each evaluate without error never fails. */
  lemma {:induction false} BelongNeverFails(segment: Segment, attrs: map<string, Value>, rules: seq<Rule>)
    requires forall k | 0 <= k < |rules| :: SegmentEvaluation.RuleOutcome(segment, attrs, rules[k]).Ok?
    ensures SegmentEvaluation.BelongFrom(segment, attrs, rules).Ok?
    decreases |rules|
  {
    if rules != [] {
      assert forall k | 0 <= k < |rules| - 1 :: rules[1..][k] == rules[k + 1];
      BelongNeverFails(segment, attrs, rules[1..]);
    }
  }

  /** The same agreement extends to `matches_attributes` on segments whose operators `check_operator` knows. */
  lemma BelongAgreesWithMatchesAttributes(segment: Segment, entity: Entity)
    requires NoEvaluationFails(segment, entity.attributes) && KnownOperatorsOnly(segment)
    ensures SegmentEvaluation.BelongToSegment(segment, entity.attributes) == MatchesAttributes.SegmentMatchesAttributes(segment, entity.attributes)
  {
    BelongAgreesWithMatchesEntity(segment, entity);
    EntityAgreesWithAttributes(segment, entity);
  }
}

/**
 * `src/segment_evaluation/mod.rs`: the targeting rules of one feature or
 * property together with the segments they reference, the search for the
 * first targeting rule whose segments apply to an entity, and the two
 * accessors of a matched rule (`rollout_percentage` and `value`).
 *
 * Membership follows the code: a segment matches when ALL its rules match,
 * and a rule matches when ANY of its values satisfies the operator.
 */
module SegmentEvaluation {
  import opened Wrappers
  import opened RustStd
  import opened Json
  import opened ConfigModel
  import opened Errors
  import opened Operands
  import RuleOperator
  import Models

  type Outcome = Result<bool, CheckOperatorErrorDetail>

  /** `SegmentRules`: the targeting rules in stored order, the referenced segments by id, and the value kind. */
  datatype SegmentRules = SegmentRules(
    targetingRules: seq<SegmentRule>,
    segments: map<string, Segment>,
    kind: ValueType)

  /** `SegmentRules::is_empty`. */
  predicate IsEmpty(rules: SegmentRules) {
    |rules.targetingRules| == 0
  }

  // ---------------------------------------------------------------------------
  // check_operator
  // ---------------------------------------------------------------------------

  /** The numeric comparisons `check_operator` knows. */
  const Comparisons: set<string> := {"greaterThan", "lesserThan", "greaterThanEquals", "lesserThanEquals"}

  /** The string operators `check_operator` knows. */
  const StringOperators: set<string> := {"contains", "startsWith", "endsWith"}

  /**
   * This file's own `check_operator`: the six positive operators and the two
   * inclusive comparisons, each written out directly (no negated operators).
   * The reference is parsed at the attribute's own type.
   */
  function CheckOperator(v: Value, operator: string, x: string): (r: Outcome)
    ensures operator in StringOperators && !v.String? ==> r == Err(StringExpected)
    ensures operator in Comparisons && !IsNumber(v) ==> r == Err(EntityAttrNotANumber)
    ensures operator !in {"is"} + StringOperators + Comparisons <==> r == Err(OperatorNotImplemented)
    ensures operator == "is" && v.String? ==> r == Ok(v.s == x)
    ensures operator == "greaterThanEquals" && IsNumber(v) && ReferenceNumber(v, x).Ok? ==>
      r == Ok(NumberOf(v) >= ReferenceNumber(v, x).value)
    ensures operator == "lesserThanEquals" && IsNumber(v) && ReferenceNumber(v, x).Ok? ==>
      r == Ok(NumberOf(v) <= ReferenceNumber(v, x).value)
  {
    match operator
    case "is" =>
      (match v
       case String(s) => Ok(s == x)
       case Boolean(b) => var p := ParseBoolRef(x); if p.Ok? then Ok(b == p.value) else Err(p.error)
       case _ => var p := ReferenceNumber(v, x); if p.Ok? then Ok(NumberOf(v) == p.value) else Err(p.error))
    case "contains" =>
      if v.String? then Ok(Contains(v.s, x)) else Err(StringExpected)
    case "startsWith" =>
      if v.String? then Ok(StartsWith(v.s, x)) else Err(StringExpected)
    case "endsWith" =>
      if v.String? then Ok(EndsWith(v.s, x)) else Err(StringExpected)
    case "greaterThan" =>
      if IsNumber(v) then
        var p := ReferenceNumber(v, x); if p.Ok? then Ok(NumberOf(v) > p.value) else Err(p.error)
      else Err(EntityAttrNotANumber)
    case "lesserThan" =>
      if IsNumber(v) then
        var p := ReferenceNumber(v, x); if p.Ok? then Ok(NumberOf(v) < p.value) else Err(p.error)
      else Err(EntityAttrNotANumber)
    case "greaterThanEquals" =>
      if IsNumber(v) then
        var p := ReferenceNumber(v, x); if p.Ok? then Ok(NumberOf(v) >= p.value) else Err(p.error)
      else Err(EntityAttrNotANumber)
    case "lesserThanEquals" =>
      if IsNumber(v) then
        var p := ReferenceNumber(v, x); if p.Ok? then Ok(NumberOf(v) <= p.value) else Err(p.error)
      else Err(EntityAttrNotANumber)
    case _ => Err(OperatorNotImplemented)
  }

  /**
   * On every operator this file knows, `check_operator` agrees with the
   * `RuleOperator::operate` dispatch of `rule_operator.rs`, whose inclusive
   * comparisons are negations: the two ways of writing `>=` and `<=` give
   * the same outcome, errors included.
   */
  lemma CheckOperatorAgreesWithOperate(v: Value, operator: string, x: string)
    requires operator in {"is"} + StringOperators + Comparisons
    ensures CheckOperator(v, operator, x) == RuleOperator.Operate(v, operator, x)
  {
    match v
    case Float64(_) =>
    case UInt64(u) =>
      if operator == "is" && ReferenceNumber(v, x).Ok? {
        assert (u == ParseU64(x).value) == (u as int as real == ParseU64(x).value as int as real);
      }
    case Int64(i) =>
      if operator == "is" && ReferenceNumber(v, x).Ok? {
        assert (i == ParseI64(x).value) == (i as int as real == ParseI64(x).value as int as real);
      }
    case String(_) =>
    case Boolean(_) =>
  }

  // ---------------------------------------------------------------------------
  // belong_to_segment
  // ---------------------------------------------------------------------------

  /** The error a failing operator is reported with (`From<(CheckOperatorErrorDetail, &Segment, &Rule, &String)>`). */
  function Failed(segment: Segment, rule: Rule, value: string, e: CheckOperatorErrorDetail): SegmentEvaluationError {
    SegmentEvaluationFailed(segment.segmentId, rule.attributeName, rule.operator, value, e)
  }

  /** Value `i` of the list is the first one the operator does not reject outright. */
  predicate FirstDecisive(attr: Value, operator: string, values: seq<string>, i: int) {
    0 <= i < |values| && CheckOperator(attr, operator, values[i]) != Ok(false) &&
    forall j | 0 <= j < i :: CheckOperator(attr, operator, values[j]) == Ok(false)
  }

  /**
   * The `find_map` over a rule's values: the search stops at the first value
   * that satisfies the operator (a match) or makes it fail (an error that
   * names the segment, the attribute, the operator and that value).
   */
  function FindCandidate(attr: Value, segment: Segment, rule: Rule, values: seq<string>): (r: Result<bool, SegmentEvaluationError>)
    ensures r == Ok(false) <==> forall i | 0 <= i < |values| :: CheckOperator(attr, rule.operator, values[i]) == Ok(false)
    ensures r == Ok(true) <==>
      exists i | 0 <= i < |values| ::
        FirstDecisive(attr, rule.operator, values, i) && CheckOperator(attr, rule.operator, values[i]) == Ok(true)
    ensures r.Err? ==>
      exists i | 0 <= i < |values| ::
        FirstDecisive(attr, rule.operator, values, i) &&
        CheckOperator(attr, rule.operator, values[i]).Err? &&
        r.error == Failed(segment, rule, values[i], CheckOperator(attr, rule.operator, values[i]).error)
    decreases |values|
  {
    if values == [] then Ok(false)
    else
      var o := CheckOperator(attr, rule.operator, values[0]);
      var rest := FindCandidate(attr, segment, rule, values[1..]);
      assert forall i | 1 <= i < |values| :: values[1..][i - 1] == values[i];
      assert o != Ok(false) ==> FirstDecisive(attr, rule.operator, values, 0);
      assert forall i | 0 <= i < |values| - 1 :: FirstDecisive(attr, rule.operator, values[1..], i) && o == Ok(false) ==> FirstDecisive(attr, rule.operator, values, i + 1);
      assert forall i | 0 <= i < |values| :: FirstDecisive(attr, rule.operator, values, i) && o == Ok(false) ==> i > 0 && FirstDecisive(attr, rule.operator, values[1..], i - 1);
      match o
      case Ok(true) => Ok(true)
      case Ok(false) => rest
      case Err(e) => Err(Failed(segment, rule, values[0], e))
  }

  /** A rule matches: the entity has the attribute and the value search ends on a match. */
  predicate RuleMatches(attrs: map<string, Value>, rule: Rule) {
    rule.attributeName in attrs &&
    exists i | 0 <= i < |rule.values| ::
      FirstDecisive(attrs[rule.attributeName], rule.operator, rule.values, i) &&
      CheckOperator(attrs[rule.attributeName], rule.operator, rule.values[i]) == Ok(true)
  }

  /** The outcome of one rule inside `belong_to_segment`: a missing attribute is a plain non-match. */
  function RuleOutcome(segment: Segment, attrs: map<string, Value>, rule: Rule): (r: Result<bool, SegmentEvaluationError>)
    ensures r == Ok(true) <==> RuleMatches(attrs, rule)
    ensures rule.attributeName !in attrs ==> r == Ok(false)
    ensures r.Err? ==>
      r.error.SegmentEvaluationFailed? && r.error.segmentId == segment.segmentId &&
      r.error.attributeName == rule.attributeName && r.error.operator == rule.operator && r.error.value in rule.values
  {
    if rule.attributeName !in attrs then Ok(false)
    else FindCandidate(attrs[rule.attributeName], segment, rule, rule.values)
  }

  /** The loop of `belong_to_segment` over the remaining rules: it stops at the first rule that does not match or fails. */
  function BelongFrom(segment: Segment, attrs: map<string, Value>, rules: seq<Rule>): (r: Result<bool, SegmentEvaluationError>)
    ensures r.Err? ==> r.error.SegmentEvaluationFailed? && r.error.segmentId == segment.segmentId
    decreases |rules|
  {
    if rules == [] then Ok(true)
    else
      match RuleOutcome(segment, attrs, rules[0])
      case Err(e) => Err(e)
      case Ok(false) => Ok(false)
      case Ok(true) => BelongFrom(segment, attrs, rules[1..])
  }

  /**
   * `belong_to_segment`: every rule is tried in order; a rule that does not
   * match, or whose evaluation fails, ends the loop.
   */
  function BelongToSegment(segment: Segment, attrs: map<string, Value>): (r: Result<bool, SegmentEvaluationError>)
    ensures r.Err? ==> r.error.SegmentEvaluationFailed? && r.error.segmentId == segment.segmentId
  {
    BelongFrom(segment, attrs, segment.rules)
  }

  lemma {:induction false} BelongFromMeaning(segment: Segment, attrs: map<string, Value>, rules: seq<Rule>)
    ensures BelongFrom(segment, attrs, rules) == Ok(true) <==> forall k | 0 <= k < |rules| :: RuleMatches(attrs, rules[k])
    ensures BelongFrom(segment, attrs, rules).Err? ==>
      exists k | 0 <= k < |rules| ::
        RuleOutcome(segment, attrs, rules[k]) == BelongFrom(segment, attrs, rules) &&
        forall j | 0 <= j < k :: RuleMatches(attrs, rules[j])
    decreases |rules|
  {
    if rules != [] {
      BelongFromMeaning(segment, attrs, rules[1..]);
      assert forall k | 1 <= k < |rules| :: rules[1..][k - 1] == rules[k];
      var r := BelongFrom(segment, attrs, rules);
      if RuleOutcome(segment, attrs, rules[0]) == Ok(true) && r.Err? {
        var k :| 0 <= k < |rules| - 1 && RuleOutcome(segment, attrs, rules[1..][k]) == r &&
          forall j | 0 <= j < k :: RuleMatches(attrs, rules[1..][j]);
        assert RuleOutcome(segment, attrs, rules[k + 1]) == r;
      }
    }
  }

  /**
   * The meaning of `belong_to_segment`: the segment applies iff every one of
   * its rules matches (so an empty rule list applies to everyone); an error
   * is the error of the first rule that did not match, all rules before it
   * matching.
   */
  lemma BelongToSegmentMeaning(segment: Segment, attrs: map<string, Value>)
    ensures BelongToSegment(segment, attrs) == Ok(true) <==> forall k | 0 <= k < |segment.rules| :: RuleMatches(attrs, segment.rules[k])
    ensures BelongToSegment(segment, attrs).Err? ==>
      exists k | 0 <= k < |segment.rules| ::
        RuleOutcome(segment, attrs, segment.rules[k]) == BelongToSegment(segment, attrs) &&
        forall j | 0 <= j < k :: RuleMatches(attrs, segment.rules[j])
  {
    BelongFromMeaning(segment, attrs, segment.rules);
  }

  /** A missing attribute, reached after rules that all matched, gives `Ok(false)` and no error. */
  lemma {:induction false} MissingAttributeIsNoMatch(segment: Segment, attrs: map<string, Value>, k: nat)
    requires k < |segment.rules| && segment.rules[k].attributeName !in attrs
    requires forall j | 0 <= j < k :: RuleMatches(attrs, segment.rules[j])
    ensures BelongToSegment(segment, attrs) == Ok(false)
  {
    MissingAttributeFrom(segment, attrs, segment.rules, k);
  }

  lemma {:induction false} MissingAttributeFrom(segment: Segment, attrs: map<string, Value>, rules: seq<Rule>, k: nat)
    requires k < |rules| && rules[k].attributeName !in attrs
    requires forall j | 0 <= j < k :: RuleMatches(attrs, rules[j])
    ensures BelongFrom(segment, attrs, rules) == Ok(false)
    decreases k
  {
    if k > 0 {
      assert RuleOutcome(segment, attrs, rules[0]) == Ok(true);
      assert forall j | 0 <= j < k - 1 :: rules[1..][j] == rules[j + 1];
      MissingAttributeFrom(segment, attrs, rules[1..], k - 1);
    }
  }

  // ---------------------------------------------------------------------------
  // find_segment_which_applies_to_entity and the targeting-rule search
  // ---------------------------------------------------------------------------

  /** Segment `id` exists and the entity does not belong to it. */
  predicate Rejects(segments: map<string, Segment>, attrs: map<string, Value>, id: string) {
    id in segments && BelongToSegment(segments[id], attrs) == Ok(false)
  }

  /**
   * `find_segment_which_applies_to_entity`: the segment ids are tried in
   * order and the first segment the entity belongs to is returned; an id
   * with no segment stops the search with `SegmentIdNotFound(id)`. Nothing
   * is found iff every listed segment exists and rejects the entity.
   */
  function FindSegmentWhichApplies(segments: map<string, Segment>, ids: seq<string>, attrs: map<string, Value>): (r: Result<Option<Segment>, SegmentEvaluationError>)
    ensures r == Ok(None) <==> forall i | 0 <= i < |ids| :: Rejects(segments, attrs, ids[i])
    ensures r.Ok? && r.value.Some? ==> r.value.value in segments.Values
    ensures r.Err? && r.error.SegmentIdNotFound? ==> r.error.id in ids && r.error.id !in segments
    decreases |ids|
  {
    if ids == [] then Ok(None)
    else if ids[0] !in segments then Err(SegmentIdNotFound(ids[0]))
    else
      assert forall i | 1 <= i < |ids| :: ids[1..][i - 1] == ids[i];
      match BelongToSegment(segments[ids[0]], attrs)
      case Err(e) => Err(e)
      case Ok(true) => Ok(Some(segments[ids[0]]))
      case Ok(false) => FindSegmentWhichApplies(segments, ids[1..], attrs)
  }

  /**
   * A segment found is the first listed segment the entity belongs to,
   * every earlier id naming a segment that rejects the entity.
   */
  lemma {:induction false} FindSegmentWhichAppliesMeaning(segments: map<string, Segment>, ids: seq<string>, attrs: map<string, Value>)
    requires FindSegmentWhichApplies(segments, ids, attrs).Ok? && FindSegmentWhichApplies(segments, ids, attrs).value.Some?
    ensures exists i | 0 <= i < |ids| ::
      ids[i] in segments && FindSegmentWhichApplies(segments, ids, attrs).value.value == segments[ids[i]] &&
      BelongToSegment(segments[ids[i]], attrs) == Ok(true) &&
      forall j | 0 <= j < i :: Rejects(segments, attrs, ids[j])
    decreases |ids|
  {
    if BelongToSegment(segments[ids[0]], attrs) == Ok(false) {
      var rest := FindSegmentWhichApplies(segments, ids[1..], attrs);
      assert FindSegmentWhichApplies(segments, ids, attrs) == rest;
      FindSegmentWhichAppliesMeaning(segments, ids[1..], attrs);
      var i :| 0 <= i < |ids| - 1 && ids[1..][i] in segments && rest.value.value == segments[ids[1..][i]] &&
        BelongToSegment(segments[ids[1..][i]], attrs) == Ok(true) && forall j | 0 <= j < i :: Rejects(segments, attrs, ids[1..][j]);
      assert ids[i + 1] == ids[1..][i];
      assert forall j | 1 <= j < i + 1 :: ids[1..][j - 1] == ids[j];
    }
  }

  /**
   * `SegmentIdNotFound` names the first listed id with no segment, every
   * earlier id naming a segment that rejects the entity.
   */
  lemma {:induction false} FirstMissingSegment(segments: map<string, Segment>, ids: seq<string>, attrs: map<string, Value>)
    requires FindSegmentWhichApplies(segments, ids, attrs).Err? && FindSegmentWhichApplies(segments, ids, attrs).error.SegmentIdNotFound?
    ensures exists i | 0 <= i < |ids| ::
      ids[i] == FindSegmentWhichApplies(segments, ids, attrs).error.id && ids[i] !in segments &&
      forall j | 0 <= j < i :: Rejects(segments, attrs, ids[j])
    decreases |ids|
  {
    if ids[0] in segments {
      var rest := FindSegmentWhichApplies(segments, ids[1..], attrs);
      assert BelongToSegment(segments[ids[0]], attrs) == Ok(false);
      assert FindSegmentWhichApplies(segments, ids, attrs) == rest;
      FirstMissingSegment(segments, ids[1..], attrs);
      var i :| 0 <= i < |ids| - 1 && ids[1..][i] == rest.error.id && ids[1..][i] !in segments &&
        forall j | 0 <= j < i :: Rejects(segments, attrs, ids[1..][j]);
      assert ids[i + 1] == ids[1..][i];
      assert forall j | 1 <= j < i + 1 :: ids[1..][j - 1] == ids[j];
    }
  }

  /**
   * `find_segment_of_targeting_rule_which_applies_to_entity`: the loop over
   * the inner segment groups returns on its first iteration, so only the
   * first group is consulted; no group means no segment.
   */
  function FindSegmentOfTargetingRule(segments: map<string, Segment>, rule: SegmentRule, attrs: map<string, Value>): (r: Result<Option<Segment>, SegmentEvaluationError>)
    ensures |rule.rules| == 0 ==> r == Ok(None)
    ensures r.Ok? && r.value.Some? ==> r.value.value in segments.Values
    ensures r.Err? && r.error.SegmentIdNotFound? ==> r.error.id in rule.rules[0].segments && r.error.id !in segments
  {
    if |rule.rules| == 0 then Ok(None)
    else FindSegmentWhichApplies(segments, rule.rules[0].segments, attrs)
  }

  /** Groups after the first never influence whether or which segment applies. */
  lemma OnlyFirstGroupConsulted(segments: map<string, Segment>, rule: SegmentRule, later: seq<Segments>, attrs: map<string, Value>)
    requires |rule.rules| > 0
    ensures FindSegmentOfTargetingRule(segments, rule.(rules := rule.rules[..1] + later), attrs)
         == FindSegmentOfTargetingRule(segments, rule, attrs)
  {
    assert (rule.rules[..1] + later)[0] == rule.rules[0];
  }

  /** The targeting rule at index `i` is the first whose segments apply. */
  predicate FirstApplicable(segments: map<string, Segment>, rules: seq<SegmentRule>, attrs: map<string, Value>, i: int) {
    0 <= i < |rules| &&
    FindSegmentOfTargetingRule(segments, rules[i], attrs).Ok? && FindSegmentOfTargetingRule(segments, rules[i], attrs).value.Some? &&
    forall j | 0 <= j < i :: FindSegmentOfTargetingRule(segments, rules[j], attrs) == Ok(None)
  }

  /** The loop of `find_applicable_targeting_rule_and_segment_for_entity` over the remaining targeting rules. */
  function FindFrom(segments: map<string, Segment>, rules: seq<SegmentRule>, attrs: map<string, Value>): (r: Result<Option<(SegmentRule, Segment)>, SegmentEvaluationError>)
    ensures r == Ok(None) <==> forall i | 0 <= i < |rules| :: FindSegmentOfTargetingRule(segments, rules[i], attrs) == Ok(None)
    decreases |rules|
  {
    if rules == [] then Ok(None)
    else
      assert forall i | 1 <= i < |rules| :: rules[1..][i - 1] == rules[i];
      match FindSegmentOfTargetingRule(segments, rules[0], attrs)
      case Err(e) => Err(e)
      case Ok(Some(s)) => Ok(Some((rules[0], s)))
      case Ok(None) => FindFrom(segments, rules[1..], attrs)
  }

  /**
   * A rule found is the first targeting rule with an applying segment,
   * returned together with that segment.
   */
  lemma {:induction false} FindFromFirst(segments: map<string, Segment>, rules: seq<SegmentRule>, attrs: map<string, Value>)
    requires FindFrom(segments, rules, attrs).Ok? && FindFrom(segments, rules, attrs).value.Some?
    ensures exists i | 0 <= i < |rules| ::
      FirstApplicable(segments, rules, attrs, i) &&
      FindFrom(segments, rules, attrs).value.value == (rules[i], FindSegmentOfTargetingRule(segments, rules[i], attrs).value.value)
    decreases |rules|
  {
    var first := FindSegmentOfTargetingRule(segments, rules[0], attrs);
    if first.Ok? && first.value.Some? {
      assert FirstApplicable(segments, rules, attrs, 0);
    } else {
      var rest := FindFrom(segments, rules[1..], attrs);
      assert FindFrom(segments, rules, attrs) == rest;
      FindFromFirst(segments, rules[1..], attrs);
      var i :| 0 <= i < |rules| - 1 && FirstApplicable(segments, rules[1..], attrs, i) &&
        rest.value.value == (rules[1..][i], FindSegmentOfTargetingRule(segments, rules[1..][i], attrs).value.value);
      assert rules[1..][i] == rules[i + 1];
      assert forall j | 0 <= j < i :: rules[1..][j] == rules[j + 1];
      assert FirstApplicable(segments, rules, attrs, i + 1);
    }
  }

  /** The targeting rule at index `i` fails with `e`, every earlier rule not applying. */
  predicate FirstFailing(segments: map<string, Segment>, rules: seq<SegmentRule>, attrs: map<string, Value>, i: int, e: SegmentEvaluationError) {
    0 <= i < |rules| &&
    FindSegmentOfTargetingRule(segments, rules[i], attrs) == Err(e) &&
    forall j | 0 <= j < i :: FindSegmentOfTargetingRule(segments, rules[j], attrs) == Ok(None)
  }

  /** A failure is the error of the first targeting rule whose evaluation failed. */
  lemma {:induction false} FindFromFails(segments: map<string, Segment>, rules: seq<SegmentRule>, attrs: map<string, Value>)
    requires FindFrom(segments, rules, attrs).Err?
    ensures exists i :: FirstFailing(segments, rules, attrs, i, FindFrom(segments, rules, attrs).error)
    decreases |rules|
  {
    var e := FindFrom(segments, rules, attrs).error;
    if FindSegmentOfTargetingRule(segments, rules[0], attrs) == Ok(None) {
      assert FindFrom(segments, rules, attrs) == FindFrom(segments, rules[1..], attrs);
      FindFromFails(segments, rules[1..], attrs);
      var i :| FirstFailing(segments, rules[1..], attrs, i, e);
      FirstFailingShifts(segments, rules, attrs, i, e);
    } else {
      assert FirstFailing(segments, rules, attrs, 0, e);
    }
  }

  /** Behind a rule that does not apply, the first failing rule moves one place on. */
  lemma FirstFailingShifts(segments: map<string, Segment>, rules: seq<SegmentRule>, attrs: map<string, Value>, i: int, e: SegmentEvaluationError)
    requires |rules| > 0 && FindSegmentOfTargetingRule(segments, rules[0], attrs) == Ok(None)
    requires FirstFailing(segments, rules[1..], attrs, i, e)
    ensures FirstFailing(segments, rules, attrs, i + 1, e)
  {
    assert rules[1..][i] == rules[i + 1];
    forall j | 0 <= j < i + 1
      ensures FindSegmentOfTargetingRule(segments, rules[j], attrs) == Ok(None)
    {
      if j > 0 {
        assert rules[1..][j - 1] == rules[j];
      }
    }
  }

  /**
   * `SegmentRules::find_applicable_targeting_rule_and_segment_for_entity`:
   * the targeting rules are tried in stored order and the first one with an
   * applying segment is returned with that segment; a segment-evaluation
   * error is lifted into `Error::EntityEvaluationError`.
   */
  function FindApplicableTargetingRuleAndSegment(rules: SegmentRules, entity: Entity): (r: Result<Option<(SegmentRule, Segment)>, Error>)
    ensures r == Ok(None) <==> forall i | 0 <= i < |rules.targetingRules| ::
      FindSegmentOfTargetingRule(rules.segments, rules.targetingRules[i], entity.attributes) == Ok(None)
    ensures r.Ok? && r.value.Some? ==>
      exists i | 0 <= i < |rules.targetingRules| ::
        FirstApplicable(rules.segments, rules.targetingRules, entity.attributes, i) &&
        r.value.value.0 == rules.targetingRules[i] &&
        Some(r.value.value.1) == FindSegmentOfTargetingRule(rules.segments, rules.targetingRules[i], entity.attributes).value
    ensures r.Err? ==> r.error.EntityEvaluationError?
  {
    var r := FindFrom(rules.segments, rules.targetingRules, entity.attributes);
    if r.Ok? && r.value.Some? then
      FindFromFirst(rules.segments, rules.targetingRules, entity.attributes);
      Ok(r.value)
    else if r.Ok? then Ok(r.value)
    else Err(EntityEvaluationError(r.error))
  }

  /**
   * First match wins: when the targeting rule at `i` applies and none
   * before it applies or fails, that rule is the one returned, whatever
   * the later rules would give.
   */
  lemma {:induction false} FirstMatchWins(rules: SegmentRules, entity: Entity, i: nat)
    requires FirstApplicable(rules.segments, rules.targetingRules, entity.attributes, i)
    ensures var r := FindApplicableTargetingRuleAndSegment(rules, entity);
      r.Ok? && r.value.Some? && r.value.value.0 == rules.targetingRules[i]
  {
    var segs, trs, attrs := rules.segments, rules.targetingRules, entity.attributes;
    var r := FindFrom(segs, trs, attrs);
    if r.Err? {
      FindFromFails(segs, trs, attrs);
    }
    assert FindSegmentOfTargetingRule(segs, trs[i], attrs) != Ok(None);
    assert r.Ok? && r.value.Some?;
    FindFromFirst(segs, trs, attrs);
    var k :| 0 <= k < |trs| && FirstApplicable(segs, trs, attrs, k) &&
      r.value.value == (trs[k], FindSegmentOfTargetingRule(segs, trs[k], attrs).value.value);
  }

  // ---------------------------------------------------------------------------
  // SegmentRule::rollout_percentage and SegmentRule::value
  // ---------------------------------------------------------------------------

  /** The `Display` text of the standard library's `TryFromIntError`. */
  const U32_CONVERSION_ERROR := "out of range integral type conversion attempted"

  /**
   * `SegmentRule::rollout_percentage`: a missing rollout is a protocol error,
   * `"$default"` gives the supplied default, and any other value must be an
   * unsigned integer that fits in 32 bits.
   */
  function RolloutPercentage(rule: SegmentRule, default: u32): (r: Result<u32, Error>)
    ensures rule.rolloutPercentage.None? ==> r == Err(ProtocolError("Rollout is missing"))
    ensures rule.rolloutPercentage.Some? && Models.IsDefault(rule.rolloutPercentage.value) ==> r == Ok(default)
    ensures rule.rolloutPercentage.Some? && !Models.IsDefault(rule.rolloutPercentage.value) ==>
      var j := rule.rolloutPercentage.value.json;
      (r.Ok? <==> j.Number? && j.n.PosInt? && (j.n.u as int) < U32_LIMIT) &&
      (r.Ok? ==> r.value as int == j.n.u as int) &&
      (r.Err? ==> r.error.ProtocolError?) &&
      (!(j.Number? && j.n.PosInt?) ==> r == Err(ProtocolError("Rollout value is not u64."))) &&
      (j.Number? && j.n.PosInt? && (j.n.u as int) >= U32_LIMIT ==>
        r == Err(ProtocolError("Invalid rollout value. Could not convert to u32: " + U32_CONVERSION_ERROR)))
  {
    match rule.rolloutPercentage
    case None => Err(ProtocolError("Rollout is missing"))
    case Some(v) =>
      if Models.IsDefault(v) then Ok(default)
      else
        var u := Models.AsU64(v);
        if u.None? then Err(ProtocolError("Rollout value is not u64."))
        else if (u.value as int) < U32_LIMIT then Ok(u.value as int as u32)
        else Err(ProtocolError("Invalid rollout value. Could not convert to u32: " + U32_CONVERSION_ERROR))
  }

  /**
   * `SegmentRule::value`: the supplied default exactly when the rule's value
   * is `"$default"`; otherwise the rule's value converted under the kind.
   */
  function RuleValue(rule: SegmentRule, kind: ValueType, default: Value): (r: Result<Value, Error>)
    ensures Models.IsDefault(rule.value) ==> r == Ok(default)
    ensures !Models.IsDefault(rule.value) ==> r == Models.TryFromValue(kind, rule.value)
    ensures !Models.IsDefault(rule.value) && r.Ok? ==> KindOf(r.value) == kind
    ensures r.Err? ==> r.error == MismatchType || r.error.ProtocolError?
  {
    if Models.IsDefault(rule.value) then Ok(default) else Models.TryFromValue(kind, rule.value)
  }

  // ---------------------------------------------------------------------------
  // The scenarios of the file's own tests
  // ---------------------------------------------------------------------------

  function NameIs(id: string, name: string): Segment {
    Segment("", id, "", None, [Rule("name", "is", [name])])
  }

  /**
   * With segments "heinz" and "peter" referenced by one targeting rule, the
   * entity named "peter" is reported with the second segment, and an entity
   * without the attribute matches no rule and raises no error.
   */
  lemma ReportsMatchedSegment(value: ConfigValue, rollout: Option<ConfigValue>)
    ensures var segments := map["some_segment_id_1" := NameIs("some_segment_id_1", "heinz"),
                                 "some_segment_id_2" := NameIs("some_segment_id_2", "peter")];
      var rule := SegmentRule([Segments(["some_segment_id_1", "some_segment_id_2"])], value, 0, rollout);
      var rules := SegmentRules([rule], segments, ValueType.String);
      FindApplicableTargetingRuleAndSegment(rules, Entity("a2", map["name" := Value.String("peter")]))
        == Ok(Some((rule, segments["some_segment_id_2"]))) &&
      FindApplicableTargetingRuleAndSegment(rules, Entity("a2", map["name2" := Value.String("heinz")])) == Ok(None)
  {
    var heinz := NameIs("some_segment_id_1", "heinz");
    var peter := NameIs("some_segment_id_2", "peter");
    assert CheckOperator(Value.String("peter"), "is", "heinz") == Ok(false);
    assert FindCandidate(Value.String("peter"), heinz, heinz.rules[0], ["heinz"]) == Ok(false);
    assert BelongToSegment(heinz, map["name" := Value.String("peter")]) == Ok(false);
    assert FindCandidate(Value.String("peter"), peter, peter.rules[0], ["peter"]) == Ok(true);
    assert BelongToSegment(peter, map["name" := Value.String("peter")]) == Ok(true);
    assert BelongToSegment(heinz, map["name2" := Value.String("heinz")]) == Ok(false);
    assert BelongToSegment(peter, map["name2" := Value.String("heinz")]) == Ok(false);
  }

  /**
   * An unknown segment id is reported as `SegmentIdNotFound` with that id,
   * and an operator that fails (`is` between a float attribute and a name) is reported
   * with the segment id, the attribute name and the offending value.
   */
  lemma ReportsErrors(value: ConfigValue, rollout: Option<ConfigValue>)
    ensures var segments := map["some_segment_id_1" := NameIs("some_segment_id_1", "heinz")];
      var entity := Entity("a2", map["name" := Float64(42.0)]);
      FindApplicableTargetingRuleAndSegment(
        SegmentRules([SegmentRule([Segments(["non_existing_segment_id"])], value, 0, rollout)], segments, ValueType.String), entity)
        == Err(EntityEvaluationError(SegmentIdNotFound("non_existing_segment_id"))) &&
      FindApplicableTargetingRuleAndSegment(
        SegmentRules([SegmentRule([Segments(["some_segment_id_1"])], value, 0, rollout)], segments, ValueType.String), entity)
        == Err(EntityEvaluationError(SegmentEvaluationFailed("some_segment_id_1", "name", "is", "heinz", FloatExpected)))
  {
    ReportsFailingOperator(value, rollout);
  }

  /** A float attribute compared with "is" to a reference that is no number fails with `FloatExpected`. */
  lemma ReportsFailingOperator(value: ConfigValue, rollout: Option<ConfigValue>)
    ensures FindApplicableTargetingRuleAndSegment(
        SegmentRules([SegmentRule([Segments(["some_segment_id_1"])], value, 0, rollout)],
                     map["some_segment_id_1" := NameIs("some_segment_id_1", "heinz")], ValueType.String),
        Entity("a2", map["name" := Float64(42.0)]))
      == Err(EntityEvaluationError(SegmentEvaluationFailed("some_segment_id_1", "name", "is", "heinz", FloatExpected)))
  {
    var heinz := NameIs("some_segment_id_1", "heinz");
    assert CheckOperator(Float64(42.0), "is", "heinz") == Err(FloatExpected) by {
      HeinzIsNoNumber();
    }
    assert BelongToSegment(heinz, map["name" := Float64(42.0)])
      == Err(SegmentEvaluationFailed("some_segment_id_1", "name", "is", "heinz", FloatExpected));
  }

  /** "heinz" does not parse as a number. */
  lemma HeinzIsNoNumber()
    ensures ParseF64("heinz").None?
  {
    assert "heinz"[0] == 'h';
    assert FirstIndex("heinz", '.') == 5;
    assert !IsDigit("heinz"[0]);
  }
}

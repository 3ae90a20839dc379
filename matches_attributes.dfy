/**
 * `src/segment_evaluation/matches_attributes.rs`: segment membership over a
 * map of attributes, written with `collect::<Result<Vec<bool>, _>>()`. The
 * collection stops at the first failing value, so an error anywhere among a
 * rule's values wins over a value that matched before it; only when every
 * value evaluates does `any` (for a rule) or `all` (for a segment) decide.
 *
 * The operator is a parameter: this file applies `RuleOperator::operate`,
 * `matches_entity.rs` applies its own `check_operator`.
 */
module MatchesAttributes {
  import opened Wrappers
  import opened ConfigModel
  import opened Errors
  import RustStd
  import RuleOperator

  type Outcome = Result<bool, CheckOperatorErrorDetail>

  /** `collect::<Result<Vec<bool>, E>>()`: every value, or the first error. */
  function Collect<E>(os: seq<Result<bool, E>>): (r: Result<seq<bool>, E>)
    ensures r.Ok? <==> forall i | 0 <= i < |os| :: os[i].Ok?
    ensures r.Ok? ==> |r.value| == |os| && forall i | 0 <= i < |os| :: r.value[i] == os[i].value
    ensures r.Err? ==>
      exists i | 0 <= i < |os| :: os[i] == Err(r.error) && forall j | 0 <= j < i :: os[j].Ok?
  {
    if os == [] then Ok([])
    else if os[0].Err? then Err(os[0].error)
    else
      var rest := Collect(os[1..]);
      assert forall i | 1 <= i < |os| :: os[1..][i - 1] == os[i];
      if rest.Err? then
        FirstErrorShifts(os, rest.error);
        Err(rest.error)
      else Ok([os[0].value] + rest.value)
  }

  /** The first error of the tail, behind an `Ok` head, is the first error of the whole list. */
  lemma FirstErrorShifts<E>(os: seq<Result<bool, E>>, e: E)
    requires |os| > 0 && os[0].Ok?
    requires exists i | 0 <= i < |os| - 1 :: os[1..][i] == Err(e) && forall j | 0 <= j < i :: os[1..][j].Ok?
    ensures exists i | 0 <= i < |os| :: os[i] == Err(e) && forall j | 0 <= j < i :: os[j].Ok?
  {
    var i :| 0 <= i < |os| - 1 && os[1..][i] == Err(e) && forall j | 0 <= j < i :: os[1..][j].Ok?;
    assert os[i + 1] == os[1..][i];
    assert forall j | 1 <= j < i + 1 :: os[j] == os[1..][j - 1];
  }

  /** `iter().any(|&x| x)`. */
  function Any(bs: seq<bool>): (r: bool)
    ensures r <==> exists i | 0 <= i < |bs| :: bs[i]
  {
    if bs == [] then false else bs[0] || Any(bs[1..])
  }

  /** `iter().all(|&x| x)`. */
  function All(bs: seq<bool>): (r: bool)
    ensures r <==> forall i | 0 <= i < |bs| :: bs[i]
  {
    if bs == [] then true else bs[0] && All(bs[1..])
  }

  /** `.map_err(|e| (e, value.to_owned()))`: an operator error tagged with the value it failed on. */
  function Tagged(o: Outcome, value: string): Result<bool, (CheckOperatorErrorDetail, string)> {
    if o.Ok? then Ok(o.value) else Err((o.error, value))
  }

  /** The operator applied to the attribute and each reference value of the rule, in order. */
  function Evaluations(check: (Value, string, string) -> Outcome, attr: Value, rule: Rule): (os: seq<Result<bool, (CheckOperatorErrorDetail, string)>>)
    ensures |os| == |rule.values|
    ensures forall i | 0 <= i < |rule.values| :: os[i] == Tagged(check(attr, rule.operator, rule.values[i]), rule.values[i])
  {
    seq(|rule.values|, i requires 0 <= i < |rule.values| => Tagged(check(attr, rule.operator, rule.values[i]), rule.values[i]))
  }

  /**
   * The rule half, for a given operator: no attribute is no match; otherwise
   * the first value whose evaluation fails gives the error with that value,
   * and with no failure the rule matches iff some value satisfies it (so a
   * rule with no values never matches).
   */
  function RuleMatchesWith(check: (Value, string, string) -> Outcome, rule: Rule, attrs: map<string, Value>): (r: Result<bool, (CheckOperatorErrorDetail, string)>)
    ensures rule.attributeName !in attrs ==> r == Ok(false)
    ensures |rule.values| == 0 ==> r == Ok(false)
    ensures rule.attributeName in attrs ==>
      var attr := attrs[rule.attributeName];
      (r.Ok? <==> forall i | 0 <= i < |rule.values| :: check(attr, rule.operator, rule.values[i]).Ok?) &&
      (r == Ok(true) <==> r.Ok? && exists i | 0 <= i < |rule.values| :: check(attr, rule.operator, rule.values[i]) == Ok(true)) &&
      (r.Err? ==>
         exists i | 0 <= i < |rule.values| ::
           check(attr, rule.operator, rule.values[i]).Err? &&
           r.error == (check(attr, rule.operator, rule.values[i]).error, rule.values[i]) &&
           forall j | 0 <= j < i :: check(attr, rule.operator, rule.values[j]).Ok?)
  {
    if rule.attributeName !in attrs then Ok(false)
    else
      var attr := attrs[rule.attributeName];
      var os := Evaluations(check, attr, rule);
      match Collect(os)
      case Err(e) => Err(e)
      case Ok(bs) =>
        assert forall i | 0 <= i < |bs| :: bs[i] == (check(attr, rule.operator, rule.values[i]) == Ok(true));
        Ok(Any(bs))
  }

  /** The per-rule results of a segment, each error turned into a segment-evaluation error. */
  function RuleResults(check: (Value, string, string) -> Outcome, segment: Segment, attrs: map<string, Value>): (os: seq<Result<bool, SegmentEvaluationError>>)
    ensures |os| == |segment.rules|
    ensures forall k | 0 <= k < |segment.rules| ::
      var m := RuleMatchesWith(check, segment.rules[k], attrs);
      os[k] == if m.Ok? then Ok(m.value) else Err(SegmentEvaluationFailed(segment.segmentId, segment.rules[k].attributeName, segment.rules[k].operator, m.error.1, m.error.0))
  {
    seq(|segment.rules|, k requires 0 <= k < |segment.rules| =>
      var m := RuleMatchesWith(check, segment.rules[k], attrs);
      if m.Ok? then Ok(m.value) else Err(SegmentEvaluationFailed(segment.segmentId, segment.rules[k].attributeName, segment.rules[k].operator, m.error.1, m.error.0)))
  }

  /**
   * The segment half, for a given operator: the first rule whose evaluation
   * fails gives the error (with the segment id, the attribute, the operator
   * and the failing value); otherwise the segment matches iff all its rules
   * match.
   */
  function SegmentMatchesWith(check: (Value, string, string) -> Outcome, segment: Segment, attrs: map<string, Value>): (r: Result<bool, SegmentEvaluationError>)
    ensures r == Ok(true) <==> forall k | 0 <= k < |segment.rules| :: RuleMatchesWith(check, segment.rules[k], attrs) == Ok(true)
    ensures r == Ok(false) <==>
      (forall k | 0 <= k < |segment.rules| :: RuleMatchesWith(check, segment.rules[k], attrs).Ok?) &&
      exists k | 0 <= k < |segment.rules| :: RuleMatchesWith(check, segment.rules[k], attrs) == Ok(false)
    ensures r.Err? ==>
      exists k | 0 <= k < |segment.rules| ::
        var m := RuleMatchesWith(check, segment.rules[k], attrs);
        m.Err? && r.error == SegmentEvaluationFailed(segment.segmentId, segment.rules[k].attributeName, segment.rules[k].operator, m.error.1, m.error.0) &&
        forall j | 0 <= j < k :: RuleMatchesWith(check, segment.rules[j], attrs).Ok?
  {
    var os := RuleResults(check, segment, attrs);
    match Collect(os)
    case Err(e) => Err(e)
    case Ok(bs) =>
      assert forall k | 0 <= k < |bs| :: bs[k] == (RuleMatchesWith(check, segment.rules[k], attrs) == Ok(true));
      Ok(All(bs))
  }

  /** `impl MatchesAttributes for Rule`, with `RuleOperator::operate`. */
  function RuleMatchesAttributes(rule: Rule, attrs: map<string, Value>): (r: Result<bool, (CheckOperatorErrorDetail, string)>)
    ensures rule.attributeName !in attrs ==> r == Ok(false)
    ensures rule.attributeName in attrs ==>
      var attr := attrs[rule.attributeName];
      r == Ok(true) <==>
        (forall i | 0 <= i < |rule.values| :: RuleOperator.Operate(attr, rule.operator, rule.values[i]).Ok?) &&
        exists i | 0 <= i < |rule.values| :: RuleOperator.Operate(attr, rule.operator, rule.values[i]) == Ok(true)
  {
    RuleMatchesWith(RuleOperator.Operate, rule, attrs)
  }

  /** `impl MatchesAttributes for Segment`, with `RuleOperator::operate`. */
  function SegmentMatchesAttributes(segment: Segment, attrs: map<string, Value>): (r: Result<bool, SegmentEvaluationError>)
    ensures r == Ok(true) <==> forall k | 0 <= k < |segment.rules| :: RuleMatchesAttributes(segment.rules[k], attrs) == Ok(true)
    ensures r.Err? ==> r.error.SegmentEvaluationFailed? && r.error.segmentId == segment.segmentId
  {
    SegmentMatchesWith(RuleOperator.Operate, segment, attrs)
  }

  /**
   * Unlike `belong_to_segment`, which stops at the first value that
   * matches, the collecting form reports an error on a later value even
   * after an earlier value matched: with `id = 5`, the rule
   * `id is ["5", "five"]` fails on "five".
   */
  lemma ErrorAfterMatchIsReported()
    ensures var rule := Rule("id", "is", ["5", "five"]);
      RuleMatchesAttributes(rule, map["id" := UInt64(5)]) == Err((IntegerExpected, "five"))
  {
    var rule := Rule("id", "is", ["5", "five"]);
    RustStd.ParseU64FormatNat(5);
    assert RustStd.FormatNat(5) == "5";
    assert RuleOperator.Operate(UInt64(5), "is", "5") == Ok(true);
    assert "five"[0] == 'f';
    assert RuleOperator.Operate(UInt64(5), "is", "five") == Err(IntegerExpected);
    var os := Evaluations(RuleOperator.Operate, UInt64(5), rule);
    assert os == [Ok(true), Err((IntegerExpected, "five"))];
    assert os[1..] == [Err((IntegerExpected, "five"))];
    assert Collect(os) == Err((IntegerExpected, "five"));
  }

}

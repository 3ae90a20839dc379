/**
 * `src/client/configuration.rs`: the static configuration snapshot. It
 * selects one environment of a `ConfigurationJson`, sorts every feature's
 * and property's targeting rules by `order`, collects the segments they
 * reference, checks that none is missing, and indexes features and
 * properties by id. Snapshots of single features and properties are read
 * from it.
 *
 * The integrity check as written compares the number of targeting rules
 * with the number of segments found; `New` models that, and `NewChecked`
 * the check as evidently intended (every referenced segment is present),
 * which is what the offline client does.
 */
module ClientConfiguration {
  import opened Wrappers
  import opened RustStd
  import opened ConfigModel
  import opened Errors
  import opened SegmentEvaluation
  import Models
  import FeatureSnapshot
  import PropertySnapshot
  import Json

  /** `Configuration`: features and properties by id, each with its targeting rules and their segments. */
  datatype Configuration = Configuration(
    features: map<string, (Feature, SegmentRules)>,
    properties: map<string, (Property, SegmentRules)>)

  // ---------------------------------------------------------------------------
  // Selecting the environment
  // ---------------------------------------------------------------------------

  /** `environments.into_iter().find(|e| e.environment_id == environment_id)`. */
  function FindEnvironment(environments: seq<Environment>, environmentId: string): (r: Option<Environment>)
    ensures r.None? <==> forall i | 0 <= i < |environments| :: environments[i].environmentId != environmentId
    ensures r.Some? ==>
      exists i | 0 <= i < |environments| ::
        r.value == environments[i] && environmentId == environments[i].environmentId &&
        forall j | 0 <= j < i :: environments[j].environmentId != environmentId
  {
    if environments == [] then None
    else if environments[0].environmentId == environmentId then Some(environments[0])
    else
      var r := FindEnvironment(environments[1..], environmentId);
      assert forall i | 1 <= i < |environments| :: environments[1..][i - 1] == environments[i];
      r
  }

  // ---------------------------------------------------------------------------
  // Sorting the targeting rules
  // ---------------------------------------------------------------------------

  /** Ascending by `order`. */
  predicate SortedByOrder(rules: seq<SegmentRule>) {
    forall i, j | 0 <= i < j < |rules| :: rules[i].order <= rules[j].order
  }

  /** Every rule has at least the given order. */
  predicate OrderAtLeast(rules: seq<SegmentRule>, bound: u32) {
    forall i | 0 <= i < |rules| :: bound <= rules[i].order
  }

  /** Insertion of one rule in front of every rule of equal or greater order, which keeps the sort stable. */
  function Insert(rule: SegmentRule, sorted: seq<SegmentRule>): (r: seq<SegmentRule>)
    requires SortedByOrder(sorted)
    ensures SortedByOrder(r)
    ensures multiset(r) == multiset(sorted) + multiset{rule}
    ensures |r| == |sorted| + 1
    ensures forall bound: u32 | OrderAtLeast(sorted, bound) && bound <= rule.order :: OrderAtLeast(r, bound)
  {
    if sorted == [] then [rule]
    else if rule.order <= sorted[0].order then
      SortedCons(rule, sorted);
      [rule] + sorted
    else
      var rest := Insert(rule, sorted[1..]);
      InsertAfterHead(rule, sorted, rest);
      [sorted[0]] + rest
  }

  /** The step of `Insert` that keeps the head: the recursive result's properties carry over. */
  lemma InsertAfterHead(rule: SegmentRule, sorted: seq<SegmentRule>, rest: seq<SegmentRule>)
    requires SortedByOrder(sorted) && sorted != [] && sorted[0].order < rule.order
    requires SortedByOrder(rest) && multiset(rest) == multiset(sorted[1..]) + multiset{rule} && |rest| == |sorted|
    requires forall bound: u32 | OrderAtLeast(sorted[1..], bound) && bound <= rule.order :: OrderAtLeast(rest, bound)
    ensures SortedByOrder([sorted[0]] + rest)
    ensures multiset([sorted[0]] + rest) == multiset(sorted) + multiset{rule}
    ensures forall bound: u32 | OrderAtLeast(sorted, bound) && bound <= rule.order :: OrderAtLeast([sorted[0]] + rest, bound)
  {
    assert sorted == [sorted[0]] + sorted[1..];
    assert OrderAtLeast(sorted[1..], sorted[0].order);
    assert OrderAtLeast(rest, sorted[0].order);
    SortedCons(sorted[0], rest);
    forall bound: u32 | OrderAtLeast(sorted, bound) && bound <= rule.order
      ensures OrderAtLeast([sorted[0]] + rest, bound)
    {
      assert OrderAtLeast(sorted[1..], bound);
    }
  }

  /** A rule no later than every rule of a sorted list may go in front of it. */
  lemma SortedCons(rule: SegmentRule, sorted: seq<SegmentRule>)
    requires SortedByOrder(sorted)
    requires sorted == [] || rule.order <= sorted[0].order || OrderAtLeast(sorted, rule.order)
    ensures SortedByOrder([rule] + sorted) && OrderAtLeast([rule] + sorted, rule.order)
    ensures forall bound: u32 | OrderAtLeast(sorted, bound) && bound <= rule.order :: OrderAtLeast([rule] + sorted, bound)
  {
  }

  /** `segment_rules.sort_by(|a, b| a.order.cmp(&b.order))`: sorted, and a permutation of the input. */
  function SortByOrder(rules: seq<SegmentRule>): (r: seq<SegmentRule>)
    ensures SortedByOrder(r)
    ensures multiset(r) == multiset(rules)
    ensures |r| == |rules|
  {
    if rules == [] then []
    else
      assert rules == [rules[0]] + rules[1..];
      Insert(rules[0], SortByOrder(rules[1..]))
  }

  // ---------------------------------------------------------------------------
  // Collecting the referenced segments
  // ---------------------------------------------------------------------------

  /** The ids of every inner `segments` list of every targeting rule. */
  function ReferencedIds(rules: seq<SegmentRule>): (ids: set<string>)
    ensures forall i, j, id | 0 <= i < |rules| && 0 <= j < |rules[i].rules| && id in rules[i].rules[j].segments :: id in ids
    ensures forall id | id in ids :: exists i, j | 0 <= i < |rules| && 0 <= j < |rules[i].rules| :: id in rules[i].rules[j].segments
  {
    set i, j, k | 0 <= i < |rules| && 0 <= j < |rules[i].rules| && 0 <= k < |rules[i].rules[j].segments| ::
      rules[i].rules[j].segments[k]
  }

  /** Whether some segment of the list has this id. */
  predicate Present(segments: seq<Segment>, id: string) {
    exists i | 0 <= i < |segments| :: segments[i].segmentId == id
  }

  /** The segments of the list whose id is in `ids`, keyed by id; a later segment with the same id replaces an earlier one. */
  function Collect(segments: seq<Segment>, ids: set<string>): (r: map<string, Segment>)
    ensures forall id :: id in r <==> id in ids && Present(segments, id)
    ensures forall id | id in r :: r[id].segmentId == id && r[id] in segments
  {
    if segments == [] then map[]
    else
      var last := segments[|segments| - 1];
      var rest := Collect(segments[..|segments| - 1], ids);
      assert forall i | 0 <= i < |segments| - 1 :: segments[..|segments| - 1][i] == segments[i];
      if last.segmentId in ids then rest[last.segmentId := last] else rest
  }

  /** `get_segments_for_segment_rules`. */
  function SegmentsForRules(segments: seq<Segment>, rules: seq<SegmentRule>): (r: map<string, Segment>)
    ensures forall id :: id in r <==> id in ReferencedIds(rules) && Present(segments, id)
    ensures forall id | id in r :: r[id].segmentId == id && r[id] in segments
  {
    Collect(segments, ReferencedIds(rules))
  }

  /** Every segment the rules reference is present. */
  predicate AllReferencedPresent(segments: seq<Segment>, rules: seq<SegmentRule>) {
    forall id | id in ReferencedIds(rules) :: Present(segments, id)
  }

  /**
   * The integrity check as written: as many segments found as there are
   * targeting rules, that is, the number of rules is compared with the
   * number of distinct referenced ids that are present.
   */
  predicate RuleCountCheck(segments: seq<Segment>, rules: seq<SegmentRule>): (ok: bool)
    ensures ok <==> |rules| == |set id | id in ReferencedIds(rules) && Present(segments, id)|
  {
    var found := SegmentsForRules(segments, rules);
    assert found.Keys == set id | id in ReferencedIds(rules) && Present(segments, id);
    |rules| == |found|
  }

  /**
   * The integrity check as evidently intended: as many segments found as
   * ids referenced, which holds exactly when every referenced segment is
   * present.
   */
  predicate ReferencedCountCheck(segments: seq<Segment>, rules: seq<SegmentRule>): (ok: bool)
    ensures ok <==> AllReferencedPresent(segments, rules)
  {
    var found := SegmentsForRules(segments, rules);
    var ids := ReferencedIds(rules);
    assert found.Keys <= ids;
    assert AllReferencedPresent(segments, rules) ==> found.Keys == ids;
    if |ids| == |found| then
      SubsetOfEqualSize(found.Keys, ids);
      true
    else
      false
  }

  /** A subset of equal size is the whole set. */
  lemma SubsetOfEqualSize<T>(a: set<T>, b: set<T>)
    requires a <= b && |a| == |b|
    ensures a == b
  {
    if a != b {
      var x :| x in b && x !in a;
      assert a <= b - {x};
      SubsetSize(a, b - {x});
    }
  }

  lemma {:induction false} SubsetSize<T>(a: set<T>, b: set<T>)
    requires a <= b
    ensures |a| <= |b|
  {
    assert b == a + (b - a);
  }

  // ---------------------------------------------------------------------------
  // Indexing features and properties
  // ---------------------------------------------------------------------------

  /** The integrity check used: the one as written or the corrected one. */
  type Check = (seq<Segment>, seq<SegmentRule>) -> bool

  /** One feature of `Configuration::new`: its rules sorted, its segments collected and checked. */
  function FeatureEntry(segments: seq<Segment>, f: Feature, check: Check): (r: Result<(Feature, SegmentRules), ConfigurationDataError>)
    ensures r.Err? <==> !check(segments, SortByOrder(f.segmentRules))
    ensures r.Err? ==> r.error == MissingSegments(f.featureId)
    ensures r.Ok? ==>
      var sorted := SortByOrder(f.segmentRules);
      r.value.0 == f.(segmentRules := sorted) &&
      r.value.1 == SegmentRules(sorted, SegmentsForRules(segments, sorted), f.kind)
  {
    var sorted := SortByOrder(f.segmentRules);
    if !check(segments, sorted) then Err(MissingSegments(f.featureId))
    else Ok((f.(segmentRules := sorted), SegmentRules(sorted, SegmentsForRules(segments, sorted), f.kind)))
  }

  /** One property of `Configuration::new`. */
  function PropertyEntry(segments: seq<Segment>, p: Property, check: Check): (r: Result<(Property, SegmentRules), ConfigurationDataError>)
    ensures r.Err? <==> !check(segments, SortByOrder(p.segmentRules))
    ensures r.Err? ==> r.error == MissingSegments(p.propertyId)
    ensures r.Ok? ==>
      var sorted := SortByOrder(p.segmentRules);
      r.value.0 == p.(segmentRules := sorted) &&
      r.value.1 == SegmentRules(sorted, SegmentsForRules(segments, sorted), p.kind)
  {
    var sorted := SortByOrder(p.segmentRules);
    if !check(segments, sorted) then Err(MissingSegments(p.propertyId))
    else Ok((p.(segmentRules := sorted), SegmentRules(sorted, SegmentsForRules(segments, sorted), p.kind)))
  }

  /**
   * `map(...).collect::<Result<HashMap<_, _>, _>>()`: the first item whose
   * entry fails aborts with that error; otherwise every item's entry is
   * indexed by the item's id, a later item replacing an earlier one with
   * the same id.
   */
  function Index<T, V>(xs: seq<T>, id: T -> string, entry: T -> Result<V, ConfigurationDataError>): (r: Result<map<string, V>, ConfigurationDataError>)
    ensures r.Ok? ==> forall k | k in r.value :: exists i | 0 <= i < |xs| :: id(xs[i]) == k
  {
    if xs == [] then Ok(map[])
    else
      match entry(xs[0])
      case Err(e) => Err(e)
      case Ok(v) =>
        match Index(xs[1..], id, entry)
        case Err(e) => Err(e)
        case Ok(rest) =>
          assert forall i | 1 <= i < |xs| :: xs[1..][i - 1] == xs[i];
          Ok(if id(xs[0]) in rest then rest else rest[id(xs[0]) := v])
  }

  /** Indexing succeeds iff every entry does. */
  lemma {:induction false} IndexOk<T, V>(xs: seq<T>, id: T -> string, entry: T -> Result<V, ConfigurationDataError>)
    ensures Index(xs, id, entry).Ok? <==> forall i | 0 <= i < |xs| :: entry(xs[i]).Ok?
  {
    if xs != [] {
      IndexOk(xs[1..], id, entry);
      assert forall i | 1 <= i < |xs| :: xs[1..][i - 1] == xs[i];
    }
  }

  /** A failure is the error of the first failing entry. */
  lemma {:induction false} IndexFailsAtFirstError<T, V>(xs: seq<T>, id: T -> string, entry: T -> Result<V, ConfigurationDataError>)
    requires Index(xs, id, entry).Err?
    ensures exists i | 0 <= i < |xs| ::
      entry(xs[i]) == Err(Index(xs, id, entry).error) && forall j | 0 <= j < i :: entry(xs[j]).Ok?
  {
    if entry(xs[0]).Err? {
      assert entry(xs[0]) == Err(Index(xs, id, entry).error);
    } else {
      IndexFailsAtFirstError(xs[1..], id, entry);
      var i :| 0 <= i < |xs| - 1 && entry(xs[1..][i]) == Err(Index(xs, id, entry).error) &&
        forall j | 0 <= j < i :: entry(xs[1..][j]).Ok?;
      assert xs[i + 1] == xs[1..][i];
      assert forall j | 1 <= j < i + 1 :: xs[j] == xs[1..][j - 1];
    }
  }

  /**
   * On success every item's id is a key, and each key holds the entry of
   * the last item with that id.
   */
  lemma {:induction false} IndexLastWins<T, V>(xs: seq<T>, id: T -> string, entry: T -> Result<V, ConfigurationDataError>, i: int)
    requires Index(xs, id, entry).Ok? && 0 <= i < |xs|
    requires forall j | i < j < |xs| :: id(xs[j]) != id(xs[i])
    ensures id(xs[i]) in Index(xs, id, entry).value && entry(xs[i]).Ok?
    ensures Index(xs, id, entry).value[id(xs[i])] == entry(xs[i]).value
  {
    IndexOk(xs, id, entry);
    var rest := Index(xs[1..], id, entry);
    assert rest.Ok?;
    if i == 0 {
      if id(xs[0]) in rest.value {
        assert false;
      }
    } else {
      assert forall j | i - 1 < j < |xs| - 1 :: xs[1..][j] == xs[j + 1];
      IndexLastWins(xs[1..], id, entry, i - 1);
      assert xs[1..][i - 1] == xs[i];
    }
  }

  /**
   * The features of one environment, by id: the first feature failing the
   * check aborts with its `MissingSegments`; otherwise every feature id is
   * a key.
   */
  function IndexFeatures(segments: seq<Segment>, fs: seq<Feature>, check: Check): (r: Result<map<string, (Feature, SegmentRules)>, ConfigurationDataError>)
    ensures r.Ok? <==> forall i | 0 <= i < |fs| :: FeatureEntry(segments, fs[i], check).Ok?
    ensures r.Err? ==>
      exists i | 0 <= i < |fs| ::
        r.error == MissingSegments(fs[i].featureId) && !check(segments, SortByOrder(fs[i].segmentRules)) &&
        forall j | 0 <= j < i :: check(segments, SortByOrder(fs[j].segmentRules))
  {
    var id := (f: Feature) => f.featureId;
    var entry := (f: Feature) => FeatureEntry(segments, f, check);
    IndexOk(fs, id, entry);
    var r := Index(fs, id, entry);
    if r.Err? then IndexFailsAtFirstError(fs, id, entry); r else r
  }

  /** A feature id is a key of the index, holding the entry of the last feature with that id. */
  lemma IndexFeaturesLastWins(segments: seq<Segment>, fs: seq<Feature>, check: Check, i: int)
    requires IndexFeatures(segments, fs, check).Ok? && 0 <= i < |fs|
    requires forall j | i < j < |fs| :: fs[j].featureId != fs[i].featureId
    ensures fs[i].featureId in IndexFeatures(segments, fs, check).value
    ensures IndexFeatures(segments, fs, check).value[fs[i].featureId] == FeatureEntry(segments, fs[i], check).value
  {
    IndexLastWins(fs, (f: Feature) => f.featureId, (f: Feature) => FeatureEntry(segments, f, check), i);
  }

  /** The properties of one environment, by id. */
  function IndexProperties(segments: seq<Segment>, ps: seq<Property>, check: Check): (r: Result<map<string, (Property, SegmentRules)>, ConfigurationDataError>)
    ensures r.Ok? <==> forall i | 0 <= i < |ps| :: PropertyEntry(segments, ps[i], check).Ok?
    ensures r.Err? ==>
      exists i | 0 <= i < |ps| ::
        r.error == MissingSegments(ps[i].propertyId) && !check(segments, SortByOrder(ps[i].segmentRules)) &&
        forall j | 0 <= j < i :: check(segments, SortByOrder(ps[j].segmentRules))
  {
    var id := (p: Property) => p.propertyId;
    var entry := (p: Property) => PropertyEntry(segments, p, check);
    IndexOk(ps, id, entry);
    var r := Index(ps, id, entry);
    if r.Err? then IndexFailsAtFirstError(ps, id, entry); r else r
  }

  /** A property id is a key of the index, holding the entry of the last property with that id. */
  lemma IndexPropertiesLastWins(segments: seq<Segment>, ps: seq<Property>, check: Check, i: int)
    requires IndexProperties(segments, ps, check).Ok? && 0 <= i < |ps|
    requires forall j | i < j < |ps| :: ps[j].propertyId != ps[i].propertyId
    ensures ps[i].propertyId in IndexProperties(segments, ps, check).value
    ensures IndexProperties(segments, ps, check).value[ps[i].propertyId] == PropertyEntry(segments, ps[i], check).value
  {
    IndexLastWins(ps, (p: Property) => p.propertyId, (p: Property) => PropertyEntry(segments, p, check), i);
  }

  /** `Configuration::new`, with the given integrity check. */
  function NewWith(environmentId: string, json: ConfigurationJson, check: Check): (r: Result<Configuration, ConfigurationDataError>)
    ensures FindEnvironment(json.environments, environmentId).None? <==> r == Err(EnvironmentNotFound(environmentId))
    ensures r.Ok? <==> (FindEnvironment(json.environments, environmentId).Some? &&
      IndexFeatures(json.segments, FindEnvironment(json.environments, environmentId).value.features, check).Ok? &&
      IndexProperties(json.segments, FindEnvironment(json.environments, environmentId).value.properties, check).Ok?)
    ensures r.Ok? ==>
      var env := FindEnvironment(json.environments, environmentId).value;
      IndexFeatures(json.segments, env.features, check) == Ok(r.value.features) &&
      IndexProperties(json.segments, env.properties, check) == Ok(r.value.properties)
    ensures r.Err? && FindEnvironment(json.environments, environmentId).Some? ==>
      var env := FindEnvironment(json.environments, environmentId).value;
      r.error.MissingSegments? &&
      (IndexFeatures(json.segments, env.features, check).Err? ==> IndexFeatures(json.segments, env.features, check) == Err(r.error))
  {
    match FindEnvironment(json.environments, environmentId)
    case None => Err(EnvironmentNotFound(environmentId))
    case Some(env) =>
      match IndexFeatures(json.segments, env.features, check)
      case Err(e) => Err(e)
      case Ok(features) =>
        match IndexProperties(json.segments, env.properties, check)
        case Err(e) => Err(e)
        case Ok(properties) => Ok(Configuration(features, properties))
  }

  /**
   * `Configuration::new` as written: it fails with `EnvironmentNotFound`
   * exactly when the environment is missing, and otherwise succeeds
   * exactly when the sorted rules of every feature and every property pass
   * the rule-count check.
   */
  function New(environmentId: string, json: ConfigurationJson): (r: Result<Configuration, ConfigurationDataError>)
    ensures FindEnvironment(json.environments, environmentId).None? <==> r == Err(EnvironmentNotFound(environmentId))
    ensures r.Err? ==> r.error == EnvironmentNotFound(environmentId) || r.error.MissingSegments?
    ensures var env := FindEnvironment(json.environments, environmentId);
      r.Ok? <==> (env.Some? &&
        (forall i | 0 <= i < |env.value.features| :: RuleCountCheck(json.segments, SortByOrder(env.value.features[i].segmentRules))) &&
        (forall i | 0 <= i < |env.value.properties| :: RuleCountCheck(json.segments, SortByOrder(env.value.properties[i].segmentRules))))
  {
    NewWith(environmentId, json, RuleCountCheck)
  }

  /** `Configuration::new` as evidently intended: the same, with the check that every referenced segment is present. */
  function NewChecked(environmentId: string, json: ConfigurationJson): (r: Result<Configuration, ConfigurationDataError>)
    ensures FindEnvironment(json.environments, environmentId).None? <==> r == Err(EnvironmentNotFound(environmentId))
    ensures r.Err? ==> r.error == EnvironmentNotFound(environmentId) || r.error.MissingSegments?
    ensures var env := FindEnvironment(json.environments, environmentId);
      r.Ok? <==> (env.Some? &&
        (forall i | 0 <= i < |env.value.features| :: ReferencedCountCheck(json.segments, SortByOrder(env.value.features[i].segmentRules))) &&
        (forall i | 0 <= i < |env.value.properties| :: ReferencedCountCheck(json.segments, SortByOrder(env.value.properties[i].segmentRules))))
  {
    NewWith(environmentId, json, ReferencedCountCheck)
  }

  /**
   * The corrected construction succeeds exactly when the environment exists
   * and every targeting rule of every feature and property references only
   * segments that are present.
   */
  lemma {:induction false} NewCheckedSucceedsIffIntact(environmentId: string, json: ConfigurationJson)
    ensures var env := FindEnvironment(json.environments, environmentId);
      NewChecked(environmentId, json).Ok? <==>
        env.Some? &&
        (forall i | 0 <= i < |env.value.features| :: AllReferencedPresent(json.segments, env.value.features[i].segmentRules)) &&
        (forall i | 0 <= i < |env.value.properties| :: AllReferencedPresent(json.segments, env.value.properties[i].segmentRules))
  {
    var env := FindEnvironment(json.environments, environmentId);
    if env.Some? {
      FeaturesChecked(json.segments, env.value.features);
      PropertiesChecked(json.segments, env.value.properties);
    }
  }

  /** With the corrected check, the features index exactly when each feature's rules reference only present segments. */
  lemma FeaturesChecked(segments: seq<Segment>, fs: seq<Feature>)
    ensures IndexFeatures(segments, fs, ReferencedCountCheck).Ok? <==>
      forall i | 0 <= i < |fs| :: AllReferencedPresent(segments, fs[i].segmentRules)
  {
    forall i | 0 <= i < |fs|
      ensures FeatureEntry(segments, fs[i], ReferencedCountCheck).Ok? <==> AllReferencedPresent(segments, fs[i].segmentRules)
    {
      CheckedRulesMeaning(segments, fs[i].segmentRules);
    }
  }

  /** With the corrected check, the properties index exactly when each property's rules reference only present segments. */
  lemma PropertiesChecked(segments: seq<Segment>, ps: seq<Property>)
    ensures IndexProperties(segments, ps, ReferencedCountCheck).Ok? <==>
      forall i | 0 <= i < |ps| :: AllReferencedPresent(segments, ps[i].segmentRules)
  {
    forall i | 0 <= i < |ps|
      ensures PropertyEntry(segments, ps[i], ReferencedCountCheck).Ok? <==> AllReferencedPresent(segments, ps[i].segmentRules)
    {
      CheckedRulesMeaning(segments, ps[i].segmentRules);
    }
  }

  /** The corrected check on a resource's sorted rules holds exactly when every segment they reference is present. */
  lemma CheckedRulesMeaning(segments: seq<Segment>, rules: seq<SegmentRule>)
    ensures ReferencedCountCheck(segments, SortByOrder(rules)) <==> AllReferencedPresent(segments, rules)
  {
    SortKeepsReferences(rules);
  }

  /** Sorting does not change which segments are referenced. */
  lemma SortKeepsReferences(rules: seq<SegmentRule>)
    ensures ReferencedIds(SortByOrder(rules)) == ReferencedIds(rules)
  {
    var sorted := SortByOrder(rules);
    forall id | id in ReferencedIds(rules) ensures id in ReferencedIds(sorted) {
      var i, j, k :| 0 <= i < |rules| && 0 <= j < |rules[i].rules| && 0 <= k < |rules[i].rules[j].segments| && rules[i].rules[j].segments[k] == id;
      assert rules[i] in multiset(sorted);
      var i' :| 0 <= i' < |sorted| && sorted[i'] == rules[i];
      assert sorted[i'].rules[j].segments[k] == id;
    }
    forall id | id in ReferencedIds(sorted) ensures id in ReferencedIds(rules) {
      var i, j, k :| 0 <= i < |sorted| && 0 <= j < |sorted[i].rules| && 0 <= k < |sorted[i].rules[j].segments| && sorted[i].rules[j].segments[k] == id;
      assert sorted[i] in multiset(rules);
      var i' :| 0 <= i' < |rules| && rules[i'] == sorted[i];
      assert rules[i'].rules[j].segments[k] == id;
    }
  }

  // ---------------------------------------------------------------------------
  // The integrity check as written: two counterexamples
  // ---------------------------------------------------------------------------

  function TestSegment(id: string): Segment {
    Segment(id, id, "", None, [])
  }

  function TestRule(ids: seq<string>, order: u32): SegmentRule {
    SegmentRule([Segments(ids)], ConfigValue(Json.Bool(true)), order, None)
  }

  function TestFeature(rules: seq<SegmentRule>): Feature {
    Feature("F1", "f1", ValueType.Boolean, None, ConfigValue(Json.Bool(true)), ConfigValue(Json.Bool(false)), rules, true, 100)
  }

  function TestJson(f: Feature, segments: seq<Segment>): ConfigurationJson {
    ConfigurationJson([Environment("dev", [f], [])], segments)
  }

  /** A configuration of one environment with one feature stands or falls with that feature's check. */
  lemma SingleFeatureConfiguration(f: Feature, segments: seq<Segment>, check: Check)
    ensures NewWith("dev", TestJson(f, segments), check).Ok? <==> check(segments, SortByOrder(f.segmentRules))
    ensures NewWith("dev", TestJson(f, segments), check).Err? ==>
      NewWith("dev", TestJson(f, segments), check) == Err(MissingSegments(f.featureId))
  {
    assert FindEnvironment(TestJson(f, segments).environments, "dev") == Some(Environment("dev", [f], []));
    assert [f][0] == f;
  }

  function TwoSegments(): seq<Segment> {
    [TestSegment("s1"), TestSegment("s2")]
  }

  function IntactRules(): seq<SegmentRule> {
    [TestRule(["s1", "s2"], 0)]
  }

  function BrokenRules(): seq<SegmentRule> {
    [TestRule(["s1", "missing"], 0), TestRule(["s2"], 1)]
  }

  /** One rule over s1 and s2: both are found. */
  lemma IntactRulesFound()
    ensures SortByOrder(IntactRules()) == IntactRules()
    ensures ReferencedIds(IntactRules()) == {"s1", "s2"}
    ensures SegmentsForRules(TwoSegments(), IntactRules()).Keys == {"s1", "s2"}
  {
    var rules := IntactRules();
    assert rules[0].rules[0].segments[0] == "s1" && rules[0].rules[0].segments[1] == "s2";
    assert TwoSegments()[0].segmentId == "s1" && TwoSegments()[1].segmentId == "s2";
  }

  /** Rules over s1 and "missing", and over s2: two of the three referenced ids are found. */
  lemma BrokenRulesFound()
    ensures SortByOrder(BrokenRules()) == BrokenRules()
    ensures ReferencedIds(BrokenRules()) == {"s1", "missing", "s2"}
    ensures SegmentsForRules(TwoSegments(), BrokenRules()).Keys == {"s1", "s2"}
  {
    var rules := BrokenRules();
    assert SortByOrder(rules[1..]) == rules[1..];
    assert rules[0].rules[0].segments[0] == "s1" && rules[0].rules[0].segments[1] == "missing";
    assert rules[1].rules[0].segments[0] == "s2";
    assert TwoSegments()[0].segmentId == "s1" && TwoSegments()[1].segmentId == "s2";
    assert !Present(TwoSegments(), "missing");
  }

  /**
   * One targeting rule referencing two segments, both present: the check as
   * written counts one rule against two segments and reports
   * `MissingSegments`, where the corrected check accepts the feature.
   */
  lemma RuleCountRejectsIntactFeature()
    ensures AllReferencedPresent(TwoSegments(), IntactRules())
    ensures New("dev", TestJson(TestFeature(IntactRules()), TwoSegments())) == Err(MissingSegments("f1"))
    ensures NewChecked("dev", TestJson(TestFeature(IntactRules()), TwoSegments())).Ok?
  {
    IntactRulesFound();
    var found := SegmentsForRules(TwoSegments(), IntactRules());
    assert |found| == |found.Keys| == 2;
    SingleFeatureConfiguration(TestFeature(IntactRules()), TwoSegments(), RuleCountCheck);
    SingleFeatureConfiguration(TestFeature(IntactRules()), TwoSegments(), ReferencedCountCheck);
  }

  /**
   * Two targeting rules, the first referencing a segment that is absent:
   * two segments are found for two rules, so the check as written accepts
   * the feature, where the corrected check reports `MissingSegments`.
   */
  lemma RuleCountAcceptsMissingSegment()
    ensures !AllReferencedPresent(TwoSegments(), BrokenRules())
    ensures New("dev", TestJson(TestFeature(BrokenRules()), TwoSegments())).Ok?
    ensures NewChecked("dev", TestJson(TestFeature(BrokenRules()), TwoSegments())) == Err(MissingSegments("f1"))
  {
    BrokenRulesChecks();
    SingleFeatureConfiguration(TestFeature(BrokenRules()), TwoSegments(), RuleCountCheck);
    SingleFeatureConfiguration(TestFeature(BrokenRules()), TwoSegments(), ReferencedCountCheck);
  }

  /** The two checks on the broken rules: two found for two rules, but three ids referenced. */
  lemma BrokenRulesChecks()
    ensures SortByOrder(BrokenRules()) == BrokenRules()
    ensures !AllReferencedPresent(TwoSegments(), BrokenRules())
    ensures RuleCountCheck(TwoSegments(), BrokenRules())
    ensures !ReferencedCountCheck(TwoSegments(), BrokenRules())
  {
    BrokenRulesFound();
    TestIdCounts();
    var found := SegmentsForRules(TwoSegments(), BrokenRules());
    assert |found| == |found.Keys|;
  }

  /** The test ids are distinct. */
  lemma TestIdCounts()
    ensures |{"s1", "s2"}| == 2
    ensures |{"s1", "missing", "s2"}| == 3
  {
    assert "s1"[1] != "s2"[1];
    assert "s1"[0] != "missing"[0] && "s2"[0] != "missing"[0];
    assert {"s1", "missing", "s2"} == {"s1", "s2"} + {"missing"};
  }

  /** The file's test: an unknown environment id is reported as such. */
  lemma UnknownEnvironment(json: ConfigurationJson)
    requires forall i | 0 <= i < |json.environments| :: json.environments[i].environmentId != "does_for_sure_not_exist"
    ensures New("does_for_sure_not_exist", json) == Err(EnvironmentNotFound("does_for_sure_not_exist"))
  {
  }

  // ---------------------------------------------------------------------------
  // Reading snapshots (`ConfigurationProvider for Configuration`)
  // ---------------------------------------------------------------------------

  /** `get_feature`: the indexed feature, its two values converted to its type, without metering. */
  function GetFeature(c: Configuration, featureId: string): (r: Result<FeatureSnapshot.FeatureSnapshot, Error>)
    ensures featureId !in c.features ==> r == Err(ConfigurationData(FeatureNotFound(featureId)))
    ensures featureId in c.features ==>
      var (f, rules) := c.features[featureId];
      var enabledValue := Models.TryFromValue(f.kind, f.enabledValue);
      var disabledValue := Models.TryFromValue(f.kind, f.disabledValue);
      (r.Ok? <==> enabledValue.Ok? && disabledValue.Ok?) &&
      (enabledValue.Err? ==> r == Err(enabledValue.error)) &&
      (enabledValue.Ok? && disabledValue.Err? ==> r == Err(disabledValue.error)) &&
      (r.Ok? ==> r.value == FeatureSnapshot.FeatureSnapshot(
        f.enabled, enabledValue.value, disabledValue.value, f.rolloutPercentage, f.name, featureId, rules, false))
  {
    if featureId !in c.features then Err(ConfigurationData(FeatureNotFound(featureId)))
    else
      var (f, rules) := c.features[featureId];
      match Models.TryFromValue(f.kind, f.enabledValue)
      case Err(e) => Err(e)
      case Ok(enabledValue) =>
        match Models.TryFromValue(f.kind, f.disabledValue)
        case Err(e) => Err(e)
        case Ok(disabledValue) =>
          Ok(FeatureSnapshot.FeatureSnapshot(f.enabled, enabledValue, disabledValue, f.rolloutPercentage, f.name, featureId, rules, false))
  }

  /** `get_property`: the indexed property, its value converted to its type, without metering. */
  function GetProperty(c: Configuration, propertyId: string): (r: Result<PropertySnapshot.PropertySnapshot, Error>)
    ensures propertyId !in c.properties ==> r == Err(ConfigurationData(PropertyNotFound(propertyId)))
    ensures propertyId in c.properties ==>
      var (p, rules) := c.properties[propertyId];
      var value := Models.TryFromValue(p.kind, p.value);
      (r.Ok? <==> value.Ok?) &&
      (value.Err? ==> r == Err(value.error)) &&
      (r.Ok? ==> r.value == PropertySnapshot.PropertySnapshot(value.value, rules, p.name, false))
  {
    if propertyId !in c.properties then Err(ConfigurationData(PropertyNotFound(propertyId)))
    else
      var (p, rules) := c.properties[propertyId];
      match Models.TryFromValue(p.kind, p.value)
      case Err(e) => Err(e)
      case Ok(value) => Ok(PropertySnapshot.PropertySnapshot(value, rules, p.name, false))
  }

  /**
   * From construction to snapshot: the snapshot of a feature of the
   * environment (the last one with its id) carries that feature's targeting
   * rules sorted by order, a permutation of the stored ones, together with
   * exactly the referenced segments that are present.
   */
  lemma {:induction false} SnapshotOfConfiguredFeature(environmentId: string, json: ConfigurationJson, check: Check, i: int)
    requires NewWith(environmentId, json, check).Ok?
    requires var fs := FindEnvironment(json.environments, environmentId).value.features;
      0 <= i < |fs| && forall j | i < j < |fs| :: fs[j].featureId != fs[i].featureId
    ensures var f := FindEnvironment(json.environments, environmentId).value.features[i];
      var r := GetFeature(NewWith(environmentId, json, check).value, f.featureId);
      r.Ok? ==>
        r.value.enabled == f.enabled && r.value.rolloutPercentage == f.rolloutPercentage && r.value.name == f.name &&
        SortedByOrder(r.value.segmentRules.targetingRules) &&
        multiset(r.value.segmentRules.targetingRules) == multiset(f.segmentRules) &&
        r.value.segmentRules.kind == f.kind &&
        (forall id :: id in r.value.segmentRules.segments <==> id in ReferencedIds(f.segmentRules) && Present(json.segments, id))
  {
    var fs := FindEnvironment(json.environments, environmentId).value.features;
    IndexFeaturesLastWins(json.segments, fs, check, i);
    SortKeepsReferences(fs[i].segmentRules);
  }

  /** `is_online`: a static configuration never is. */
  function IsOnline(c: Configuration): (r: bool)
    ensures !r
  {
    false
  }

  /**
   * `get_feature_ids` / `get_property_ids`: the keys of an index, each once,
   * in the map's (unspecified) iteration order.
   */
  method KeysOf<V>(m: map<string, V>) returns (ids: seq<string>)
    ensures forall id :: id in ids <==> id in m
    ensures forall i, j | 0 <= i < j < |ids| :: ids[i] != ids[j]
  {
    ids := [];
    var rest := m.Keys;
    while rest != {}
      invariant rest <= m.Keys
      invariant forall id :: id in ids <==> id in m.Keys - rest
      invariant forall i, j | 0 <= i < j < |ids| :: ids[i] != ids[j]
      decreases rest
    {
      var id :| id in rest;
      assert id !in ids;
      ids := ids + [id];
      rest := rest - {id};
    }
  }
}

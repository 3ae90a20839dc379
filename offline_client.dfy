/**
 * `src/client/app_configuration_offline.rs`: the client that reads a
 * configuration snapshot from a file. Reading a feature or property
 * collects, from the snapshot's segments, those its targeting rules
 * reference, and refuses the resource when one of them is missing.
 *
 * The snapshot (`client/cache.rs`) is not part of this model beyond its
 * three maps; its lookup is taken to report `FeatureNotFound` /
 * `PropertyNotFound` for an unknown id. Reading the file is left out.
 */
module OfflineClient {
  import opened Wrappers
  import opened ConfigModel
  import opened Errors
  import ClientConfiguration

  /** `ConfigurationSnapshot`: features, properties and segments by id. */
  datatype ConfigurationSnapshot = ConfigurationSnapshot(
    features: map<string, Feature>,
    properties: map<string, Property>,
    segments: map<string, Segment>)

  /** The snapshot's segments whose key is among the ids. */
  function Filtered(segments: map<string, Segment>, ids: set<string>): (r: map<string, Segment>)
    ensures r.Keys == segments.Keys * ids
    ensures forall k | k in r :: r[k] == segments[k]
  {
    map k | k in segments.Keys * ids :: segments[k]
  }

  /**
   * The segments a resource's targeting rules need, or `MissingSegments`
   * for the resource when the number of referenced ids differs from the
   * number found, which happens exactly when some referenced id is absent.
   */
  function SegmentsFor(s: ConfigurationSnapshot, rules: seq<SegmentRule>, resourceId: string): (r: Result<map<string, Segment>, Error>)
    ensures var ids := ClientConfiguration.ReferencedIds(rules);
      (r.Ok? <==> ids <= s.segments.Keys) &&
      (r.Err? ==> r.error == ConfigurationAccess(AccessMissingSegments(resourceId))) &&
      (r.Ok? ==> r.value.Keys == ids && forall k | k in r.value :: r.value[k] == s.segments[k])
  {
    var ids := ClientConfiguration.ReferencedIds(rules);
    var found := Filtered(s.segments, ids);
    assert ids <= s.segments.Keys ==> found.Keys == ids;
    if |ids| != |found| then
      Err(ConfigurationAccess(AccessMissingSegments(resourceId)))
    else
      ClientConfiguration.SubsetOfEqualSize(found.Keys, ids);
      Ok(found)
  }

  /** `get_feature`: the feature with exactly the segments its rules reference. */
  function GetFeature(s: ConfigurationSnapshot, featureId: string): (r: Result<(Feature, map<string, Segment>), Error>)
    ensures featureId !in s.features ==> r == Err(ConfigurationAccess(AccessFeatureNotFound(featureId)))
    ensures featureId in s.features ==>
      var ids := ClientConfiguration.ReferencedIds(s.features[featureId].segmentRules);
      (r.Ok? <==> ids <= s.segments.Keys) &&
      (r.Err? ==> r.error == ConfigurationAccess(AccessMissingSegments(featureId))) &&
      (r.Ok? ==> r.value.0 == s.features[featureId]) &&
      (r.Ok? ==> r.value.1.Keys == ids) &&
      (r.Ok? ==> forall k | k in r.value.1 :: r.value.1[k] == s.segments[k])
  {
    if featureId !in s.features then Err(ConfigurationAccess(AccessFeatureNotFound(featureId)))
    else
      var feature := s.features[featureId];
      match SegmentsFor(s, feature.segmentRules, featureId)
      case Err(e) => Err(e)
      case Ok(segments) => Ok((feature, segments))
  }

  /** `get_property`: the same integrity check for a property. */
  function GetProperty(s: ConfigurationSnapshot, propertyId: string): (r: Result<(Property, map<string, Segment>), Error>)
    ensures propertyId !in s.properties ==> r == Err(ConfigurationAccess(AccessPropertyNotFound(propertyId)))
    ensures propertyId in s.properties ==>
      var ids := ClientConfiguration.ReferencedIds(s.properties[propertyId].segmentRules);
      (r.Ok? <==> ids <= s.segments.Keys) &&
      (r.Err? ==> r.error == ConfigurationAccess(AccessMissingSegments(propertyId))) &&
      (r.Ok? ==> r.value.0 == s.properties[propertyId]) &&
      (r.Ok? ==> r.value.1.Keys == ids) &&
      (r.Ok? ==> forall k | k in r.value.1 :: r.value.1[k] == s.segments[k])
  {
    if propertyId !in s.properties then Err(ConfigurationAccess(AccessPropertyNotFound(propertyId)))
    else
      var property := s.properties[propertyId];
      match SegmentsFor(s, property.segmentRules, propertyId)
      case Err(e) => Err(e)
      case Ok(segments) => Ok((property, segments))
  }

  /** The segments of a list by id, as a snapshot holds them. */
  function ById(segments: seq<Segment>): (r: map<string, Segment>)
    requires forall i, j | 0 <= i < j < |segments| :: segments[i].segmentId != segments[j].segmentId
    ensures forall id :: id in r <==> ClientConfiguration.Present(segments, id)
    ensures forall i | 0 <= i < |segments| :: segments[i].segmentId in r && r[segments[i].segmentId] == segments[i]
  {
    map i | 0 <= i < |segments| :: segments[i].segmentId := segments[i]
  }

  /**
   * The offline client and the static configuration agree on the segments:
   * for the same rules and the same (uniquely keyed) segments, the offline
   * collection succeeds exactly when the corrected construction check
   * passes, and then holds the same segments.
   */
  lemma {:induction false} AgreesWithCorrectedCheck(segments: seq<Segment>, rules: seq<SegmentRule>, resourceId: string)
    requires forall i, j | 0 <= i < j < |segments| :: segments[i].segmentId != segments[j].segmentId
    ensures var r := SegmentsFor(ConfigurationSnapshot(map[], map[], ById(segments)), rules, resourceId);
      (r.Ok? <==> ClientConfiguration.ReferencedCountCheck(segments, rules)) &&
      (r.Ok? ==> r.value == ClientConfiguration.SegmentsForRules(segments, rules))
  {
    var r := SegmentsFor(ConfigurationSnapshot(map[], map[], ById(segments)), rules, resourceId);
    if r.Ok? {
      SameSegments(segments, rules, r.value);
    }
  }

  /** A map keyed like the referenced segments and agreeing with the index is the collection of the static configuration. */
  lemma SameSegments(segments: seq<Segment>, rules: seq<SegmentRule>, found: map<string, Segment>)
    requires forall i, j | 0 <= i < j < |segments| :: segments[i].segmentId != segments[j].segmentId
    requires found.Keys == ClientConfiguration.ReferencedIds(rules) && found.Keys <= ById(segments).Keys
    requires forall k | k in found :: found[k] == ById(segments)[k]
    ensures found == ClientConfiguration.SegmentsForRules(segments, rules)
  {
    var index := ById(segments);
    var expected := ClientConfiguration.SegmentsForRules(segments, rules);
    assert found.Keys == expected.Keys;
    forall k | k in found ensures found[k] == expected[k] {
      IndexHolds(segments, expected[k]);
    }
    SameEntries(found, expected);
  }

  /** Two maps with the same keys and the same value under each key are equal. */
  lemma SameEntries<K, V>(a: map<K, V>, b: map<K, V>)
    requires a.Keys == b.Keys && forall k | k in a :: a[k] == b[k]
    ensures a == b
  {
  }

  /** Every segment of a uniquely keyed list is found in the index under its own id. */
  lemma IndexHolds(segments: seq<Segment>, s: Segment)
    requires forall i, j | 0 <= i < j < |segments| :: segments[i].segmentId != segments[j].segmentId
    requires s in segments
    ensures s.segmentId in ById(segments) && ById(segments)[s.segmentId] == s
  {
    var i :| 0 <= i < |segments| && segments[i] == s;
  }

  /** `get_feature_ids`: every feature id of the snapshot, once each. */
  method FeatureIds(s: ConfigurationSnapshot) returns (ids: seq<string>)
    ensures forall id :: id in ids <==> id in s.features
    ensures forall i, j | 0 <= i < j < |ids| :: ids[i] != ids[j]
  {
    ids := ClientConfiguration.KeysOf(s.features);
  }

  /** `get_property_ids`: every property id of the snapshot, once each. */
  method PropertyIds(s: ConfigurationSnapshot) returns (ids: seq<string>)
    ensures forall id :: id in ids <==> id in s.properties
    ensures forall i, j | 0 <= i < j < |ids| :: ids[i] != ids[j]
  {
    ids := ClientConfiguration.KeysOf(s.properties);
  }

  /** A feature whose single rule references an id the snapshot lacks is refused. */
  lemma MissingSegmentRefused()
    ensures var f := ClientConfiguration.TestFeature([ClientConfiguration.TestRule(["s1", "missing"], 0)]);
      var s := ConfigurationSnapshot(map["f1" := f], map[], map["s1" := ClientConfiguration.TestSegment("s1")]);
      GetFeature(s, "f1") == Err(ConfigurationAccess(AccessMissingSegments("f1")))
  {
    var rule := ClientConfiguration.TestRule(["s1", "missing"], 0);
    assert [rule][0].rules[0].segments[1] == "missing";
    assert "missing" in ClientConfiguration.ReferencedIds([rule]);
  }
}

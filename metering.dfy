/**
 * `src/metering/metering.rs`: what a feature or property snapshot records
 * about an evaluation, and the batcher that counts evaluation events per
 * key and sends the counts in one batch on `flush`.
 *
 * The channel between the two is left out: an event a snapshot enqueues is
 * what the batcher later receives through `handle_event`.
 */
module Metering {
  import opened Wrappers
  import opened ConfigModel
  import opened MeteringModels

  // ---------------------------------------------------------------------------
  // MeteringSubject::record_evaluation
  // ---------------------------------------------------------------------------

  /** `segment.map(|s| s.segment_id.clone())`. */
  function SegmentIdOf(segment: Option<Segment>): (id: Option<string>)
    ensures id.Some? <==> segment.Some?
    ensures segment.Some? ==> id.value == segment.value.segmentId
  {
    if segment.Some? then Some(segment.value.segmentId) else None
  }

  /** `handle_event` accepts a feature event about a feature and a property event about a property; the two other pairings are `unreachable!`. */
  predicate WellFormed(event: EvaluationEvent) {
    event.FeatureEvent? <==> event.data.subjectId.FeatureSubject?
  }

  /** The key `handle_event` files an event under. */
  function KeyOf(event: EvaluationEvent): (key: MeteringKey)
    requires WellFormed(event)
    ensures key.entityId == event.data.entityId && key.segmentId == event.data.segmentId
    ensures event.FeatureEvent? ==> key.featureId == Some(event.data.subjectId.featureId) && key.propertyId.None?
    ensures event.PropertyEvent? ==> key.propertyId == Some(event.data.subjectId.propertyId) && key.featureId.None?
  {
    match event
    case FeatureEvent(data) => FromFeature(data.subjectId.featureId, data.entityId, data.segmentId)
    case PropertyEvent(data) => FromProperty(data.subjectId.propertyId, data.entityId, data.segmentId)
  }

  /**
   * `record_evaluation` for a feature snapshot: with a sender, one feature
   * event about this feature, the entity and the segment (if any) is
   * enqueued; without a sender nothing is. A failed send is only logged.
   */
  function RecordFeatureEvaluation(hasSender: bool, featureId: string, entity: Entity, segment: Option<Segment>): (sent: Option<EvaluationEvent>)
    ensures sent.Some? <==> hasSender
    ensures sent.Some? ==> WellFormed(sent.value) && sent.value.FeatureEvent?
    ensures sent.Some? ==> KeyOf(sent.value) == FromFeature(featureId, entity.id, SegmentIdOf(segment))
  {
    if hasSender then Some(FeatureEvent(EvaluationEventData(FeatureSubject(featureId), entity.id, SegmentIdOf(segment))))
    else None
  }

  /** `record_evaluation` for a property snapshot: the same, with a property event. */
  function RecordPropertyEvaluation(hasSender: bool, propertyId: string, entity: Entity, segment: Option<Segment>): (sent: Option<EvaluationEvent>)
    ensures sent.Some? <==> hasSender
    ensures sent.Some? ==> WellFormed(sent.value) && sent.value.PropertyEvent?
    ensures sent.Some? ==> KeyOf(sent.value) == FromProperty(propertyId, entity.id, SegmentIdOf(segment))
  {
    if hasSender then Some(PropertyEvent(EvaluationEventData(PropertySubject(propertyId), entity.id, SegmentIdOf(segment))))
    else None
  }

  // ---------------------------------------------------------------------------
  // Counting
  // ---------------------------------------------------------------------------

  /** `entry(key).and_modify(add_one).or_default()`: a new key starts at 1, a known key goes up by 1. */
  function Record(counts: map<MeteringKey, nat>, key: MeteringKey): (r: map<MeteringKey, nat>)
    ensures r.Keys == counts.Keys + {key}
    ensures r[key] == if key in counts then counts[key] + 1 else 1
    ensures forall k | k in counts && k != key :: r[k] == counts[k]
  {
    if key in counts then counts[key := counts[key] + 1] else counts[key := 1]
  }

  /** Events handled one after the other. */
  function RecordAll(counts: map<MeteringKey, nat>, keys: seq<MeteringKey>): map<MeteringKey, nat>
    decreases |keys|
  {
    if keys == [] then counts else RecordAll(Record(counts, keys[0]), keys[1..])
  }

  /** How many of the events carry key `k`. */
  function Occurrences(keys: seq<MeteringKey>, k: MeteringKey): nat
    decreases |keys|
  {
    if keys == [] then 0 else (if keys[0] == k then 1 else 0) + Occurrences(keys[1..], k)
  }

  /**
   * After a sequence of events, each key's count is its old count plus the
   * number of events with that key, and a key is present iff it was before
   * or some event carried it: distinct keys are counted separately.
   */
  lemma {:induction false} RecordAllCounts(counts: map<MeteringKey, nat>, keys: seq<MeteringKey>, k: MeteringKey)
    ensures k in RecordAll(counts, keys) <==> k in counts || Occurrences(keys, k) > 0
    ensures k in RecordAll(counts, keys) ==>
      RecordAll(counts, keys)[k] == (if k in counts then counts[k] else 0) + Occurrences(keys, k)
    decreases |keys|
  {
    if keys != [] {
      RecordAllCounts(Record(counts, keys[0]), keys[1..], k);
    }
  }

  /** `k` identical events give a single entry whose count is `k`. */
  lemma IdenticalEvents(event: EvaluationEvent, n: nat)
    requires WellFormed(event) && n > 0
    ensures RecordAll(map[], seq(n, _ => KeyOf(event))) == map[KeyOf(event) := n]
  {
    var keys := seq(n, _ => KeyOf(event));
    var r := RecordAll(map[], keys);
    OccurrencesOfConstant(KeyOf(event), n);
    forall k ensures k in r <==> k == KeyOf(event) {
      RecordAllCounts(map[], keys, k);
      if k != KeyOf(event) {
        OccurrencesOfOther(KeyOf(event), k, n);
      }
    }
    RecordAllCounts(map[], keys, KeyOf(event));
    assert r.Keys == {KeyOf(event)};
  }

  lemma {:induction false} OccurrencesOfConstant(key: MeteringKey, n: nat)
    ensures Occurrences(seq(n, _ => key), key) == n
  {
    if n > 0 {
      assert seq(n, _ => key)[1..] == seq(n - 1, _ => key);
      OccurrencesOfConstant(key, n - 1);
    }
  }

  lemma {:induction false} OccurrencesOfOther(key: MeteringKey, other: MeteringKey, n: nat)
    requires other != key
    ensures Occurrences(seq(n, _ => key), other) == 0
  {
    if n > 0 {
      assert seq(n, _ => key)[1..] == seq(n - 1, _ => key);
      OccurrencesOfOther(key, other, n - 1);
    }
  }

  // ---------------------------------------------------------------------------
  // The batch
  // ---------------------------------------------------------------------------

  /** One usage of a batch: a key and its count (what `add_usage` receives). */
  datatype Usage = Usage(featureId: Option<string>, propertyId: Option<string>, entityId: string, segmentId: Option<string>, count: nat)

  /** `MeteringDataJson`: the batch for one collection and environment. */
  datatype MeteringDataJson = MeteringDataJson(collectionId: string, environmentId: string, usages: seq<Usage>)

  function UsageOf(key: MeteringKey, count: nat): Usage {
    Usage(key.featureId, key.propertyId, key.entityId, key.segmentId, count)
  }

  function UsageKey(u: Usage): MeteringKey {
    MeteringKey(u.featureId, u.propertyId, u.entityId, u.segmentId)
  }

  /** Each usage is an entry of `counts` whose key lies in `keys`, with that key's count. */
  predicate CountedFrom(usages: seq<Usage>, counts: map<MeteringKey, nat>, keys: set<MeteringKey>) {
    forall i | 0 <= i < |usages| :: UsageKey(usages[i]) in keys && UsageKey(usages[i]) in counts && usages[i].count == counts[UsageKey(usages[i])]
  }

  /** No key has two usages. */
  predicate DistinctKeys(usages: seq<Usage>) {
    forall i, j | 0 <= i < j < |usages| :: UsageKey(usages[i]) != UsageKey(usages[j])
  }

  /** Every key of `keys` has a usage. */
  predicate Covers(usages: seq<Usage>, keys: set<MeteringKey>) {
    forall k | k in keys :: exists i | 0 <= i < |usages| :: UsageKey(usages[i]) == k
  }

  /** The usages are the entries of the map: one per key, each with that key's count. */
  predicate OneUsagePerKey(usages: seq<Usage>, counts: map<MeteringKey, nat>) {
    |usages| == |counts| && CountedFrom(usages, counts, counts.Keys) && DistinctKeys(usages) && Covers(usages, counts.Keys)
  }

  /** What the loop below keeps: `done` has its usages, `rest` is still to do. */
  predicate UsagesSoFar(usages: seq<Usage>, counts: map<MeteringKey, nat>, rest: set<MeteringKey>, done: set<MeteringKey>) {
    && rest + done == counts.Keys && rest !! done
    && |usages| == |done|
    && CountedFrom(usages, counts, done) && DistinctKeys(usages) && Covers(usages, done)
  }

  /** One step of the loop below: a usage for a key not yet covered. */
  lemma AppendUsage(usages: seq<Usage>, counts: map<MeteringKey, nat>, rest: set<MeteringKey>, done: set<MeteringKey>, k: MeteringKey)
    requires UsagesSoFar(usages, counts, rest, done) && k in rest
    ensures UsagesSoFar(usages + [UsageOf(k, counts[k])], counts, rest - {k}, done + {k})
  {
    MoveKey(rest, done, counts.Keys, k);
    AppendCounted(usages, counts, done, k);
    AppendDistinct(usages, done, k, counts[k]);
    AppendCovers(usages, done, k, counts[k]);
  }

  /** Moving a key from the remaining keys to the finished ones keeps the two a partition. */
  lemma MoveKey<K>(rest: set<K>, done: set<K>, keys: set<K>, k: K)
    requires rest + done == keys && rest !! done && k in rest
    ensures (rest - {k}) + (done + {k}) == keys && (rest - {k}) !! (done + {k})
    ensures |done + {k}| == |done| + 1
  {
  }

  lemma AppendCounted(usages: seq<Usage>, counts: map<MeteringKey, nat>, done: set<MeteringKey>, k: MeteringKey)
    requires CountedFrom(usages, counts, done) && k in counts
    ensures CountedFrom(usages + [UsageOf(k, counts[k])], counts, done + {k})
  {
    var next := usages + [UsageOf(k, counts[k])];
    assert UsageKey(next[|usages|]) == k;
    assert forall i | 0 <= i < |usages| :: next[i] == usages[i];
  }

  lemma AppendDistinct(usages: seq<Usage>, done: set<MeteringKey>, k: MeteringKey, count: nat)
    requires DistinctKeys(usages) && k !in done
    requires forall i | 0 <= i < |usages| :: UsageKey(usages[i]) in done
    ensures DistinctKeys(usages + [UsageOf(k, count)])
  {
    var next := usages + [UsageOf(k, count)];
    assert UsageKey(next[|usages|]) == k;
    assert forall i | 0 <= i < |usages| :: next[i] == usages[i];
  }

  lemma AppendCovers(usages: seq<Usage>, done: set<MeteringKey>, k: MeteringKey, count: nat)
    requires Covers(usages, done)
    ensures Covers(usages + [UsageOf(k, count)], done + {k})
  {
    var next := usages + [UsageOf(k, count)];
    assert UsageKey(next[|usages|]) == k;
    forall k' | k' in done + {k} ensures exists i | 0 <= i < |next| :: UsageKey(next[i]) == k' {
      if k' != k {
        var i :| 0 <= i < |usages| && UsageKey(usages[i]) == k';
        assert UsageKey(next[i]) == k';
      }
    }
  }

  /** When nothing is left, the usages are the entries of the map. */
  lemma AllUsages(usages: seq<Usage>, counts: map<MeteringKey, nat>, done: set<MeteringKey>)
    requires UsagesSoFar(usages, counts, {}, done)
    ensures OneUsagePerKey(usages, counts)
  {
    assert done == counts.Keys;
  }

  /** The `for evaluation in self.evaluations.iter()` loop of `flush`: one usage per entry, in the map's iteration order. */
  method Usages(counts: map<MeteringKey, nat>) returns (usages: seq<Usage>)
    ensures OneUsagePerKey(usages, counts)
  {
    usages := [];
    var rest := counts.Keys;
    ghost var done: set<MeteringKey> := {};
    while rest != {}
      invariant UsagesSoFar(usages, counts, rest, done)
      decreases |rest|
    {
      var k :| k in rest;
      AppendUsage(usages, counts, rest, done, k);
      usages := usages + [UsageOf(k, counts[k])];
      rest := rest - {k};
      done := done + {k};
    }
    AllUsages(usages, counts, done);
  }

  /** `MeteringBatcher`: the counts per key, for one configuration. */
  class MeteringBatcher {
    var evaluations: map<MeteringKey, nat>
    const configId: ConfigurationId

    /** Every key in the map has been evaluated at least once. */
    predicate Valid()
      reads this
    {
      forall k | k in evaluations :: evaluations[k] >= 1
    }

    /** `MeteringBatcher::new`: no evaluations yet. */
    constructor (configId: ConfigurationId)
      ensures Valid()
      ensures evaluations == map[] && this.configId == configId
    {
      evaluations := map[];
      this.configId := configId;
    }

    /** `handle_event`: the event's key is counted once more. */
    method HandleEvent(event: EvaluationEvent)
      requires Valid() && WellFormed(event)
      modifies this
      ensures Valid()
      ensures evaluations == Record(old(evaluations), KeyOf(event))
    {
      var key := KeyOf(event);
      if key in evaluations {
        evaluations := evaluations[key := evaluations[key] + 1];
      } else {
        evaluations := evaluations[key := 1];
      }
    }

    /**
     * `flush`: with nothing counted, nothing is sent and nothing changes;
     * otherwise exactly one batch for this configuration's collection and
     * environment, with one usage per key, is handed to the client, and the
     * map is cleared whether or not the push succeeds.
     */
    method Flush() returns (sent: Option<MeteringDataJson>)
      requires Valid()
      modifies this
      ensures Valid()
      ensures old(evaluations) == map[] <==> sent.None?
      ensures sent.Some? ==>
        sent.value.collectionId == configId.collectionId && sent.value.environmentId == configId.environmentId &&
        OneUsagePerKey(sent.value.usages, old(evaluations))
      ensures evaluations == map[]
    {
      if evaluations == map[] {
        return None;
      }
      var usages := Usages(evaluations);
      sent := Some(MeteringDataJson(configId.collectionId, configId.environmentId, usages));
      evaluations := map[];
    }
  }

  /**
   * Two identical feature events and one property event, then a flush: one
   * batch with two usages, the feature counted twice and the property once.
   */
  method SameEvaluationsBatchedToOneEntry() returns (sent: Option<MeteringDataJson>)
    ensures sent.Some? && |sent.value.usages| == 2
    ensures sent.value.collectionId == "test_collection_id" && sent.value.environmentId == "test_env_id"
    ensures exists i | 0 <= i < 2 :: sent.value.usages[i] == Usage(Some("feature1"), None, "entity1", None, 2)
    ensures exists i | 0 <= i < 2 :: sent.value.usages[i] == Usage(None, Some("property1"), "entity1", Some("some_segment"), 1)
  {
    var batcher := new MeteringBatcher(ConfigurationId("test_guid", "test_env_id", "test_collection_id"));
    var feature := FeatureEvent(EvaluationEventData(FeatureSubject("feature1"), "entity1", None));
    var property := PropertyEvent(EvaluationEventData(PropertySubject("property1"), "entity1", Some("some_segment")));
    batcher.HandleEvent(feature);
    batcher.HandleEvent(feature);
    batcher.HandleEvent(property);
    assert batcher.evaluations == map[KeyOf(feature) := 2, KeyOf(property) := 1];
    sent := batcher.Flush();
    var i :| 0 <= i < |sent.value.usages| && UsageKey(sent.value.usages[i]) == KeyOf(feature);
    assert sent.value.usages[i] == Usage(Some("feature1"), None, "entity1", None, 2);
    var j :| 0 <= j < |sent.value.usages| && UsageKey(sent.value.usages[j]) == KeyOf(property);
    assert sent.value.usages[j] == Usage(None, Some("property1"), "entity1", Some("some_segment"), 1);
  }
}

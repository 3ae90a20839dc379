/**
 * `src/client/metering.rs`: the older metering batcher. It declares its own
 * `SubjectId`, `EvaluationEventData`, `EvaluationEvent` and `MeteringKey`
 * with the same fields as `src/metering/models.rs`, so the model reuses
 * those datatypes. Unlike the newer batcher it flushes itself when the
 * transmission interval has passed, and a mismatched event is not
 * `unreachable!` but gives a key with that id left out.
 *
 * The clock is a parameter `now` (in any unit); `Instant::elapsed` never
 * goes below zero.
 */
module ClientMetering {
  import opened Wrappers
  import opened ConfigModel
  import opened Errors
  import opened MeteringModels
  import Metering

  /** The key `handle_event` files an event under: the id of a subject of the other kind is dropped. */
  function KeyOf(event: EvaluationEvent): (key: MeteringKey)
    ensures key.entityId == event.data.entityId && key.segmentId == event.data.segmentId
    ensures event.FeatureEvent? ==> key.propertyId == None
    ensures event.PropertyEvent? ==> key.featureId == None
    ensures key.featureId.Some? <==> event.FeatureEvent? && event.data.subjectId.FeatureSubject?
    ensures key.propertyId.Some? <==> event.PropertyEvent? && event.data.subjectId.PropertySubject?
  {
    match event
    case FeatureEvent(data) =>
      MeteringKey(if data.subjectId.FeatureSubject? then Some(data.subjectId.featureId) else None, None, data.entityId, data.segmentId)
    case PropertyEvent(data) =>
      MeteringKey(None, if data.subjectId.PropertySubject? then Some(data.subjectId.propertyId) else None, data.entityId, data.segmentId)
  }

  /** On the events the newer batcher accepts, both batchers file under the same key. */
  lemma KeyAgreesWithNewerBatcher(event: EvaluationEvent)
    requires Metering.WellFormed(event)
    ensures KeyOf(event) == Metering.KeyOf(event)
  {
  }

  /**
   * `MeteringRecorder::record_evaluation` as written: whatever the subject,
   * the event is a feature event; a closed channel gives `MeteringError`.
   */
  function RecordEvaluation(subject: SubjectId, entityId: string, segmentId: Option<string>, receiverAlive: bool): (r: Result<EvaluationEvent, Error>)
    ensures r.Ok? <==> receiverAlive
    ensures r.Err? ==> r.error == MeteringError
    ensures r.Ok? ==> r.value.FeatureEvent? && r.value.data == EvaluationEventData(subject, entityId, segmentId)
  {
    if receiverAlive then Ok(FeatureEvent(EvaluationEventData(subject, entityId, segmentId))) else Err(MeteringError)
  }

  /**
   * The discrepancy: two different properties evaluated for the same entity
   * are both filed under a key with no feature and no property id, so the
   * batcher counts them as one usage of nothing.
   */
  lemma PropertyEvaluationsCollide()
    ensures var a := RecordEvaluation(PropertySubject("property1"), "entity1", None, true).value;
      var b := RecordEvaluation(PropertySubject("property2"), "entity1", None, true).value;
      KeyOf(a) == KeyOf(b) == MeteringKey(None, None, "entity1", None)
  {
  }

  /** `record_evaluation` as evidently intended: the event kind follows the subject. */
  function RecordEvaluationBySubject(subject: SubjectId, entityId: string, segmentId: Option<string>, receiverAlive: bool): (r: Result<EvaluationEvent, Error>)
    ensures r.Ok? <==> receiverAlive
    ensures r.Err? ==> r.error == MeteringError
    ensures r.Ok? ==> r.value.data == EvaluationEventData(subject, entityId, segmentId) && Metering.WellFormed(r.value)
  {
    if !receiverAlive then Err(MeteringError)
    else if subject.FeatureSubject? then Ok(FeatureEvent(EvaluationEventData(subject, entityId, segmentId)))
    else Ok(PropertyEvent(EvaluationEventData(subject, entityId, segmentId)))
  }

  /** The key of a subject, as `from_feature`/`from_property` build it. */
  function SubjectKey(subject: SubjectId, entityId: string, segmentId: Option<string>): MeteringKey {
    match subject
    case FeatureSubject(id) => FromFeature(id, entityId, segmentId)
    case PropertySubject(id) => FromProperty(id, entityId, segmentId)
  }

  /**
   * With the corrected recorder every evaluation is filed under its
   * subject's key, so two evaluations share a usage iff they have the same
   * subject, entity and segment.
   */
  lemma RecordedUnderSubjectKey(s1: SubjectId, e1: string, g1: Option<string>, s2: SubjectId, e2: string, g2: Option<string>)
    ensures KeyOf(RecordEvaluationBySubject(s1, e1, g1, true).value) == SubjectKey(s1, e1, g1)
    ensures KeyOf(RecordEvaluationBySubject(s1, e1, g1, true).value) == KeyOf(RecordEvaluationBySubject(s2, e2, g2, true).value)
      <==> s1 == s2 && e1 == e2 && g1 == g2
  {
    var k1 := KeyOf(RecordEvaluationBySubject(s1, e1, g1, true).value);
    var k2 := KeyOf(RecordEvaluationBySubject(s2, e2, g2, true).value);
    if k1 == k2 {
      assert s1.FeatureSubject? <==> k1.featureId.Some?;
      assert s2.FeatureSubject? <==> k2.featureId.Some?;
    }
  }

  /** `MeteringBatcher` of the older client: counts per key, the time of the last flush and the interval. */
  class ClientMeteringBatcher {
    var evaluations: map<MeteringKey, nat>
    var lastFlush: nat
    const transmitInterval: nat
    const configId: ConfigurationId

    /** Every key in the map has been evaluated at least once. */
    predicate Valid()
      reads this
    {
      forall k | k in evaluations :: evaluations[k] >= 1
    }

    /** `MeteringBatcher::new`: no evaluations, last flushed now. */
    constructor (transmitInterval: nat, configId: ConfigurationId, now: nat)
      ensures Valid()
      ensures evaluations == map[] && lastFlush == now
      ensures this.transmitInterval == transmitInterval && this.configId == configId
    {
      evaluations := map[];
      lastFlush := now;
      this.transmitInterval := transmitInterval;
      this.configId := configId;
    }

    /** `last_flush.elapsed()`: saturating at zero. */
    function Elapsed(now: nat): nat
      reads this
    {
      if now >= lastFlush then now - lastFlush else 0
    }

    /** `handle_event`: the event's key is counted once more. */
    method HandleEvent(event: EvaluationEvent)
      requires Valid()
      modifies this
      ensures Valid()
      ensures evaluations == Metering.Record(old(evaluations), KeyOf(event))
      ensures lastFlush == old(lastFlush)
    {
      var key := KeyOf(event);
      if key in evaluations {
        evaluations := evaluations[key := evaluations[key] + 1];
      } else {
        evaluations := evaluations[key := 1];
      }
    }

    /**
     * `flush`: with nothing counted, nothing happens (the flush time is not
     * reset either); otherwise one batch with one usage per key is pushed,
     * the push result is ignored, the map is cleared and the flush time
     * becomes `now`.
     */
    method Flush(now: nat) returns (sent: Option<Metering.MeteringDataJson>)
      requires Valid()
      modifies this
      ensures Valid()
      ensures old(evaluations) == map[] <==> sent.None?
      ensures sent.None? ==> evaluations == old(evaluations) && lastFlush == old(lastFlush)
      ensures sent.Some? ==>
        sent.value.collectionId == configId.collectionId && sent.value.environmentId == configId.environmentId &&
        Metering.OneUsagePerKey(sent.value.usages, old(evaluations)) &&
        evaluations == map[] && lastFlush == now
    {
      if evaluations == map[] {
        return None;
      }
      var usages := Metering.Usages(evaluations);
      sent := Some(Metering.MeteringDataJson(configId.collectionId, configId.environmentId, usages));
      evaluations := map[];
      lastFlush := now;
    }

    /** `maybe_flush`: a flush happens iff the interval has elapsed and something was counted. */
    method MaybeFlush(now: nat) returns (sent: Option<Metering.MeteringDataJson>)
      requires Valid()
      modifies this
      ensures Valid()
      ensures sent.Some? <==> old(Elapsed(now)) >= transmitInterval && old(evaluations) != map[]
      ensures sent.None? ==> evaluations == old(evaluations) && lastFlush == old(lastFlush)
      ensures sent.Some? ==>
        sent.value.collectionId == configId.collectionId && sent.value.environmentId == configId.environmentId &&
        Metering.OneUsagePerKey(sent.value.usages, old(evaluations)) &&
        evaluations == map[] && lastFlush == now
    {
      if Elapsed(now) >= transmitInterval && evaluations != map[] {
        sent := Flush(now);
      } else {
        sent := None;
      }
    }
  }

  /**
   * Two identical feature evaluations before the interval has passed: no
   * flush yet; a forced flush then sends one usage counted twice.
   */
  method SameEvaluationsBatchedToOneEntry() returns (early: Option<Metering.MeteringDataJson>, sent: Option<Metering.MeteringDataJson>)
    ensures early.None?
    ensures sent.Some? && sent.value.usages == [Metering.Usage(Some("feature1"), None, "entity1", None, 2)]
  {
    var batcher := new ClientMeteringBatcher(200, ConfigurationId("test_guid", "test_env_id", "test_collection_id"), 0);
    var event := RecordEvaluation(FeatureSubject("feature1"), "entity1", None, true).value;
    batcher.HandleEvent(event);
    batcher.HandleEvent(event);
    early := batcher.MaybeFlush(100);
    assert batcher.evaluations == map[KeyOf(event) := 2];
    sent := batcher.Flush(150);
    var usages := sent.value.usages;
    assert |usages| == 1;
    assert Metering.UsageKey(usages[0]) == KeyOf(event);
    assert usages[0] == Metering.Usage(Some("feature1"), None, "entity1", None, 2);
  }
}

/**
 * `src/metering/models.rs`: the evaluation events the snapshots send, the
 * key the batcher aggregates them under, and the per-key evaluation data.
 */
module MeteringModels {
  import opened Wrappers
  import opened RustStd

  /** `SubjectId`: what was evaluated. */
  datatype SubjectId = FeatureSubject(featureId: string) | PropertySubject(propertyId: string)

  /** `EvaluationEventData`. */
  datatype EvaluationEventData = EvaluationEventData(subjectId: SubjectId, entityId: string, segmentId: Option<string>)

  /** `EvaluationEvent`. */
  datatype EvaluationEvent = FeatureEvent(data: EvaluationEventData) | PropertyEvent(data: EvaluationEventData)

  /** `MeteringKey`: equality (and hashing) over all four fields. */
  datatype MeteringKey = MeteringKey(featureId: Option<string>, propertyId: Option<string>, entityId: string, segmentId: Option<string>)

  /** `MeteringKey::from_feature`. */
  function FromFeature(featureId: string, entityId: string, segmentId: Option<string>): (k: MeteringKey)
    ensures k.featureId == Some(featureId) && k.propertyId == None
    ensures k.entityId == entityId && k.segmentId == segmentId
  {
    MeteringKey(Some(featureId), None, entityId, segmentId)
  }

  /** `MeteringKey::from_property`. */
  function FromProperty(propertyId: string, entityId: string, segmentId: Option<string>): (k: MeteringKey)
    ensures k.featureId == None && k.propertyId == Some(propertyId)
    ensures k.entityId == entityId && k.segmentId == segmentId
  {
    MeteringKey(None, Some(propertyId), entityId, segmentId)
  }

  /**
   * Keys separate what the batcher must count separately: a feature key is
   * never a property key, and two keys of the same kind are equal iff the
   * subject, the entity and the segment are.
   */
  lemma KeysSeparateEvaluations(a: string, b: string, e1: string, e2: string, s1: Option<string>, s2: Option<string>)
    ensures FromFeature(a, e1, s1) != FromProperty(b, e2, s2)
    ensures FromFeature(a, e1, s1) == FromFeature(b, e2, s2) <==> a == b && e1 == e2 && s1 == s2
    ensures FromProperty(a, e1, s1) == FromProperty(b, e2, s2) <==> a == b && e1 == e2 && s1 == s2
  {
  }

  /**
   * `EvaluationData`: the number of evaluations of one key. The time of the
   * last evaluation is not modelled.
   */
  class EvaluationData {
    var numberOfEvaluations: u32

    /** `EvaluationData::default`: the first evaluation of a key. */
    constructor Default()
      ensures numberOfEvaluations == 1
    {
      numberOfEvaluations := 1;
    }

    /**
     * `EvaluationData::add_one`. The `+= 1` on a `u32` panics on overflow in
     * a debug build, so the count must be below the maximum.
     */
    method AddOne()
      requires (numberOfEvaluations as int) + 1 < U32_LIMIT
      modifies this
      ensures numberOfEvaluations as int == old(numberOfEvaluations) as int + 1
    {
      numberOfEvaluations := numberOfEvaluations + 1;
    }
  }
}

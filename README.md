# A verified model of the App Configuration Rust SDK's core

The IBM App Configuration SDK for Rust serves feature flags and properties to an application. A configuration is fetched from the server (or read from a file). From it the SDK builds, per environment, an index of features and properties. Each feature or property carries its targeting rules, sorted by `order`, together with the segments those rules reference. Evaluating a feature or property for an entity (an id plus a map of attributes) works in four steps:

- find the first targeting rule whose segment the entity belongs to;
- inside a segment, every rule must hold (AND); a rule holds when its attribute satisfies the operator for at least one of its values (OR);
- for a feature, gate the result by a rollout percentage, using the entity's hash bucket;
- return the rule's value, or the feature's or property's own value.

Evaluations are counted per key by a metering batcher, which sends the counts in one batch on flush. A background worker keeps the live configuration up to date through a websocket. A reader decides what to serve from the current mode (online, offline for a reason, defunct) and the configured offline behaviour.

This project models that core in Dafny, one module per source file. Several files are historical versions of the same component (three live configurations, two workers, two batchers, two feature snapshots, two property evaluations, three copies of the `ConfigValue` conversion). Each version is kept apart, and lemmas relate them where they agree.

- **Pure code** is modelled as functions with contracts: the operators, segment membership, the targeting search, value conversion, snapshot construction and the reader's decision tables.
- **Code that updates state in place** is modelled as classes whose methods are proved against those functions: the metering batchers, the update-thread workers, the shared cells and the operation mode.
- **Inputs:** the server client, the websocket and the termination signal are a scripted `ServerClient` and a list of termination checks. The hash bucket is a function parameter. The clock is a parameter `now`.

Modules: `Wrappers`, `RustStd`, `Json`, `ConfigModel` (shared vocabulary); `Operands`, `RuleOperator`, `MatchesAttributes`, `MatchesEntity`, `SegmentEvaluation` (segment evaluation); `Models`, `NetworkConfigValue`, `NetworkModelsConfiguration`, `NetworkSerialization` (value conversion); `FeatureSnapshot`, `ClientFeatureSnapshot`, `PropertySnapshot`, `ClientProperty` (evaluation); `ClientConfiguration`, `OfflineClient` (snapshot construction); `MeteringModels`, `Metering`, `ClientMetering` (metering); `LiveTypes`, `LiveWorker`, `LiveConfiguration`, `SyncWorker`, `SyncLiveConfiguration`, `ConfigurationHttp` (live configuration); `OfflineOperation` (operation mode).

## Model

| member | source | states |
|---|---|---|
| OfflineOperation.OperationMode.constructor | src/offline.rs:24-29 | both the connection flag and the offline mode are the ones given |
| OfflineOperation.OperationMode.IManagedToConnect | src/offline.rs:31-33 | afterwards the mode is connected, whatever it was, and the offline behaviour is unchanged |
| OfflineOperation.OperationMode.ILostConnection | src/offline.rs:35-37 | afterwards the mode is disconnected, whatever it was, and the offline behaviour is unchanged |
| OfflineOperation.Reconnects | src/offline.rs:23-38 | any run of the two setters leaves the connection as the last call set it, repeating a call changes nothing, and the offline behaviour chosen at creation survives |
| OfflineClient.Filtered | src/client/app_configuration_offline.rs:87-93 | the filtered segments are exactly the snapshot's segments whose key is referenced, each with its own value |
| OfflineClient.SegmentsFor | src/client/app_configuration_offline.rs:75-104 | the collection succeeds exactly when every referenced segment id is in the snapshot, then holds exactly the referenced segments; otherwise it is `MissingSegments` for the resource |
| OfflineClient.GetFeature | src/client/app_configuration_offline.rs:71-108 | an unknown feature is `FeatureNotFound`; a known one is returned with exactly the segments its rules reference, or `MissingSegments` exactly when one of them is absent |
| OfflineClient.GetProperty | src/client/app_configuration_offline.rs:121-159 | the same for properties: `PropertyNotFound`, or the property with exactly its referenced segments, or `MissingSegments` exactly when one is absent |
| OfflineClient.FeatureIds | src/client/app_configuration_offline.rs:67-69 | the result holds every feature id of the snapshot, nothing else, and none twice |
| OfflineClient.PropertyIds | src/client/app_configuration_offline.rs:117-119 | the result holds every property id of the snapshot, nothing else, and none twice |
| OfflineClient.ById | src/client/app_configuration_offline.rs:87-93 | the snapshot's segment index holds every segment of a uniquely keyed list under its own id and no other key |
| OfflineClient.AgreesWithCorrectedCheck | src/client/app_configuration_offline.rs:96-101 | for the same rules and segments, the offline integrity check passes exactly when the corrected construction check of the static configuration passes, and both collect the same segments |
| OfflineClient.MissingSegmentRefused | src/client/app_configuration_offline.rs:96-101 | a feature whose rule references an id the snapshot lacks is refused with `MissingSegments` even though another referenced segment is present |
| MatchesAttributes.Collect | src/segment_evaluation/matches_attributes.rs:47 | collecting succeeds exactly when every outcome is `Ok`, then holds their values in order; otherwise its error is the first failing outcome's |
| MatchesAttributes.Any | src/segment_evaluation/matches_attributes.rs:75 | true exactly when some element is true |
| MatchesAttributes.All | src/segment_evaluation/matches_attributes.rs:48 | true exactly when every element is true |
| MatchesAttributes.Evaluations | src/segment_evaluation/matches_attributes.rs:67-73 | one outcome per reference value, in order, each the operator on the attribute and that value, an error tagged with the value |
| MatchesAttributes.RuleMatchesWith | src/segment_evaluation/matches_attributes.rs:60-77 | a missing attribute or an empty value list is no match; otherwise the rule is `Ok` exactly when every value evaluates, matches exactly when some value is satisfied, and an error is the first failing value's, tagged with that value |
| MatchesAttributes.RuleResults | src/segment_evaluation/matches_attributes.rs:41-46 | one result per rule, in order, a rule's error turned into `SegmentEvaluationFailed` naming the segment, the attribute, the operator and the failing value |
| MatchesAttributes.SegmentMatchesWith | src/segment_evaluation/matches_attributes.rs:37-49 | the segment matches exactly when all its rules match, does not match exactly when none fails and one does not match, and an error is the first failing rule's with the segment's identification |
| MatchesAttributes.RuleMatchesAttributes | src/segment_evaluation/matches_attributes.rs:52-78 | with `RuleOperator::operate`: no attribute is no match; otherwise a match exactly when every value evaluates and some value is satisfied |
| MatchesAttributes.SegmentMatchesAttributes | src/segment_evaluation/matches_attributes.rs:32-50 | with `RuleOperator::operate`: a match exactly when every rule matches; an error always names this segment |
| MatchesAttributes.ErrorAfterMatchIsReported | src/segment_evaluation/matches_attributes.rs:67-75 | a value that fails to evaluate after one that matched still makes the rule fail: `id = 5` against `is ["5", "five"]` gives `IntegerExpected` on "five" |
| MatchesEntity.RuleMatchesEntity | src/segment_evaluation/matches_entity.rs:43-66 | with the file's `check_operator`: no attribute is no match; otherwise a match exactly when every value evaluates and some value is satisfied |
| MatchesEntity.SegmentMatchesEntity | src/segment_evaluation/matches_entity.rs:26-41 | a match exactly when every rule matches; an error always names this segment |
| MatchesEntity.EntityAgreesWithAttributes | src/segment_evaluation/matches_entity.rs:68-122 | on segments using only the eight operators `check_operator` knows, the entity form and the attribute form decide membership identically, errors included |
| MatchesEntity.RuleAgreesWithBelong | src/segment_evaluation/matches_entity.rs:51-65 | when no value fails to evaluate, the collecting rule check and the searching one of `segment_evaluation` give the same answer |
| MatchesEntity.BelongAgreesWithMatchesEntity | src/segment_evaluation/matches_entity.rs:31-40 | when no operator evaluation fails, `belong_to_segment`, which stops at the first satisfied value, decides exactly as `matches_entity`, which evaluates every value |
| MatchesEntity.BelongNeverFails | src/segment_evaluation/matches_entity.rs:31-40 | the searching loop over rules that each evaluate without error never fails |
| MatchesEntity.BelongAgreesWithMatchesAttributes | src/segment_evaluation/matches_attributes.rs:37-49 | the same agreement holds between `belong_to_segment` and `matches_attributes` on segments whose operators `check_operator` knows |
| Operands.ParseBoolRef | src/segment_evaluation/errors.rs:62-63 | a boolean reference reads as `bool::from_str` does (only "true" and "false"); a parse error becomes `BooleanExpected` |
| Operands.ParseF64Ref | src/segment_evaluation/errors.rs:65-66 | a float reference is the value its decimal text denotes; a parse error becomes `FloatExpected` |
| Operands.ParseU64Ref | src/segment_evaluation/errors.rs:68-69 | an unsigned reference is the `u64` its digits denote; a parse error or overflow becomes `IntegerExpected` |
| Operands.ParseI64Ref | src/segment_evaluation/errors.rs:68-69 | a signed reference is the `i64` its optional sign and digits denote; a parse error or overflow becomes `IntegerExpected` |
| Operands.ReferenceNumber | src/segment_evaluation/rule_operator.rs:87-89 | the reference is read at the attribute's own numeric type; failing to read it is `FloatExpected` for a float attribute and `IntegerExpected` for an integer one |
| RuleOperator.Not | src/segment_evaluation/rule_operator.rs:32-37 | negation flips a value and passes an error through unchanged |
| RuleOperator.Is | src/segment_evaluation/rule_operator.rs:51-59 | a string attribute is compared as text and never fails; a boolean or number attribute succeeds exactly when the reference parses at its type and is then equal exactly when the parsed reference equals it; the only errors are the three parse errors |
| RuleOperator.ContainsOp | src/segment_evaluation/rule_operator.rs:61-66 | succeeds exactly on a string attribute, then true exactly when the reference occurs in it; otherwise `StringExpected` |
| RuleOperator.StartsWithOp | src/segment_evaluation/rule_operator.rs:68-73 | succeeds exactly on a string attribute, then true exactly when it is the reference followed by something; otherwise `StringExpected` |
| RuleOperator.EndsWithOp | src/segment_evaluation/rule_operator.rs:75-80 | succeeds exactly on a string attribute, then true exactly when it is something followed by the reference; otherwise `StringExpected` |
| RuleOperator.GreaterThan | src/segment_evaluation/rule_operator.rs:82-92 | a non-numeric attribute is `EntityAttrNotANumber`; a numeric one succeeds exactly when the reference parses at its type and is then true exactly when the attribute is larger |
| RuleOperator.LesserThan | src/segment_evaluation/rule_operator.rs:94-101 | a non-numeric attribute is `EntityAttrNotANumber`; a numeric one succeeds exactly when the reference parses at its type and is then true exactly when the attribute is smaller |
| RuleOperator.Operate | src/segment_evaluation/rule_operator.rs:19-40 | an operator outside the twelve known names, and only such an operator, gives `OperatorNotImplemented` |
| RuleOperator.NegatedOperators | src/segment_evaluation/rule_operator.rs:31-37 | each of the six counterpart operators is the negation of its base operator and fails exactly when and how the base fails |
| RuleOperator.NegatedIs | src/segment_evaluation/rule_operator.rs:34 | `isNot` is the negation of `is` |
| RuleOperator.NegatedStringOperators | src/segment_evaluation/rule_operator.rs:35-37 | `notContains`, `notStartsWith` and `notEndsWith` negate their base operators |
| RuleOperator.NegatedComparisons | src/segment_evaluation/rule_operator.rs:32-33 | `greaterThanEquals` negates `lesserThan` and `lesserThanEquals` negates `greaterThan` |
| RuleOperator.DerivedComparisons | src/segment_evaluation/rule_operator.rs:32-33 | on numbers whose reference parses, `greaterThanEquals` means `>=` and `lesserThanEquals` means `<=`; on anything else both fail with `EntityAttrNotANumber` |
| RuleOperator.Trichotomy | src/segment_evaluation/rule_operator.rs:51-101 | on a numeric attribute whose reference parses, exactly one of `is`, `greaterThan` and `lesserThan` holds |
| RuleOperator.IsOwnDecimalText | src/segment_evaluation/rule_operator.rs:56-57 | an integer attribute `is` its own decimal text, signed or unsigned |
| SegmentEvaluation.CheckOperator | src/segment_evaluation/mod.rs:207-261 | string operators on a non-string are `StringExpected`, comparisons on a non-number are `EntityAttrNotANumber`, exactly the names outside the eight known ones are `OperatorNotImplemented`; `is` on strings is text equality; the inclusive comparisons mean `>=` and `<=` on the reference read at the attribute's type (`matches_entity.rs:68-122` holds the same function and is modelled by this one) |
| SegmentEvaluation.CheckOperatorAgreesWithOperate | src/segment_evaluation/mod.rs:247-258 | on every operator it knows, `check_operator` agrees with `RuleOperator::operate`, whose inclusive comparisons are negations of the strict ones, errors included |
| SegmentEvaluation.FindCandidate | src/segment_evaluation/mod.rs:186-196 | the `find_map` over a rule's values is no match exactly when every value evaluates to false; a match or an error is decided by the first value that satisfies or fails, and the error names the segment, the rule and that value |
| SegmentEvaluation.RuleOutcome | src/segment_evaluation/mod.rs:171-202 | one rule is satisfied exactly when the attribute is present and some value decides it true; a missing attribute is a plain non-match; an error names the segment, the attribute, the operator and one of the rule's values |
| SegmentEvaluation.BelongFromMeaning | src/segment_evaluation/mod.rs:170-204 | the rule loop succeeds with true exactly when every remaining rule matches, and an error is the first non-matching rule's error, all earlier rules matching |
| SegmentEvaluation.BelongToSegment | src/segment_evaluation/mod.rs:166-205 | an error always names the segment evaluated |
| SegmentEvaluation.BelongToSegmentMeaning | src/segment_evaluation/mod.rs:166-205 | the entity belongs exactly when every rule of the segment matches (so a segment without rules takes everyone); an error is the error of the first rule that did not match |
| SegmentEvaluation.MissingAttributeIsNoMatch | src/segment_evaluation/mod.rs:173-176 | a rule whose attribute the entity lacks, reached after rules that matched, makes the segment not apply and raises no error |
| SegmentEvaluation.FindSegmentWhichApplies | src/segment_evaluation/mod.rs:147-164 | nothing is found exactly when every listed id names a segment that rejects the entity; a segment found is one of the map; `SegmentIdNotFound` names a listed id absent from the map |
| SegmentEvaluation.FindSegmentWhichAppliesMeaning | src/segment_evaluation/mod.rs:152-161 | a segment found is the first listed segment the entity belongs to, every earlier id naming a segment that rejects it |
| SegmentEvaluation.FirstMissingSegment | src/segment_evaluation/mod.rs:153-157 | `SegmentIdNotFound` names the first listed id without a segment, every earlier id naming a segment that rejects the entity |
| SegmentEvaluation.FindSegmentOfTargetingRule | src/segment_evaluation/mod.rs:134-145 | a targeting rule without segment groups applies to no one; a segment found is one of the map; a missing id is one of the first group's |
| SegmentEvaluation.OnlyFirstGroupConsulted | src/segment_evaluation/mod.rs:141-143 | the loop returns on its first iteration, so groups after the first never change whether or which segment applies |
| SegmentEvaluation.FindFrom | src/segment_evaluation/mod.rs:60-73 | no rule is found exactly when every remaining targeting rule applies to no segment without failing |
| SegmentEvaluation.FindFromFirst | src/segment_evaluation/mod.rs:60-71 | a rule found is the first targeting rule with an applying segment, all earlier ones applying to none, and comes with that segment |
| SegmentEvaluation.FindFromFails | src/segment_evaluation/mod.rs:61 | a failure is the error of the first targeting rule whose evaluation failed, all earlier ones applying to no segment |
| SegmentEvaluation.FindApplicableTargetingRuleAndSegment | src/segment_evaluation/mod.rs:56-74 | nothing is found exactly when no targeting rule has an applying segment; otherwise the first rule, in stored order, with an applying segment is returned with that segment; failures are `EntityEvaluationError`s |
| SegmentEvaluation.FirstMatchWins | src/segment_evaluation/mod.rs:60-71 | when the rule at `i` applies and every earlier one applies to no segment without failing, rule `i` is the one returned, whatever later rules would give |
| SegmentEvaluation.RolloutPercentage | src/segment_evaluation/mod.rs:95-116 | a missing rollout is the protocol error "Rollout is missing"; `$default` gives the supplied default; otherwise it succeeds exactly on a non-negative integer below 2^32 and gives that number; a value that is not a non-negative integer is "Rollout value is not u64.", and one of 2^32 or more is "Invalid rollout value. Could not convert to u32: out of range integral type conversion attempted" |
| SegmentEvaluation.RuleValue | src/segment_evaluation/mod.rs:118-128 | `$default` gives the supplied default; any other value is converted under the resource's kind, and a value produced has that kind; the only errors are `MismatchType` and protocol errors |
| SegmentEvaluation.ReportsMatchedSegment | src/segment_evaluation/mod.rs:316-352 | with segments for "heinz" and "peter" under one targeting rule, "peter" is reported with the second segment, and an entity without the attribute matches no rule and raises no error |
| SegmentEvaluation.ReportsErrors | src/segment_evaluation/mod.rs:357-411 | an unknown segment id is reported as `SegmentIdNotFound` with that id, and a failing operator is reported with the segment id, the attribute name and the offending value |
| SegmentEvaluation.ReportsFailingOperator | src/segment_evaluation/mod.rs:392-411 | a float attribute compared with `is` to "heinz" fails with `FloatExpected`, naming segment, attribute and value |
| Models.Display | src/models.rs:109-118 | every value type is shown as one of the labels "NUMERIC", "BOOLEAN", "STRING" |
| Models.Deserialize | src/models.rs:99-107 | exactly the three labels are read back as a value type |
| Models.DisplayRoundTrip | src/models.rs:99-118 | the shown label is read back as the same type, and a label reads as a type only if it is that type's label |
| Models.AsI64 | src/models.rs:124-126 | a JSON number that is a negative integer or a non-negative integer below 2^63 is read as that `i64`, and nothing else is |
| Models.AsU64 | src/models.rs:128-130 | exactly the non-negative JSON integers are read as `u64`, with their value |
| Models.AsF64 | src/models.rs:132-134 | exactly the JSON numbers are read as `f64`, each with its value: a positive or a negative integer as that number, a float as itself |
| Models.AsBoolean | src/models.rs:136-138 | exactly a JSON boolean is read, as itself |
| Models.AsString | src/models.rs:140-142 | exactly a JSON string is read, as itself |
| Models.IsDefault | src/models.rs:144-150 | true exactly for the JSON string "$default"; never for a non-string |
| Models.TryFromValue | src/models.rs:159-188 | a numeric kind gives `Int64` when the number fits in `i64`, else `UInt64`, else `Float64`, and "Cannot convert numeric type" for a non-number; a boolean or string kind needs a JSON value of that kind and otherwise is `MismatchType`; a value produced has the requested kind |
| Models.ConversionRoundTrip | src/models.rs:159-188 | writing a value as JSON and converting it back under its own kind gives the value again, except that a `UInt64` below 2^63 comes back as the `Int64` of the same number |
| NetworkConfigValue.AsI64 | src/network/serialization/config_value.rs:23-25 | a JSON number that is a negative integer or a non-negative integer below 2^63 is read as that `i64`, and nothing else is |
| NetworkConfigValue.AsU64 | src/network/serialization/config_value.rs:27-29 | exactly the non-negative JSON integers are read as `u64`, with their value |
| NetworkConfigValue.AsF64 | src/network/serialization/config_value.rs:31-33 | exactly the JSON numbers are read as `f64`, each with its value: a positive or a negative integer as that number, a float as itself |
| NetworkConfigValue.AsBoolean | src/network/serialization/config_value.rs:35-37 | exactly a JSON boolean is read, as itself |
| NetworkConfigValue.AsString | src/network/serialization/config_value.rs:39-41 | exactly a JSON string is read, as itself |
| NetworkConfigValue.IsDefault | src/network/serialization/config_value.rs:43-49 | true exactly for the JSON string "$default"; never for a non-string |
| NetworkSerialization.TryFromValue | src/network/serialization/mod.rs:39-70 | the same conversion on the exchange format's value: `Int64`, then `UInt64`, then `Float64` for a numeric kind, a JSON value of the requested kind otherwise; a value produced has the requested kind |
| NetworkSerialization.ConversionRoundTrip | src/network/serialization/mod.rs:39-70 | writing a value as JSON and converting it back gives the value again, a `UInt64` below 2^63 coming back as an `Int64` |
| NetworkSerialization.AgreesWithModels | src/network/serialization/mod.rs:39-70 | the exchange-format conversion and the one of `src/models.rs` give the same result on every JSON value and kind |
| NetworkModelsConfiguration.Display | src/network/models/configuration.rs:104-113 | every value type is shown as one of the labels "NUMERIC", "BOOLEAN", "STRING" |
| NetworkModelsConfiguration.Deserialize | src/network/models/configuration.rs:94-102 | exactly the three labels are read back as a value type |
| NetworkModelsConfiguration.DisplayRoundTrip | src/network/models/configuration.rs:94-113 | the shown label is read back as the same type, and different types show different labels |
| NetworkModelsConfiguration.AsI64 | src/network/models/configuration.rs:119-121 | a JSON number that is a negative integer or a non-negative integer below 2^63 is read as that `i64`, and nothing else is |
| NetworkModelsConfiguration.AsU64 | src/network/models/configuration.rs:123-125 | exactly the non-negative JSON integers are read as `u64`, with their value |
| NetworkModelsConfiguration.AsF64 | src/network/models/configuration.rs:127-129 | exactly the JSON numbers are read as `f64`, each with its value: a positive or a negative integer as that number, a float as itself |
| NetworkModelsConfiguration.AsBoolean | src/network/models/configuration.rs:131-133 | exactly a JSON boolean is read, as itself |
| NetworkModelsConfiguration.AsString | src/network/models/configuration.rs:135-137 | exactly a JSON string is read, as itself |
| NetworkModelsConfiguration.IsDefault | src/network/models/configuration.rs:139-145 | true exactly for the JSON string "$default"; never for a non-string |
| MeteringModels.FromFeature | src/metering/models.rs:43-50 | a feature key carries the feature id, no property id, and the entity and segment given |
| MeteringModels.FromProperty | src/metering/models.rs:52-63 | a property key carries the property id, no feature id, and the entity and segment given |
| MeteringModels.KeysSeparateEvaluations | src/metering/models.rs:34-63 | a feature key is never a property key, and two keys of the same kind are equal exactly when subject, entity and segment are |
| MeteringModels.EvaluationData.Default | src/metering/models.rs:71-78 | the first evaluation of a key counts 1 |
| MeteringModels.EvaluationData.AddOne | src/metering/models.rs:80-85 | the count goes up by exactly one; the `u32` counter may not overflow |
| Metering.SegmentIdOf | src/metering/metering.rs:107 | the event carries a segment id exactly when a segment was given, and then that segment's id |
| Metering.RecordFeatureEvaluation | src/metering/metering.rs:119-141 | with a sender, exactly one well-formed feature event is enqueued, filed under the key of this feature, the entity and the segment; without a sender none is |
| Metering.RecordPropertyEvaluation | src/metering/metering.rs:95-117 | with a sender, exactly one well-formed property event is enqueued, filed under the key of this property, the entity and the segment; without a sender none is |
| Metering.KeyOf | src/metering/metering.rs:160-177 | the key keeps the event's entity and segment; a feature event is filed under its feature id with no property id, a property event under its property id with no feature id |
| Metering.Record | src/metering/metering.rs:180-184 | the key is present afterwards; a new key counts 1, a known key one more; every other key keeps its count |
| Metering.RecordAllCounts | src/metering/metering.rs:159-184 | after a sequence of events, a key is present exactly when it was before or some event carried it, and its count is its old count plus the number of events carrying it |
| Metering.IdenticalEvents | src/metering/metering.rs:180-184 | `n` identical events give a single entry whose count is `n` |
| Metering.Usages | src/metering/metering.rs:197-199 | the usages built by the loop are one per map entry, no key twice and none missing, each with that entry's count |
| Metering.MeteringBatcher.constructor | src/metering/metering.rs:151-157 | a new batcher has counted nothing and keeps the configuration id |
| Metering.MeteringBatcher.HandleEvent | src/metering/metering.rs:159-185 | the map afterwards is the old map with the event's key counted once more |
| Metering.MeteringBatcher.Flush | src/metering/metering.rs:187-214 | something is sent exactly when something was counted: one batch for the configuration's collection and environment with one usage per counted key; the map is empty afterwards whether or not the push succeeded |
| Metering.SameEvaluationsBatchedToOneEntry | src/metering/metering.rs:304-363 | two identical feature events and one property event are flushed as one batch of two usages: the feature counted twice with no segment, the property once with its segment |
| ClientMetering.KeyOf | src/client/metering.rs:144-170 | the key keeps the event's entity and segment; a feature event has no property id, a property event no feature id; a subject id is kept only when the subject's kind matches the event's kind |
| ClientMetering.KeyAgreesWithNewerBatcher | src/client/metering.rs:144-170 | on well-formed events this batcher files under the same key as the batcher of `src/metering/metering.rs` |
| ClientMetering.RecordEvaluation | src/client/metering.rs:73-87 | as written: succeeds exactly while the receiver is alive, then always as a feature event carrying the given subject, entity and segment; a closed channel is `MeteringError` |
| ClientMetering.PropertyEvaluationsCollide | src/client/metering.rs:79-85 | as written, two different properties evaluated for the same entity are filed under the same key, with neither a feature nor a property id |
| ClientMetering.RecordEvaluationBySubject | src/client/metering.rs:73-87 | corrected: the same, with the event kind following the subject, so every event produced is well-formed |
| ClientMetering.RecordedUnderSubjectKey | src/client/metering.rs:73-87 | with the corrected recorder every evaluation is filed under its subject's key, and two evaluations share a usage exactly when they have the same subject, entity and segment |
| ClientMetering.ClientMeteringBatcher.constructor | src/client/metering.rs:134-140 | a new batcher has counted nothing, was last flushed now and keeps the interval and the configuration id |
| ClientMetering.ClientMeteringBatcher.HandleEvent | src/client/metering.rs:144-182 | the map afterwards is the old map with the event's key counted once more; the flush time is unchanged |
| ClientMetering.ClientMeteringBatcher.Flush | src/client/metering.rs:190-212 | with nothing counted nothing changes, the flush time included; otherwise one batch with one usage per counted key is pushed, the map is cleared and the flush time becomes now |
| ClientMetering.ClientMeteringBatcher.MaybeFlush | src/client/metering.rs:184-188 | a batch is sent exactly when the interval has elapsed and something was counted, and then as `flush` sends it; otherwise nothing changes |
| ClientMetering.SameEvaluationsBatchedToOneEntry | src/client/metering.rs:307-350 | two identical feature evaluations are not sent before the interval has elapsed, and a forced flush sends a single usage counted twice |
| FeatureSnapshot.Tag | src/models/feature_snapshot.rs:108 | the hashed tag is the entity id, a colon, then the feature id |
| FeatureSnapshot.ShouldRollout | src/models/feature_snapshot.rs:107-110 | a percentage of 100 always rolls out; any other percentage rolls out exactly when the bucket of the entity's tag is below it |
| FeatureSnapshot.RolloutExtremes | src/models/feature_snapshot.rs:107-110 | a percentage of 100 rolls out every entity and 0 none, whatever the hash |
| FeatureSnapshot.RolloutMonotonic | src/models/feature_snapshot.rs:102-110 | raising the percentage never withdraws a rollout, given a bucket in 0..=100 as the hash's scaling makes it |
| FeatureSnapshot.RolloutAtFifty | src/models/feature_snapshot.rs:156-178 | with the hash values of the file's tests, at 50% "a1" is not rolled out for "f1" and "a2" is |
| FeatureSnapshot.DirectValue | src/models/feature_snapshot.rs:112-122 | the enabled value exactly when `should_rollout` admits the entity at the feature's own percentage, the disabled value otherwise |
| FeatureSnapshot.RuleResult | src/models/feature_snapshot.rs:85-97 | a missing rollout is the protocol error "Rollout is missing"; an unreadable one is a protocol error; otherwise the rule's percentage (the feature's own for "$default") gates the result: inside it the rule's value converted under the feature's type (the enabled value for "$default"), outside it the disabled value |
| FeatureSnapshot.Evaluate | src/models/feature_snapshot.rs:64-100 | a disabled feature gives its disabled value and records an event without segment; with no targeting rules or no attributes the feature's own rollout picks the enabled or the disabled value; otherwise a failing search is returned with nothing recorded, no applicable rule gives the direct rollout value, and the rule found gives what `RuleResult` states for it |
| FeatureSnapshot.RecordsOnce | src/models/feature_snapshot.rs:64-83 | an evaluation records exactly one event when a sender is attached, unless the segment search failed; the event is filed under this feature, the entity and the matched segment, if any |
| FeatureSnapshot.SearchErrorPropagates | src/models/feature_snapshot.rs:77-78 | a failing segment search is returned as the error and nothing is recorded |
| FeatureSnapshot.ResultOrigin | src/models/feature_snapshot.rs:64-100 | every value returned is the enabled value, the disabled value, or one targeting rule's value converted under the feature's type; every error comes from the segment search, a rollout percentage or a rule's value |
| FeatureSnapshot.RuleResultOrigin | src/models/feature_snapshot.rs:85-97 | once a rule has applied, the value is the enabled value, the disabled value or the rule's value converted; an error is a protocol error or `MismatchType` |
| FeatureSnapshot.FirstApplicableRuleDecides | src/models/feature_snapshot.rs:77-97 | for an enabled feature and an entity with attributes, when the rule at `i` is the first that applies, the result is exactly what `RuleResult` states for that rule, whatever its rollout and value, and the metering event names a segment |
| FeatureSnapshot.NoApplicableRuleIsDirectRollout | src/models/feature_snapshot.rs:98 | when no targeting rule applies and none fails, the feature's own rollout decides, as for a feature without rules |
| FeatureSnapshot.DisabledFeature | src/models/feature_snapshot.rs:236-258 | a disabled feature gives its disabled value whatever the rollout and the entity |
| FeatureSnapshot.NoMatchFiftyFiftyRollout | src/models/feature_snapshot.rs:180-234 | without rules or without attributes, at 50% "a1" gets the disabled value 2 and "a2" the enabled value -42 |
| FeatureSnapshot.MatchingARule | src/models/feature_snapshot.rs:259-317 | with the rule "name is heinz" worth -48 at 50%: "a2" named heinz gets -48, "a1" named heinz is not rolled out and gets 2, and "a2" named heinzz matches nothing and gets -42 |
| FeatureSnapshot.HeinzMatches | src/models/feature_snapshot.rs:259-317 | an entity named heinz gets the rule's value inside the rule's rollout and the disabled value outside it |
| FeatureSnapshot.HeinzRuleApplies | src/models/feature_snapshot.rs:259-317 | the single targeting rule applies to an entity named heinz and is reported with its segment |
| FeatureSnapshot.HeinzzMatchesNothing | src/models/feature_snapshot.rs:259-317 | an entity named heinzz matches no rule and gets the feature's own rollout |
| FeatureSnapshot.MatchingYieldsDefaultValue | src/models/feature_snapshot.rs:319-364 | a matched rule whose value is "$default" gives the feature's enabled value |
| FeatureSnapshot.MatchingSegmentRolloutDefault | src/models/feature_snapshot.rs:366-412 | a matched rule whose rollout is "$default" uses the feature's rollout, here 0, so the disabled value |
| ClientFeatureSnapshot.FindApplicableSegmentRule | src/client/feature_snapshot.rs:67-70 | a rule found is the first applicable one in stored order; nothing is found exactly when no rule applies; failures are `EntityEvaluationError`s |
| ClientFeatureSnapshot.DirectValue | src/client/feature_snapshot.rs:92-102 | the enabled value exactly when `should_rollout` admits the entity at the feature's own percentage, the disabled value otherwise |
| ClientFeatureSnapshot.Evaluate | src/client/feature_snapshot.rs:57-85 | a disabled feature gives its disabled value; with no rules or no attributes the feature's own rollout decides; otherwise a failing search is returned as the error, no applicable rule gives the direct rollout value, and the rule found gives what the newer snapshot's `RuleResult` states for it; errors come from the search, a rollout percentage or a rule value |
| ClientFeatureSnapshot.AgreesWithNewerSnapshot | src/client/feature_snapshot.rs:57-104 | the older snapshot returns exactly what the newer one of `src/models/feature_snapshot.rs` returns for the same feature, with or without metering |
| ClientFeatureSnapshot.MatchingARule | src/client/feature_snapshot.rs:273-358 | the same scenario in the older snapshot: -48, 2 and -42 |
| PropertySnapshot.Evaluate | src/client/property_snapshot.rs:48-78 | with no rules or no attributes the property's value is returned; a notice is sent exactly when a sender is attached and the search succeeded, naming the property, the entity and the matched segment's name; errors come from the search or the rule's value |
| PropertySnapshot.MeteringNeverChangesResult | src/client/property_snapshot.rs:61-71 | the value or error returned is the same with or without a metering sender |
| PropertySnapshot.FirstApplicableRuleDecides | src/client/property_snapshot.rs:73-76 | when the rule at `i` is the first that applies, the result is its value converted (the property's value for "$default"), whatever its rollout, even a missing one |
| PropertySnapshot.NoApplicableRuleGivesValue | src/client/property_snapshot.rs:75 | when no targeting rule applies and none fails, the property's own value is returned |
| PropertySnapshot.SearchErrorPropagates | src/client/property_snapshot.rs:56-58 | a failing segment search is returned as the error and no notice is sent |
| PropertySnapshot.SegmentWithDefaultValue | src/client/property_snapshot.rs:105-144 | a matched rule whose value is "$default" gives the property's value -42 |
| ClientProperty.FindApplicableSegmentRule | src/client/property.rs:53-57 | a rule found is the first applicable one in `order`; nothing is found exactly when the search fails or no rule applies |
| ClientProperty.Evaluate | src/client/property.rs:42-74 | never fails; with no rules or no attributes the property's value is returned; every result is the property's value or some rule's value other than "$default" |
| ClientProperty.FirstApplicableRuleDecides | src/client/property.rs:53-71 | when the rule at `i` in `order` is the first that applies, its value is returned, or the property's value for "$default" |
| ClientProperty.NoApplicableRuleGivesValue | src/client/property.rs:72 | with no applicable rule, or a failing search, the property's own value is returned |
| ClientProperty.SegmentWithDefaultValue | src/client/property.rs:79-122 | a matched rule whose value is "$default" gives the property's value -42 |
| ClientProperty.SegmentRuleOrdering | src/client/property.rs:124-193 | both rules match, and the one of order 0, listed second, wins with -49 |
| ClientConfiguration.FindEnvironment | src/client/configuration.rs:41-47 | nothing is found exactly when no environment has the id; otherwise the first environment with that id |
| ClientConfiguration.Insert | src/client/configuration.rs:54 | inserting one rule into a sorted list keeps it sorted by `order`, adds exactly that rule, and puts it after every rule of smaller order |
| ClientConfiguration.SortByOrder | src/client/configuration.rs:54 | the targeting rules come out sorted by `order` and are a permutation of the stored ones |
| ClientConfiguration.Collect | src/client/configuration.rs:129-133 | a segment id is a key exactly when it is wanted and some segment of the list has it, and the key holds a segment of the list with that id |
| ClientConfiguration.SegmentsForRules | src/client/configuration.rs:114-134 | the collected segments are exactly the referenced ids that some segment of the list has, each holding such a segment |
| ClientConfiguration.ReferencedIds | src/client/configuration.rs:118-127 | every id listed in an inner `segments` list of some targeting rule is referenced, and every referenced id is listed in one |
| ClientConfiguration.RuleCountCheck | src/client/configuration.rs:63-67 | the check as written passes exactly when the number of targeting rules equals the number of distinct referenced ids that are present |
| ClientConfiguration.ReferencedCountCheck | src/client/configuration.rs:63-67 | the corrected check (as many segments found as ids referenced) passes exactly when every referenced segment is present |
| ClientConfiguration.FeatureEntry | src/client/configuration.rs:53-73 | one feature is refused with `MissingSegments` of its id exactly when the check fails on its sorted rules; otherwise it is kept with its rules sorted and the segments they reference |
| ClientConfiguration.PropertyEntry | src/client/configuration.rs:79-98 | the same for one property |
| ClientConfiguration.Index | src/client/configuration.rs:72-74 | every key of the collected map is some item's id |
| ClientConfiguration.IndexOk | src/client/configuration.rs:72-74 | collecting succeeds exactly when every entry does |
| ClientConfiguration.IndexFailsAtFirstError | src/client/configuration.rs:72-74 | a failure is the error of the first failing entry |
| ClientConfiguration.IndexLastWins | src/client/configuration.rs:72-74 | on success every item's id is a key and holds the entry of the last item with that id |
| ClientConfiguration.IndexFeatures | src/client/configuration.rs:50-74 | the features index exactly when every feature passes; otherwise the error is `MissingSegments` of the first feature that fails |
| ClientConfiguration.IndexFeaturesLastWins | src/client/configuration.rs:72-74 | a feature id is a key, holding the entry of the last feature with that id |
| ClientConfiguration.IndexProperties | src/client/configuration.rs:76-99 | the properties index exactly when every property passes; otherwise the error is `MissingSegments` of the first property that fails |
| ClientConfiguration.IndexPropertiesLastWins | src/client/configuration.rs:97-99 | a property id is a key, holding the entry of the last property with that id |
| ClientConfiguration.NewWith | src/client/configuration.rs:37-105 | `EnvironmentNotFound` exactly when no environment has the id; otherwise success exactly when both features and properties index, with those indexes; a failure in a found environment is `MissingSegments`, the features' error when they fail |
| ClientConfiguration.New | src/client/configuration.rs:37-105 | as written: `EnvironmentNotFound` exactly when no environment has the id; any other failure is `MissingSegments`; success exactly when the environment exists and the sorted rules of every feature and every property pass the rule-count check |
| ClientConfiguration.NewChecked | src/client/configuration.rs:37-105 | as evidently intended: the same, except that success needs every feature's and property's sorted rules to pass the corrected check |
| ClientConfiguration.NewCheckedSucceedsIffIntact | src/client/configuration.rs:37-105 | with the corrected check, construction succeeds exactly when the environment exists and every targeting rule of every feature and property references only present segments |
| ClientConfiguration.FeaturesChecked | src/client/configuration.rs:50-74 | with the corrected check, the features index exactly when each feature's rules reference only present segments |
| ClientConfiguration.PropertiesChecked | src/client/configuration.rs:76-99 | with the corrected check, the properties index exactly when each property's rules reference only present segments |
| ClientConfiguration.CheckedRulesMeaning | src/client/configuration.rs:54-67 | the corrected check on a resource's sorted rules holds exactly when every segment they reference is present |
| ClientConfiguration.SortKeepsReferences | src/client/configuration.rs:54-60 | sorting does not change which segments are referenced |
| ClientConfiguration.SingleFeatureConfiguration | src/client/configuration.rs:37-105 | a configuration of one environment with one feature stands or falls with that feature's check, and then fails with that feature's `MissingSegments` |
| ClientConfiguration.RuleCountRejectsIntactFeature | src/client/configuration.rs:63-67 | as written: one targeting rule referencing two segments, both present, is refused with `MissingSegments`, while the corrected check accepts it |
| ClientConfiguration.RuleCountAcceptsMissingSegment | src/client/configuration.rs:63-67 | as written: two targeting rules referencing three ids, one of them absent, find two segments and are accepted, while the corrected check refuses them |
| ClientConfiguration.BrokenRulesChecks | src/client/configuration.rs:63-67 | on those rules the check as written (two found for two rules) passes and the corrected check (three referenced) fails |
| ClientConfiguration.UnknownEnvironment | src/client/configuration.rs:207-220 | an environment id that no environment has is reported as `EnvironmentNotFound` with that id |
| ClientConfiguration.GetFeature | src/client/configuration.rs:150-169 | an unknown id is `FeatureNotFound`; otherwise the snapshot carries the feature's flag, rollout, name, id and indexed rules with both values converted under its type, the first failing conversion being the error; no metering is attached |
| ClientConfiguration.GetProperty | src/client/configuration.rs:175-190 | an unknown id is `PropertyNotFound`; otherwise the snapshot carries the converted value, the indexed rules and the name, or the conversion's error; no metering is attached |
| ClientConfiguration.SnapshotOfConfiguredFeature | src/client/configuration.rs:50-74 | the snapshot of a feature of the environment (the last with its id) carries its flag, rollout and name, its rules sorted by order as a permutation of the stored ones, and exactly the referenced segments that are present |
| ClientConfiguration.IsOnline | src/client/configuration.rs:192-194 | a static configuration is never online |
| ClientConfiguration.KeysOf | src/client/configuration.rs:136-147 | the ids listed are exactly the keys of the index, each once |
| LiveTypes.ReasonDebug | src/network/configuration_sync/current_mode.rs:17-31 | each offline reason is shown as its own name, and each name shown identifies the reason it came from |
| LiveTypes.ServerClient.constructor | src/network/live_configuration/live_configuration.rs:188-206 | the scripted server client holds the given answers, connection results and messages |
| LiveTypes.ServerClient.GetConfiguration | src/network/live_configuration/live_configuration.rs:193-198 | `get_configuration` gives the next scripted answer and consumes it; nothing else changes |
| LiveTypes.ServerClient.GetConfigurationMonitoringWebsocket | src/network/live_configuration/live_configuration.rs:200-205 | `get_configuration_monitoring_websocket` gives the next scripted connection result and consumes it; nothing else changes |
| LiveTypes.ServerClient.ReadMsg | src/network/live_configuration/live_configuration.rs:182-186 | `read_msg` gives the next scripted message or read error and consumes it; nothing else changes |
| LiveWorker.RecoverableError | src/network/live_configuration/update_thread_worker.rs:177-187 | exactly the request, websocket, protocol and lost-contact errors are recoverable; a bad URL or header becomes `UnrecoverableError` with its text, a lock failure `CannotAcquireLock`, both of which stop the thread |
| LiveWorker.Update | src/network/live_configuration/update_thread_worker.rs:104-131 | a fetch fails exactly on an unrecoverable error and then changes nothing; a configuration that builds is stored and the mode becomes online; one that does not only sets `ConfigurationDataInvalid`; a recoverable failure keeps an offline reason or goes offline with `FailedToGetNewConfiguration`; anything stored was built from the answer; online always has a stored configuration afterwards |
| LiveWorker.HandleMessage | src/network/live_configuration/update_thread_worker.rs:141-173 | the socket is dropped exactly on a read error (`WebsocketError`) or a close (`WebsocketClosed`); a heartbeat while online and non-text messages change nothing; a heartbeat while offline and any other text are one fetch, whose error is returned; online keeps a stored configuration |
| LiveWorker.HeartbeatWhileOnlineIgnoresServer | src/network/live_configuration/update_thread_worker.rs:150 | a heartbeat while online does not depend on the server's answers and changes nothing |
| LiveWorker.UpdateThreadWorker.constructor | src/network/live_configuration/update_thread_worker.rs:36-48 | the worker holds the given server client, id and cells |
| LiveWorker.UpdateThreadWorker.UpdateConfigurationFromServerAndCurrentMode | src/network/live_configuration/update_thread_worker.rs:104-131 | one answer is consumed and the result and both cells are those `Update` gives |
| LiveWorker.UpdateThreadWorker.HandleWebsocketMessage | src/network/live_configuration/update_thread_worker.rs:141-173 | one message is consumed, plus one answer exactly when it fetches; the result and the cells are those `HandleMessage` gives |
| LiveWorker.UpdateThreadWorker.Attempt | src/network/live_configuration/update_thread_worker.rs:59-88 | one connection attempt is consumed; a failed connection leaves the cells and answers untouched, a fatal one ends the run with its classified error; the invariant is kept and the stored configuration comes from the answers |
| LiveWorker.UpdateThreadWorker.Listen | src/network/live_configuration/update_thread_worker.rs:75-88 | the message loop keeps the invariant, ends only with an unrecoverable error or on a stop, and stores only configurations built from the answers; a termination signal at the first check ends the run with `Ok(())` before any message is read, leaving the cells and the answers untouched |
| LiveWorker.UpdateThreadWorker.UpdateFetched | src/network/live_configuration/update_thread_worker.rs:73 | the initial fetch inside a run fails exactly on an unrecoverable answer, then leaving the cells alone; otherwise the invariant holds afterwards |
| LiveWorker.UpdateThreadWorker.HandleFetched | src/network/live_configuration/update_thread_worker.rs:84-87 | one handled message inside a run keeps the invariant and ends the run only with an unrecoverable error |
| LiveWorker.UpdateThreadWorker.RunInternal | src/network/live_configuration/update_thread_worker.rs:58-90 | the run ends with `Err` only for an unrecoverable error; it keeps online-implies-stored; every stored configuration was built from a server answer; when every connection fails the cells and answers are untouched; a fatal first connection is the run's error |
| LiveWorker.UpdateThreadWorker.Run | src/network/live_configuration/update_thread_worker.rs:94-99 | when the run ends its result is published as `Defunct`, the invariant holds and the stored configuration came from the server |
| LiveConfiguration.GetConfiguration | src/network/live_configuration/live_configuration.rs:85-122 | online serves the stored configuration; offline, `Fail` gives the offline reason and `Cache` the stored configuration or `ConfigurationNotYetAvailable`; defunct, `Fail` gives `ThreadInternalError` and `Cache` without a configuration `UnrecoverableError`, both quoting the run's result; `FallbackData` always serves the fallback; an error arises exactly when not online and `Fail`, or `Cache` with nothing stored |
| LiveConfiguration.GetFeature | src/network/live_configuration/live_configuration.rs:130-135 | the feature is looked up in whatever configuration the reader serves; a reader error or a lookup error is passed on |
| LiveConfiguration.GetProperty | src/network/live_configuration/live_configuration.rs:141-146 | the same for a property |
| LiveConfiguration.LiveConfigurationImpl.constructor | src/network/live_configuration/live_configuration.rs:55-81 | a new reader starts without a configuration, initializing, and shares its cells with a fresh worker for the given client and id |
| LiveConfiguration.LiveConfigurationImpl.GetFeatureIds | src/network/live_configuration/live_configuration.rs:126-128 | a reader error is passed on; otherwise the ids listed are exactly the served configuration's feature ids, each once |
| LiveConfiguration.LiveConfigurationImpl.GetPropertyIds | src/network/live_configuration/live_configuration.rs:137-139 | the same for property ids |
| LiveConfiguration.LiveConfigurationImpl.GetCurrentMode | src/network/live_configuration/live_configuration.rs:154-156 | the mode the update thread last published; while the worker's invariant holds, a reported `Online` means the stored configuration is served, and a reported offline reason under `Fail` is the error served |
| LiveConfiguration.ServeAfterRun | src/network/live_configuration/live_configuration.rs:55-122 | after any run of the thread from a fresh reader, the reader is defunct, never meets the unreachable case, and serves either the fallback or a configuration the server sent |
| LiveConfiguration.OnlineServesStored | src/network/live_configuration/live_configuration.rs:319-358 | online, the stored configuration is served under every offline mode |
| LiveConfiguration.WhenOffline | src/network/live_configuration/live_configuration.rs:360-413 | the offline test: the reason under `Fail`, not-yet-available or the cache under `Cache`, the fallback under `FallbackData` |
| LiveConfiguration.WhenDefunct | src/network/live_configuration/live_configuration.rs:415-470 | the defunct test, with the messages that quote the run's `Ok(())` |
| SyncLiveConfiguration.GetConfiguration | src/network/configuration_sync/live_configuration.rs:49-73 | online serves the stored configuration; offline, `Fail` gives the reason, `Cache` the stored configuration or `ConfigurationNotYetAvailable`, `FallbackData` the fallback; an error arises exactly in the `Fail` and empty-`Cache` cases |
| SyncLiveConfiguration.AgreesWithNewerReader | src/network/configuration_sync/live_configuration.rs:49-73 | the older reader gives the same answer as the newer one in every mode it knows |
| SyncLiveConfiguration.LiveConfiguration.constructor | src/network/configuration_sync/live_configuration.rs:21-47 | a new reader starts without a configuration, initializing, sharing its cells with a fresh worker |
| SyncLiveConfiguration.LiveConfiguration.GetCurrentMode | src/network/configuration_sync/live_configuration.rs:79-81 | the same for the older reader: the published mode; a reported `Online` means the stored configuration is served, a reported offline reason under `Fail` is the error served |
| SyncLiveConfiguration.HappyPath | src/network/configuration_sync/live_configuration.rs:96-236 | the happy-path test: initializing is reported as the offline reason; after the first fetch the configuration is served online; a heartbeat changes nothing; other text fetches and serves the new configuration |
| SyncWorker.RunInternal | src/network/configuration_sync/thread.rs:48-88 | the older run fetches before connecting: it always consumes an answer when there is one, a fatal first answer ends it before any connection attempt, and a fatal first connection after a recoverable fetch is its error; besides, the newer run's guarantees (only unrecoverable errors, invariant kept, configurations from the server) |
| SyncWorker.Round | src/network/configuration_sync/thread.rs:49-85 | one pass of the outer loop consumes at least one answer, keeps the invariant and stores only configurations built from the answers; a fatal fetch or connection ends the run with its classified error |
| SyncWorker.Run | src/network/configuration_sync/thread.rs:91-96 | the older run's result is published as `Defunct`, with the same guarantees as its run |
| SyncWorker.UpdateHappy | src/network/configuration_sync/thread.rs:188-226 | a valid answer is stored and the worker goes online |
| SyncWorker.UpdateInvalidConfiguration | src/network/configuration_sync/thread.rs:227-269 | an answer without the worker's environment stores nothing and marks the data invalid |
| SyncWorker.UpdateRecoverableError | src/network/configuration_sync/thread.rs:270-321 | a protocol error takes an online worker offline with `FailedToGetNewConfiguration` and keeps an existing offline reason |
| SyncWorker.UpdateNonRecoverableError | src/network/configuration_sync/thread.rs:322-358 | a lock failure from the server is returned as `CannotAcquireLock` |
| SyncWorker.WebsocketMessagesGood | src/network/configuration_sync/thread.rs:359-435 | the message test: a heartbeat while initializing fetches and goes online, one while online fetches nothing, a ping changes nothing, text fetches, a close drops the socket and keeps the configuration |
| SyncWorker.WebsocketUpdateFails | src/network/configuration_sync/thread.rs:436-489 | a failing fetch triggered by a message is an error; a heartbeat while online is not |
| SyncWorker.WebsocketReadFailure | src/network/configuration_sync/thread.rs:490-530 | a read error drops the socket and sets `WebsocketError` |
| SyncWorker.RunInitialConfigurationFailsUnrecoverably | src/network/configuration_sync/thread.rs:531-569 | an unparsable URL on the first fetch ends the run at once with that error, published as `Defunct` |
| SyncWorker.RunGetWebsocketFails | src/network/configuration_sync/thread.rs:570-606 | an invalid header on the connection ends the run after the first fetch, published as `Defunct` |
| ConfigurationHttp.AsCurrentMode | src/network/configuration_http.rs:49-75 | this version's mode corresponds to the newer mode of the same shape, never `Defunct` |
| ConfigurationHttp.GetConfiguration | src/network/configuration_http.rs:50-75 | every error is `ContactToServerLost`; a configuration is served exactly when one is stored and the mode is online or the offline mode is `Cache`, or when offline with `FallbackData`, and it is that one |
| ConfigurationHttp.ServesAsNewerReader | src/network/configuration_http.rs:50-75 | the oldest and the newest reader serve the same configuration wherever either serves one |
| ConfigurationHttp.RecoverableError | src/network/configuration_http.rs:145-156 | exactly the request, websocket, protocol and lost-contact errors are recoverable; any other error is returned unchanged |
| ConfigurationHttp.SameClassificationAsWorker | src/network/configuration_http.rs:145-156 | the newer worker classifies every network error the same way |
| ConfigurationHttp.Fetch | src/network/configuration_http.rs:158-185 | the step fails exactly on an unrecoverable error, returning it; the next mode is online exactly when the answer builds, and then that configuration is stored, otherwise nothing is stored; a failed build counts as a recoverable protocol error; an offline mode is kept, online becomes `FailedToGetNewConfiguration`; online always has a stored configuration |
| ConfigurationHttp.HandlePayload | src/network/configuration_http.rs:187-214 | a heartbeat while online keeps the mode and configuration and asks nothing; a heartbeat while offline or any other text is one fetch; online keeps a stored configuration |
| ConfigurationHttp.HeartbeatWhileOnlineNeedsNoServer | src/network/configuration_http.rs:195-205 | a heartbeat while online does not depend on the server's answers |
| ConfigurationHttp.LiveConfiguration.constructor | src/network/configuration_http.rs:118-141 | a new reader starts without a configuration, initializing |
| ConfigurationHttp.LiveConfiguration.GetCurrentMode | src/network/configuration_http.rs:108-110 | the mode cell; a reported `Online` with a stored configuration means it is served, and a reported offline mode under `Fail` means `ContactToServerLost` is served |
| ConfigurationHttp.LiveConfiguration.GetConfigurationFromServer | src/network/configuration_http.rs:158-185 | one answer is consumed; the returned mode and the configuration cell are those `Fetch` gives; the mode cell is left to the caller |
| ConfigurationHttp.LiveConfiguration.HandleWebsocketPayload | src/network/configuration_http.rs:187-214 | an answer is consumed exactly when the payload fetches; the returned mode and the cell are those `HandlePayload` gives |
| ConfigurationHttp.HappyPath | src/network/configuration_http.rs:302-379 | the happy path: nothing is served while initializing, the fetched configuration is served online, and a heartbeat changes nothing |

## Left out

- Threads, channels and locks: `ThreadHandle`, `get_thread_status`, `start_update_thread` (src/network/configuration_http.rs:216-293) and the unfinished `new_wait_until_online` are not modelled. The workers' cells are fields of one object shared with the reader, and lock poisoning never happens.
- The worker's termination channel and its blocking reads: they become a finite list of termination checks and scripted messages; running out of either ends the run as a termination signal does.
- `start_metering`'s timed loop (src/metering/metering.rs:40-74): flushing is an explicit call. The older batcher's clock is the parameter `now`. Timestamps (`time_of_last_evaluation`) are left out.
- The murmur3 hash and its scaling to 0..=100 (`normalized_hash`, `random_value`): the bucket is a function parameter, and the published test vectors appear only as preconditions of example lemmas.
- Floating point: `f64` is modelled as `real`. `parse::<f64>` accepts a sign, digits and an optional fraction; exponents, `inf`, `NaN` and rounding are not modelled.
- Network and file I/O, and serde: the HTTP client, the token provider, `ConfigurationJson::new`, `AppConfigurationOffline::new` and `from_file` are not modelled. The offline client starts from an already parsed snapshot; `client/cache.rs` is not part of this model beyond its maps.
- The proxies (`feature_proxy.rs`, `property_proxy.rs`) and the thin accessors `get_name`, `is_enabled` and `get_value_into` are left out.
- The older `find_applicable_segment_rule_for_entity` is not part of this model, and its two callers reach two different functions of that name. `src/client/feature_snapshot.rs:67-70` calls a method on the snapshot's rules and passes its error on with `?`; ClientFeatureSnapshot.FindApplicableSegmentRule models it as a search in stored order whose segment-evaluation error is returned. `src/client/property.rs:53-57` calls a free function that returns an `Option`; ClientProperty.FindApplicableSegmentRule models it as the test of `src/client/property.rs` shows it: sort by `order`, take the first applicable rule, and count a segment-evaluation error as no rule.
- The body of `record_property_evaluation` is not part of this model. A property evaluation records the notice it is given.
- Sort stability: `sort_by` is stable; the model proves the rules sorted by `order` and a permutation of the stored ones, but not that rules of equal order keep their relative order.
- `Debug` formatting in the defunct reader's messages is modelled only for the thread results the model produces; string escaping is not modelled.
- The crate `Error` returned by the provider methods is modelled as `ProviderError`, which wraps either the reader's error or the configuration's error.
- `src/network/live_configuration/current_mode.rs` does not list `ConfigurationDataInvalid`, although the worker at src/network/live_configuration/update_thread_worker.rs:113-115 sets it; the model includes it. The older `CurrentMode` of `configuration_sync` has no `Defunct`, although src/network/configuration_sync/thread.rs:93 sets it; the older reader's decision table excludes it by precondition.
- `OfflineMode::FallbackData` is modelled as holding the configuration it serves, not the offline client it is taken from.
- `NetworkError::ConfigurationDataError` (src/network/errors.rs:44-45) is not matched by any `recoverable_error`; the model's network error has only the variants those functions match.
- The test in src/network/configuration_http.rs:339 expects `MismatchType` while initializing, but the code at lines 59-63 returns `ContactToServerLost`; the model follows the code.
- `PropertySnapshot::new` is called with five arguments at src/client/configuration.rs:183-189: the value, the rules, the name, the property id and no metering sender. The `new` at src/client/property_snapshot.rs:34-39 takes four and has no parameter for the property id. ClientConfiguration.GetProperty builds the snapshot from the value, the rules and the name, without metering, and drops the property id.
- MeteringModels.EvaluationData.AddOne: requires that the `u32` count is below its maximum, as the `+= 1` would panic there; the batchers' counts are unbounded naturals.
- The `EvaluationData` class models `default` and `add_one` on their own; neither batcher uses it. Both batchers keep each key's count as a natural number in a map, which `Metering.Record` increases by one, so the `u32` width and the timestamp are not carried into the batchers.

## Findings

| source | as written | input that shows it | evidently intended | confidence | as-written member | corrected member |
|---|---|---|---|---|---|---|
| src/client/configuration.rs:63-67 | a feature is refused with `MissingSegments` when the number of targeting rules differs from the number of referenced segments found (the same check is at lines 89-93 for properties) | one targeting rule referencing segments `s1` and `s2`, both present, is refused; two rules referencing `s1`, `missing` and `s2` are accepted | refuse exactly when some referenced segment is absent, comparing the referenced ids with the segments found, as `src/client/app_configuration_offline.rs:97-102` does | not executed | ClientConfiguration.RuleCountRejectsIntactFeature | ClientConfiguration.NewCheckedSucceedsIffIntact |
| src/client/metering.rs:79-85 | `record_evaluation` always wraps the subject as a Feature event, so a property subject gets a key whose feature id and property id are both `None` | two evaluations of different properties for the same entity and segment are counted under the same key | a property subject sent as a Property event and counted under its property id | not executed | ClientMetering.PropertyEvaluationsCollide | ClientMetering.RecordedUnderSubjectKey |

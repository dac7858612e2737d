# NodeSLO store and pod eviction in the koordlet resource manager

This Dafny project models two parts of the node agent's resource manager (`resmanager`), along with the NodeSLO data types they work on:

- **The NodeSLO desired-state store.** The manager keeps the latest NodeSLO object of its node. When the informer reports the object as added, `createNodeSLO` replaces the whole stored object. When the informer reports an update, `updateNodeSLOSpec` replaces only the spec, and only if the spec changed. Both then merge the three strategy blocks with the node-level defaults. Readers either take a copy (`getNodeSLOCopy`) or ask whether the store is ready (`hasSynced`). `isFeatureDisabled` reads a feature switch off a NodeSLO and fails closed: when it cannot decide, it answers "disabled".
- **The pod eviction pipeline.** `evictPodIfNotEvicted` skips a pod whose UID is in the eviction cache. Otherwise it calls `evictPod`, which records an audit entry, sends the eviction request and records the outcome. The UID is cached whenever `evictPod` reports success. `evictPodsIfNotEvicted` runs this for each pod of a batch. `killContainers` walks a pod's containers in spec order and stops running containers with grace period 0. A failed status lookup or a container that is not running ends the walk. A running container with an empty ID or a missing runtime handler is skipped.

Modules:

- `NodeSLOTypes` (`nodeslo_types.dfy`) holds the NodeSLO types: every Go pointer is an `Option` and every policy is a string with named values. It also holds the documented ranges (`ValidSpec`) and the declared field defaults (`ApplyDefaults`).
- `NodeSLOStore` (`nodeslo_store.dfy`) holds the store's behaviour as values: the merge, what create and update leave behind, which informer notifications reach the store, and `IsFeatureDisabled`.
- `Eviction` (`eviction.dfy`) holds the eviction pipeline as values. Its state is the dedup cache (a set of UIDs) plus one ordered log of effects: audit records, eviction requests, node events and metrics.
- `ContainerKill` (`container_kill.dfy`) holds `killContainers` as a loop method over the pod's containers. It is specified by `KillPlan`.
- `ResManager` (`resmanager.dfy`) holds class `Manager`. Its fields are `nodeSLO`, `podsEvicted` and `effects`, and its methods change those fields as the Go methods do. Each method is proved against the value-level functions above.
- `CoreV1` and `Wrappers` hold pod and node values and `Option`.

The foreign calls are inputs:

- The eviction API's answer is an `EvictResult` (`EvictOk`, `EvictNotFound` or `EvictOtherError`). For a batch it is a function `api` from pod to answer.
- The container-status lookup, the runtime-type parse and the runtime-handler registry are the three functions of a `ContainerRuntime`.
- The per-block merge helpers and the node-level default config are the fields of a `MergeConfig`.

Where the code does something one might not expect, the model follows the code:

- An eviction that finds the pod already gone (NotFound) returns `true`. So its UID is cached exactly as after a real eviction, but no event and no metric are recorded (`Eviction.NotFoundIsCached`).
- In `killContainers`, a failed status lookup or a container that is not running ends the whole walk (`ContainerKill.HaltEndsWalk`). Only a missing runtime handler or an empty container ID skips just that container (`ContainerKill.SkipDropsOneContainer`).
- The merge replaces each stored block wholesale with its helper's non-nil result. The stored block is kept whenever the helper returns nil. Any field-by-field merging happens inside those helpers, which are parameters here.

## Model

| member | source | states |
|---|---|---|
| `NodeSLOTypes.ParsePodMemoryQoSPolicy` | apis/slo/v1alpha1/nodeslo_types.go:89-98 | exactly the three strings "default", "none", "auto" name a pod memory QoS policy, and a parsed policy's name is the string parsed |
| `NodeSLOTypes.EffectivePodMemoryQoSPolicy` | apis/slo/v1alpha1/nodeslo_types.go:100-104 | an empty pod policy is read as "default"; any other string is read as its named policy, if it has one |
| `NodeSLOTypes.ParseCPUSuppressPolicy` | apis/slo/v1alpha1/nodeslo_types.go:137-142 | exactly "cpuset" and "cfsQuota" name a CPU suppress policy |
| `NodeSLOTypes.ParseCPUBurstPolicy` | apis/slo/v1alpha1/nodeslo_types.go:189-200 | exactly "none", "cpuBurstOnly", "cfsQuotaBurstOnly" and "auto" name a CPU burst policy |
| `NodeSLOTypes.PolicyNamesRoundTrip` | apis/slo/v1alpha1/nodeslo_types.go:89-200 | parsing a policy's name gives the policy back, for all three policy types |
| `NodeSLOTypes.ValidMemoryQoS` | apis/slo/v1alpha1/nodeslo_types.go:37-80 | the documented memory QoS ranges: min, low and throttling percentages at least 0, wmark ratio in [0,100], wmark scale permill in [1,1000], wmark min adjustment in [-25,50] |
| `NodeSLOTypes.ValidResctrlQoS` | apis/slo/v1alpha1/nodeslo_types.go:172-186 | the documented resctrl ranges: CAT start, CAT end and MBA percentages in [0,100] |
| `NodeSLOTypes.ValidThresholdStrategy` | apis/slo/v1alpha1/nodeslo_types.go:149-158 | the CPU suppress and memory evict percentages lie in (0,100) |
| `NodeSLOTypes.ValidCPUBurstStrategy` | apis/slo/v1alpha1/nodeslo_types.go:204-206 | the CPU burst percentage lies in [0,10000] |
| `NodeSLOTypes.ValidSpec` | apis/slo/v1alpha1/nodeslo_types.go:222-230 | every documented range holds in every present block of the spec, QoS classes included |
| `NodeSLOTypes.Int64Sub` | apis/slo/v1alpha1/nodeslo_types.go:160-161 | the int64 arithmetic assumed for the documented "upper minus 2" default, which no shown line performs: exact when the difference fits, which holds for any upper percentage in its documented range, and otherwise wrapping modulo 2^64 |
| `NodeSLOTypes.EffectiveMemoryEvictThresholdPercent` | apis/slo/v1alpha1/nodeslo_types.go:156-158 | the upper eviction percentage in effect is the field when set, else 70 |
| `NodeSLOTypes.EffectiveMemoryEvictLowerPercent` | apis/slo/v1alpha1/nodeslo_types.go:156-161 | the lower eviction percentage in effect is the field when set; otherwise, in a valid block, it is the upper percentage minus 2, so it lies below the upper percentage |
| `NodeSLOTypes.ThresholdDefaults` | apis/slo/v1alpha1/nodeslo_types.go:144-162 | absent `enable`, CPU suppress percentage and memory evict percentage become true, 65 and 70; set fields and the other fields are kept; the documented (0,100) ranges are preserved |
| `NodeSLOTypes.ResctrlDefaults` | apis/slo/v1alpha1/nodeslo_types.go:171-187 | absent CAT start, CAT end and MBA percentages become 0, 100 and 100; set ones are kept; the [0,100] ranges are preserved |
| `NodeSLOTypes.ResourceQoSDefaults` | apis/slo/v1alpha1/nodeslo_types.go:115-118 | defaults reach the resctrl part of a QoS class only when that part is present; the memory part is untouched; validity is preserved |
| `NodeSLOTypes.QoSStrategyDefaults` | apis/slo/v1alpha1/nodeslo_types.go:120-135 | each of the five QoS-class blocks is defaulted on its own; validity is preserved |
| `NodeSLOTypes.CPUBurstDefaults` | apis/slo/v1alpha1/nodeslo_types.go:202-220 | absent burst percentage, quota burst percentage, burst period and share-pool threshold become 1000, 300, -1 and 50; the policy and set fields are kept; the [0,10000] burst range is preserved |
| `NodeSLOTypes.ApplyDefaults` | apis/slo/v1alpha1/nodeslo_types.go:222-230 | defaulting never adds or removes one of the three blocks, defaults each present block, and keeps a valid spec valid |
| `NodeSLOTypes.ApplyDefaultsIdempotent` | apis/slo/v1alpha1/nodeslo_types.go:144-230 | defaulting a defaulted spec changes nothing |
| `NodeSLOTypes.DefaultsAreValid` | apis/slo/v1alpha1/nodeslo_types.go:144-220 | the documented defaults lie in the documented ranges, and the default lower eviction percentage is 68 |
| `NodeSLOStore.MergedQoS` | pkg/koordlet/resmanager/resmanager.go:116-119 | the resctrl-disabling pass rewrites a non-nil QoS merge result and neither creates nor removes the block |
| `NodeSLOStore.MergeSpec` | pkg/koordlet/resmanager/resmanager.go:108-128 | each of the three blocks is overwritten by its merged value when that value is non-nil and keeps the stored value when it is nil; the QoS merge result goes through the resctrl-disabling pass first |
| `NodeSLOStore.MergeKeepsPresentBlocks` | pkg/koordlet/resmanager/resmanager.go:108-128 | a merge never turns a present block into an absent one |
| `NodeSLOStore.AfterCreate` | pkg/koordlet/resmanager/resmanager.go:131-141 | after create, the stored metadata is the incoming object's |
| `NodeSLOStore.AfterUpdate` | pkg/koordlet/resmanager/resmanager.go:158-167 | after update, the stored metadata is the previously stored one |
| `NodeSLOStore.CreateAndUpdateDifferOnlyInMetadata` | pkg/koordlet/resmanager/resmanager.go:131-167 | create and update leave the same merged spec behind; they differ only in whose metadata is kept |
| `NodeSLOStore.UnchangedSpecUpdateIsNoOp` | pkg/koordlet/resmanager/resmanager.go:131-171 | applying an update whose spec equals the one last applied, by a create or an update, leaves the stored object unchanged, so suppressing such updates loses nothing |
| `NodeSLOStore.UpdatesForgetHistory` | pkg/koordlet/resmanager/resmanager.go:131-171 | after a create and any non-empty series of updates, the stored spec depends only on the last update and the metadata only on the create |
| `NodeSLOStore.Synced` | pkg/koordlet/resmanager/resmanager.go:290 | a ready store holds an object with a threshold block and a non-empty spec, so the decision for either threshold feature on it fails only when `enable` is unset |
| `NodeSLOStore.SyncedAfterCreate` | pkg/koordlet/resmanager/resmanager.go:131-145 | after a create the store is ready exactly when the incoming object has a threshold block or the threshold merge produced one |
| `NodeSLOStore.AddToApply` | pkg/koordlet/resmanager/resmanager.go:195-203 | an add notification creates from the object exactly when the object is a NodeSLO |
| `NodeSLOStore.UpdateToApply` | pkg/koordlet/resmanager/resmanager.go:204-217 | an update notification is applied exactly when both sides are NodeSLOs and their specs differ, and then the new object is applied |
| `NodeSLOStore.MetadataOnlyUpdateSuppressed` | pkg/koordlet/resmanager/resmanager.go:211-214 | an update that changes only metadata, such as the resource version, is suppressed |
| `NodeSLOStore.ThresholdFeature` | pkg/koordlet/resmanager/resmanager.go:231 | exactly BECPUSuppress and BEMemoryEvict take their switch from the threshold block |
| `NodeSLOStore.IsFeatureDisabled` | pkg/koordlet/resmanager/resmanager.go:224-239 | any error comes with "disabled" (fail closed); there is no error exactly for BECPUSuppress or BEMemoryEvict with a threshold block whose `enable` is set, and then the answer is `!enable`; a nil object or empty spec gives the invalid-object error; any other feature on a non-empty spec gives the unsupported-feature error; a threshold feature on a non-empty spec without a threshold block or `enable` gives the invalid-object error |
| `NodeSLOStore.FeatureEnabledOnlyWhenExplicit` | pkg/koordlet/resmanager/resmanager.go:229-235 | a feature counts as enabled iff it is one of the two threshold features and the threshold block sets `enable` to true |
| `Eviction.EvictMessage` | pkg/koordlet/resmanager/resmanager.go:312 | the node event's message: "evict Pod:", the pod name, ", reason: ", the reason, ", message: " and the message |
| `Eviction.EvictSucceeded` | pkg/koordlet/resmanager/resmanager.go:321-331 | what `evictPod` returns: true for ok and for NotFound, false for any other error |
| `Eviction.EvictPodEffects` | pkg/koordlet/resmanager/resmanager.go:312-331 | one eviction records the audit entry first and the request second; on ok, a Warning success event on the node with the eviction message and then a metric for the reason; on another error, a Warning failure event on the node; on NotFound, nothing more |
| `Eviction.EvictPodOutcome` | pkg/koordlet/resmanager/resmanager.go:311-332 | one eviction records one audit entry and then one request; it records a success event and a metric iff the API said ok and a failure event iff it failed with another error |
| `Eviction.EvictIfNotEvicted` | pkg/koordlet/resmanager/resmanager.go:299-309 | a cached UID leaves the state as it is; effects are only appended; the cache gains at most this pod's UID, and holds it afterwards iff it was cached or the eviction reported success |
| `Eviction.DedupStep` | pkg/koordlet/resmanager/resmanager.go:299-309 | a cached UID means no attempt and no change; otherwise exactly one request is appended after the earlier effects, and the cache gains the UID iff the eviction reported success |
| `Eviction.SecondCallIsNoOp` | pkg/koordlet/resmanager/resmanager.go:299-309 | after an eviction that reported success, another call for the same UID changes nothing, whatever the API would answer |
| `Eviction.NotFoundIsCached` | pkg/koordlet/resmanager/resmanager.go:305-331 | a NotFound answer caches the UID and records only the audit entry and the request |
| `Eviction.FailedEvictionIsRetried` | pkg/koordlet/resmanager/resmanager.go:305-329 | after another error the UID is not cached, and the next call makes a new attempt |
| `Eviction.Expire` | pkg/koordlet/resmanager/resmanager.go:187 | an expired UID leaves the cache, every other cached UID stays, and the effect log is untouched |
| `Eviction.ExpiredPodIsRetried` | pkg/koordlet/resmanager/resmanager.go:299-308 | once a pod's cache entry has expired, the next call makes a new attempt |
| `Eviction.EvictAll` | pkg/koordlet/resmanager/resmanager.go:293-297 | a batch only adds to the cache and only appends to the effect log |
| `Eviction.EvictAllIsAttempts` | pkg/koordlet/resmanager/resmanager.go:293-309 | a batch records exactly the effects of the attempted pods, one pod after another, and caches exactly the UIDs of attempted pods that reported success |
| `Eviction.AttemptedAreFresh` | pkg/koordlet/resmanager/resmanager.go:293-304 | every attempted pod comes from the batch, and its UID was not cached when the batch started |
| `Eviction.AttemptedInInputOrder` | pkg/koordlet/resmanager/resmanager.go:293-297 | the attempted pods are a subsequence of the batch, in input order |
| `Eviction.RepeatOnlyAfterFailure` | pkg/koordlet/resmanager/resmanager.go:293-309 | a UID is attempted twice in a batch only after its earlier attempt failed with another error, so at most one attempt per UID reports success |
| `Eviction.EveryUncachedPodAttempted` | pkg/koordlet/resmanager/resmanager.go:293-297 | with unique UIDs, every pod whose UID is not cached gets an attempt, whatever the API answers for the others |
| `Eviction.AttemptedUnlessEarlierSuccess` | pkg/koordlet/resmanager/resmanager.go:293-309 | in any batch, repeated UIDs included, a pod whose UID is not cached and whose earlier same-UID pods all failed with another error gets an attempt |
| `Eviction.FirstFailureSecondTried` | pkg/koordlet/resmanager/resmanager.go:293-297 | when the first of two pods fails with another error, the second is still attempted |
| `ContainerKill.ContainerStep` | pkg/koordlet/resmanager/resmanager.go:337-356 | the walk ends exactly on a failed lookup, a missing status or a non-running container; a running container is skipped exactly when its ID is empty or its handler is missing; otherwise it gets a stop request for its ID from its handler with grace 0 |
| `ContainerKill.KillPlan` | pkg/koordlet/resmanager/resmanager.go:336-360 | no more stop requests than containers, and never one for an empty container ID |
| `ContainerKill.KillContainers` | pkg/koordlet/resmanager/resmanager.go:335-361 | the loop sends exactly the stop requests of `KillPlan` over the pod's containers in spec order |
| `ContainerKill.KillPlanGraceZero` | pkg/koordlet/resmanager/resmanager.go:354 | every stop request uses grace period 0 |
| `ContainerKill.KillPlanAppend` | pkg/koordlet/resmanager/resmanager.go:336-360 | when no container of the first part ends the walk, the requests for two parts are those of the first part followed by those of the second |
| `ContainerKill.HaltEndsWalk` | pkg/koordlet/resmanager/resmanager.go:337-345 | a failed status lookup or a non-running container ends the walk, so no later container gets a stop request |
| `ContainerKill.SkipDropsOneContainer` | pkg/koordlet/resmanager/resmanager.go:347-359 | a container with an empty ID or no runtime handler is skipped on its own, and the walk goes on as if it were absent |
| `ContainerKill.StopReached` | pkg/koordlet/resmanager/resmanager.go:336-356 | a stoppable container gets its stop request whenever no earlier container ended the walk |
| `ContainerKill.StopOnlyWhenReached` | pkg/koordlet/resmanager/resmanager.go:336-356 | every stop request comes from a stoppable container that no earlier container kept the walk from reaching |
| `ContainerKill.HandlerFailureSparesSibling` | pkg/koordlet/resmanager/resmanager.go:347-356 | with two running containers, when the first one's handler is missing, the second gets the only stop request |
| `ResManager.Manager.constructor` | pkg/koordlet/resmanager/resmanager.go:181-193 | a new manager has no stored object, an empty eviction cache and no effects |
| `ResManager.Manager.MergeNodeSLOSpec` | pkg/koordlet/resmanager/resmanager.go:102-129 | nothing changes when the stored or the incoming object is nil; otherwise the stored spec becomes `MergeSpec` of it and the metadata stays |
| `ResManager.Manager.CreateNodeSLO` | pkg/koordlet/resmanager/resmanager.go:131-145 | the stored object becomes the incoming object, metadata included, with its spec merged |
| `ResManager.Manager.UpdateNodeSLOSpec` | pkg/koordlet/resmanager/resmanager.go:158-171 | it needs a stored object; the stored spec becomes the incoming spec merged, and the stored metadata stays |
| `ResManager.Manager.GetNodeSLOCopy` | pkg/koordlet/resmanager/resmanager.go:147-156 | it returns the stored object, or None when nothing is stored; it changes nothing |
| `ResManager.Manager.HasSynced` | pkg/koordlet/resmanager/resmanager.go:286-291 | true iff an object is stored and it has a threshold block; it changes nothing |
| `ResManager.Manager.OnAdd` | pkg/koordlet/resmanager/resmanager.go:195-203 | a NodeSLO is created in the store; any other object changes nothing |
| `ResManager.Manager.OnUpdate` | pkg/koordlet/resmanager/resmanager.go:204-217 | the store is unchanged when either side is not a NodeSLO or the specs are equal; otherwise the store holds the update's result for the new object |
| `ResManager.Manager.EvictPod` | pkg/koordlet/resmanager/resmanager.go:311-332 | it appends exactly the effects of `EvictPodEffects`, and returns true unless the API failed with an error other than NotFound |
| `ResManager.Manager.EvictPodIfNotEvicted` | pkg/koordlet/resmanager/resmanager.go:299-309 | the cache and the effect log change exactly as the dedup step `EvictIfNotEvicted` says |
| `ResManager.Manager.EvictPodsIfNotEvicted` | pkg/koordlet/resmanager/resmanager.go:293-297 | the cache and the effect log change exactly as the per-pod step applied to each pod in input order (`EvictAll`) |
| `ResManager.Manager.ExpireEviction` | pkg/koordlet/resmanager/resmanager.go:187 | one UID's cache entry expires; nothing else changes |

## Left out

- The NodeSLO informer and lister (`newNodeSLOInformer`, the generated lister over the informer's index) are network and cache plumbing. Notifications reach the model as `InformerObject` values.
- The event broadcaster, the kube client and its eviction call are left out. The call's answer is an input.
- `Run` is left out: the boot sequence, the waits for cache sync, the feature-gated periodic scheduling of the five reconcilers, and the stop channel. The scheduling helpers and the reconcilers are not part of this model.
- The read/write mutex is dropped. Every method is atomic in a sequential class.
- The expiring cache's internals are left out: its TTL, its background sweep, and the value stored under each key. The cache is a set of UIDs, and expiry is the explicit `ExpireEviction`.
- Manager.EvictPodIfNotEvicted: always caches the UID after a success. The Go code ignores the error from the cache insert, which is refused once the cache has been shut down, and the model does not capture that refusal.
- The per-block merge helpers and the node-level default config are not part of this model; they are parameters.
  - A property that depends on their field-level rules cannot be stated. One example is that every leaf is populated after a merge.
- Logging, JSON dumps of the stored object, and the error returned by the audit builder carry no behaviour and are left out.
- EvictPodEffects: records the node event's message as written. In Go the message is passed to the event recorder as a format string with no arguments, so a `%` in the reason or message is expanded by Go's formatting ("95%" becomes "95%!(NOVERB)"). The model does not capture that expansion.
- `NodeSLOStatus`, `NodeSLOList` and the scheme registration are left out.
- Of the object metadata, only the name and the resource version are kept.
- Aliasing is not modelled, because objects are values. `createNodeSLO` assigns the incoming spec's pointers into the stored object, so the stored object shares blocks with the informer's copy.
- A nil pointer passed as a NodeSLO is not modelled, and neither is the panic of `updateNodeSLOSpec` when nothing is stored. `Manager.UpdateNodeSLOSpec` and `Manager.OnUpdate` instead require a stored object whenever an update is applied.
- Feature.OtherFeature: a feature gate in Go is a plain string. The model gives the six gates the manager knows their own constructors, and `OtherFeature(name)` stands only for a gate outside that list. Its name is never compared with theirs, so `OtherFeature("BECPUSuppress")` is not the same gate as `BECPUSuppress`.
- The error returned by `StopContainer` is only logged, so it is not an input.
- EvictPodsIfNotEvicted: the API's answer is a function of the pod. So two attempts for the same pod within one batch get the same answer, which a live API need not give.
- `killContainers` reads the pod status only through the lookup oracle. The pod status object itself is not modelled.
- NodeSLOTypes.ValidThresholdStrategy: the (0,100) ranges of the two threshold percentages come from the field comments and have no validation annotation behind them. No range is stated for the lower eviction percentage, because none is documented.

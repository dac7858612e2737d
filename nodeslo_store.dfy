/**
 * What the resource manager does to its stored NodeSLO, as values: how an
 * incoming spec is merged into the stored one, what create and update
 * leave behind, which informer notifications reach the store, and the
 * fail-closed feature decision read off a NodeSLO.
 */
module NodeSLOStore {
  import opened Wrappers
  import opened NodeSLOTypes

  /**
   * The node-level default config and the per-block merge helpers the store
   * relies on.  Their field-level rules are not part of this model, so they
   * are parameters: each merge helper takes the default block and the
   * incoming block and may return nil.  `noneQoSIfDisabled` stands for the
   * secondary pass that switches resctrl QoS off when its feature gate is
   * off; it rewrites a merged block through its pointer, so it applies only
   * to a non-nil block and cannot make it nil.
   */
  datatype MergeConfig = MergeConfig(
    defaults: NodeSLOSpec,
    mergeThreshold: (Option<ResourceThresholdStrategy>, Option<ResourceThresholdStrategy>) -> Option<ResourceThresholdStrategy>,
    mergeQoS: (Option<ResourceQoSStrategy>, Option<ResourceQoSStrategy>) -> Option<ResourceQoSStrategy>,
    noneQoSIfDisabled: ResourceQoSStrategy -> ResourceQoSStrategy,
    mergeBurst: (Option<CPUBurstStrategy>, Option<CPUBurstStrategy>) -> Option<CPUBurstStrategy>)

  /**
   * The merged resource QoS block, after the resctrl-disabling pass: the
   * pass rewrites a non-nil merge result and never turns nil into a block
   * or a block into nil.
   */
  function MergedQoS(m: MergeConfig, incoming: NodeSLOSpec): (r: Option<ResourceQoSStrategy>)
    ensures var merged := m.mergeQoS(m.defaults.resourceQoSStrategy, incoming.resourceQoSStrategy);
      && (r.Some? <==> merged.Some?)
      && (r.Some? ==> r.value == m.noneQoSIfDisabled(merged.value))
  {
    match m.mergeQoS(m.defaults.resourceQoSStrategy, incoming.resourceQoSStrategy)
    case None => None
    case Some(q) => Some(m.noneQoSIfDisabled(q))
  }

  /**
   * The stored spec after merging `incoming` into it: each block is
   * overwritten by its merged value when that value is non-nil, and is left
   * as stored when it is nil.
   */
  function MergeSpec(stored: NodeSLOSpec, incoming: NodeSLOSpec, m: MergeConfig): (r: NodeSLOSpec)
    ensures var t := m.mergeThreshold(m.defaults.resourceUsedThresholdWithBE, incoming.resourceUsedThresholdWithBE);
      r.resourceUsedThresholdWithBE == if t.Some? then t else stored.resourceUsedThresholdWithBE
    ensures MergedQoS(m, incoming).Some? ==> r.resourceQoSStrategy == MergedQoS(m, incoming)
    ensures MergedQoS(m, incoming).None? ==> r.resourceQoSStrategy == stored.resourceQoSStrategy
    ensures var b := m.mergeBurst(m.defaults.cpuBurstStrategy, incoming.cpuBurstStrategy);
      r.cpuBurstStrategy == if b.Some? then b else stored.cpuBurstStrategy
  {
    var t := m.mergeThreshold(m.defaults.resourceUsedThresholdWithBE, incoming.resourceUsedThresholdWithBE);
    var q := MergedQoS(m, incoming);
    var b := m.mergeBurst(m.defaults.cpuBurstStrategy, incoming.cpuBurstStrategy);
    NodeSLOSpec(
      if t.Some? then t else stored.resourceUsedThresholdWithBE,
      if q.Some? then q else stored.resourceQoSStrategy,
      if b.Some? then b else stored.cpuBurstStrategy)
  }

  /** A merge never drops a block: a block present before is present after. */
  lemma MergeKeepsPresentBlocks(stored: NodeSLOSpec, incoming: NodeSLOSpec, m: MergeConfig)
    ensures stored.resourceUsedThresholdWithBE.Some? ==> MergeSpec(stored, incoming, m).resourceUsedThresholdWithBE.Some?
    ensures stored.resourceQoSStrategy.Some? ==> MergeSpec(stored, incoming, m).resourceQoSStrategy.Some?
    ensures stored.cpuBurstStrategy.Some? ==> MergeSpec(stored, incoming, m).cpuBurstStrategy.Some?
  {
  }

  /** The stored object after `createNodeSLO(incoming)`: the incoming object, its spec merged. */
  function AfterCreate(incoming: NodeSLO, m: MergeConfig): (r: NodeSLO)
    ensures r.metadata == incoming.metadata
  {
    incoming.(spec := MergeSpec(incoming.spec, incoming.spec, m))
  }

  /** The stored object after `updateNodeSLOSpec(incoming)`: the stored metadata, the incoming spec merged. */
  function AfterUpdate(stored: NodeSLO, incoming: NodeSLO, m: MergeConfig): (r: NodeSLO)
    ensures r.metadata == stored.metadata
  {
    stored.(spec := MergeSpec(incoming.spec, incoming.spec, m))
  }

  /**
   * Create and update leave the same spec behind and differ only in the
   * metadata: create takes the incoming object's, update keeps the stored one.
   */
  lemma CreateAndUpdateDifferOnlyInMetadata(stored: NodeSLO, incoming: NodeSLO, m: MergeConfig)
    ensures AfterUpdate(stored, incoming, m).spec == AfterCreate(incoming, m).spec
    ensures AfterUpdate(stored, incoming, m) == AfterCreate(incoming, m).(metadata := stored.metadata)
    ensures AfterCreate(incoming, m).metadata == incoming.metadata
  {
  }

  /**
   * After any sequence of updates, the stored spec is determined by the last
   * update alone and the stored metadata by the create alone.
   */
  lemma {:induction false} UpdatesForgetHistory(first: NodeSLO, updates: seq<NodeSLO>, m: MergeConfig)
    requires |updates| > 0
    ensures AfterUpdates(AfterCreate(first, m), updates, m).spec == AfterCreate(updates[|updates| - 1], m).spec
    ensures AfterUpdates(AfterCreate(first, m), updates, m).metadata == first.metadata
  {
    if |updates| > 1 {
      var last := updates[|updates| - 1];
      assert updates[..|updates| - 1] + [last] == updates;
      UpdatesForgetHistory(first, updates[..|updates| - 1], m);
      AfterUpdatesSnoc(AfterCreate(first, m), updates[..|updates| - 1], last, m);
    }
  }

  /**
   * Dropping an update whose spec equals the one last applied loses
   * nothing: applying it would leave the stored object as it is, whether
   * that object came from a create or from an update.
   */
  lemma UnchangedSpecUpdateIsNoOp(stored: NodeSLO, prev: NodeSLO, next: NodeSLO, m: MergeConfig)
    requires prev.spec == next.spec
    ensures AfterUpdate(AfterUpdate(stored, prev, m), next, m) == AfterUpdate(stored, prev, m)
    ensures AfterUpdate(AfterCreate(prev, m), next, m) == AfterCreate(prev, m)
  {
  }

  /** The stored object after applying `updates` in order. */
  function AfterUpdates(stored: NodeSLO, updates: seq<NodeSLO>, m: MergeConfig): NodeSLO
    decreases |updates|
  {
    if updates == [] then stored else AfterUpdates(AfterUpdate(stored, updates[0], m), updates[1..], m)
  }

  lemma {:induction false} AfterUpdatesSnoc(stored: NodeSLO, updates: seq<NodeSLO>, last: NodeSLO, m: MergeConfig)
    ensures AfterUpdates(stored, updates + [last], m) == AfterUpdate(AfterUpdates(stored, updates, m), last, m)
    decreases |updates|
  {
    if updates != [] {
      assert (updates + [last])[1..] == updates[1..] + [last];
      AfterUpdatesSnoc(AfterUpdate(stored, updates[0], m), updates[1..], last, m);
    }
  }

  /**
   * A stored object is ready for the reconcilers when it has a threshold
   * block.  A ready object never has the empty spec, so the feature decision
   * on it never fails for that reason.
   */
  predicate Synced(stored: Option<NodeSLO>)
    ensures Synced(stored) ==> stored.Some? && stored.value.spec != EmptySpec
    ensures Synced(stored) ==>
              && stored.Some? && stored.value.spec.resourceUsedThresholdWithBE.Some?
              && (forall f :: ThresholdFeature(f) ==>
                    (IsFeatureDisabled(stored, f).err.None? <==>
                       stored.value.spec.resourceUsedThresholdWithBE.value.enable.Some?))
  {
    stored.Some? && stored.value.spec.resourceUsedThresholdWithBE.Some?
  }

  /**
   * The store is synced after a create exactly when the incoming object has
   * a threshold block or the threshold merge produced one.
   */
  lemma SyncedAfterCreate(incoming: NodeSLO, m: MergeConfig)
    ensures Synced(Some(AfterCreate(incoming, m))) <==>
              || incoming.spec.resourceUsedThresholdWithBE.Some?
              || m.mergeThreshold(m.defaults.resourceUsedThresholdWithBE, incoming.spec.resourceUsedThresholdWithBE).Some?
  {
  }

  // ---------------------------------------------------------------------
  // Informer notifications
  // ---------------------------------------------------------------------

  /** What the informer hands to a handler: a NodeSLO, or an object of some other type. */
  datatype InformerObject = NodeSLOObject(nodeSLO: NodeSLO) | ForeignObject

  /** The object an add notification creates in the store, if any. */
  function AddToApply(obj: InformerObject): (r: Option<NodeSLO>)
    ensures r.Some? <==> obj.NodeSLOObject?
    ensures r.Some? ==> r.value == obj.nodeSLO
  {
    if obj.NodeSLOObject? then Some(obj.nodeSLO) else None
  }

  /**
   * The object an update notification applies to the store, if any: none
   * when either side is not a NodeSLO or when the two specs are equal.
   */
  function UpdateToApply(oldObj: InformerObject, newObj: InformerObject): (r: Option<NodeSLO>)
    ensures r.Some? <==> oldObj.NodeSLOObject? && newObj.NodeSLOObject? && oldObj.nodeSLO.spec != newObj.nodeSLO.spec
    ensures r.Some? ==> r.value == newObj.nodeSLO
  {
    if !oldObj.NodeSLOObject? || !newObj.NodeSLOObject? then None
    else if oldObj.nodeSLO.spec == newObj.nodeSLO.spec then None
    else Some(newObj.nodeSLO)
  }

  /**
   * A notification whose spec is unchanged is suppressed even when the rest
   * of the object (its metadata, e.g. the resource version) changed.
   */
  lemma MetadataOnlyUpdateSuppressed(o: NodeSLO, meta: ObjectMeta)
    ensures UpdateToApply(NodeSLOObject(o), NodeSLOObject(o.(metadata := meta))) == None
  {
  }

  // ---------------------------------------------------------------------
  // Feature decision
  // ---------------------------------------------------------------------

  /**
   * Feature gates the resource manager knows by name.  `OtherFeature(name)`
   * stands for a gate that is none of the listed ones; its name is only a
   * label and is never compared with the listed gates' names.
   */
  datatype Feature =
    | BECPUSuppress
    | BEMemoryEvict
    | BECgroupReconcile
    | CgroupReconcile
    | CPUBurst
    | RdtResctrl
    | OtherFeature(name: string)

  datatype FeatureError =
    | InvalidNodeSLO      // nil object, empty spec, or no threshold enable flag
    | UnsupportedFeature  // the feature is not configured by a NodeSLO

  /** Whether a feature is disabled, and the error that explains a forced answer. */
  datatype FeatureDecision = FeatureDecision(disabled: bool, err: Option<FeatureError>)

  /** The features whose switch lives in the threshold block. */
  predicate ThresholdFeature(f: Feature) {
    f.BECPUSuppress? || f.BEMemoryEvict?
  }

  /**
   * Whether `feature` is disabled by the NodeSLO.  It fails closed: whenever
   * it cannot decide (returns an error) it answers "disabled".
   */
  function IsFeatureDisabled(nodeSLO: Option<NodeSLO>, feature: Feature): (r: FeatureDecision)
    ensures r.err.Some? ==> r.disabled
    ensures r.err.None? <==>
              && ThresholdFeature(feature)
              && nodeSLO.Some?
              && nodeSLO.value.spec.resourceUsedThresholdWithBE.Some?
              && nodeSLO.value.spec.resourceUsedThresholdWithBE.value.enable.Some?
    ensures r.err.None? ==> r.disabled == !nodeSLO.value.spec.resourceUsedThresholdWithBE.value.enable.value
    ensures nodeSLO.None? || nodeSLO.value.spec == EmptySpec ==> r.err == Some(InvalidNodeSLO)
    ensures nodeSLO.Some? && nodeSLO.value.spec != EmptySpec && !ThresholdFeature(feature) ==> r.err == Some(UnsupportedFeature)
    ensures nodeSLO.Some? && nodeSLO.value.spec != EmptySpec && ThresholdFeature(feature) && r.err.Some? ==>
              r.err == Some(InvalidNodeSLO)
  {
    if nodeSLO.None? || nodeSLO.value.spec == EmptySpec then
      FeatureDecision(true, Some(InvalidNodeSLO))
    else
      var spec := nodeSLO.value.spec;
      match feature
      case BECPUSuppress | BEMemoryEvict =>
        if spec.resourceUsedThresholdWithBE.None? || spec.resourceUsedThresholdWithBE.value.enable.None? then
          FeatureDecision(true, Some(InvalidNodeSLO))
        else
          FeatureDecision(!spec.resourceUsedThresholdWithBE.value.enable.value, None)
      case _ =>
        FeatureDecision(true, Some(UnsupportedFeature))
  }

  /** A feature counts as enabled only when the threshold block explicitly sets `enable` to true. */
  lemma FeatureEnabledOnlyWhenExplicit(nodeSLO: Option<NodeSLO>, feature: Feature)
    ensures !IsFeatureDisabled(nodeSLO, feature).disabled <==>
              && ThresholdFeature(feature)
              && nodeSLO.Some?
              && nodeSLO.value.spec.resourceUsedThresholdWithBE.Some?
              && nodeSLO.value.spec.resourceUsedThresholdWithBE.value.enable == Some(true)
  {
  }
}

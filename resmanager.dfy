/**
 * The node agent's resource manager: the stored NodeSLO, the cache of
 * evicted pod UIDs, and the log of eviction effects, with the operations
 * that change them.  Locking is dropped: every method runs atomically.
 */
module ResManager {
  import opened Wrappers
  import opened NodeSLOTypes
  import opened NodeSLOStore
  import opened CoreV1
  import opened Eviction

  class Manager {
    /** The default config and merge helpers the stored spec is merged with. */
    const merge: MergeConfig
    /** The latest NodeSLO of this node, merged; `None` until the first add notification. */
    var nodeSLO: Option<NodeSLO>
    /** UIDs of pods whose eviction reported success and whose cache entry has not expired. */
    var podsEvicted: set<UID>
    /** Audit records, eviction requests, node events and metrics, in the order they happened. */
    var effects: seq<Effect>

    /** The eviction side of the state as a value. */
    function EvictionView(): EvictionState
      reads this
    {
      EvictionState(podsEvicted, effects)
    }

    /** A manager with nothing stored, nothing cached and nothing recorded. */
    constructor (merge: MergeConfig)
      ensures this.merge == merge
      ensures nodeSLO == None && podsEvicted == {} && effects == []
    {
      this.merge := merge;
      nodeSLO := None;
      podsEvicted := {};
      effects := [];
    }

    /**
     * `mergeNodeSLOSpec`: nothing changes when either object is nil;
     * otherwise each block of the stored spec is overwritten by its merged
     * value when that is non-nil.  The metadata is never touched.
     */
    method MergeNodeSLOSpec(incoming: Option<NodeSLO>)
      modifies this`nodeSLO
      ensures old(nodeSLO).None? || incoming.None? ==> nodeSLO == old(nodeSLO)
      ensures old(nodeSLO).Some? && incoming.Some? ==>
                nodeSLO == Some(old(nodeSLO).value.(spec := MergeSpec(old(nodeSLO).value.spec, incoming.value.spec, merge)))
    {
      if nodeSLO.None? || incoming.None? {
        return;
      }
      var spec := incoming.value.spec;

      var mergedThreshold := merge.mergeThreshold(merge.defaults.resourceUsedThresholdWithBE, spec.resourceUsedThresholdWithBE);
      if mergedThreshold.Some? {
        nodeSLO := Some(nodeSLO.value.(spec := nodeSLO.value.spec.(resourceUsedThresholdWithBE := mergedThreshold)));
      }

      var mergedQoS := merge.mergeQoS(merge.defaults.resourceQoSStrategy, spec.resourceQoSStrategy);
      if mergedQoS.Some? {
        mergedQoS := Some(merge.noneQoSIfDisabled(mergedQoS.value));
      }
      if mergedQoS.Some? {
        nodeSLO := Some(nodeSLO.value.(spec := nodeSLO.value.spec.(resourceQoSStrategy := mergedQoS)));
      }

      var mergedBurst := merge.mergeBurst(merge.defaults.cpuBurstStrategy, spec.cpuBurstStrategy);
      if mergedBurst.Some? {
        nodeSLO := Some(nodeSLO.value.(spec := nodeSLO.value.spec.(cpuBurstStrategy := mergedBurst)));
      }
    }

    /** `createNodeSLO`: store a copy of the whole incoming object, then merge its spec. */
    method CreateNodeSLO(incoming: NodeSLO)
      modifies this`nodeSLO
      ensures nodeSLO == Some(AfterCreate(incoming, merge))
    {
      nodeSLO := Some(incoming);
      nodeSLO := Some(nodeSLO.value.(spec := incoming.spec));
      MergeNodeSLOSpec(Some(incoming));
    }

    /**
     * `updateNodeSLOSpec`: replace only the stored spec, then merge it; the
     * stored metadata stays.  An object must be stored already.
     */
    method UpdateNodeSLOSpec(incoming: NodeSLO)
      requires nodeSLO.Some?
      modifies this`nodeSLO
      ensures nodeSLO == Some(AfterUpdate(old(nodeSLO).value, incoming, merge))
    {
      nodeSLO := Some(nodeSLO.value.(spec := incoming.spec));
      MergeNodeSLOSpec(Some(incoming));
    }

    /** `getNodeSLOCopy`: the stored object, or `None` when nothing is stored. */
    method GetNodeSLOCopy() returns (r: Option<NodeSLO>)
      ensures r == nodeSLO
    {
      if nodeSLO.None? {
        return None;
      }
      r := Some(nodeSLO.value);
    }

    /** `hasSynced`: an object is stored and it has a threshold block. */
    method HasSynced() returns (b: bool)
      ensures b <==> nodeSLO.Some? && nodeSLO.value.spec.resourceUsedThresholdWithBE.Some?
      ensures b == Synced(nodeSLO)
    {
      b := nodeSLO.Some? && nodeSLO.value.spec.resourceUsedThresholdWithBE.Some?;
    }

    /** The informer's add handler: create from a NodeSLO, ignore anything else. */
    method OnAdd(obj: InformerObject)
      modifies this`nodeSLO
      ensures obj.ForeignObject? ==> nodeSLO == old(nodeSLO)
      ensures obj.NodeSLOObject? ==> nodeSLO == Some(AfterCreate(obj.nodeSLO, merge))
    {
      var target := AddToApply(obj);
      if target.Some? {
        CreateNodeSLO(target.value);
      }
    }

    /**
     * The informer's update handler: nothing changes when either side is
     * not a NodeSLO or the two specs are equal; otherwise the new object's
     * spec is applied.  Applying it needs a stored object.
     */
    method OnUpdate(oldObj: InformerObject, newObj: InformerObject)
      requires UpdateToApply(oldObj, newObj).Some? ==> nodeSLO.Some?
      modifies this`nodeSLO
      ensures UpdateToApply(oldObj, newObj).None? ==> nodeSLO == old(nodeSLO)
      ensures UpdateToApply(oldObj, newObj).Some? ==>
                nodeSLO == Some(AfterUpdate(old(nodeSLO).value, newObj.nodeSLO, merge))
    {
      if !oldObj.NodeSLOObject? || !newObj.NodeSLOObject? {
        return;
      }
      if oldObj.nodeSLO.spec == newObj.nodeSLO.spec {
        return;
      }
      UpdateNodeSLOSpec(newObj.nodeSLO);
    }

    /**
     * `evictPod`: record the audit entry, send the eviction request, and
     * record the outcome; success unless the API failed with an error other
     * than not-found.
     */
    method EvictPod(pod: Pod, node: Node, reason: string, message: string, result: EvictResult) returns (success: bool)
      modifies this`effects
      ensures success == EvictSucceeded(result)
      ensures effects == old(effects) + EvictPodEffects(pod, node, reason, message, result)
    {
      var podEvictMessage := EvictMessage(pod, reason, message);
      effects := effects + [AuditEviction(pod.namespace, pod.name, reason, message)];
      effects := effects + [EvictionRequest(pod.namespace, pod.name)];
      if result == EvictOk {
        effects := effects + [NodeEvent(node, EventTypeWarning, EvictPodSuccess, podEvictMessage)];
        effects := effects + [EvictionMetric(reason)];
        return true;
      } else if result != EvictNotFound {
        effects := effects + [NodeEvent(node, EventTypeWarning, EvictPodFail, podEvictMessage)];
        return false;
      }
      return true;
    }

    /** `evictPodIfNotEvicted`: skip a cached UID, otherwise evict and cache the UID on success. */
    method EvictPodIfNotEvicted(pod: Pod, node: Node, reason: string, message: string, result: EvictResult)
      modifies this`effects, this`podsEvicted
      ensures EvictionView() == EvictIfNotEvicted(old(EvictionView()), pod, node, reason, message, result)
    {
      if pod.uid in podsEvicted {
        return;
      }
      var success := EvictPod(pod, node, reason, message, result);
      if success {
        podsEvicted := podsEvicted + {pod.uid};
      }
    }

    /** `evictPodsIfNotEvicted`: the per-pod operation for each pod, in input order; `api` answers each eviction. */
    method EvictPodsIfNotEvicted(pods: seq<Pod>, node: Node, reason: string, message: string, api: Pod -> EvictResult)
      modifies this`effects, this`podsEvicted
      ensures EvictionView() == EvictAll(old(EvictionView()), pods, node, reason, message, api)
    {
      for i := 0 to |pods|
        invariant EvictionView() == EvictAll(old(EvictionView()), pods[..i], node, reason, message, api)
      {
        assert pods[..i + 1] == pods[..i] + [pods[i]];
        EvictAllSnoc(old(EvictionView()), pods[..i], pods[i], node, reason, message, api);
        EvictPodIfNotEvicted(pods[i], node, reason, message, api(pods[i]));
      }
      assert pods[..|pods|] == pods;
    }

    /** The dedup cache entry for `uid` expiring. */
    method ExpireEviction(uid: UID)
      modifies this`podsEvicted
      ensures EvictionView() == Expire(old(EvictionView()), uid)
    {
      podsEvicted := podsEvicted - {uid};
    }
  }
}

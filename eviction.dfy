/**
 * The pod eviction pipeline as values: the effects one eviction records,
 * the UID-keyed dedup step in front of it, and the batch over many pods.
 * The class in module ResManager runs these steps on its own fields.
 */
module Eviction {
  import opened CoreV1

  /** What the cluster's eviction API answered. */
  datatype EvictResult = EvictOk | EvictNotFound | EvictOtherError

  const EventTypeWarning := "Warning"
  const EvictPodSuccess := "evictPodSuccess"
  const EvictPodFail := "evictPodFail"

  /** An externally visible effect, in the order it happened. */
  datatype Effect =
    | AuditEviction(namespace: string, name: string, reason: string, message: string)
    | EvictionRequest(namespace: string, name: string)
    | NodeEvent(node: Node, eventType: string, reason: string, message: string)
    | EvictionMetric(reason: string)

  /** The message of the node event recorded for an eviction. */
  function EvictMessage(pod: Pod, reason: string, message: string): string {
    "evict Pod:" + pod.name + ", reason: " + reason + ", message: " + message
  }

  /** Whether `evictPod` reports success: the pod being gone already counts as success. */
  predicate EvictSucceeded(result: EvictResult) {
    result != EvictOtherError
  }

  /**
   * The effects of one `evictPod`: an audit record, then the eviction
   * request, then by result a success event and a metric (ok), nothing
   * (not found), or a failure event (any other error).
   */
  function EvictPodEffects(pod: Pod, node: Node, reason: string, message: string, result: EvictResult): (r: seq<Effect>)
    ensures 2 <= |r| <= 4
    ensures r[0] == AuditEviction(pod.namespace, pod.name, reason, message)
    ensures r[1] == EvictionRequest(pod.namespace, pod.name)
    ensures |r| == 2 <==> result == EvictNotFound
    ensures result == EvictOk ==>
              && |r| == 4
              && r[2] == NodeEvent(node, EventTypeWarning, EvictPodSuccess, EvictMessage(pod, reason, message))
              && r[3] == EvictionMetric(reason)
    ensures result == EvictOtherError ==>
              && |r| == 3
              && r[2] == NodeEvent(node, EventTypeWarning, EvictPodFail, EvictMessage(pod, reason, message))
  {
    var msg := EvictMessage(pod, reason, message);
    [AuditEviction(pod.namespace, pod.name, reason, message), EvictionRequest(pod.namespace, pod.name)] +
    match result
    case EvictOk => [NodeEvent(node, EventTypeWarning, EvictPodSuccess, msg), EvictionMetric(reason)]
    case EvictNotFound => []
    case EvictOtherError => [NodeEvent(node, EventTypeWarning, EvictPodFail, msg)]
  }

  // ---------------------------------------------------------------------
  // Counting effects
  // ---------------------------------------------------------------------

  /** The number of effects satisfying `p`. */
  function Count(effects: seq<Effect>, p: Effect -> bool): (n: nat)
    ensures n <= |effects|
  {
    if effects == [] then 0 else (if p(effects[0]) then 1 else 0) + Count(effects[1..], p)
  }

  lemma {:induction false} CountAppend(a: seq<Effect>, b: seq<Effect>, p: Effect -> bool)
    ensures Count(a + b, p) == Count(a, p) + Count(b, p)
  {
    if a == [] {
      assert a + b == b;
    } else {
      assert (a + b)[1..] == a[1..] + b;
      CountAppend(a[1..], b, p);
    }
  }

  predicate IsRequest(e: Effect) { e.EvictionRequest? }
  predicate IsAudit(e: Effect) { e.AuditEviction? }
  predicate IsMetric(e: Effect) { e.EvictionMetric? }
  predicate IsSuccessEvent(e: Effect) { e.NodeEvent? && e.reason == EvictPodSuccess }
  predicate IsFailureEvent(e: Effect) { e.NodeEvent? && e.reason == EvictPodFail }

  /**
   * One eviction makes exactly one audit record and one request, the audit
   * first; a success event and a metric exactly when the API said ok; a
   * failure event exactly when it failed otherwise.
   */
  lemma EvictPodOutcome(pod: Pod, node: Node, reason: string, message: string, result: EvictResult)
    ensures var r := EvictPodEffects(pod, node, reason, message, result);
      && IsAudit(r[0]) && IsRequest(r[1])
      && Count(r, IsAudit) == 1
      && Count(r, IsRequest) == 1
      && Count(r, IsSuccessEvent) == (if result == EvictOk then 1 else 0)
      && Count(r, IsMetric) == (if result == EvictOk then 1 else 0)
      && Count(r, IsFailureEvent) == (if result == EvictOtherError then 1 else 0)
  {
    var r := EvictPodEffects(pod, node, reason, message, result);
    var head := r[..2];
    assert r == head + r[2..];
    CountAppend(head, r[2..], IsAudit);
    CountAppend(head, r[2..], IsRequest);
    CountAppend(head, r[2..], IsSuccessEvent);
    CountAppend(head, r[2..], IsMetric);
    CountAppend(head, r[2..], IsFailureEvent);
  }

  // ---------------------------------------------------------------------
  // Dedup step
  // ---------------------------------------------------------------------

  /** The UIDs in the dedup cache and every effect recorded so far. */
  datatype EvictionState = EvictionState(evicted: set<UID>, effects: seq<Effect>)

  /**
   * `evictPodIfNotEvicted`: no attempt when the UID is cached; otherwise one
   * eviction, and the UID is cached when the eviction reported success.
   */
  function EvictIfNotEvicted(st: EvictionState, pod: Pod, node: Node, reason: string, message: string,
                             result: EvictResult): (r: EvictionState)
    ensures pod.uid in st.evicted ==> r == st
    ensures st.effects <= r.effects
    ensures st.evicted <= r.evicted <= st.evicted + {pod.uid}
    ensures pod.uid in r.evicted <==> pod.uid in st.evicted || EvictSucceeded(result)
  {
    if pod.uid in st.evicted then st
    else EvictionState(if EvictSucceeded(result) then st.evicted + {pod.uid} else st.evicted,
                       st.effects + EvictPodEffects(pod, node, reason, message, result))
  }

  /**
   * A cached UID means no attempt and no change; an uncached one means
   * exactly one request, and the cache gains that UID iff the eviction
   * reported success.
   */
  lemma DedupStep(st: EvictionState, pod: Pod, node: Node, reason: string, message: string, result: EvictResult)
    ensures var r := EvictIfNotEvicted(st, pod, node, reason, message, result);
      && (pod.uid in st.evicted ==> r == st)
      && (pod.uid !in st.evicted ==>
            && Count(r.effects, IsRequest) == Count(st.effects, IsRequest) + 1
            && r.effects[..|st.effects|] == st.effects
            && r.evicted == (if EvictSucceeded(result) then st.evicted + {pod.uid} else st.evicted))
  {
    if pod.uid !in st.evicted {
      EvictPodOutcome(pod, node, reason, message, result);
      CountAppend(st.effects, EvictPodEffects(pod, node, reason, message, result), IsRequest);
    }
  }

  /**
   * Idempotence within the cache window: once an eviction of a pod reported
   * success, another call for any pod with the same UID changes nothing,
   * whatever the API would answer.
   */
  lemma SecondCallIsNoOp(st: EvictionState, pod: Pod, again: Pod, node: Node, reason: string, message: string,
                         result: EvictResult, reason2: string, message2: string, result2: EvictResult)
    requires EvictSucceeded(result) && again.uid == pod.uid
    ensures var once := EvictIfNotEvicted(st, pod, node, reason, message, result);
      EvictIfNotEvicted(once, again, node, reason2, message2, result2) == once
  {
  }

  /** A pod whose eviction found it already gone is cached like an evicted one, with no event and no metric. */
  lemma NotFoundIsCached(st: EvictionState, pod: Pod, node: Node, reason: string, message: string)
    requires pod.uid !in st.evicted
    ensures var r := EvictIfNotEvicted(st, pod, node, reason, message, EvictNotFound);
      && pod.uid in r.evicted
      && r.effects == st.effects + [AuditEviction(pod.namespace, pod.name, reason, message),
                                    EvictionRequest(pod.namespace, pod.name)]
  {
  }

  /** After a failed eviction the UID is not cached, so the next call tries again. */
  lemma FailedEvictionIsRetried(st: EvictionState, pod: Pod, node: Node, reason: string, message: string,
                                result2: EvictResult)
    requires pod.uid !in st.evicted
    ensures var once := EvictIfNotEvicted(st, pod, node, reason, message, EvictOtherError);
      && pod.uid !in once.evicted
      && EvictIfNotEvicted(once, pod, node, reason, message, result2).effects
         == once.effects + EvictPodEffects(pod, node, reason, message, result2)
  {
  }

  /** The cache entry for `uid` expiring. */
  function Expire(st: EvictionState, uid: UID): (r: EvictionState)
    ensures r.effects == st.effects
    ensures uid !in r.evicted && r.evicted <= st.evicted
    ensures forall u :: u in st.evicted && u != uid ==> u in r.evicted
  {
    st.(evicted := st.evicted - {uid})
  }

  /** Once its entry has expired, an evicted pod gets a fresh attempt. */
  lemma ExpiredPodIsRetried(st: EvictionState, pod: Pod, node: Node, reason: string, message: string,
                            result: EvictResult, result2: EvictResult)
    ensures var later := Expire(EvictIfNotEvicted(st, pod, node, reason, message, result), pod.uid);
      EvictIfNotEvicted(later, pod, node, reason, message, result2).effects
      == later.effects + EvictPodEffects(pod, node, reason, message, result2)
  {
  }

  // ---------------------------------------------------------------------
  // Batch
  // ---------------------------------------------------------------------

  /** `evictPodsIfNotEvicted`: the dedup step for each pod, in input order; `api` answers each eviction. */
  function EvictAll(st: EvictionState, pods: seq<Pod>, node: Node, reason: string, message: string,
                    api: Pod -> EvictResult): (r: EvictionState)
    ensures st.evicted <= r.evicted
    ensures st.effects <= r.effects
    decreases |pods|
  {
    if pods == [] then st
    else EvictAll(EvictIfNotEvicted(st, pods[0], node, reason, message, api(pods[0])), pods[1..], node, reason, message, api)
  }

  lemma {:induction false} EvictAllSnoc(st: EvictionState, pods: seq<Pod>, p: Pod, node: Node, reason: string,
                                        message: string, api: Pod -> EvictResult)
    ensures EvictAll(st, pods + [p], node, reason, message, api)
            == EvictIfNotEvicted(EvictAll(st, pods, node, reason, message, api), p, node, reason, message, api(p))
    decreases |pods|
  {
    if pods == [] {
      assert [p][1..] == [];
    } else {
      assert (pods + [p])[1..] == pods[1..] + [p];
      EvictAllSnoc(EvictIfNotEvicted(st, pods[0], node, reason, message, api(pods[0])), pods[1..], p, node, reason, message, api);
    }
  }

  /** The pods of a batch that get an eviction attempt, in order, given the UIDs cached at the start. */
  function Attempted(evicted: set<UID>, pods: seq<Pod>, api: Pod -> EvictResult): seq<Pod>
    decreases |pods|
  {
    if pods == [] then []
    else if pods[0].uid in evicted then Attempted(evicted, pods[1..], api)
    else [pods[0]] + Attempted(if EvictSucceeded(api(pods[0])) then evicted + {pods[0].uid} else evicted, pods[1..], api)
  }

  /** The UIDs among `pods` whose eviction reported success. */
  function SucceededUids(pods: seq<Pod>, api: Pod -> EvictResult): set<UID> {
    set p | p in pods && EvictSucceeded(api(p)) :: p.uid
  }

  /** The effects of attempting each of `pods`, in order. */
  function AttemptEffects(pods: seq<Pod>, node: Node, reason: string, message: string,
                          api: Pod -> EvictResult): seq<Effect>
    decreases |pods|
  {
    if pods == [] then [] else EvictPodEffects(pods[0], node, reason, message, api(pods[0])) + AttemptEffects(pods[1..], node, reason, message, api)
  }

  /**
   * The batch caches the UIDs of the attempted pods that reported success
   * and records exactly the attempted pods' effects, one pod after another.
   */
  lemma {:induction false} EvictAllIsAttempts(st: EvictionState, pods: seq<Pod>, node: Node, reason: string,
                                              message: string, api: Pod -> EvictResult)
    ensures var a := Attempted(st.evicted, pods, api);
      EvictAll(st, pods, node, reason, message, api)
      == EvictionState(st.evicted + SucceededUids(a, api), st.effects + AttemptEffects(a, node, reason, message, api))
    decreases |pods|
  {
    if pods == [] {
      assert SucceededUids([], api) == {};
    } else {
      var p := pods[0];
      var next := EvictIfNotEvicted(st, p, node, reason, message, api(p));
      EvictAllIsAttempts(next, pods[1..], node, reason, message, api);
      var rest := Attempted(next.evicted, pods[1..], api);
      var r := EvictAll(next, pods[1..], node, reason, message, api);
      assert EvictAll(st, pods, node, reason, message, api) == r;
      if p.uid !in st.evicted {
        var own := if EvictSucceeded(api(p)) then {p.uid} else {};
        var eff := EvictPodEffects(p, node, reason, message, api(p));
        assert next.evicted == st.evicted + own && next.effects == st.effects + eff;
        assert Attempted(st.evicted, pods, api) == [p] + rest;
        SucceededUidsCons(p, rest, api);
        assert ([p] + rest)[1..] == rest;
        assert AttemptEffects([p] + rest, node, reason, message, api) == eff + AttemptEffects(rest, node, reason, message, api);
        StepThenRest(st, own, eff, r, SucceededUids(rest, api), AttemptEffects(rest, node, reason, message, api));
      } else {
        assert next == st;
      }
    }
  }

  /** Associativity for one attempted pod followed by the rest of the batch. */
  lemma StepThenRest(st: EvictionState, own: set<UID>, eff: seq<Effect>, r: EvictionState,
                     restUids: set<UID>, restEffects: seq<Effect>)
    requires r.evicted == (st.evicted + own) + restUids && r.effects == (st.effects + eff) + restEffects
    ensures r == EvictionState(st.evicted + (own + restUids), st.effects + (eff + restEffects))
  {
  }

  lemma SucceededUidsCons(p: Pod, rest: seq<Pod>, api: Pod -> EvictResult)
    ensures SucceededUids([p] + rest, api)
            == (if EvictSucceeded(api(p)) then {p.uid} else {}) + SucceededUids(rest, api)
  {
  }

  /** Every attempted pod is in the batch and its UID was not cached at the start. */
  lemma {:induction false} AttemptedAreFresh(evicted: set<UID>, pods: seq<Pod>, api: Pod -> EvictResult)
    ensures forall p :: p in Attempted(evicted, pods, api) ==> p in pods && p.uid !in evicted
    decreases |pods|
  {
    if pods != [] {
      var ev' := if EvictSucceeded(api(pods[0])) then evicted + {pods[0].uid} else evicted;
      AttemptedAreFresh(evicted, pods[1..], api);
      AttemptedAreFresh(ev', pods[1..], api);
    }
  }

  /** `a` is `b` with some elements left out, the rest in the same order. */
  predicate IsSubsequence(a: seq<Pod>, b: seq<Pod>)
    decreases |b|
  {
    if a == [] then true
    else if b == [] then false
    else (a[0] == b[0] && IsSubsequence(a[1..], b[1..])) || IsSubsequence(a, b[1..])
  }

  /** Attempts happen in input order. */
  lemma {:induction false} AttemptedInInputOrder(evicted: set<UID>, pods: seq<Pod>, api: Pod -> EvictResult)
    ensures IsSubsequence(Attempted(evicted, pods, api), pods)
    decreases |pods|
  {
    if pods != [] {
      var ev' := if EvictSucceeded(api(pods[0])) then evicted + {pods[0].uid} else evicted;
      if pods[0].uid in evicted {
        AttemptedInInputOrder(evicted, pods[1..], api);
      } else {
        AttemptedInInputOrder(ev', pods[1..], api);
        assert ([pods[0]] + Attempted(ev', pods[1..], api))[1..] == Attempted(ev', pods[1..], api);
      }
    }
  }

  /** In `a`, a UID appears again only after every earlier attempt for it failed. */
  predicate RepeatsFollowFailures(a: seq<Pod>, api: Pod -> EvictResult) {
    forall i, j :: 0 <= i < j < |a| && a[i].uid == a[j].uid ==> api(a[i]) == EvictOtherError
  }

  /**
   * At most one eviction per UID reports success in a batch: a UID is
   * attempted again only after every earlier attempt for it failed.
   */
  lemma {:induction false} RepeatOnlyAfterFailure(evicted: set<UID>, pods: seq<Pod>, api: Pod -> EvictResult)
    ensures RepeatsFollowFailures(Attempted(evicted, pods, api), api)
    decreases |pods|
  {
    if pods != [] {
      var p := pods[0];
      var ev' := if EvictSucceeded(api(p)) then evicted + {p.uid} else evicted;
      if p.uid in evicted {
        RepeatOnlyAfterFailure(evicted, pods[1..], api);
      } else {
        RepeatOnlyAfterFailure(ev', pods[1..], api);
        AttemptedAreFresh(ev', pods[1..], api);
        var rest := Attempted(ev', pods[1..], api);
        var a := [p] + rest;
        assert Attempted(evicted, pods, api) == a;
        forall i, j | 0 <= i < j < |a| && a[i].uid == a[j].uid ensures api(a[i]) == EvictOtherError {
          if i == 0 {
            var q := rest[j - 1];
            assert a[j] == q && q in rest;
            assert q.uid !in ev';
          } else {
            assert a[i] == rest[i - 1] && a[j] == rest[j - 1];
          }
        }
      }
    }
  }

  /** No two pods of the batch share a UID. */
  predicate UniqueUids(pods: seq<Pod>) {
    forall i, j :: 0 <= i < j < |pods| ==> pods[i].uid != pods[j].uid
  }

  /**
   * A failure on one pod does not keep the others from being tried: when
   * UIDs are unique, every pod whose UID is not cached gets an attempt,
   * whatever the API answers for the others.
   */
  lemma {:induction false} EveryUncachedPodAttempted(evicted: set<UID>, pods: seq<Pod>, api: Pod -> EvictResult)
    requires UniqueUids(pods)
    ensures forall p :: p in pods && p.uid !in evicted ==> p in Attempted(evicted, pods, api)
    decreases |pods|
  {
    if pods != [] {
      var p0 := pods[0];
      var ev' := if EvictSucceeded(api(p0)) then evicted + {p0.uid} else evicted;
      var tail := pods[1..];
      assert UniqueUids(tail) by {
        forall i, j | 0 <= i < j < |tail| ensures tail[i].uid != tail[j].uid {
          assert tail[i] == pods[i + 1] && tail[j] == pods[j + 1];
        }
      }
      EveryUncachedPodAttempted(evicted, tail, api);
      EveryUncachedPodAttempted(ev', tail, api);
      forall p | p in pods && p.uid !in evicted ensures p in Attempted(evicted, pods, api) {
        if p != p0 {
          var k :| 0 <= k < |pods| && pods[k] == p;
          assert k > 0;
          assert p.uid != p0.uid;
          assert p in tail by { assert tail[k - 1] == p; }
        }
      }
    }
  }

  /**
   * For any batch, repeated UIDs included: a pod whose UID is not cached at
   * the start and whose every earlier same-UID pod failed with another
   * error gets an attempt.
   */
  lemma {:induction false} AttemptedUnlessEarlierSuccess(evicted: set<UID>, pods: seq<Pod>, k: nat, api: Pod -> EvictResult)
    requires k < |pods| && pods[k].uid !in evicted
    requires forall j :: 0 <= j < k && pods[j].uid == pods[k].uid ==> api(pods[j]) == EvictOtherError
    ensures pods[k] in Attempted(evicted, pods, api)
    decreases k
  {
    if k > 0 {
      var p := pods[0];
      var ev' := if EvictSucceeded(api(p)) then evicted + {p.uid} else evicted;
      var tail := pods[1..];
      var next := if p.uid in evicted then evicted else ev';
      assert tail[k - 1] == pods[k];
      assert pods[k].uid !in next;
      forall j | 0 <= j < k - 1 && tail[j].uid == tail[k - 1].uid
        ensures api(tail[j]) == EvictOtherError
      {
        assert tail[j] == pods[j + 1];
      }
      AttemptedUnlessEarlierSuccess(next, tail, k - 1, api);
    }
  }

  /** The scenario of two pods where the first eviction fails otherwise: the second is still tried. */
  lemma FirstFailureSecondTried(a: Pod, b: Pod, node: Node, reason: string, message: string, api: Pod -> EvictResult)
    requires a.uid != b.uid && api(a) == EvictOtherError
    ensures Attempted({}, [a, b], api) == [a, b]
  {
    assert [a, b][1..] == [b];
    assert [b][1..] == [];
    assert Attempted({}, [b], api) == [b] + Attempted(if EvictSucceeded(api(b)) then {b.uid} else {}, [], api);
    assert Attempted({}, [a, b], api) == [a] + Attempted({}, [b], api);
  }
}

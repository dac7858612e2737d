/**
 * `killContainers`: walk a pod's containers in spec order and ask each
 * running container's runtime handler to stop it with grace period 0.
 * The status lookup, the runtime-type parse and the handler registry are
 * oracles; the stop call's error is only logged, so a stop attempt is
 * recorded whatever it returns.
 */
module ContainerKill {
  import opened Wrappers
  import opened CoreV1

  /** The status of one container: its runtime-qualified ID and whether it is running. */
  datatype ContainerStatus = ContainerStatus(containerID: string, running: bool)

  /** The result of looking a container up by name in the pod status. */
  datatype StatusLookup =
    | LookupFailed
    | LookupFound(containerID: string, status: Option<ContainerStatus>)

  /** The identity of a container-runtime handler. */
  type RuntimeHandler = string

  /**
   * The foreign calls killContainers makes: the container lookup in this
   * pod's status (by container name), the runtime type parsed from a status
   * container ID, and the handler registry (`None` for an error or a nil handler).
   */
  datatype ContainerRuntime = ContainerRuntime(
    findContainer: string -> StatusLookup,
    runtimeTypeOf: string -> string,
    handlerFor: string -> Option<RuntimeHandler>)

  /** One stop request sent to a runtime handler. */
  datatype StopRequest = StopRequest(handler: RuntimeHandler, containerID: string, gracePeriodSeconds: int)

  /** What killContainers does at one container: end the walk, go on without stopping, or stop it. */
  datatype Step = Halt | Skip | Stop(request: StopRequest)

  /**
   * The decision at one container: a failed lookup, a missing status or a
   * container that is not running ends the walk; a running container with
   * an empty ID or no runtime handler is skipped; any other running
   * container gets a stop request to its handler, for its ID, with grace 0.
   */
  function ContainerStep(c: Container, rt: ContainerRuntime): (s: Step)
    ensures var l := rt.findContainer(c.name);
      s == Halt <==> l.LookupFailed? || l.status.None? || !l.status.value.running
    ensures var l := rt.findContainer(c.name);
      s == Skip <==> && l.LookupFound? && l.status.Some? && l.status.value.running
                     && (l.containerID == "" || rt.handlerFor(rt.runtimeTypeOf(l.status.value.containerID)).None?)
    ensures var l := rt.findContainer(c.name);
      s.Stop? ==> && l.LookupFound? && l.containerID != ""
                  && s.request.containerID == l.containerID
                  && s.request.gracePeriodSeconds == 0
                  && rt.handlerFor(rt.runtimeTypeOf(l.status.value.containerID)) == Some(s.request.handler)
  {
    match rt.findContainer(c.name)
    case LookupFailed => Halt
    case LookupFound(id, status) =>
      if status.None? || !status.value.running then Halt
      else if id == "" then Skip
      else match rt.handlerFor(rt.runtimeTypeOf(status.value.containerID))
        case None => Skip
        case Some(h) => Stop(StopRequest(h, id, 0))
  }

  /** The stop requests of the walk over `cs`, in order. */
  function KillPlan(cs: seq<Container>, rt: ContainerRuntime): (r: seq<StopRequest>)
    ensures |r| <= |cs|
    ensures forall q :: q in r ==> q.containerID != ""
    decreases |cs|
  {
    if cs == [] then []
    else match ContainerStep(cs[0], rt)
      case Halt => []
      case Skip => KillPlan(cs[1..], rt)
      case Stop(r) => [r] + KillPlan(cs[1..], rt)
  }

  /** The stop requests killContainers sends for `pod`; `message` only prefixes log lines. */
  method KillContainers(pod: Pod, message: string, rt: ContainerRuntime) returns (stops: seq<StopRequest>)
    ensures stops == KillPlan(pod.containers, rt)
  {
    var cs := pod.containers;
    stops := [];
    for i := 0 to |cs|
      invariant stops + KillPlan(cs[i..], rt) == KillPlan(cs, rt)
    {
      assert cs[i..][0] == cs[i] && cs[i..][1..] == cs[i + 1..];
      var lookup := rt.findContainer(cs[i].name);
      if lookup.LookupFailed? {
        return;
      }
      var status := lookup.status;
      if status.None? || !status.value.running {
        return;
      }
      if lookup.containerID != "" {
        var runtimeType := rt.runtimeTypeOf(status.value.containerID);
        var handler := rt.handlerFor(runtimeType);
        if handler.None? {
          continue;
        }
        stops := stops + [StopRequest(handler.value, lookup.containerID, 0)];
      }
    }
  }

  /** Every stop request uses grace period 0. */
  lemma {:induction false} KillPlanGraceZero(cs: seq<Container>, rt: ContainerRuntime)
    ensures forall r :: r in KillPlan(cs, rt) ==> r.gracePeriodSeconds == 0
    decreases |cs|
  {
    if cs != [] {
      KillPlanGraceZero(cs[1..], rt);
    }
  }

  /** The walk over `a + b` is the walk over `a` then the walk over `b`, when nothing in `a` ends it. */
  lemma {:induction false} KillPlanAppend(a: seq<Container>, b: seq<Container>, rt: ContainerRuntime)
    requires forall k :: 0 <= k < |a| ==> ContainerStep(a[k], rt) != Halt
    ensures KillPlan(a + b, rt) == KillPlan(a, rt) + KillPlan(b, rt)
    decreases |a|
  {
    if a == [] {
      assert a + b == b;
    } else {
      assert (a + b)[0] == a[0] && (a + b)[1..] == a[1..] + b;
      KillPlanAppend(a[1..], b, rt);
    }
  }

  /**
   * A failed status lookup or a container that is not running ends the
   * walk: no container from there on gets a stop request.
   */
  lemma {:induction false} HaltEndsWalk(cs: seq<Container>, k: nat, rt: ContainerRuntime)
    requires k < |cs| && ContainerStep(cs[k], rt) == Halt
    ensures KillPlan(cs, rt) == KillPlan(cs[..k], rt)
    decreases k
  {
    if k == 0 {
      assert cs[..0] == [];
    } else {
      assert cs[..k][0] == cs[0] && cs[..k][1..] == cs[1..][..k - 1];
      HaltEndsWalk(cs[1..], k - 1, rt);
    }
  }

  /** A container with no ID or no runtime handler is skipped alone: the walk goes on as if it were not there. */
  lemma {:induction false} SkipDropsOneContainer(cs: seq<Container>, k: nat, rt: ContainerRuntime)
    requires k < |cs| && ContainerStep(cs[k], rt) == Skip
    ensures KillPlan(cs, rt) == KillPlan(cs[..k] + cs[k + 1..], rt)
    decreases k
  {
    if k == 0 {
      assert cs[..0] + cs[1..] == cs[1..];
    } else {
      var rest := cs[1..];
      assert (cs[..k] + cs[k + 1..])[0] == cs[0];
      assert (cs[..k] + cs[k + 1..])[1..] == rest[..k - 1] + rest[k..];
      SkipDropsOneContainer(rest, k - 1, rt);
    }
  }

  /**
   * A container that can be stopped gets its stop request whenever every
   * container before it lets the walk go on, whatever happened to them.
   */
  lemma StopReached(cs: seq<Container>, k: nat, rt: ContainerRuntime)
    requires k < |cs| && ContainerStep(cs[k], rt).Stop?
    requires forall j :: 0 <= j < k ==> ContainerStep(cs[j], rt) != Halt
    ensures ContainerStep(cs[k], rt).request in KillPlan(cs, rt)
  {
    assert cs == cs[..k] + cs[k..];
    KillPlanAppend(cs[..k], cs[k..], rt);
    assert cs[k..][0] == cs[k];
  }

  /**
   * Conversely, every stop request comes from a stoppable container that
   * the walk reached: no earlier container ended it.
   */
  lemma {:induction false} StopOnlyWhenReached(cs: seq<Container>, q: StopRequest, rt: ContainerRuntime)
    requires q in KillPlan(cs, rt)
    ensures exists k :: 0 <= k < |cs| && ContainerStep(cs[k], rt) == Stop(q) &&
                        forall j :: 0 <= j < k ==> ContainerStep(cs[j], rt) != Halt
    decreases |cs|
  {
    var rest := cs[1..];
    var s := ContainerStep(cs[0], rt);
    if s == Stop(q) {
      assert ContainerStep(cs[0], rt) == Stop(q);
    } else {
      assert q in KillPlan(rest, rt);
      StopOnlyWhenReached(rest, q, rt);
      var k :| 0 <= k < |rest| && ContainerStep(rest[k], rt) == Stop(q) &&
               forall j :: 0 <= j < k ==> ContainerStep(rest[j], rt) != Halt;
      assert cs[k + 1] == rest[k];
      forall j | 0 <= j < k + 1 ensures ContainerStep(cs[j], rt) != Halt {
        if j > 0 { assert cs[j] == rest[j - 1]; }
      }
    }
  }

  /**
   * Two running containers where the first one's runtime handler cannot be
   * found: the second still gets its stop request, and it is the only one.
   */
  lemma HandlerFailureSparesSibling(first: Container, second: Container, rt: ContainerRuntime)
    requires ContainerStep(first, rt) == Skip && ContainerStep(second, rt).Stop?
    ensures KillPlan([first, second], rt) == [ContainerStep(second, rt).request]
  {
  }
}

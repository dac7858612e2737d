/**
 * The NodeSLO resource (API group slo, version v1alpha1): the per-node
 * quality-of-service specification the node agent enforces.
 *
 * Every optional (pointer) field is an `Option`; a policy field that Go
 * declares as a named string type keeps type `string`, because the API
 * accepts any string there, and the named values of each policy are a
 * datatype with a `Name` and a `Parse`.  Documented ranges are collected in
 * one validity predicate, `ValidSpec`; the API server defaults declared on
 * the fields are `ApplyDefaults`.
 */
module NodeSLOTypes {
  import opened Wrappers

  /** Go's int64. */
  newtype int64 = x: int | -0x8000_0000_0000_0000 <= x < 0x8000_0000_0000_0000

  /** Go's int64 subtraction, which wraps around. */
  function Int64Sub(a: int64, b: int64): (r: int64)
    ensures -0x8000_0000_0000_0000 <= a as int - b as int < 0x8000_0000_0000_0000 ==> r as int == a as int - b as int
    ensures (r as int - (a as int - b as int)) % 0x1_0000_0000_0000_0000 == 0
  {
    var d := a as int - b as int;
    ((d + 0x8000_0000_0000_0000) % 0x1_0000_0000_0000_0000 - 0x8000_0000_0000_0000) as int64
  }

  // ---------------------------------------------------------------------
  // Policies
  // ---------------------------------------------------------------------

  /** How the memory QoS of one pod is chosen. */
  datatype PodMemoryQoSPolicy =
    | PodMemoryQoSPolicyDefault  // the pod inherits the node-level config
    | PodMemoryQoSPolicyNone     // the pod disables memory QoS
    | PodMemoryQoSPolicyAuto     // the pod uses a recommended config

  function PodMemoryQoSPolicyName(p: PodMemoryQoSPolicy): string {
    match p
    case PodMemoryQoSPolicyDefault => "default"
    case PodMemoryQoSPolicyNone => "none"
    case PodMemoryQoSPolicyAuto => "auto"
  }

  /** The named value spelled `s`, if any: exactly three strings name a policy. */
  function ParsePodMemoryQoSPolicy(s: string): (r: Option<PodMemoryQoSPolicy>)
    ensures r.Some? <==> s == "default" || s == "none" || s == "auto"
    ensures r.Some? ==> PodMemoryQoSPolicyName(r.value) == s
  {
    if s == "default" then Some(PodMemoryQoSPolicyDefault)
    else if s == "none" then Some(PodMemoryQoSPolicyNone)
    else if s == "auto" then Some(PodMemoryQoSPolicyAuto)
    else None
  }

  /** The policy a pod-level config stands for: an empty policy is read as "default". */
  function EffectivePodMemoryQoSPolicy(s: string): (r: Option<PodMemoryQoSPolicy>)
    ensures s == "" ==> r == Some(PodMemoryQoSPolicyDefault)
    ensures s != "" ==> r == ParsePodMemoryQoSPolicy(s)
  {
    if s == "" then Some(PodMemoryQoSPolicyDefault) else ParsePodMemoryQoSPolicy(s)
  }

  /** How best-effort CPU is suppressed. */
  datatype CPUSuppressPolicy =
    | CPUSetPolicy       // shrink the best-effort cpuset
    | CPUCfsQuotaPolicy  // lower the best-effort CFS quota

  function CPUSuppressPolicyName(p: CPUSuppressPolicy): string {
    match p
    case CPUSetPolicy => "cpuset"
    case CPUCfsQuotaPolicy => "cfsQuota"
  }

  /** Exactly two strings name a CPU suppress policy. */
  function ParseCPUSuppressPolicy(s: string): (r: Option<CPUSuppressPolicy>)
    ensures r.Some? <==> s == "cpuset" || s == "cfsQuota"
    ensures r.Some? ==> CPUSuppressPolicyName(r.value) == s
  {
    if s == "cpuset" then Some(CPUSetPolicy)
    else if s == "cfsQuota" then Some(CPUCfsQuotaPolicy)
    else None
  }

  /** Which CPU burst mechanisms are on. */
  datatype CPUBurstPolicy =
    | CPUBurstNone       // no burst
    | CPUBurstOnly       // only cpu.cfs_burst_us
    | CFSQuotaBurstOnly  // only scaling cpu.cfs_quota_us up when throttled
    | CPUBurstAuto       // both

  function CPUBurstPolicyName(p: CPUBurstPolicy): string {
    match p
    case CPUBurstNone => "none"
    case CPUBurstOnly => "cpuBurstOnly"
    case CFSQuotaBurstOnly => "cfsQuotaBurstOnly"
    case CPUBurstAuto => "auto"
  }

  /** Exactly four strings name a CPU burst policy. */
  function ParseCPUBurstPolicy(s: string): (r: Option<CPUBurstPolicy>)
    ensures r.Some? <==> s == "none" || s == "cpuBurstOnly" || s == "cfsQuotaBurstOnly" || s == "auto"
    ensures r.Some? ==> CPUBurstPolicyName(r.value) == s
  {
    if s == "none" then Some(CPUBurstNone)
    else if s == "cpuBurstOnly" then Some(CPUBurstOnly)
    else if s == "cfsQuotaBurstOnly" then Some(CFSQuotaBurstOnly)
    else if s == "auto" then Some(CPUBurstAuto)
    else None
  }

  /** Naming a policy and parsing the name gives the policy back, for all three policy types. */
  lemma PolicyNamesRoundTrip(m: PodMemoryQoSPolicy, c: CPUSuppressPolicy, b: CPUBurstPolicy)
    ensures ParsePodMemoryQoSPolicy(PodMemoryQoSPolicyName(m)) == Some(m)
    ensures ParseCPUSuppressPolicy(CPUSuppressPolicyName(c)) == Some(c)
    ensures ParseCPUBurstPolicy(CPUBurstPolicyName(b)) == Some(b)
  {
  }

  // ---------------------------------------------------------------------
  // Strategy blocks
  // ---------------------------------------------------------------------

  /** Memory cgroup QoS knobs. */
  datatype MemoryQoS = MemoryQoS(
    minLimitPercent: Option<int64>,    // memory.min as a percentage of the memory request
    lowLimitPercent: Option<int64>,    // memory.low as a percentage of the memory request
    throttlingPercent: Option<int64>,  // memory.high as a percentage of the memory limit
    wmarkRatio: Option<int64>,         // memory.wmark_ratio
    wmarkScalePermill: Option<int64>,  // memory.wmark_scale_factor
    wmarkMinAdj: Option<int64>,        // memory.wmark_min_adj
    priorityEnable: Option<int64>,
    priority: Option<int64>,
    oomKillGroup: Option<int64>)

  /** Pod-level memory QoS: a policy name plus the knobs. */
  datatype PodMemoryQoSConfig = PodMemoryQoSConfig(policy: string, memoryQoS: MemoryQoS)

  /** Node-level memory QoS: an enable switch plus the knobs. */
  datatype MemoryQoSCfg = MemoryQoSCfg(enable: Option<bool>, memoryQoS: MemoryQoS)

  /** Last-level-cache and memory-bandwidth partitioning knobs. */
  datatype ResctrlQoS = ResctrlQoS(
    catRangeStartPercent: Option<int64>,
    catRangeEndPercent: Option<int64>,
    mbaPercent: Option<int64>)

  datatype ResctrlQoSCfg = ResctrlQoSCfg(enable: Option<bool>, resctrlQoS: ResctrlQoS)

  datatype ResourceQoS = ResourceQoS(memoryQoS: Option<MemoryQoSCfg>, resctrlQoS: Option<ResctrlQoSCfg>)

  /** Resource QoS per QoS class and for the root cgroup. */
  datatype ResourceQoSStrategy = ResourceQoSStrategy(
    lsr: Option<ResourceQoS>,
    ls: Option<ResourceQoS>,
    be: Option<ResourceQoS>,
    system: Option<ResourceQoS>,
    cgroupRoot: Option<ResourceQoS>)

  /** Thresholds at which best-effort pods are suppressed or evicted. */
  datatype ResourceThresholdStrategy = ResourceThresholdStrategy(
    enable: Option<bool>,
    cpuSuppressThresholdPercent: Option<int64>,
    cpuSuppressPolicy: string,
    memoryEvictThresholdPercent: Option<int64>,
    memoryEvictLowerPercent: Option<int64>)

  datatype CPUBurstConfig = CPUBurstConfig(
    policy: string,
    cpuBurstPercent: Option<int64>,
    cfsQuotaBurstPercent: Option<int64>,
    cfsQuotaBurstPeriodSeconds: Option<int64>)

  datatype CPUBurstStrategy = CPUBurstStrategy(
    cpuBurstConfig: CPUBurstConfig,
    sharePoolThresholdPercent: Option<int64>)

  /** The desired state of one node: three optional strategy blocks and nothing else. */
  datatype NodeSLOSpec = NodeSLOSpec(
    resourceUsedThresholdWithBE: Option<ResourceThresholdStrategy>,
    resourceQoSStrategy: Option<ResourceQoSStrategy>,
    cpuBurstStrategy: Option<CPUBurstStrategy>)

  /** The zero value of the spec: all three blocks absent. */
  const EmptySpec := NodeSLOSpec(None, None, None)

  /** Object identity; the other metadata fields are not modelled. */
  datatype ObjectMeta = ObjectMeta(name: string, resourceVersion: string)

  /** The NodeSLO object (its status is empty and is not modelled). */
  datatype NodeSLO = NodeSLO(metadata: ObjectMeta, spec: NodeSLOSpec)

  // ---------------------------------------------------------------------
  // Documented ranges
  // ---------------------------------------------------------------------

  /** `v`, when present, lies in the closed range [lo, hi]. */
  predicate InRange(v: Option<int64>, lo: int, hi: int) {
    v.Some? ==> lo <= v.value as int <= hi
  }

  /** `v`, when present, lies in the open range (lo, hi). */
  predicate InOpenRange(v: Option<int64>, lo: int, hi: int) {
    v.Some? ==> lo < v.value as int < hi
  }

  /** `v`, when present, is at least `lo`. */
  predicate AtLeast(v: Option<int64>, lo: int) {
    v.Some? ==> lo <= v.value as int
  }

  predicate ValidMemoryQoS(m: MemoryQoS) {
    && AtLeast(m.minLimitPercent, 0)
    && AtLeast(m.lowLimitPercent, 0)
    && AtLeast(m.throttlingPercent, 0)
    && InRange(m.wmarkRatio, 0, 100)
    && InRange(m.wmarkScalePermill, 1, 1000)
    && InRange(m.wmarkMinAdj, -25, 50)
  }

  predicate ValidResctrlQoS(r: ResctrlQoS) {
    && InRange(r.catRangeStartPercent, 0, 100)
    && InRange(r.catRangeEndPercent, 0, 100)
    && InRange(r.mbaPercent, 0, 100)
  }

  predicate ValidResourceQoS(q: ResourceQoS) {
    && (q.memoryQoS.Some? ==> ValidMemoryQoS(q.memoryQoS.value.memoryQoS))
    && (q.resctrlQoS.Some? ==> ValidResctrlQoS(q.resctrlQoS.value.resctrlQoS))
  }

  predicate ValidQoSBlock(q: Option<ResourceQoS>) {
    q.Some? ==> ValidResourceQoS(q.value)
  }

  predicate ValidResourceQoSStrategy(s: ResourceQoSStrategy) {
    ValidQoSBlock(s.lsr) && ValidQoSBlock(s.ls) && ValidQoSBlock(s.be) && ValidQoSBlock(s.system) && ValidQoSBlock(s.cgroupRoot)
  }

  /** Both threshold percentages are documented as lying in (0, 100). */
  predicate ValidThresholdStrategy(t: ResourceThresholdStrategy) {
    InOpenRange(t.cpuSuppressThresholdPercent, 0, 100) && InOpenRange(t.memoryEvictThresholdPercent, 0, 100)
  }

  predicate ValidCPUBurstStrategy(b: CPUBurstStrategy) {
    InRange(b.cpuBurstConfig.cpuBurstPercent, 0, 10000)
  }

  /** Every documented range holds in every present block. */
  predicate ValidSpec(s: NodeSLOSpec) {
    && (s.resourceUsedThresholdWithBE.Some? ==> ValidThresholdStrategy(s.resourceUsedThresholdWithBE.value))
    && (s.resourceQoSStrategy.Some? ==> ValidResourceQoSStrategy(s.resourceQoSStrategy.value))
    && (s.cpuBurstStrategy.Some? ==> ValidCPUBurstStrategy(s.cpuBurstStrategy.value))
  }

  // ---------------------------------------------------------------------
  // Documented defaults
  // ---------------------------------------------------------------------

  const DefaultThresholdEnable := true
  const DefaultCPUSuppressThresholdPercent: int64 := 65
  const DefaultMemoryEvictThresholdPercent: int64 := 70
  /** The lower memory-eviction percentage defaults to the upper one minus this gap. */
  const MemoryEvictLowerGap: int64 := 2
  const DefaultCATRangeStartPercent: int64 := 0
  const DefaultCATRangeEndPercent: int64 := 100
  const DefaultMBAPercent: int64 := 100
  const DefaultCPUBurstPercent: int64 := 1000
  const DefaultCFSQuotaBurstPercent: int64 := 300
  /** -1: a pod may burst for an unlimited time. */
  const DefaultCFSQuotaBurstPeriodSeconds: int64 := -1
  const DefaultSharePoolThresholdPercent: int64 := 50

  /** The upper memory-eviction percentage in effect: the one the defaulted threshold block carries. */
  function EffectiveMemoryEvictThresholdPercent(t: ResourceThresholdStrategy): (r: int64)
    ensures t.memoryEvictThresholdPercent.Some? ==> r == t.memoryEvictThresholdPercent.value
    ensures t.memoryEvictThresholdPercent.None? ==> r == DefaultMemoryEvictThresholdPercent
  {
    ThresholdDefaults(t).memoryEvictThresholdPercent.value
  }

  /** The lower memory-eviction percentage in effect: the field, or the upper one minus 2. */
  function EffectiveMemoryEvictLowerPercent(t: ResourceThresholdStrategy): (r: int64)
    ensures t.memoryEvictLowerPercent.Some? ==> r == t.memoryEvictLowerPercent.value
    ensures t.memoryEvictLowerPercent.None? && ValidThresholdStrategy(t) ==>
              r as int == EffectiveMemoryEvictThresholdPercent(t) as int - 2 &&
              -2 < r as int < EffectiveMemoryEvictThresholdPercent(t) as int
  {
    match t.memoryEvictLowerPercent
    case Some(v) => v
    case None => Int64Sub(EffectiveMemoryEvictThresholdPercent(t), MemoryEvictLowerGap)
  }

  /** `v`, or `d` when `v` is absent. */
  function OrDefault(v: Option<int64>, d: int64): (r: Option<int64>)
    ensures r.Some? && (v.Some? ==> r == v) && (v.None? ==> r == Some(d))
  {
    if v.Some? then v else Some(d)
  }

  /** The threshold block with the declared defaults filled in. */
  function ThresholdDefaults(t: ResourceThresholdStrategy): (r: ResourceThresholdStrategy)
    ensures r.enable.Some? && r.cpuSuppressThresholdPercent.Some? && r.memoryEvictThresholdPercent.Some?
    ensures t.enable.Some? ==> r.enable == t.enable
    ensures t.enable.None? ==> r.enable == Some(DefaultThresholdEnable)
    ensures r.cpuSuppressThresholdPercent == OrDefault(t.cpuSuppressThresholdPercent, DefaultCPUSuppressThresholdPercent)
    ensures r.memoryEvictThresholdPercent == OrDefault(t.memoryEvictThresholdPercent, DefaultMemoryEvictThresholdPercent)
    ensures r.cpuSuppressPolicy == t.cpuSuppressPolicy && r.memoryEvictLowerPercent == t.memoryEvictLowerPercent
    ensures ValidThresholdStrategy(t) ==> ValidThresholdStrategy(r)
  {
    t.(enable := if t.enable.Some? then t.enable else Some(DefaultThresholdEnable),
       cpuSuppressThresholdPercent := OrDefault(t.cpuSuppressThresholdPercent, DefaultCPUSuppressThresholdPercent),
       memoryEvictThresholdPercent := OrDefault(t.memoryEvictThresholdPercent, DefaultMemoryEvictThresholdPercent))
  }

  function ResctrlDefaults(q: ResctrlQoS): (r: ResctrlQoS)
    ensures r.catRangeStartPercent == OrDefault(q.catRangeStartPercent, DefaultCATRangeStartPercent)
    ensures r.catRangeEndPercent == OrDefault(q.catRangeEndPercent, DefaultCATRangeEndPercent)
    ensures r.mbaPercent == OrDefault(q.mbaPercent, DefaultMBAPercent)
    ensures ValidResctrlQoS(q) ==> ValidResctrlQoS(r)
  {
    ResctrlQoS(OrDefault(q.catRangeStartPercent, DefaultCATRangeStartPercent),
               OrDefault(q.catRangeEndPercent, DefaultCATRangeEndPercent),
               OrDefault(q.mbaPercent, DefaultMBAPercent))
  }

  /** Defaults reach a resctrl block only where the block itself is present. */
  function ResourceQoSDefaults(q: ResourceQoS): (r: ResourceQoS)
    ensures r.memoryQoS == q.memoryQoS
    ensures r.resctrlQoS.Some? <==> q.resctrlQoS.Some?
    ensures q.resctrlQoS.Some? ==>
              r.resctrlQoS.value.enable == q.resctrlQoS.value.enable &&
              r.resctrlQoS.value.resctrlQoS == ResctrlDefaults(q.resctrlQoS.value.resctrlQoS)
    ensures ValidResourceQoS(q) ==> ValidResourceQoS(r)
  {
    match q.resctrlQoS
    case None => q
    case Some(c) => q.(resctrlQoS := Some(c.(resctrlQoS := ResctrlDefaults(c.resctrlQoS))))
  }

  function QoSBlockDefaults(q: Option<ResourceQoS>): (r: Option<ResourceQoS>)
    ensures r.Some? <==> q.Some?
    ensures q.Some? ==> r.value == ResourceQoSDefaults(q.value)
    ensures ValidQoSBlock(q) ==> ValidQoSBlock(r)
  {
    match q
    case None => None
    case Some(v) => Some(ResourceQoSDefaults(v))
  }

  function QoSStrategyDefaults(q: ResourceQoSStrategy): (r: ResourceQoSStrategy)
    ensures r.lsr == QoSBlockDefaults(q.lsr) && r.ls == QoSBlockDefaults(q.ls) && r.be == QoSBlockDefaults(q.be)
    ensures r.system == QoSBlockDefaults(q.system) && r.cgroupRoot == QoSBlockDefaults(q.cgroupRoot)
    ensures ValidResourceQoSStrategy(q) ==> ValidResourceQoSStrategy(r)
  {
    ResourceQoSStrategy(QoSBlockDefaults(q.lsr), QoSBlockDefaults(q.ls), QoSBlockDefaults(q.be),
                        QoSBlockDefaults(q.system), QoSBlockDefaults(q.cgroupRoot))
  }

  function CPUBurstDefaults(b: CPUBurstStrategy): (r: CPUBurstStrategy)
    ensures r.cpuBurstConfig.policy == b.cpuBurstConfig.policy
    ensures r.cpuBurstConfig.cpuBurstPercent == OrDefault(b.cpuBurstConfig.cpuBurstPercent, DefaultCPUBurstPercent)
    ensures r.cpuBurstConfig.cfsQuotaBurstPercent == OrDefault(b.cpuBurstConfig.cfsQuotaBurstPercent, DefaultCFSQuotaBurstPercent)
    ensures r.cpuBurstConfig.cfsQuotaBurstPeriodSeconds == OrDefault(b.cpuBurstConfig.cfsQuotaBurstPeriodSeconds, DefaultCFSQuotaBurstPeriodSeconds)
    ensures r.sharePoolThresholdPercent == OrDefault(b.sharePoolThresholdPercent, DefaultSharePoolThresholdPercent)
    ensures ValidCPUBurstStrategy(b) ==> ValidCPUBurstStrategy(r)
  {
    var c := b.cpuBurstConfig;
    CPUBurstStrategy(
      CPUBurstConfig(c.policy,
                     OrDefault(c.cpuBurstPercent, DefaultCPUBurstPercent),
                     OrDefault(c.cfsQuotaBurstPercent, DefaultCFSQuotaBurstPercent),
                     OrDefault(c.cfsQuotaBurstPeriodSeconds, DefaultCFSQuotaBurstPeriodSeconds)),
      OrDefault(b.sharePoolThresholdPercent, DefaultSharePoolThresholdPercent))
  }

  /**
   * The spec with every declared field default filled in.  A default applies
   * only inside a block that is present: an absent block stays absent.
   */
  function ApplyDefaults(s: NodeSLOSpec): (r: NodeSLOSpec)
    ensures r.resourceUsedThresholdWithBE.Some? <==> s.resourceUsedThresholdWithBE.Some?
    ensures r.resourceQoSStrategy.Some? <==> s.resourceQoSStrategy.Some?
    ensures r.cpuBurstStrategy.Some? <==> s.cpuBurstStrategy.Some?
    ensures s.resourceUsedThresholdWithBE.Some? ==>
              r.resourceUsedThresholdWithBE.value == ThresholdDefaults(s.resourceUsedThresholdWithBE.value)
    ensures s.cpuBurstStrategy.Some? ==> r.cpuBurstStrategy.value == CPUBurstDefaults(s.cpuBurstStrategy.value)
    ensures s.resourceQoSStrategy.Some? ==>
              r.resourceQoSStrategy.value == QoSStrategyDefaults(s.resourceQoSStrategy.value)
    ensures ValidSpec(s) ==> ValidSpec(r)
  {
    NodeSLOSpec(
      match s.resourceUsedThresholdWithBE
      case None => None
      case Some(t) => Some(ThresholdDefaults(t)),
      match s.resourceQoSStrategy
      case None => None
      case Some(q) => Some(QoSStrategyDefaults(q)),
      match s.cpuBurstStrategy
      case None => None
      case Some(b) => Some(CPUBurstDefaults(b)))
  }

  /** Applying the defaults a second time changes nothing. */
  lemma ApplyDefaultsIdempotent(s: NodeSLOSpec)
    ensures ApplyDefaults(ApplyDefaults(s)) == ApplyDefaults(s)
  {
  }

  /** The documented default values themselves satisfy the documented ranges. */
  lemma DefaultsAreValid()
    ensures ValidThresholdStrategy(ThresholdDefaults(ResourceThresholdStrategy(None, None, "", None, None)))
    ensures ValidResctrlQoS(ResctrlDefaults(ResctrlQoS(None, None, None)))
    ensures ValidCPUBurstStrategy(CPUBurstDefaults(CPUBurstStrategy(CPUBurstConfig("", None, None, None), None)))
    ensures EffectiveMemoryEvictLowerPercent(ResourceThresholdStrategy(None, None, "", None, None)) == 68
  {
  }
}

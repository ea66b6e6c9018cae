/**
 * The profile of one application context: when it started, the lifecycle phases reached and
 * when, its load time, memory and bean figures, and the bean-creation metrics if any.
 */
module ContextProfile {
  import opened Wrappers
  import opened BeanProfiler

  const BeanDefinitionRegistration: string := "BeanDefinitionRegistration"
  const ContextRefreshedEvent: string := "ContextRefreshedEvent"

  /** `ContextProfileSummary`, without its two floating-point ratios. */
  datatype ContextProfileSummary = ContextProfileSummary(
    contextId: string, totalLoadTimeMs: int, memoryUsedMB: int, beanDefinitionCount: int,
    beansCreated: nat, slowestBeanTimeMs: int, slowestBeanName: Option<string>)

  /** `getPhaseElapsedMs`: -1 for a phase never recorded, else the time since the start. */
  function PhaseElapsedMs(phases: map<string, int>, startTime: int, phaseName: string): (ms: int)
    ensures phaseName !in phases ==> ms == -1
    ensures phaseName in phases ==> startTime + ms == phases[phaseName]
  {
    if phaseName in phases then phases[phaseName] - startTime else -1
  }

  /** `getSlowestBeans(limit)`: empty without bean metrics, else the slowest `limit` of them. */
  function SlowestBeans(metrics: Option<BeanCreationMetrics>, limit: nat): (r: seq<BeanCreationMetric>)
    ensures metrics.None? ==> r == []
    ensures |r| <= limit
    ensures metrics.Some? ==> forall i :: 0 <= i < |r| ==> r[i] in metrics.value.allBeans
    ensures metrics.Some? ==> multiset(r) <= multiset(metrics.value.allBeans)
    ensures forall i, j :: 0 <= i < j < |r| ==> r[i].creationTimeMs >= r[j].creationTimeMs
  {
    if metrics.Some? then SlowestOf(metrics.value.allBeans, limit) else []
  }

  /** The profile object. */
  class ContextProfileData {
    const contextId: string
    const startTime: int
    const startMemoryBytes: int
    var endTime: Option<int>
    var endMemoryBytes: int
    var totalLoadTimeMs: int
    var memoryUsedMB: int
    var beanDefinitionCount: int
    var beanCreationMetrics: Option<BeanCreationMetrics>
    var lifecyclePhases: map<string, int>

    constructor (contextId: string, startTime: int, startMemoryBytes: int)
      ensures this.contextId == contextId && this.startTime == startTime && this.startMemoryBytes == startMemoryBytes
      ensures endTime.None? && endMemoryBytes == 0 && totalLoadTimeMs == 0 && memoryUsedMB == 0
      ensures beanDefinitionCount == 0 && beanCreationMetrics.None? && lifecyclePhases == map[]
    {
      this.contextId := contextId;
      this.startTime := startTime;
      this.startMemoryBytes := startMemoryBytes;
      endTime := None;
      endMemoryBytes, totalLoadTimeMs, memoryUsedMB, beanDefinitionCount := 0, 0, 0, 0;
      beanCreationMetrics := None;
      lifecyclePhases := map[];
    }

    /** `recordPhase`: the last timestamp recorded for a phase wins. */
    method RecordPhase(phaseName: string, timestamp: int)
      modifies this
      ensures lifecyclePhases == old(lifecyclePhases)[phaseName := timestamp]
      ensures endTime == old(endTime) && totalLoadTimeMs == old(totalLoadTimeMs)
      ensures beanCreationMetrics == old(beanCreationMetrics) && beanDefinitionCount == old(beanDefinitionCount)
      ensures memoryUsedMB == old(memoryUsedMB) && endMemoryBytes == old(endMemoryBytes)
    {
      lifecyclePhases := lifecyclePhases[phaseName := timestamp];
    }

    /** `getPhaseTime` */
    method GetPhaseTime(phaseName: string) returns (t: Option<int>)
      ensures t.Some? <==> phaseName in lifecyclePhases
      ensures t.Some? ==> t.value == lifecyclePhases[phaseName]
    {
      t := if phaseName in lifecyclePhases then Some(lifecyclePhases[phaseName]) else None;
    }

    /** `getAllPhases()`: a copy; a map value here, so later changes to either side stay apart. */
    method GetAllPhases() returns (phases: map<string, int>)
      ensures phases == lifecyclePhases
    {
      phases := lifecyclePhases;
    }

    method GetPhaseElapsedMs(phaseName: string) returns (ms: int)
      ensures ms == PhaseElapsedMs(lifecyclePhases, startTime, phaseName)
    {
      if phaseName in lifecyclePhases {
        ms := lifecyclePhases[phaseName] - startTime;
      } else {
        ms := -1;
      }
    }

    /** `getBeanDefinitionRegistrationTimeMs()` */
    method GetBeanDefinitionRegistrationTimeMs() returns (ms: int)
      ensures ms == PhaseElapsedMs(lifecyclePhases, startTime, BeanDefinitionRegistration)
    {
      ms := GetPhaseElapsedMs(BeanDefinitionRegistration);
    }

    /** `getContextRefreshTimeMs()` */
    method GetContextRefreshTimeMs() returns (ms: int)
      ensures ms == PhaseElapsedMs(lifecyclePhases, startTime, ContextRefreshedEvent)
    {
      ms := GetPhaseElapsedMs(ContextRefreshedEvent);
    }

    method GetSlowestBeans(limit: nat) returns (beans: seq<BeanCreationMetric>)
      ensures beans == SlowestBeans(beanCreationMetrics, limit)
    {
      beans := SlowestBeans(beanCreationMetrics, limit);
    }

    /** `getSummary()`: the bean figures are 0 and the slowest name absent without metrics. */
    method GetSummary() returns (s: ContextProfileSummary)
      ensures s.contextId == contextId && s.totalLoadTimeMs == totalLoadTimeMs && s.memoryUsedMB == memoryUsedMB
      ensures s.beanDefinitionCount == beanDefinitionCount
      ensures beanCreationMetrics.None? ==> s.beansCreated == 0 && s.slowestBeanTimeMs == 0 && s.slowestBeanName.None?
      ensures beanCreationMetrics.Some? ==>
        s.beansCreated == beanCreationMetrics.value.totalBeansCreated
        && s.slowestBeanTimeMs == beanCreationMetrics.value.slowestBeanTimeMs
        && s.slowestBeanName == beanCreationMetrics.value.slowestBeanName
    {
      var m := beanCreationMetrics;
      s := ContextProfileSummary(contextId, totalLoadTimeMs, memoryUsedMB, beanDefinitionCount,
        if m.Some? then m.value.totalBeansCreated else 0,
        if m.Some? then m.value.slowestBeanTimeMs else 0,
        if m.Some? then m.value.slowestBeanName else None);
    }

    method SetEndTime(endTime: Option<int>)
      modifies this
      ensures this.endTime == endTime && lifecyclePhases == old(lifecyclePhases)
      ensures totalLoadTimeMs == old(totalLoadTimeMs) && beanCreationMetrics == old(beanCreationMetrics)
      ensures beanDefinitionCount == old(beanDefinitionCount) && memoryUsedMB == old(memoryUsedMB) && endMemoryBytes == old(endMemoryBytes)
    {
      this.endTime := endTime;
    }

    method SetTotalLoadTimeMs(totalLoadTimeMs: int)
      modifies this
      ensures this.totalLoadTimeMs == totalLoadTimeMs && lifecyclePhases == old(lifecyclePhases)
      ensures endTime == old(endTime) && beanCreationMetrics == old(beanCreationMetrics)
      ensures beanDefinitionCount == old(beanDefinitionCount) && memoryUsedMB == old(memoryUsedMB) && endMemoryBytes == old(endMemoryBytes)
    {
      this.totalLoadTimeMs := totalLoadTimeMs;
    }

    method SetBeanCreationMetrics(metrics: Option<BeanCreationMetrics>)
      modifies this
      ensures beanCreationMetrics == metrics && lifecyclePhases == old(lifecyclePhases)
      ensures endTime == old(endTime) && totalLoadTimeMs == old(totalLoadTimeMs)
      ensures beanDefinitionCount == old(beanDefinitionCount) && memoryUsedMB == old(memoryUsedMB) && endMemoryBytes == old(endMemoryBytes)
    {
      beanCreationMetrics := metrics;
    }
  }

  /** Recording a phase twice keeps the later timestamp, and other phases are untouched. */
  lemma LastPhaseRecordWins(phases: map<string, int>, startTime: int, phaseName: string, other: string, t1: int, t2: int)
    ensures PhaseElapsedMs(phases[phaseName := t1][phaseName := t2], startTime, phaseName) == t2 - startTime
    ensures other != phaseName ==>
      PhaseElapsedMs(phases[phaseName := t2], startTime, other) == PhaseElapsedMs(phases, startTime, other)
  {
  }
}

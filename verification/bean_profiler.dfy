/**
 * The bean-creation profiler: a start time is noted before a bean is initialised, and after
 * initialisation the pending start is paired with the end into a metric, the totals grow and
 * the slowest bean so far is kept.
 */
module BeanProfiler {
  import opened Wrappers
  import opened Strings
  import opened Sorting
  import opened Collections

  /** `BeanCreationMetric` */
  datatype BeanCreationMetric = BeanCreationMetric(
    beanName: string, beanClass: string, startTime: int, endTime: int, creationTimeMs: int, creationOrder: nat)

  /** `BeanCreationMetrics`, the aggregate snapshot. */
  datatype BeanCreationMetrics = BeanCreationMetrics(
    contextId: string, totalBeansCreated: nat, totalCreationTimeMs: int,
    slowestBeanName: Option<string>, slowestBeanTimeMs: int, allBeans: seq<BeanCreationMetric>)

  /** `a` may be listed before `b` when it took at least as long. */
  predicate SlowerOrEqual(a: BeanCreationMetric, b: BeanCreationMetric)
  {
    a.creationTimeMs >= b.creationTimeMs
  }

  lemma SlowerOrEqualIsTotalPreorder()
    ensures TotalPreorder(SlowerOrEqual)
  {
  }

  /**
   * `getSlowestBeans(limit)` over a list of metrics: the stable sort by creation time,
   * slowest first, cut at `limit` (a negative limit makes Java throw).
   */
  function SlowestOf(beans: seq<BeanCreationMetric>, limit: nat): (r: seq<BeanCreationMetric>)
    ensures |r| <= limit && |r| <= |beans|
    ensures forall i :: 0 <= i < |r| ==> r[i] in beans
    ensures multiset(r) <= multiset(beans)
    ensures forall i, j :: 0 <= i < j < |r| ==> r[i].creationTimeMs >= r[j].creationTimeMs
  {
    SlowerOrEqualIsTotalPreorder();
    TopOfSorted(beans, SlowerOrEqual, limit);
    Take(SortBy(beans, SlowerOrEqual), limit)
  }

  /** A metric left out of the slowest list is no slower than any of the `limit` listed. */
  lemma SlowestOfIsTop(beans: seq<BeanCreationMetric>, limit: nat)
    ensures var r := SlowestOf(beans, limit);
      forall b :: b in beans ==>
        b in r || (|r| == limit && forall i :: 0 <= i < limit ==> r[i].creationTimeMs >= b.creationTimeMs)
  {
    SlowerOrEqualIsTotalPreorder();
    TopOfSorted(beans, SlowerOrEqual, limit);
  }

  /** The value held by a `BeanCreationProfiler`; `metricOrder` is the order `values()` lists. */
  datatype ProfilerView = ProfilerView(
    contextId: string,
    beanMetrics: map<string, BeanCreationMetric>,
    metricOrder: seq<string>,
    beanStartTimes: map<string, int>,
    beanCreationOrder: nat,
    totalBeansCreated: nat,
    totalCreationTimeMs: int,
    slowestBeanTimeMs: int,
    slowestBeanName: Option<string>)
  {
    /**
     * One creation order per counted bean, each stored metric under its own name with its
     * own order number, no metric slower than the slowest recorded, and a slowest name
     * exactly when some bean took longer than 0 ms.
     */
    ghost predicate Valid()
    {
      Counted() && OrderListsMetrics() && MetricsNamed() && OrdersDistinct() && SlowestKept()
    }

    ghost predicate Counted()
    {
      totalBeansCreated == beanCreationOrder && |beanMetrics| <= totalBeansCreated
    }

    ghost predicate OrderListsMetrics()
    {
      NoDuplicates(metricOrder) && forall n :: n in metricOrder <==> n in beanMetrics
    }

    ghost predicate MetricsNamed()
    {
      forall n :: n in beanMetrics ==>
        beanMetrics[n].beanName == n
        && 1 <= beanMetrics[n].creationOrder <= beanCreationOrder
        && beanMetrics[n].creationTimeMs <= slowestBeanTimeMs
    }

    ghost predicate OrdersDistinct()
    {
      forall n1, n2 :: n1 in beanMetrics && n2 in beanMetrics && n1 != n2 ==>
        beanMetrics[n1].creationOrder != beanMetrics[n2].creationOrder
    }

    ghost predicate SlowestKept()
    {
      slowestBeanTimeMs >= 0 && (slowestBeanName.Some? <==> slowestBeanTimeMs > 0)
    }

    /** `postProcessBeforeInitialization`: the start time is noted, overwriting an older one. */
    function BeforeInitialization(beanName: string, now: int): ProfilerView
    {
      this.(beanStartTimes := beanStartTimes[beanName := now])
    }

    /**
     * `postProcessAfterInitialization`: without a pending start nothing changes; with one,
     * the start is taken off, the bean gets the next order number and a metric (replacing an
     * older one of the same name), and the totals and the slowest bean are updated.
     */
    function AfterInitialization(beanName: string, beanClass: string, now: int): ProfilerView
    {
      if beanName !in beanStartTimes then this
      else
        var start := beanStartTimes[beanName];
        var creationTimeMs := now - start;
        var order := beanCreationOrder + 1;
        var slower := creationTimeMs > slowestBeanTimeMs;
        this.(beanStartTimes := beanStartTimes - {beanName},
              beanCreationOrder := order,
              beanMetrics := beanMetrics[beanName := BeanCreationMetric(beanName, beanClass, start, now, creationTimeMs, order)],
              metricOrder := if beanName in beanMetrics then metricOrder else metricOrder + [beanName],
              totalBeansCreated := totalBeansCreated + 1,
              totalCreationTimeMs := totalCreationTimeMs + creationTimeMs,
              slowestBeanTimeMs := if slower then creationTimeMs else slowestBeanTimeMs,
              slowestBeanName := if slower then Some(beanName) else slowestBeanName)
    }

    /** The stored metrics in iteration order. */
    function AllBeans(): (beans: seq<BeanCreationMetric>)
      requires forall n :: n in metricOrder ==> n in beanMetrics
      ensures |beans| == |metricOrder|
      ensures forall i :: 0 <= i < |beans| ==> beans[i] == beanMetrics[metricOrder[i]]
    {
      seq(|metricOrder|, i requires 0 <= i < |metricOrder| => beanMetrics[metricOrder[i]])
    }

    /** `getMetrics()` */
    function Metrics(): BeanCreationMetrics
      requires forall n :: n in metricOrder ==> n in beanMetrics
    {
      BeanCreationMetrics(contextId, totalBeansCreated, totalCreationTimeMs, slowestBeanName, slowestBeanTimeMs, AllBeans())
    }
  }

  function NewProfiler(contextId: string): (p: ProfilerView)
    ensures p.Valid() && p.totalBeansCreated == 0 && p.totalCreationTimeMs == 0
    ensures p.slowestBeanTimeMs == 0 && p.slowestBeanName.None? && p.beanMetrics == map[]
  {
    ProfilerView(contextId, map[], [], map[], 0, 0, 0, 0, None)
  }

  /** Before-initialisation only notes the start time, overwriting an older one. */
  lemma BeforeInitializationNotesStart(p: ProfilerView, beanName: string, now: int)
    requires p.Valid()
    ensures p.BeforeInitialization(beanName, now).Valid()
    ensures p.BeforeInitialization(beanName, now).beanStartTimes == p.beanStartTimes[beanName := now]
    ensures p.BeforeInitialization(beanName, now).beanMetrics == p.beanMetrics
    ensures p.BeforeInitialization(beanName, now).totalBeansCreated == p.totalBeansCreated
  {
    var p' := p.BeforeInitialization(beanName, now);
    assert p'.Counted() && p'.OrderListsMetrics() && p'.MetricsNamed();
    assert p'.OrdersDistinct() && p'.SlowestKept();
  }

  /** A bean's metric after initialisation, with its order number. */
  lemma AfterInitializationStoresMetric(p: ProfilerView, beanName: string, beanClass: string, now: int)
    requires p.Valid()
    ensures var p' := p.AfterInitialization(beanName, beanClass, now);
      (beanName !in p.beanStartTimes ==> p' == p)
      && (beanName in p.beanStartTimes ==>
            var d := now - p.beanStartTimes[beanName];
            beanName !in p'.beanStartTimes
            && p'.totalBeansCreated == p.totalBeansCreated + 1
            && p'.totalCreationTimeMs == p.totalCreationTimeMs + d
            && p'.beanMetrics[beanName].creationTimeMs == d
            && p'.beanMetrics[beanName].creationOrder == p.beanCreationOrder + 1
            && p'.slowestBeanTimeMs == Max(p.slowestBeanTimeMs, d)
            && (p'.slowestBeanName != p.slowestBeanName ==> d > p.slowestBeanTimeMs && p'.slowestBeanName == Some(beanName)))
  {
  }

  /** After-initialisation keeps the profiler valid. */
  lemma AfterInitializationKeepsValid(p: ProfilerView, beanName: string, beanClass: string, now: int)
    requires p.Valid()
    ensures p.AfterInitialization(beanName, beanClass, now).Valid()
  {
    if beanName in p.beanStartTimes {
      var p' := p.AfterInitialization(beanName, beanClass, now);
      AfterKeepsCounted(p, beanName, beanClass, now);
      AfterKeepsOrderList(p, beanName, beanClass, now);
      AfterKeepsOrdersDistinct(p, beanName, beanClass, now);
      assert p'.MetricsNamed();
      assert p'.SlowestKept();
    }
  }

  lemma AfterKeepsCounted(p: ProfilerView, beanName: string, beanClass: string, now: int)
    requires p.Counted() && beanName in p.beanStartTimes
    ensures p.AfterInitialization(beanName, beanClass, now).Counted()
  {
    var start := p.beanStartTimes[beanName];
    var metric := BeanCreationMetric(beanName, beanClass, start, now, now - start, p.beanCreationOrder + 1);
    UpdateSize(p.beanMetrics, beanName, metric);
  }

  lemma AfterKeepsOrderList(p: ProfilerView, beanName: string, beanClass: string, now: int)
    requires p.OrderListsMetrics() && beanName in p.beanStartTimes
    ensures p.AfterInitialization(beanName, beanClass, now).OrderListsMetrics()
  {
  }

  lemma AfterKeepsOrdersDistinct(p: ProfilerView, beanName: string, beanClass: string, now: int)
    requires p.MetricsNamed() && p.OrdersDistinct() && beanName in p.beanStartTimes
    ensures p.AfterInitialization(beanName, beanClass, now).OrdersDistinct()
  {
    var p' := p.AfterInitialization(beanName, beanClass, now);
    assert forall n :: n in p'.beanMetrics && n != beanName ==> p'.beanMetrics[n] == p.beanMetrics[n];
  }

  /** A bean name initialised twice is counted twice but keeps one metric, the later one. */
  lemma RecurringNameCountedTwice(contextId: string, beanName: string, beanClass: string)
    ensures var p := NewProfiler(contextId)
      .BeforeInitialization(beanName, 0).AfterInitialization(beanName, beanClass, 5)
      .BeforeInitialization(beanName, 10).AfterInitialization(beanName, beanClass, 12);
      p.totalBeansCreated == 2 && |p.beanMetrics| == 1 && p.beanMetrics[beanName].creationTimeMs == 2
      && p.slowestBeanTimeMs == 5
  {
    var p := NewProfiler(contextId)
      .BeforeInitialization(beanName, 0).AfterInitialization(beanName, beanClass, 5)
      .BeforeInitialization(beanName, 10).AfterInitialization(beanName, beanClass, 12);
    assert p.beanMetrics.Keys == {beanName};
  }

  /** The profiler object. */
  class BeanCreationProfiler {
    const contextId: string
    var beanMetrics: map<string, BeanCreationMetric>
    var metricOrder: seq<string>
    var beanStartTimes: map<string, int>
    var beanCreationOrder: nat
    var totalBeansCreated: nat
    var totalCreationTimeMs: int
    var slowestBeanTimeMs: int
    var slowestBeanName: Option<string>

    function View(): ProfilerView
      reads this
    {
      ProfilerView(contextId, beanMetrics, metricOrder, beanStartTimes, beanCreationOrder, totalBeansCreated,
                   totalCreationTimeMs, slowestBeanTimeMs, slowestBeanName)
    }

    ghost predicate Valid()
      reads this
    {
      View().Valid()
    }

    constructor (contextId: string)
      ensures View() == NewProfiler(contextId) && Valid()
    {
      this.contextId := contextId;
      beanMetrics, metricOrder, beanStartTimes := map[], [], map[];
      beanCreationOrder, totalBeansCreated, totalCreationTimeMs := 0, 0, 0;
      slowestBeanTimeMs, slowestBeanName := 0, None;
    }

    /** Returns the bean it was given. */
    method PostProcessBeforeInitialization<B>(bean: B, beanName: string, now: int) returns (r: B)
      requires Valid()
      modifies this
      ensures r == bean
      ensures View() == old(View()).BeforeInitialization(beanName, now)
      ensures Valid()
    {
      BeforeInitializationNotesStart(View(), beanName, now);
      beanStartTimes := beanStartTimes[beanName := now];
      r := bean;
    }

    /** Returns the bean it was given; `beanClass` is the name of the bean's class. */
    method PostProcessAfterInitialization<B>(bean: B, beanName: string, beanClass: string, now: int) returns (r: B)
      requires Valid()
      modifies this
      ensures r == bean
      ensures View() == old(View()).AfterInitialization(beanName, beanClass, now)
      ensures Valid()
    {
      AfterInitializationKeepsValid(View(), beanName, beanClass, now);
      StoreMetric(beanName, beanClass, now);
      r := bean;
    }

    /**
     * The update `postProcessAfterInitialization` makes: takes off the pending start, if any,
     * and stores the bean's metric and the new totals.
     */
    method StoreMetric(beanName: string, beanClass: string, now: int)
      modifies this
      ensures View() == old(View()).AfterInitialization(beanName, beanClass, now)
    {
      if beanName in beanStartTimes {
        var start := beanStartTimes[beanName];
        var creationTimeMs := now - start;
        var order := beanCreationOrder + 1;
        var metric := BeanCreationMetric(beanName, beanClass, start, now, creationTimeMs, order);
        var slower := creationTimeMs > slowestBeanTimeMs;
        beanStartTimes, beanCreationOrder := beanStartTimes - {beanName}, order;
        metricOrder, beanMetrics := if beanName in beanMetrics then metricOrder else metricOrder + [beanName],
                                    beanMetrics[beanName := metric];
        totalBeansCreated, totalCreationTimeMs := totalBeansCreated + 1, totalCreationTimeMs + creationTimeMs;
        if slower {
          slowestBeanTimeMs, slowestBeanName := creationTimeMs, Some(beanName);
        }
      }
    }

    /** `getBeanMetric(beanName)` */
    method GetBeanMetric(beanName: string) returns (m: Option<BeanCreationMetric>)
      ensures m.Some? <==> beanName in beanMetrics
      ensures m.Some? ==> m.value == beanMetrics[beanName]
    {
      m := if beanName in beanMetrics then Some(beanMetrics[beanName]) else None;
    }

    /** `getSlowestBeans(limit)` */
    method GetSlowestBeans(limit: nat) returns (beans: seq<BeanCreationMetric>)
      requires Valid()
      ensures beans == SlowestOf(View().AllBeans(), limit)
    {
      beans := SlowestOf(View().AllBeans(), limit);
    }

    /** `getMetrics()` */
    method GetMetrics() returns (m: BeanCreationMetrics)
      requires Valid()
      ensures m == View().Metrics()
      ensures m.totalBeansCreated >= |m.allBeans|
    {
      m := View().Metrics();
      DistinctOrderCount(metricOrder);
      assert (set n | n in metricOrder) == beanMetrics.Keys;
    }
  }

  /** A list without duplicates is no longer than the set of its elements. */
  lemma DistinctOrderCount(order: seq<string>)
    requires NoDuplicates(order)
    ensures |set n | n in order| == |order|
  {
    if order != [] {
      var rest := order[1..];
      assert NoDuplicates(rest) by {
        forall i, j | 0 <= i < j < |rest| ensures rest[i] != rest[j] {
          assert rest[i] == order[i + 1] && rest[j] == order[j + 1];
        }
      }
      DistinctOrderCount(rest);
      assert (set n | n in order) == (set n | n in rest) + {order[0]};
      assert order[0] !in rest by {
        forall k | 0 <= k < |rest| ensures rest[k] != order[0] {
          assert rest[k] == order[k + 1];
        }
      }
    }
  }
}

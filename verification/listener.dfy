/**
 * How the test-execution listener drives the context-cache tracker: a test class is
 * registered with its configuration before it runs; once its context is loaded, the load
 * counts as a cache hit if the configuration's context was already created, and otherwise
 * as a creation followed by the recording of the context's bean definitions.
 */
module ProfilerListener {
  import opened Wrappers
  import opened Strings
  import opened Configuration
  import opened CacheEntry
  import opened CacheTracker

  /** The decision the listener takes after a test class's context was loaded. */
  function AfterContextLoad(r: Registry, config: MergedContextConfiguration, loadTimeMs: int,
                            beanNames: seq<string>, now: int): Registry
  {
    if config in r.entries && r.entries[config].created then r.RecordHit(config, now)
    else r.RecordCreation(config, loadTimeMs, now).RecordBeanDefinitions(config, beanNames)
  }

  /** The created configurations of a tracker. */
  function CreatedKeys(r: Registry): set<MergedContextConfiguration>
  {
    set k | k in r.entries && r.entries[k].created
  }

  /**
   * A valid tracker whose creation order holds no configuration twice has created exactly
   * as many contexts as it has created entries.
   */
  lemma CreationsCountCreatedEntries(r: Registry)
    requires r.Valid() && NoDuplicates(r.contextCreationOrder)
    ensures r.totalContextsCreated == r.cacheMisses == |CreatedKeys(r)|
  {
    DistinctListingCount(r.contextCreationOrder, CreatedKeys(r));
  }

  /**
   * After a context load the tracker stays valid, its creation order still holds no
   * configuration twice, and a registered configuration counts exactly one more hit or
   * miss: a hit when its context already existed, a miss that creates it otherwise.
   */
  lemma ContextLoadCountsOnce(r: Registry, config: MergedContextConfiguration, loadTimeMs: int,
                              beanNames: seq<string>, now: int)
    requires r.Valid() && NoDuplicates(r.contextCreationOrder)
    ensures var r' := AfterContextLoad(r, config, loadTimeMs, beanNames, now);
      r'.Valid()
      && NoDuplicates(r'.contextCreationOrder)
      && (config in r.entries ==>
            r'.cacheHits + r'.cacheMisses == r.cacheHits + r.cacheMisses + 1
            && r'.entries[config].created
            && (r.entries[config].created <==> r'.cacheHits == r.cacheHits + 1))
      && (config !in r.entries ==> r' == r)
  {
    if config in r.entries && r.entries[config].created {
      HitKeepsValid(r, config, now);
    } else if config in r.entries {
      var mid := r.RecordCreation(config, loadTimeMs, now);
      CreationKeepsValid(r, config, loadTimeMs, now);
      BeanDefinitionsKeepValid(mid, config, beanNames);
      assert config !in r.contextCreationOrder;
      AppendFreshKeepsDistinct(r.contextCreationOrder, config);
    }
  }

  lemma AppendFreshKeepsDistinct(s: seq<MergedContextConfiguration>, x: MergedContextConfiguration)
    requires NoDuplicates(s) && x !in s
    ensures NoDuplicates(s + [x])
  {
  }

  /** `beforeTestClass` followed by `prepareTestInstance`, on a tracker object. */
  method TrackTestClass(tracker: ContextCacheTracker, config: MergedContextConfiguration, className: string,
                        loadTimeMs: int, beanNames: seq<string>, now: int)
    requires tracker.Valid()
    modifies tracker
    ensures tracker.State() == AfterContextLoad(old(tracker.State()).RegisterTestClass(config, className),
                                                config, loadTimeMs, beanNames, now)
    ensures tracker.Valid()
  {
    tracker.RecordTestClassForContext(config, className);
    var entry := tracker.GetCacheEntry(config);
    if entry.Some? && entry.value.created {
      tracker.RecordContextCacheHit(config, now);
    } else {
      tracker.RecordContextCreation(config, loadTimeMs, now);
      tracker.RecordBeanDefinitions(config, beanNames);
    }
  }
}

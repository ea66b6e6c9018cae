/**
 * The context-cache tracker: which test classes and test methods use which configuration,
 * the entry of every configuration, the order in which contexts were created, and the
 * tracker-wide counts of created contexts, cache hits and cache misses.
 *
 * Java's concurrent hash map iterates in an unspecified order; the tracker keeps its
 * entries' keys in `entryOrder`, the order in which they were first registered, and every
 * traversal of the entries (the nearest-context search, the statistics, the timeline)
 * visits them in that order.
 */
module CacheTracker {
  import opened Wrappers
  import opened Strings
  import opened Configuration
  import opened CacheEntry
  import opened NearestContext
  import opened Optimization
  import opened Timeline

  /** The entries' values in iteration order. */
  function InOrder(entries: map<MergedContextConfiguration, EntryView>, order: seq<MergedContextConfiguration>): (r: seq<EntryView>)
    requires forall k :: k in order ==> k in entries
    ensures |r| == |order|
    ensures forall i :: 0 <= i < |order| ==> r[i] == entries[order[i]]
  {
    seq(|order|, i requires 0 <= i < |order| => entries[order[i]])
  }

  /** The sum of the entries' hit counts. */
  function HitTotal(entries: map<MergedContextConfiguration, EntryView>, order: seq<MergedContextConfiguration>): nat
    requires forall k :: k in order ==> k in entries
  {
    if order == [] then 0
    else HitTotal(entries, order[..|order| - 1]) + entries[order[|order| - 1]].hitCount
  }

  /** Replacing an entry by one with as many hits, or one the order does not visit, leaves the total alone. */
  lemma {:induction false} HitTotalPut(entries: map<MergedContextConfiguration, EntryView>,
                                       order: seq<MergedContextConfiguration>,
                                       key: MergedContextConfiguration, v: EntryView)
    requires forall k :: k in order ==> k in entries
    requires key in order ==> v.hitCount == entries[key].hitCount
    ensures HitTotal(entries[key := v], order) == HitTotal(entries, order)
  {
    if order != [] {
      HitTotalPut(entries, order[..|order| - 1], key, v);
    }
  }

  /** One more hit on one entry adds one to the total. */
  lemma {:induction false} HitTotalOneMore(entries: map<MergedContextConfiguration, EntryView>,
                                           order: seq<MergedContextConfiguration>,
                                           key: MergedContextConfiguration, v: EntryView)
    requires forall k :: k in order ==> k in entries
    requires NoDuplicates(order) && key in order
    requires v.hitCount == entries[key].hitCount + 1
    ensures HitTotal(entries[key := v], order) == HitTotal(entries, order) + 1
  {
    var prefix, last := order[..|order| - 1], order[|order| - 1];
    if last == key {
      assert key !in prefix;
      HitTotalPut(entries, prefix, key, v);
    } else {
      assert key in prefix;
      HitTotalOneMore(entries, prefix, key, v);
    }
  }

  /** The entry after creation, linked to its nearest context when one was found. */
  function Linked(e: EntryView, nearest: Option<MergedContextConfiguration>): EntryView
  {
    if nearest.Some? then e.WithNearestContext(nearest.value) else e
  }

  /** The value of the tracker's fields, with each entry object replaced by its value. */
  datatype Registry = Registry(
    contextToTestMethods: map<MergedContextConfiguration, seq<string>>,
    entries: map<MergedContextConfiguration, EntryView>,
    entryOrder: seq<MergedContextConfiguration>,
    testClassToContext: map<string, MergedContextConfiguration>,
    contextCreationOrder: seq<MergedContextConfiguration>,
    totalContextsCreated: nat,
    cacheHits: nat,
    cacheMisses: nat)
  {
    /**
     * Each entry is valid, belongs to its configuration and is used by some test class;
     * the iteration order lists every entry once; a context is created exactly when its
     * configuration was recorded as created; every creation is a miss; every test class
     * maps to an entry that lists it; a nearest context is always a known one; the hit
     * counter is the sum of the entries' hit counts.
     */
    ghost predicate Valid()
    {
      EntriesWellFormed() && OrderListsEntries() && CreationsRecorded() && ClassesMapped()
      && NearestKnown() && cacheHits == HitTotal(entries, entryOrder)
    }

    ghost predicate EntriesWellFormed()
    {
      forall k {:trigger entries[k]} :: k in entries ==> entries[k].configuration == k && entries[k].Valid() && entries[k].testClasses != []
    }

    ghost predicate OrderListsEntries()
    {
      NoDuplicates(entryOrder) && forall k :: k in entryOrder <==> k in entries
    }

    ghost predicate CreationsRecorded()
    {
      && totalContextsCreated == cacheMisses == |contextCreationOrder|
      && (forall k {:trigger entries[k]} :: k in entries ==> (entries[k].created <==> k in contextCreationOrder))
      && (forall k :: k in contextCreationOrder ==> k in entries)
    }

    ghost predicate ClassesMapped()
    {
      forall c :: c in testClassToContext ==>
        testClassToContext[c] in entries && c in entries[testClassToContext[c]].testClasses
    }

    ghost predicate NearestKnown()
    {
      forall k {:trigger entries[k]} :: k in entries && entries[k].nearestContext.Some? ==> entries[k].nearestContext.value in entries
    }

    /** The entries' values in iteration order. */
    function Ordered(): seq<EntryView>
      requires Valid()
    {
      InOrder(entries, entryOrder)
    }

    /** `recordTestClassForContext` */
    function RegisterTestClass(config: MergedContextConfiguration, testClassName: string): Registry
    {
      var entry := if config in entries then entries[config] else NewEntry(config);
      this.(testClassToContext := testClassToContext[testClassName := config],
            entries := entries[config := entry.WithTestClass(testClassName)],
            entryOrder := if config in entries then entryOrder else entryOrder + [config])
    }

    /** `recordTestMethodForContext` */
    function RecordTestMethod(config: MergedContextConfiguration, testClassName: string, methodName: string): Registry
    {
      var methods := if config in contextToTestMethods then contextToTestMethods[config] else [];
      this.(contextToTestMethods := contextToTestMethods[config := methods + [testClassName + "." + methodName]])
    }

    /**
     * `recordContextCreation`. The search for the nearest context skips the configuration
     * itself, so it can be made over the entries before this one is marked created.
     */
    function RecordCreation(config: MergedContextConfiguration, loadTimeMs: int, now: int): Registry
    {
      if config !in entries then this
      else
        var order := contextCreationOrder + [config];
        var nearest := if |order| > 1 then Nearest(entries, entryOrder, config) else None;
        this.(entries := entries[config := Linked(entries[config].AfterCreation(loadTimeMs, now), nearest)],
              contextCreationOrder := order,
              totalContextsCreated := totalContextsCreated + 1,
              cacheMisses := cacheMisses + 1)
    }

    /** `recordBeanDefinitions` */
    function RecordBeanDefinitions(config: MergedContextConfiguration, beanNames: seq<string>): Registry
    {
      if config !in entries then this
      else this.(entries := entries[config := entries[config].WithBeanDefinitions(beanNames)])
    }

    /** `recordContextCacheHit` */
    function RecordHit(config: MergedContextConfiguration, now: int): Registry
    {
      if config !in entries then this
      else this.(entries := entries[config := entries[config].AfterCacheHit(now)], cacheHits := cacheHits + 1)
    }
  }

  /** The empty tracker, as constructed and as left by `clear()`. */
  function EmptyRegistry(): (r: Registry)
    ensures r.Valid()
  {
    Registry(map[], map[], [], map[], [], 0, 0, 0)
  }

  /** Replacing or adding one well-formed entry keeps every entry well formed and every nearest context known. */
  lemma PutKeepsEntriesValid(r: Registry, r': Registry, config: MergedContextConfiguration, e: EntryView)
    requires r.EntriesWellFormed() && r.NearestKnown()
    requires r'.entries == r.entries[config := e]
    requires e.Valid() && e.configuration == config && e.testClasses != []
    requires e.nearestContext.Some? ==> e.nearestContext.value in r.entries
    ensures r'.EntriesWellFormed() && r'.NearestKnown()
  {
    forall k | k in r'.entries
      ensures r'.entries[k].configuration == k && r'.entries[k].Valid() && r'.entries[k].testClasses != []
      ensures r'.entries[k].nearestContext.Some? ==> r'.entries[k].nearestContext.value in r'.entries
    {
      if k != config {
        assert r'.entries[k] == r.entries[k];
      }
    }
  }

  /** Replacing one entry by one with the same creation flag keeps the key order and the creation records. */
  lemma PutKeepsOrderAndCreations(r: Registry, r': Registry, config: MergedContextConfiguration, e: EntryView)
    requires r.OrderListsEntries() && r.CreationsRecorded() && config in r.entries
    requires r'.entries == r.entries[config := e] && r'.entryOrder == r.entryOrder
    requires r'.contextCreationOrder == r.contextCreationOrder
    requires r'.totalContextsCreated == r.totalContextsCreated && r'.cacheMisses == r.cacheMisses
    requires e.created == r.entries[config].created
    ensures r'.OrderListsEntries() && r'.CreationsRecorded()
  {
    forall k | k in r'.entries ensures r'.entries[k].created <==> k in r'.contextCreationOrder {
      if k != config {
        assert r'.entries[k] == r.entries[k];
      }
    }
  }

  /** Replacing one entry by one listing at least the same test classes keeps every test class mapped. */
  lemma PutKeepsClassesMapped(r: Registry, r': Registry, config: MergedContextConfiguration, e: EntryView)
    requires r.ClassesMapped() && config in r.entries
    requires r'.entries == r.entries[config := e] && r'.testClassToContext == r.testClassToContext
    requires forall t :: t in r.entries[config].testClasses ==> t in e.testClasses
    ensures r'.ClassesMapped()
  {
    forall c | c in r'.testClassToContext
      ensures r'.testClassToContext[c] in r'.entries && c in r'.entries[r'.testClassToContext[c]].testClasses
    {
      var k := r.testClassToContext[c];
      if k != config {
        assert r'.entries[k] == r.entries[k];
      }
    }
  }

  /** Registration leaves every other test class mapped and maps the new one to an entry listing it. */
  lemma RegisterKeepsClassesMapped(r: Registry, config: MergedContextConfiguration, testClassName: string)
    requires r.ClassesMapped()
    ensures r.RegisterTestClass(config, testClassName).ClassesMapped()
  {
    var r' := r.RegisterTestClass(config, testClassName);
    var before := if config in r.entries then r.entries[config] else NewEntry(config);
    var e := before.WithTestClass(testClassName);
    assert forall t :: t in before.testClasses ==> t in e.testClasses;
    forall c | c in r'.testClassToContext
      ensures r'.testClassToContext[c] in r'.entries && c in r'.entries[r'.testClassToContext[c]].testClasses
    {
      if c != testClassName {
        var k := r.testClassToContext[c];
        if k != config {
          assert r'.entries[k] == r.entries[k];
        }
      }
    }
  }

  /** Registering a class with a configuration seen for the first time appends it to the key order. */
  lemma RegisterNewKeepsOrderAndCreations(r: Registry, config: MergedContextConfiguration, testClassName: string)
    requires r.OrderListsEntries() && r.CreationsRecorded() && config !in r.entries
    ensures r.RegisterTestClass(config, testClassName).OrderListsEntries()
    ensures r.RegisterTestClass(config, testClassName).CreationsRecorded()
  {
    var r' := r.RegisterTestClass(config, testClassName);
    assert config !in r.entryOrder;
    assert r'.entryOrder == r.entryOrder + [config];
    forall k | k in r'.entries ensures r'.entries[k].created <==> k in r'.contextCreationOrder {
      if k != config {
        assert r'.entries[k] == r.entries[k];
      }
    }
  }

  /** Registering a test class keeps the tracker valid and maps the class to its configuration. */
  lemma RegisterKeepsValid(r: Registry, config: MergedContextConfiguration, testClassName: string)
    requires r.Valid()
    ensures r.RegisterTestClass(config, testClassName).Valid()
    ensures r.RegisterTestClass(config, testClassName).entries.Keys == r.entries.Keys + {config}
    ensures r.RegisterTestClass(config, testClassName).testClassToContext[testClassName] == config
    ensures testClassName in r.RegisterTestClass(config, testClassName).entries[config].testClasses
  {
    RegisterMapsClass(r, config, testClassName);
    RegisterKeepsClassesMapped(r, config, testClassName);
    if config in r.entries {
      RegisterKnownKeepsValid(r, config, testClassName);
    } else {
      RegisterNewKeepsValid(r, config, testClassName);
    }
  }

  lemma RegisterMapsClass(r: Registry, config: MergedContextConfiguration, testClassName: string)
    ensures r.RegisterTestClass(config, testClassName).entries.Keys == r.entries.Keys + {config}
    ensures r.RegisterTestClass(config, testClassName).testClassToContext[testClassName] == config
    ensures testClassName in r.RegisterTestClass(config, testClassName).entries[config].testClasses
  {
  }

  lemma RegisterKnownKeepsValid(r: Registry, config: MergedContextConfiguration, testClassName: string)
    requires r.Valid() && config in r.entries && r.RegisterTestClass(config, testClassName).ClassesMapped()
    ensures r.RegisterTestClass(config, testClassName).Valid()
  {
    var r' := r.RegisterTestClass(config, testClassName);
    var e := r.entries[config].WithTestClass(testClassName);
    assert r'.entries == r.entries[config := e];
    PutKeepsEntriesValid(r, r', config, e);
    PutKeepsOrderAndCreations(r, r', config, e);
    HitTotalPut(r.entries, r.entryOrder, config, e);
  }

  lemma RegisterNewKeepsValid(r: Registry, config: MergedContextConfiguration, testClassName: string)
    requires r.Valid() && config !in r.entries && r.RegisterTestClass(config, testClassName).ClassesMapped()
    ensures r.RegisterTestClass(config, testClassName).Valid()
  {
    var r' := r.RegisterTestClass(config, testClassName);
    var e := NewEntry(config).WithTestClass(testClassName);
    assert r'.entries == r.entries[config := e];
    PutKeepsEntriesValid(r, r', config, e);
    RegisterNewKeepsOrderAndCreations(r, config, testClassName);
    HitTotalPut(r.entries, r.entryOrder, config, e);
    assert r'.entryOrder[..|r.entryOrder|] == r.entryOrder;
    assert e.hitCount == 0;
  }

  /** A creation marks the entry created and records it once more in the creation order. */
  lemma CreationKeepsOrderAndCreations(r: Registry, config: MergedContextConfiguration, loadTimeMs: int, now: int)
    requires r.OrderListsEntries() && r.CreationsRecorded() && config in r.entries
    ensures r.RecordCreation(config, loadTimeMs, now).OrderListsEntries()
    ensures r.RecordCreation(config, loadTimeMs, now).CreationsRecorded()
    ensures r.RecordCreation(config, loadTimeMs, now).contextCreationOrder == r.contextCreationOrder + [config]
    ensures r.RecordCreation(config, loadTimeMs, now).entryOrder == r.entryOrder
    ensures r.RecordCreation(config, loadTimeMs, now).entries.Keys == r.entries.Keys
  {
    var r' := r.RecordCreation(config, loadTimeMs, now);
    assert r'.entries[config].created;
    forall k | k in r'.entries ensures r'.entries[k].created <==> k in r'.contextCreationOrder {
      if k != config {
        assert r'.entries[k] == r.entries[k];
      }
    }
  }

  /**
   * A creation keeps the tracker valid, counts one more miss, and the nearest context it
   * records, if any, is another context that was already created.
   */
  lemma CreationKeepsValid(r: Registry, config: MergedContextConfiguration, loadTimeMs: int, now: int)
    requires r.Valid()
    ensures r.RecordCreation(config, loadTimeMs, now).Valid()
    ensures config in r.entries ==> r.RecordCreation(config, loadTimeMs, now).entries[config].created
    ensures r.RecordCreation(config, loadTimeMs, now).cacheMisses == r.cacheMisses + (if config in r.entries then 1 else 0)
    ensures r.RecordCreation(config, loadTimeMs, now).cacheHits == r.cacheHits
    ensures config in r.entries && r.RecordCreation(config, loadTimeMs, now).entries[config].nearestContext != r.entries[config].nearestContext ==>
      var n := r.RecordCreation(config, loadTimeMs, now).entries[config].nearestContext.value;
      n != config && n in r.entries && r.entries[n].created
  {
    if config in r.entries {
      var r' := r.RecordCreation(config, loadTimeMs, now);
      var e := r'.entries[config];
      NearestIsFirstBest(r.entries, r.entryOrder, config);
      assert r'.entries == r.entries[config := e];
      PutKeepsEntriesValid(r, r', config, e);
      CreationKeepsOrderAndCreations(r, config, loadTimeMs, now);
      PutKeepsClassesMapped(r, r', config, e);
      HitTotalPut(r.entries, r.entryOrder, config, e);
    }
  }

  /** Recording bean definitions keeps the tracker valid. */
  lemma BeanDefinitionsKeepValid(r: Registry, config: MergedContextConfiguration, beanNames: seq<string>)
    requires r.Valid()
    ensures r.RecordBeanDefinitions(config, beanNames).Valid()
    ensures config in r.entries ==>
      r.RecordBeanDefinitions(config, beanNames).entries[config].beanDefinitionCount == |beanNames|
    ensures config in r.entries ==>
      r.RecordBeanDefinitions(config, beanNames).entries[config].beanDefinitionNames == ToSet(beanNames)
    ensures config !in r.entries ==> r.RecordBeanDefinitions(config, beanNames) == r
  {
    if config in r.entries {
      BeanDefinitionsOnKnownKeepValid(r, config, beanNames);
    }
  }

  lemma BeanDefinitionsOnKnownKeepValid(r: Registry, config: MergedContextConfiguration, beanNames: seq<string>)
    requires r.Valid() && config in r.entries
    ensures r.RecordBeanDefinitions(config, beanNames).Valid()
  {
    var r' := r.RecordBeanDefinitions(config, beanNames);
    var e := r'.entries[config];
    PutKeepsEntriesValid(r, r', config, e);
    PutKeepsOrderAndCreations(r, r', config, e);
    PutKeepsClassesMapped(r, r', config, e);
    HitTotalPut(r.entries, r.entryOrder, config, e);
  }

  /** A hit keeps the tracker valid: the hit counter stays the sum of the entries' hits. */
  lemma HitKeepsValid(r: Registry, config: MergedContextConfiguration, now: int)
    requires r.Valid()
    ensures r.RecordHit(config, now).Valid()
    ensures r.RecordHit(config, now).cacheHits == r.cacheHits + (if config in r.entries then 1 else 0)
    ensures r.RecordHit(config, now).cacheMisses == r.cacheMisses
  {
    if config in r.entries {
      HitOnKnownKeepsValid(r, config, now);
    }
  }

  lemma HitOnKnownKeepsValid(r: Registry, config: MergedContextConfiguration, now: int)
    requires r.Valid() && config in r.entries
    ensures r.RecordHit(config, now).Valid()
  {
    var r' := r.RecordHit(config, now);
    var e := r'.entries[config];
    PutKeepsEntriesValid(r, r', config, e);
    PutKeepsOrderAndCreations(r, r', config, e);
    PutKeepsClassesMapped(r, r', config, e);
    HitTotalOneMore(r.entries, r.entryOrder, config, e);
  }

  /** Every entry value of a valid tracker is valid and names a test class. */
  lemma OrderedEntriesValid(r: Registry)
    requires r.Valid()
    ensures forall e :: e in r.Ordered() ==> e.Valid() && e.testClasses != []
    ensures CreationsTimed(r.Ordered())
  {
    forall e | e in r.Ordered() ensures e.Valid() && e.testClasses != [] {
      var i :| 0 <= i < |r.entryOrder| && r.Ordered()[i] == e;
    }
  }

  /** A duplicate-free sequence listing exactly the elements of a set is as long as the set is large. */
  lemma {:induction false} DistinctListingCount<T>(order: seq<T>, keys: set<T>)
    requires NoDuplicates(order)
    requires forall k :: k in order <==> k in keys
    ensures |order| == |keys|
  {
    if order != [] {
      var last := order[|order| - 1];
      var prefix := order[..|order| - 1];
      assert order == prefix + [last];
      assert last !in prefix;
      DistinctListingCount(prefix, keys - {last});
    }
  }

  /** The entries in iteration order are all the entries, each once. */
  lemma OrderedHoldsEveryEntry(r: Registry)
    requires r.OrderListsEntries()
    ensures |InOrder(r.entries, r.entryOrder)| == |r.entries|
    ensures forall e :: e in InOrder(r.entries, r.entryOrder) <==> e in r.entries.Values
  {
    DistinctListingCount(r.entryOrder, r.entries.Keys);
    OrderedListsValues(r.entries, r.entryOrder);
  }

  /** Visiting every key lists every value. */
  lemma OrderedListsValues(entries: map<MergedContextConfiguration, EntryView>, order: seq<MergedContextConfiguration>)
    requires forall k :: k in order <==> k in entries
    ensures forall e :: e in InOrder(entries, order) <==> e in entries.Values
  {
    var listed := InOrder(entries, order);
    forall e | e in entries.Values ensures e in listed {
      var k :| k in entries && entries[k] == e;
      var i :| 0 <= i < |order| && order[i] == k;
      assert listed[i] == e;
    }
  }

  class ContextCacheTracker {
    /** For each configuration, the test methods run with it, as "Class.method". */
    var contextToTestMethods: map<MergedContextConfiguration, seq<string>>
    var cacheEntries: map<MergedContextConfiguration, EntryView>
    /** The iteration order of `cacheEntries`. */
    var entryOrder: seq<MergedContextConfiguration>
    var testClassToContext: map<string, MergedContextConfiguration>
    var contextCreationOrder: seq<MergedContextConfiguration>
    var totalContextsCreated: nat
    var cacheHits: nat
    var cacheMisses: nat

    function State(): Registry
      reads this
    {
      Registry(contextToTestMethods, cacheEntries, entryOrder, testClassToContext, contextCreationOrder,
               totalContextsCreated, cacheHits, cacheMisses)
    }

    ghost predicate Valid()
      reads this
    {
      State().Valid()
    }

    constructor ()
      ensures Valid() && State() == EmptyRegistry()
    {
      contextToTestMethods := map[];
      cacheEntries := map[];
      entryOrder := [];
      testClassToContext := map[];
      contextCreationOrder := [];
      totalContextsCreated, cacheHits, cacheMisses := 0, 0, 0;
    }

    method RecordTestClassForContext(config: MergedContextConfiguration, testClassName: string)
      requires Valid()
      modifies this
      ensures State() == old(State()).RegisterTestClass(config, testClassName)
      ensures Valid()
    {
      testClassToContext := testClassToContext[testClassName := config];
      var entry: EntryView;
      if config in cacheEntries {
        entry := cacheEntries[config];
      } else {
        entry := NewEntry(config);
        entryOrder := entryOrder + [config];
      }
      cacheEntries := cacheEntries[config := entry.WithTestClass(testClassName)];
      assert State() == old(State()).RegisterTestClass(config, testClassName);
      RegisterKeepsValid(old(State()), config, testClassName);
    }

    method RecordTestMethodForContext(config: MergedContextConfiguration, testClassName: string, methodName: string)
      requires Valid()
      modifies this
      ensures State() == old(State()).RecordTestMethod(config, testClassName, methodName)
      ensures Valid()
    {
      var methods := if config in contextToTestMethods then contextToTestMethods[config] else [];
      contextToTestMethods := contextToTestMethods[config := methods + [testClassName + "." + methodName]];
    }

    method RecordContextCreation(config: MergedContextConfiguration, loadTimeMs: int, now: int)
      requires Valid()
      modifies this
      ensures State() == old(State()).RecordCreation(config, loadTimeMs, now)
      ensures Valid()
    {
      CreationKeepsValid(State(), config, loadTimeMs, now);
      StoreCreation(config, loadTimeMs, now);
    }

    /**
     * The update `recordContextCreation` makes: a registered entry is marked created, counted
     * as a miss and, from the second creation on, linked to its nearest created context.
     */
    method StoreCreation(config: MergedContextConfiguration, loadTimeMs: int, now: int)
      modifies this
      ensures State() == old(State()).RecordCreation(config, loadTimeMs, now)
    {
      if config in cacheEntries {
        var entry := cacheEntries[config].AfterCreation(loadTimeMs, now);
        contextCreationOrder := contextCreationOrder + [config];
        totalContextsCreated := totalContextsCreated + 1;
        cacheMisses := cacheMisses + 1;
        if |contextCreationOrder| > 1 {
          var nearestConfig := FindNearestContext(cacheEntries, entryOrder, config);
          if nearestConfig.Some? {
            entry := entry.WithNearestContext(nearestConfig.value);
          }
        }
        cacheEntries := cacheEntries[config := entry];
      }
    }

    method RecordBeanDefinitions(config: MergedContextConfiguration, beanNames: seq<string>)
      requires Valid()
      modifies this
      ensures State() == old(State()).RecordBeanDefinitions(config, beanNames)
      ensures Valid()
    {
      BeanDefinitionsKeepValid(State(), config, beanNames);
      if config in cacheEntries {
        cacheEntries := cacheEntries[config := cacheEntries[config].WithBeanDefinitions(beanNames)];
      }
    }

    /** `recordContextCacheHit`; the entry need not have been created. */
    method RecordContextCacheHit(config: MergedContextConfiguration, now: int)
      requires Valid()
      modifies this
      ensures State() == old(State()).RecordHit(config, now)
      ensures Valid()
    {
      if config in cacheEntries {
        cacheEntries := cacheEntries[config := cacheEntries[config].AfterCacheHit(now)];
        cacheHits := cacheHits + 1;
      }
      assert State() == old(State()).RecordHit(config, now);
      HitKeepsValid(old(State()), config, now);
    }

    /** `getAllEntries()`: every entry once, in iteration order. */
    function GetAllEntries(): (r: seq<EntryView>)
      reads this
      requires Valid()
      ensures |r| == |cacheEntries| && forall e :: e in r <==> e in cacheEntries.Values
    {
      OrderedHoldsEveryEntry(State());
      InOrder(cacheEntries, entryOrder)
    }

    /** `getContextForTestClass`: the configuration last registered for the class. */
    function GetContextForTestClass(testClassName: string): (r: Option<MergedContextConfiguration>)
      reads this
      requires Valid()
      ensures r.None? <==> testClassName !in testClassToContext
      ensures r.Some? ==> r.value in State().entries && testClassName in State().entries[r.value].testClasses
      ensures r.Some? ==> r.value == testClassToContext[testClassName]
    {
      if testClassName in testClassToContext then Some(testClassToContext[testClassName]) else None
    }

    /** `getCacheEntry`: the configuration's entry, if a test class was registered with it. */
    function GetCacheEntry(config: MergedContextConfiguration): (r: Option<EntryView>)
      reads this
      requires Valid()
      ensures r.Some? <==> config in entryOrder
      ensures r.Some? ==> r.value.configuration == config && r.value.Valid() && r.value.testClasses != []
      ensures r.Some? ==> r.value == State().entries[config]
    {
      if config in cacheEntries then Some(cacheEntries[config]) else None
    }

    /** The loop of `calculatePotentialTimeSavings`, looking nearest contexts up in the map. */
    method CalculatePotentialTimeSavings(entries: seq<EntryView>) returns (savings: int)
      ensures savings == PotentialTimeSavings(cacheEntries, entries)
    {
      savings := 0;
      var i := 0;
      while i < |entries|
        invariant 0 <= i <= |entries|
        invariant savings == PotentialTimeSavings(cacheEntries, entries[..i])
      {
        assert entries[..i + 1][..i] == entries[..i];
        var nearest := entries[i].nearestContext;
        if nearest.Some? && nearest.value in cacheEntries {
          var nearestEntry := cacheEntries[nearest.value];
          if nearestEntry.created {
            savings := savings + entries[i].contextLoadTimeMs;
          }
        }
        i := i + 1;
      }
      assert entries[..i] == entries;
    }

    /** `calculateOptimizationStatistics()` over the entries in iteration order. */
    method CalculateOptimizationStatistics() returns (stats: OptimizationStatistics)
      requires Valid()
      ensures stats == Statistics(State().entries, State().Ordered())
    {
      var ordered := InOrder(State().entries, entryOrder);
      OrderedEntriesValid(State());
      var created := CreatedEntries(ordered);
      if created == [] {
        return OptimizationStatistics(0, 0, 0, 0, []);
      }
      var total := TotalLoadTime(created);
      var savings := CalculatePotentialTimeSavings(created);
      var wasted := WastedTime(created);
      var opportunities := Opportunities(ordered);
      stats := OptimizationStatistics(total, savings, wasted, |created|, opportunities);
    }

    /** `getTimelineData()` over the entries in iteration order. */
    method GetTimelineData(now: int) returns (data: TimelineData)
      requires Valid()
      ensures data == TimelineFor(State().Ordered(), now)
    {
      OrderedEntriesValid(State());
      data := BuildTimeline(InOrder(cacheEntries, entryOrder), now);
    }

    /** `clear()`: forgets every registration, entry and creation, and zeroes the counters. */
    method Clear()
      modifies this
      ensures Valid() && State() == EmptyRegistry()
    {
      contextToTestMethods := map[];
      cacheEntries := map[];
      entryOrder := [];
      testClassToContext := map[];
      contextCreationOrder := [];
      totalContextsCreated, cacheHits, cacheMisses := 0, 0, 0;
    }
  }
}

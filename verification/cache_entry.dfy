/**
 * One context-cache entry: a configuration, the test classes that use it, whether and when
 * its application context was created, its cache hits, its bean definitions, its load time,
 * the earlier context it most resembles, and every instant it was accessed.
 */
module CacheEntry {
  import opened Wrappers
  import opened Strings
  import opened Sorting
  import opened Configuration

  /** Instants are milliseconds since the epoch; `None` is a field still `null`. */
  datatype EntryView = EntryView(
    configuration: MergedContextConfiguration,
    testClasses: seq<string>,
    created: bool,
    creationTime: Option<int>,
    lastUsedTime: Option<int>,
    firstUsedTime: Option<int>,
    hitCount: nat,
    nearestContext: Option<MergedContextConfiguration>,
    beanDefinitionCount: nat,
    beanDefinitionNames: set<string>,
    contextLoadTimeMs: int,
    accessTimes: seq<int>)
  {
    /**
     * What every entry satisfies: the test classes are a set; an entry is created exactly
     * when it has a creation time; the last-used time is the latest access; the first-used
     * and creation times are accesses; a created entry was first used when it was created;
     * there are at least as many bean definitions as distinct bean names.
     */
    ghost predicate Valid()
    {
      NoDuplicates(testClasses)
      && (created <==> creationTime.Some?)
      && (lastUsedTime.Some? <==> accessTimes != [])
      && (accessTimes != [] ==> lastUsedTime == Some(accessTimes[|accessTimes| - 1]))
      && (firstUsedTime.Some? <==> accessTimes != [])
      && (firstUsedTime.Some? ==> firstUsedTime.value in accessTimes)
      && (creationTime.Some? ==> creationTime.value in accessTimes)
      && (created ==> firstUsedTime == creationTime)
      && |beanDefinitionNames| <= beanDefinitionCount
    }

    /** `addTestClass`: the class set grows by one class. */
    function WithTestClass(testClass: string): (r: EntryView)
      ensures Valid() ==> r.Valid()
      ensures forall t :: t in r.testClasses <==> t in testClasses || t == testClass
      ensures testClass in testClasses ==> r == this
    {
      if testClass in testClasses then this
      else this.(testClasses := testClasses + [testClass])
    }

    /** `recordCreation(loadTimeMs)` at instant `now`. */
    function AfterCreation(loadTimeMs: int, now: int): (r: EntryView)
      ensures Valid() ==> r.Valid()
    {
      this.(created := true, contextLoadTimeMs := loadTimeMs, creationTime := Some(now),
            firstUsedTime := Some(now), lastUsedTime := Some(now), accessTimes := accessTimes + [now])
    }

    /** `recordCacheHit()` at instant `now`. */
    function AfterCacheHit(now: int): (r: EntryView)
      ensures Valid() ==> r.Valid()
    {
      this.(hitCount := hitCount + 1, lastUsedTime := Some(now), accessTimes := accessTimes + [now],
            firstUsedTime := if firstUsedTime.None? then Some(now) else firstUsedTime)
    }

    function WithNearestContext(nearest: MergedContextConfiguration): (r: EntryView)
      ensures Valid() ==> r.Valid()
    {
      this.(nearestContext := Some(nearest))
    }

    /** `setBeanDefinitions(names)`: the count is the array's length, the names its distinct elements. */
    function WithBeanDefinitions(names: seq<string>): (r: EntryView)
      ensures Valid() ==> r.Valid()
    {
      this.(beanDefinitionCount := |names|, beanDefinitionNames := ToSet(names))
    }

    /** `getAgeInMillis()`: -1 before creation, else the time since creation. */
    function AgeInMillis(now: int): (ms: int)
      ensures creationTime.None? ==> ms == -1
      ensures creationTime.Some? ==> creationTime.value + ms == now
    {
      if creationTime.None? then -1 else now - creationTime.value
    }

    /** `getLifespanInMillis()`: 0 before the first use, else from first to last use. */
    function LifespanInMillis(): (ms: int)
      ensures firstUsedTime.None? || lastUsedTime.None? ==> ms == 0
      ensures firstUsedTime.Some? && lastUsedTime.Some? ==> firstUsedTime.value + ms == lastUsedTime.value
    {
      if firstUsedTime.None? || lastUsedTime.None? then 0 else lastUsedTime.value - firstUsedTime.value
    }

    /** `getTimeSinceLastUseInMillis()`: -1 before the first use, else the time since the last. */
    function TimeSinceLastUseInMillis(now: int): (ms: int)
      ensures lastUsedTime.None? ==> ms == -1
      ensures lastUsedTime.Some? ==> lastUsedTime.value + ms == now
    {
      if lastUsedTime.None? then -1 else now - lastUsedTime.value
    }
  }

  /** A freshly constructed entry for `configuration`. */
  function NewEntry(configuration: MergedContextConfiguration): (e: EntryView)
    ensures e.Valid()
    ensures e.configuration == configuration && !e.created && e.hitCount == 0 && e.accessTimes == []
    ensures e.testClasses == [] && e.contextLoadTimeMs == 0 && e.beanDefinitionCount == 0 && e.nearestContext.None?
    ensures e.creationTime.None? && e.firstUsedTime.None? && e.lastUsedTime.None?
  {
    EntryView(configuration, [], false, None, None, None, 0, None, 0, {}, 0, [])
  }

  /** The calls an entry receives over its life. */
  datatype EntryEvent =
    | TestClassAdded(testClass: string)
    | Created(loadTimeMs: int, at: int)
    | CacheHit(at: int)
    | NearestFound(nearest: MergedContextConfiguration)
    | BeanDefinitionsSet(names: seq<string>)

  function Apply(e: EntryView, event: EntryEvent): EntryView
  {
    match event
    case TestClassAdded(c) => e.WithTestClass(c)
    case Created(t, at) => e.AfterCreation(t, at)
    case CacheHit(at) => e.AfterCacheHit(at)
    case NearestFound(n) => e.WithNearestContext(n)
    case BeanDefinitionsSet(names) => e.WithBeanDefinitions(names)
  }

  function Replay(e: EntryView, events: seq<EntryEvent>): EntryView
  {
    if events == [] then e else Apply(Replay(e, events[..|events| - 1]), events[|events| - 1])
  }

  function Hits(events: seq<EntryEvent>): nat
  {
    if events == [] then 0 else Hits(events[..|events| - 1]) + (if events[|events| - 1].CacheHit? then 1 else 0)
  }

  function Creations(events: seq<EntryEvent>): nat
  {
    if events == [] then 0 else Creations(events[..|events| - 1]) + (if events[|events| - 1].Created? then 1 else 0)
  }

  /** The instants of the creations and cache hits, in order. */
  function Accesses(events: seq<EntryEvent>): seq<int>
  {
    if events == [] then []
    else
      var last := events[|events| - 1];
      Accesses(events[..|events| - 1]) + (if last.Created? || last.CacheHit? then [last.at] else [])
  }

  /** One call keeps the entry valid and moves its counters by what that call contributes. */
  lemma ApplyCounts(e: EntryView, event: EntryEvent)
    requires e.Valid()
    ensures var r := Apply(e, event);
      r.Valid()
      && r.configuration == e.configuration
      && r.hitCount == e.hitCount + (if event.CacheHit? then 1 else 0)
      && r.accessTimes == e.accessTimes + (if event.Created? || event.CacheHit? then [event.at] else [])
      && (r.created <==> e.created || event.Created?)
  {
  }

  /**
   * Over any life, an entry counts exactly its cache hits, records exactly the instants of
   * its creations and hits, and is created exactly when it received a creation.
   */
  lemma {:induction false} ReplayCounts(configuration: MergedContextConfiguration, events: seq<EntryEvent>)
    ensures var e := Replay(NewEntry(configuration), events);
      e.Valid()
      && e.configuration == configuration
      && e.hitCount == Hits(events)
      && e.accessTimes == Accesses(events)
      && (e.created <==> Creations(events) > 0)
  {
    if events != [] {
      var prefix, last := events[..|events| - 1], events[|events| - 1];
      ReplayCounts(configuration, prefix);
      ApplyCounts(Replay(NewEntry(configuration), prefix), last);
    }
  }

  predicate Nondecreasing(s: seq<int>)
  {
    forall i, j :: 0 <= i < j < |s| ==> s[i] <= s[j]
  }

  /**
   * With a clock that never goes backwards, the -1 sentinels mean exactly "never created"
   * and "never used", and no duration is negative.
   */
  lemma MonotoneClockDurations(e: EntryView, now: int)
    requires e.Valid()
    requires Nondecreasing(e.accessTimes)
    requires forall i :: 0 <= i < |e.accessTimes| ==> e.accessTimes[i] <= now
    ensures e.LifespanInMillis() >= 0
    ensures e.AgeInMillis(now) == -1 <==> !e.created
    ensures e.AgeInMillis(now) != -1 ==> e.AgeInMillis(now) >= 0
    ensures e.TimeSinceLastUseInMillis(now) == -1 <==> e.accessTimes == []
    ensures e.TimeSinceLastUseInMillis(now) != -1 ==> e.TimeSinceLastUseInMillis(now) >= 0
  {
    if e.firstUsedTime.Some? {
      var k :| 0 <= k < |e.accessTimes| && e.accessTimes[k] == e.firstUsedTime.value;
      assert e.firstUsedTime.value <= e.accessTimes[|e.accessTimes| - 1];
    }
    if e.creationTime.Some? {
      var k :| 0 <= k < |e.accessTimes| && e.accessTimes[k] == e.creationTime.value;
    }
  }

  /**
   * A context-cache entry object. Its fields are those of the source class; `View` is the
   * value they hold.
   */
  class ContextCacheEntry {
    const configuration: MergedContextConfiguration
    var testClasses: seq<string>
    var created: bool
    var creationTime: Option<int>
    var lastUsedTime: Option<int>
    var firstUsedTime: Option<int>
    var hitCount: nat
    var nearestContext: Option<MergedContextConfiguration>
    var beanDefinitionCount: nat
    var beanDefinitionNames: set<string>
    var contextLoadTimeMs: int
    var accessTimes: seq<int>

    function View(): EntryView
      reads this
    {
      EntryView(configuration, testClasses, created, creationTime, lastUsedTime, firstUsedTime, hitCount,
                nearestContext, beanDefinitionCount, beanDefinitionNames, contextLoadTimeMs, accessTimes)
    }

    ghost predicate Valid()
      reads this
    {
      View().Valid()
    }

    constructor (configuration: MergedContextConfiguration)
      ensures View() == NewEntry(configuration) && Valid()
    {
      this.configuration := configuration;
      testClasses := [];
      created := false;
      creationTime, lastUsedTime, firstUsedTime := None, None, None;
      hitCount := 0;
      nearestContext := None;
      beanDefinitionCount := 0;
      beanDefinitionNames := {};
      contextLoadTimeMs := 0;
      accessTimes := [];
    }

    method AddTestClass(testClassName: string)
      requires Valid()
      modifies this
      ensures Valid() && View() == old(View()).WithTestClass(testClassName)
    {
      if testClassName !in testClasses {
        testClasses := testClasses + [testClassName];
      }
    }

    /** `recordCreation(loadTimeMs)`; the no-argument overload passes 0. */
    method RecordCreation(loadTimeMs: int, now: int)
      requires Valid()
      modifies this
      ensures Valid() && View() == old(View()).AfterCreation(loadTimeMs, now)
    {
      created := true;
      contextLoadTimeMs := loadTimeMs;
      creationTime := Some(now);
      firstUsedTime := Some(now);
      lastUsedTime := Some(now);
      accessTimes := accessTimes + [now];
    }

    method RecordCacheHit(now: int)
      requires Valid()
      modifies this
      ensures Valid() && View() == old(View()).AfterCacheHit(now)
    {
      hitCount := hitCount + 1;
      lastUsedTime := Some(now);
      accessTimes := accessTimes + [now];
      if firstUsedTime.None? {
        firstUsedTime := Some(now);
      }
    }

    method SetNearestContext(nearest: MergedContextConfiguration)
      requires Valid()
      modifies this
      ensures Valid() && View() == old(View()).WithNearestContext(nearest)
    {
      nearestContext := Some(nearest);
    }

    method SetBeanDefinitions(beanNames: seq<string>)
      requires Valid()
      modifies this
      ensures Valid() && View() == old(View()).WithBeanDefinitions(beanNames)
    {
      beanDefinitionCount := |beanNames|;
      beanDefinitionNames := ToSet(beanNames);
    }
  }

  /** The entries whose context was created, in their order. */
  function CreatedEntries(entries: seq<EntryView>): (r: seq<EntryView>)
    ensures forall e :: e in r <==> e in entries && e.created
    ensures forall i :: 0 <= i < |r| ==> r[i].created && r[i] in entries
    ensures multiset(r) <= multiset(entries)
  {
    Filter(entries, (e: EntryView) => e.created)
  }

  /** The created entries keep their relative order: the listing splits with its input. */
  lemma CreatedEntriesInOrder(s: seq<EntryView>, t: seq<EntryView>)
    ensures CreatedEntries(s + t) == CreatedEntries(s) + CreatedEntries(t)
  {
    FilterAppend(s, t, (e: EntryView) => e.created);
  }

  /** A created entry is listed as often as it occurs; an uncreated one never. */
  lemma CreatedEntriesCount(entries: seq<EntryView>, e: EntryView)
    ensures multiset(CreatedEntries(entries))[e] == if e.created then multiset(entries)[e] else 0
  {
    FilterCount(entries, (e: EntryView) => e.created, e);
  }
}

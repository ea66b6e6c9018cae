/**
 * The older context-cache tracker of the insight extension. Its registry, counters and
 * nearest-context search are those of the main tracker, except that a creation carries no
 * load time (its entries keep a load time of 0); it adds the per-configuration test-method
 * lists, the timeline bounds, the entries sorted by creation and the timeline span.
 */
module LegacyTracker {
  import opened Wrappers
  import opened Configuration
  import opened CacheEntry
  import opened Timeline
  import opened CacheTracker

  /** `getTestMethodsForContext`: the "Class.method" names run with the configuration. */
  function TestMethodsFor(r: Registry, config: MergedContextConfiguration): (methods: seq<string>)
    ensures config !in r.contextToTestMethods ==> methods == []
  {
    if config in r.contextToTestMethods then r.contextToTestMethods[config] else []
  }

  /**
   * Recording a test method appends its "Class.method" name to its configuration's list,
   * keeping earlier names and duplicates, whether or not the configuration has an entry;
   * every other list and the entries stay as they were.
   */
  lemma TestMethodAppended(r: Registry, config: MergedContextConfiguration, testClassName: string,
                           methodName: string, other: MergedContextConfiguration)
    ensures var r' := r.RecordTestMethod(config, testClassName, methodName);
      TestMethodsFor(r', config) == TestMethodsFor(r, config) + [testClassName + "." + methodName]
      && (other != config ==> TestMethodsFor(r', other) == TestMethodsFor(r, other))
      && r'.contextToTestMethods.Keys == r.contextToTestMethods.Keys + {config}
      && r'.entries == r.entries && r'.cacheHits == r.cacheHits && r'.cacheMisses == r.cacheMisses
  {
  }

  /** `getEarliestContextCreationTime()` */
  function EarliestCreation(r: Registry): Option<int>
    requires r.Valid()
  {
    EarliestCreationTime(r.Ordered())
  }

  /** `getLatestContextAccessTime()` */
  function LatestAccess(r: Registry): Option<int>
    requires r.Valid()
  {
    LatestAccessTime(r.Ordered())
  }

  /** `getEntriesSortedByCreationTime()` */
  function SortedByCreation(r: Registry): (sorted: seq<EntryView>)
    requires r.Valid()
    ensures multiset(sorted) == multiset(CreatedEntries(r.Ordered()))
    ensures forall i, j :: 0 <= i < j < |sorted| ==>
      sorted[i].creationTime.Some? && sorted[j].creationTime.Some?
      && sorted[i].creationTime.value <= sorted[j].creationTime.value
  {
    OrderedEntriesValid(r);
    ByCreationTimeOrdered(r.Ordered());
    ByCreationTime(r.Ordered())
  }

  /** `getTotalTimelineSpanInMillis()`: 0 unless both bounds exist. */
  function TimelineSpan(r: Registry): int
    requires r.Valid()
  {
    var earliest := EarliestCreation(r);
    var latest := LatestAccess(r);
    if earliest.Some? && latest.Some? then latest.value - earliest.value else 0
  }

  /** With a clock that never goes backwards, a created entry was last used no earlier than it was created. */
  lemma CreatedBeforeLastUse(e: EntryView)
    requires e.Valid() && e.created && Nondecreasing(e.accessTimes)
    ensures e.lastUsedTime.Some? && e.creationTime.value <= e.lastUsedTime.value
  {
    var k :| 0 <= k < |e.accessTimes| && e.accessTimes[k] == e.creationTime.value;
  }

  /** Over valid entries, the first creation comes no later than the last access. */
  lemma CreationBeforeLatestAccess(entries: seq<EntryView>)
    requires forall e :: e in entries ==> e.Valid() && Nondecreasing(e.accessTimes)
    ensures EarliestCreationTime(entries).Some? ==>
      LatestAccessTime(entries).Some? && EarliestCreationTime(entries).value <= LatestAccessTime(entries).value
  {
    var earliest := EarliestCreationTime(entries);
    if earliest.Some? {
      var i :| 0 <= i < |entries| && entries[i].created && entries[i].creationTime == earliest;
      CreatedBeforeLastUse(entries[i]);
    }
  }

  /**
   * Once a context was created the timeline has an end as well as a start, and with a clock
   * that never goes backwards the span from the first creation to the last access is never
   * negative.
   */
  lemma TimelineSpanNonNegative(r: Registry)
    requires r.Valid()
    requires forall e :: e in r.Ordered() ==> Nondecreasing(e.accessTimes)
    ensures EarliestCreation(r).Some? ==> LatestAccess(r).Some?
    ensures TimelineSpan(r) >= 0
    ensures EarliestCreation(r).None? ==> TimelineSpan(r) == 0
  {
    OrderedEntriesValid(r);
    CreationBeforeLatestAccess(r.Ordered());
  }
}

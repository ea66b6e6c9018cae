# Spring test profiler: context-cache tracking, in Dafny

This project models the bookkeeping core of the Spring test profiler. The profiler watches a
JUnit test run that uses the Spring TestContext framework. It records, for every merged
context configuration, which test classes used it, whether its application context had to be
created or came from the context cache, how long the creation took, and which earlier
context it most resembles. From that it derives the figures of its HTML report: optimisation
opportunities, a timeline of context creations, per-class test outcomes and cache-key
statistics. The report's search and comparison helpers in `report.js` are modelled too.

The model follows the source's structure, one module per component:

- `CacheEntry`, `CacheTracker`, `Similarity`, `NearestContext`, `Optimization` and `Timeline`
  model the context-cache tracker and its entries. The tracker holds a registry of entries
  keyed by configuration, the test-class and test-method maps, the creation order and the
  hit, miss and creation counters. Its invariant ties the counters to the entries: the hit
  counter is the sum of the entries' hits, and every creation is recorded in the creation
  order.
- `LegacyTracker` models the older tracker of the insight extension. It shares the main
  tracker's registry and adds the per-configuration method lists, the sorted-entries view
  and the timeline span.
- `ProfilerListener` models the listener's decision after a context load: a hit when the
  context was already created, otherwise a creation followed by the bean definitions.
- `ContextStatistics`, `ExecutionTracker`, `BeanProfiler`, `ContextProfile` and
  `ContextIds` model the counter and statistics holders.
- `ExecutionData`, `TemplateHelpers` and `CacheKeyAggregation` model the report helpers and
  the test-execution records. `ExecutionData.ClassExecutions` stands for both
  `TestClassExecutionData` types, whose counters behave identically.
- `ConfigurationDetector` and `InsightExtension` model the profiler extension: the
  class-to-configuration registry and the phase and report-once logic.
- `ReportScript` models the pure helpers of `report.js`.
- `Sorting`, `Strings`, `Collections`, `Configuration` and `Wrappers` hold the shared
  definitions: a stable insertion sort standing for Java's stable list sort, Java string
  operations, and the configuration value.

Each mutable Java class is a Dafny class with the same fields. Each of its methods is proved
against a pure transition on a value view of those fields. The lemmas about the transitions
state what the source promises: invariants kept, counters moved by exactly one, no-op cases,
orderings and round trips. Loops in the source are loops in the model, each proved equal to
the function that specifies it.

Conventions used throughout:
- A Java `null` is `None`.
- An `Instant` is an `int` of milliseconds, and `Instant.now()` is a parameter `now`.
- A `ConcurrentHashMap` is a `map`. Its iteration order is a sequence of keys kept beside the
  map, or a parameter where the source iterates a map it does not own.
- A `MergedContextConfiguration` is a datatype holding its locations, classes, initializer
  classes, active profiles, property sources, loader class and parent.

Two behaviours of the code are worth stating, and the model keeps both:
- `recordContextCacheHit` does not check that the entry was created. A hit on a registered
  but uncreated entry counts, and only the listener guards against it.
- The "slow context" recommendation applies only above 2000 ms.

## Model

| member | source | states |
|---|---|---|
| CacheEntry.EntryView.WithTestClass | src/main/java/digital/pragmatech/testing/ContextCacheEntry.java:41-43 | keeps the entry invariant (test classes without repeats, created exactly with a creation instant, the last use is the latest access, the first use and the creation are accesses); the test classes become the old ones plus the new class, and adding a class already there changes nothing |
| CacheEntry.EntryView.AfterCreation | src/main/java/digital/pragmatech/testing/ContextCacheEntry.java:45-57 | a creation keeps the entry invariant: test classes without repeats, created exactly with a creation instant, the last use is the latest access, the first use and the creation are accesses |
| CacheEntry.EntryView.AfterCacheHit | src/main/java/digital/pragmatech/testing/ContextCacheEntry.java:59-69 | a hit keeps the entry invariant: test classes without repeats, created exactly with a creation instant, the last use is the latest access, the first use and the creation are accesses |
| CacheEntry.EntryView.WithNearestContext | src/main/java/digital/pragmatech/testing/ContextCacheEntry.java:71-73 | setting the nearest context keeps the entry invariant |
| CacheEntry.EntryView.WithBeanDefinitions | src/main/java/digital/pragmatech/testing/ContextCacheEntry.java:75-79 | recording bean definitions keeps the entry invariant, with at least as many definitions as distinct names |
| CacheEntry.NewEntry | src/main/java/digital/pragmatech/testing/ContextCacheEntry.java:22-39 | a new entry is valid, for its configuration, not created, with no test class, hit, access, timestamp, load time, bean definition or nearest context |
| CacheEntry.ApplyCounts | src/main/java/digital/pragmatech/testing/ContextCacheEntry.java:41-79 | each of the entry's operations keeps it valid and moves the hit count, the access list and the creation flag by exactly that operation's contribution |
| CacheEntry.ReplayCounts | src/main/java/digital/pragmatech/testing/ContextCacheEntry.java:37-79 | over any sequence of calls the hit count is the number of hits, the access instants are the instants of the creations and hits in order, and the entry is created exactly when a creation was recorded |
| CacheEntry.MonotoneClockDurations | src/main/java/digital/pragmatech/testing/ContextCacheEntry.java:122-151 | with a clock that never goes backwards, age -1 means exactly "never created", time since last use -1 means exactly "never accessed", and no age, lifespan or idle time is negative |
| CacheEntry.EntryView.AgeInMillis | src/main/java/digital/pragmatech/testing/ContextCacheEntry.java:122-127 | -1 before creation; otherwise creation instant plus age is the current instant |
| CacheEntry.EntryView.LifespanInMillis | src/main/java/digital/pragmatech/testing/ContextCacheEntry.java:134-139 | 0 without a first or last use; otherwise first use plus lifespan is the last use |
| CacheEntry.EntryView.TimeSinceLastUseInMillis | src/main/java/digital/pragmatech/testing/ContextCacheEntry.java:146-151 | -1 before any use; otherwise last use plus idle time is the current instant |
| CacheEntry.ContextCacheEntry.constructor | src/main/java/digital/pragmatech/testing/ContextCacheEntry.java:37-39 | the new object holds a fresh entry for the configuration |
| CacheEntry.ContextCacheEntry.AddTestClass | src/main/java/digital/pragmatech/testing/ContextCacheEntry.java:41-43 | the object's value becomes `WithTestClass` of its old value and stays valid |
| CacheEntry.ContextCacheEntry.RecordCreation | src/main/java/digital/pragmatech/testing/ContextCacheEntry.java:45-57 | the object's value becomes `AfterCreation` of its old value; the no-argument overload passes a load time of 0 |
| CacheEntry.ContextCacheEntry.RecordCacheHit | src/main/java/digital/pragmatech/testing/ContextCacheEntry.java:59-69 | the object's value becomes `AfterCacheHit` of its old value |
| CacheEntry.ContextCacheEntry.SetNearestContext | src/main/java/digital/pragmatech/testing/ContextCacheEntry.java:71-73 | the object's value becomes `WithNearestContext` of its old value |
| CacheEntry.ContextCacheEntry.SetBeanDefinitions | src/main/java/digital/pragmatech/testing/ContextCacheEntry.java:75-79 | the object's value becomes `WithBeanDefinitions` of its old value |
| CacheEntry.CreatedEntries | src/main/java/digital/pragmatech/testing/ContextCacheTracker.java:217-223 | an entry is listed exactly when it occurs in the input and is created, and never more often than it occurs |
| CacheEntry.CreatedEntriesInOrder | src/main/java/digital/pragmatech/testing/ContextCacheTracker.java:217-223 | the created entries of two concatenated listings are those of the first followed by those of the second, so the input order is kept |
| CacheEntry.CreatedEntriesCount | src/main/java/digital/pragmatech/testing/ContextCacheTracker.java:217-223 | a created entry is listed as often as it occurs in the input, an uncreated one never |
| Similarity.SimilarityScore | src/main/java/digital/pragmatech/testing/ContextCacheTracker.java:154-190 | the score is at least ten points per configuration class the two share |
| Similarity.SimilaritySymmetric | src/main/java/digital/pragmatech/testing/ContextCacheTracker.java:154-190 | the score does not depend on which configuration is the target |
| Similarity.DisjointIffNoCommon | src/main/java/digital/pragmatech/testing/ContextCacheTracker.java:154-190 | two lists share no element exactly when their sets' intersection is empty, which is how the score counts shared classes and properties |
| Similarity.SimilarityZeroIffNothingShared | src/main/java/digital/pragmatech/testing/ContextCacheTracker.java:154-190 | a score of zero means exactly: no shared class, no shared inlined property, different profile sets, no two loaders of one class and different initializer sets |
| Similarity.SelfIsMostSimilar | src/main/java/digital/pragmatech/testing/ContextCacheTracker.java:154-190 | no configuration scores higher against a target than the target itself |
| Configuration.ToSet | src/main/java/digital/pragmatech/testing/ContextCacheTracker.java:158-161 | the set holds exactly the list's elements and is no larger than the list |
| Configuration.IntersectionNoLarger | src/main/java/digital/pragmatech/testing/ContextCacheTracker.java:158-162 | the shared part of two sets is no larger than either |
| NearestContext.NearestIsFirstBest | src/main/java/digital/pragmatech/testing/ContextCacheTracker.java:122-148 | the nearest context is a created entry other than the target, scores at least as high as every such entry, and no such entry visited before it scores as high; there is none exactly when no such entry scores above zero |
| NearestContext.NearestIgnoresTarget | src/main/java/digital/pragmatech/testing/ContextCacheTracker.java:122-148 | the search never looks at the target's own entry |
| NearestContext.ScanBound | src/main/java/digital/pragmatech/testing/ContextCacheTracker.java:130-145 | the scan keeps the best score seen so far and the candidate that scored it |
| NearestContext.ScanFirst | src/main/java/digital/pragmatech/testing/ContextCacheTracker.java:130-145 | the candidate kept is the first one visited with the best score |
| NearestContext.FindNearestContext | src/main/java/digital/pragmatech/testing/ContextCacheTracker.java:122-148 | the loop returns the nearest context of the model, for any iteration order |
| CacheTracker.EmptyRegistry | src/main/java/digital/pragmatech/testing/ContextCacheTracker.java:422-430 | the empty tracker satisfies the tracker invariant |
| CacheTracker.HitTotalPut | src/main/java/digital/pragmatech/testing/ContextCacheTracker.java:110-116 | replacing an entry by one with as many hits leaves the total of the entries' hits unchanged |
| CacheTracker.HitTotalOneMore | src/main/java/digital/pragmatech/testing/ContextCacheTracker.java:110-116 | one more hit on one entry adds one to the total of the entries' hits |
| CacheTracker.RegisterKeepsValid | src/main/java/digital/pragmatech/testing/ContextCacheTracker.java:53-61 | registering a test class keeps the tracker valid, adds its configuration to the known ones, maps the class to it and lists the class in its entry |
| CacheTracker.RegisterKeepsClassesMapped | src/main/java/digital/pragmatech/testing/ContextCacheTracker.java:53-61 | after a registration every test class still maps to an entry that lists it |
| CacheTracker.CreationKeepsValid | src/main/java/digital/pragmatech/testing/ContextCacheTracker.java:76-94 | a creation keeps the tracker valid, marks a registered entry created and counts one more miss for it and no hit; a nearest context it records is another, already created, context |
| CacheTracker.CreationKeepsOrderAndCreations | src/main/java/digital/pragmatech/testing/ContextCacheTracker.java:76-94 | a creation of a known configuration appends it to the creation order, keeps the key order and the set of configurations, and keeps the order and creation invariants |
| CacheTracker.BeanDefinitionsKeepValid | src/main/java/digital/pragmatech/testing/ContextCacheTracker.java:99-105 | recording bean definitions keeps the tracker valid; a known configuration gets the list length as its count and exactly the listed names, replacing the old ones; an unknown one changes nothing |
| CacheTracker.HitKeepsValid | src/main/java/digital/pragmatech/testing/ContextCacheTracker.java:110-116 | a hit keeps the tracker valid, adds one to the hit counter exactly when the configuration has an entry, and leaves the misses alone |
| CacheTracker.OrderedEntriesValid | src/main/java/digital/pragmatech/testing/ContextCacheTracker.java:195-197 | every entry of a valid tracker is valid and names a test class, and every created entry has a creation instant |
| CacheTracker.OrderedHoldsEveryEntry | src/main/java/digital/pragmatech/testing/ContextCacheTracker.java:195-197 | the entries in iteration order are all the entries, each once |
| CacheTracker.InOrder | src/main/java/digital/pragmatech/testing/ContextCacheTracker.java:195-197 | the values listed are those of the keys of the order, position by position |
| CacheTracker.ContextCacheTracker.constructor | src/main/java/digital/pragmatech/testing/ContextCacheTracker.java:34-48 | a new tracker is valid and empty |
| CacheTracker.ContextCacheTracker.RecordTestClassForContext | src/main/java/digital/pragmatech/testing/ContextCacheTracker.java:53-61 | on a valid tracker, the state becomes the registration of the class and the tracker stays valid |
| CacheTracker.ContextCacheTracker.RecordTestMethodForContext | src/main/java/digital/pragmatech/testing/ContextCacheTracker.java:66-71 | on a valid tracker, the "Class.method" name is appended to the configuration's method list and the tracker stays valid |
| CacheTracker.ContextCacheTracker.RecordContextCreation | src/main/java/digital/pragmatech/testing/ContextCacheTracker.java:76-94 | on a valid tracker, the state becomes the recorded creation, with the nearest context looked up among the other created entries, and the tracker stays valid |
| CacheTracker.ContextCacheTracker.StoreCreation | src/main/java/digital/pragmatech/testing/ContextCacheTracker.java:76-94 | the field updates of a creation: the state becomes the recorded creation |
| CacheTracker.ContextCacheTracker.RecordBeanDefinitions | src/main/java/digital/pragmatech/testing/ContextCacheTracker.java:99-105 | on a valid tracker, the state becomes the recording of the bean definitions and the tracker stays valid |
| CacheTracker.ContextCacheTracker.RecordContextCacheHit | src/main/java/digital/pragmatech/testing/ContextCacheTracker.java:110-116 | on a valid tracker, the state becomes the recorded hit, whether or not the entry was created, and the tracker stays valid |
| CacheTracker.ContextCacheTracker.GetAllEntries | src/main/java/digital/pragmatech/testing/ContextCacheTracker.java:195-197 | every entry once, as many as there are configurations |
| CacheTracker.ContextCacheTracker.GetContextForTestClass | src/main/java/digital/pragmatech/testing/ContextCacheTracker.java:202-204 | absent exactly for an unregistered class; otherwise the configuration last registered for it, whose entry lists the class |
| CacheTracker.ContextCacheTracker.GetCacheEntry | src/main/java/digital/pragmatech/testing/ContextCacheTracker.java:209-211 | present exactly for a registered configuration, and then the stored entry of that configuration, valid and naming a test class |
| CacheTracker.ContextCacheTracker.CalculatePotentialTimeSavings | src/main/java/digital/pragmatech/testing/ContextCacheTracker.java:271-288 | the loop computes the savings of the model |
| CacheTracker.ContextCacheTracker.CalculateOptimizationStatistics | src/main/java/digital/pragmatech/testing/ContextCacheTracker.java:239-269 | the statistics of the model over the entries in iteration order |
| CacheTracker.ContextCacheTracker.GetTimelineData | src/main/java/digital/pragmatech/testing/ContextCacheTracker.java:335-417 | the timeline of the model over the entries in iteration order |
| CacheTracker.ContextCacheTracker.Clear | src/main/java/digital/pragmatech/testing/ContextCacheTracker.java:422-430 | the tracker is empty again and valid |
| Optimization.TotalLoadTime | src/main/java/digital/pragmatech/testing/ContextCacheTracker.java:248-251 | the total creation time is non-negative when no load time is negative |
| Optimization.PotentialTimeSavings | src/main/java/digital/pragmatech/testing/ContextCacheTracker.java:271-288 | with no negative load time the savings lie between zero and the total creation time; zero when no entry has a created nearest context |
| Optimization.WastedTime | src/main/java/digital/pragmatech/testing/ContextCacheTracker.java:290-296 | with no negative load time the waste lies between zero and the total creation time; zero when no load took more than one second |
| Optimization.SlowEntries | src/main/java/digital/pragmatech/testing/ContextCacheTracker.java:298-313 | exactly the created entries slower than 500 ms, never more than the created ones |
| Optimization.Ranked | src/main/java/digital/pragmatech/testing/ContextCacheTracker.java:298-313 | at most five slow created entries, slowest first, drawn from the input without repeating any entry more often than it occurs |
| Optimization.RankedIsTopFive | src/main/java/digital/pragmatech/testing/ContextCacheTracker.java:298-313 | an entry over 500 ms left out of the ranking is no slower than any of the five reported |
| Optimization.Opportunities | src/main/java/digital/pragmatech/testing/ContextCacheTracker.java:298-329 | one opportunity per ranked entry, naming one of its test classes, its load time, its bean count and the recommendation of `generateRecommendation` for it |
| Optimization.Recommendation | src/main/java/digital/pragmatech/testing/ContextCacheTracker.java:315-329 | a nearest context gives the harmonising advice; otherwise more than 100 beans give the large-context advice; otherwise more than 2000 ms give the slow-load advice; otherwise the generic advice; each advice text is chosen exactly under its condition |
| Optimization.Statistics | src/main/java/digital/pragmatech/testing/ContextCacheTracker.java:239-269 | the statistics count the created contexts, list no more opportunities than that, count zero exactly when nothing was created, and with no negative load time keep the savings and the waste within the total creation time |
| Optimization.OpportunitiesWithinCreated | src/main/java/digital/pragmatech/testing/ContextCacheTracker.java:298-313 | there are never more opportunities than created contexts |
| Optimization.SlowerOrEqualIsTotalPreorder | src/main/java/digital/pragmatech/testing/ContextCacheTracker.java:301 | the slowest-first comparator is a total preorder, so the sort is well defined |
| Timeline.EarliestCreationTime | src/main/java/digital/pragmatech/testing/ContextCacheTracker.java:217-223 | absent exactly when no context was created; otherwise some created entry's creation instant, and no creation instant is earlier |
| Timeline.LatestAccessTime | src/main/java/digital/pragmatech/testing/ContextCacheTracker.java:229-234 | absent exactly when no context was used; otherwise some entry's last use, and no last use is later |
| Timeline.ByCreationTime | src/main/java/digital/pragmatech/testing/ContextCacheTracker.java:336-352 | the created entries, each as often as before, ordered by creation instant |
| Timeline.ByCreationTimeOrdered | src/main/java/digital/pragmatech/testing/ContextCacheTracker.java:336-352 | in creation order the creation instants never decrease |
| Timeline.CreatedEntryIsListed | src/main/java/digital/pragmatech/testing/ContextCacheTracker.java:336-352 | every created entry appears in the creation order |
| Timeline.FirstCreatedFirst | src/main/java/digital/pragmatech/testing/ContextCacheTracker.java:336-352 | the first context in creation order was created no later than any other |
| Timeline.EarliestIsLowerBound | src/main/java/digital/pragmatech/testing/ContextCacheTracker.java:217-223 | no created entry was created before the earliest creation instant |
| Timeline.StartsAtEarliest | src/main/java/digital/pragmatech/testing/ContextCacheTracker.java:336-359 | when a context was created, the creation order starts with one created at the earliest instant |
| Timeline.EmptyWithoutCreations | src/main/java/digital/pragmatech/testing/ContextCacheTracker.java:336-356 | when no context was created, the creation order is empty |
| Timeline.ByCreationTimeStartsEarliest | src/main/java/digital/pragmatech/testing/ContextCacheTracker.java:336-359 | the first entry in creation order carries the earliest creation instant |
| Timeline.TimelineFor | src/main/java/digital/pragmatech/testing/ContextCacheTracker.java:335-417 | one event and one row per created context; the timeline starts at the earliest creation and has an end exactly when it has a start |
| Timeline.RowMatchesEvent | src/main/java/digital/pragmatech/testing/ContextCacheTracker.java:373-414 | a context created no earlier than the start gets a row that agrees with its event |
| Timeline.TimelineRows | src/main/java/digital/pragmatech/testing/ContextCacheTracker.java:373-414 | each row starts at its context's non-negative offset from the first creation, lasts the context's load time, and shares its event's label and colour |
| Timeline.TimelineOrdered | src/main/java/digital/pragmatech/testing/ContextCacheTracker.java:398-414 | the rows' start offsets never decrease |
| Timeline.JavaDivide | src/main/java/digital/pragmatech/testing/ContextCacheTracker.java:384 | for a non-negative dividend, Java's truncating division agrees with Euclidean division |
| Timeline.Events | src/main/java/digital/pragmatech/testing/ContextCacheTracker.java:373-395 | one event per created context, in creation order |
| Timeline.Rows | src/main/java/digital/pragmatech/testing/ContextCacheTracker.java:398-414 | one row per event |
| Timeline.CollectEvents | src/main/java/digital/pragmatech/testing/ContextCacheTracker.java:373-395 | the first loop builds the events of the model |
| Timeline.CollectRows | src/main/java/digital/pragmatech/testing/ContextCacheTracker.java:398-414 | the second loop builds the rows of the model |
| Timeline.BuildTimeline | src/main/java/digital/pragmatech/testing/ContextCacheTracker.java:335-417 | the method builds the timeline of the model |
| Timeline.CreatedNoLaterIsTotalPreorder | src/main/java/digital/pragmatech/testing/ContextCacheTracker.java:338-351 | the creation-order comparator is a total preorder |
| LegacyTracker.TestMethodsFor | spring-test-insight-extension/src/main/java/digital/pragmatech/springtestinsight/ContextCacheTracker.java:206-210 | a configuration with no recorded test method has an empty list |
| LegacyTracker.TestMethodAppended | spring-test-insight-extension/src/main/java/digital/pragmatech/springtestinsight/ContextCacheTracker.java:56-61 | recording a test method appends its "Class.method" name to its configuration's list, keeping earlier names and duplicates, and changes nothing else |
| LegacyTracker.SortedByCreation | spring-test-insight-extension/src/main/java/digital/pragmatech/springtestinsight/ContextCacheTracker.java:278-290 | the created entries, each as often as before, ordered by creation instant |
| LegacyTracker.CreatedBeforeLastUse | spring-test-insight-extension/src/main/java/digital/pragmatech/springtestinsight/ContextCacheTracker.java:345-352 | with a clock that never goes backwards, a created entry was last used no earlier than it was created |
| LegacyTracker.CreationBeforeLatestAccess | spring-test-insight-extension/src/main/java/digital/pragmatech/springtestinsight/ContextCacheTracker.java:256-273 | over valid entries the first creation comes no later than the last access |
| LegacyTracker.TimelineSpanNonNegative | spring-test-insight-extension/src/main/java/digital/pragmatech/springtestinsight/ContextCacheTracker.java:296-304 | once a context was created the timeline has an end; the span is never negative and is 0 without creations |
| ProfilerListener.CreationsCountCreatedEntries | src/main/java/digital/pragmatech/testing/SpringTestProfilerListener.java:92-176 | a valid tracker without repeated creations has created exactly as many contexts as it has created entries, and counts as many misses |
| ProfilerListener.ContextLoadCountsOnce | src/main/java/digital/pragmatech/testing/SpringTestProfilerListener.java:92-176 | after a context load the tracker stays valid, no configuration is created twice, and a configuration counts one more hit, or one more miss if it was not created yet |
| ProfilerListener.TrackTestClass | src/main/java/digital/pragmatech/testing/SpringTestProfilerListener.java:54-176 | registering a class and then loading its context leaves a valid tracker valid and in the state of the model |
| BeanProfiler.NewProfiler | src/main/java/digital/pragmatech/testing/BeanCreationProfiler.java:35-37 | a new profiler is valid with no beans, no time and no slowest bean |
| BeanProfiler.BeforeInitializationNotesStart | src/main/java/digital/pragmatech/testing/BeanCreationProfiler.java:40-44 | before-initialisation keeps the profiler valid, records the bean's start instant, overwriting an older one, and changes no metric or count |
| BeanProfiler.AfterInitializationStoresMetric | src/main/java/digital/pragmatech/testing/BeanCreationProfiler.java:47-85 | after-initialisation with a start instant stores the bean's metric with its duration and next order number, counts one more bean, and raises the slowest figure only for a strictly slower bean; without a start instant it changes nothing |
| BeanProfiler.AfterInitializationKeepsValid | src/main/java/digital/pragmatech/testing/BeanCreationProfiler.java:47-85 | after-initialisation keeps the profiler valid |
| BeanProfiler.AfterKeepsCounted | src/main/java/digital/pragmatech/testing/BeanCreationProfiler.java:47-85 | the bean count stays at least the number of metrics stored |
| BeanProfiler.AfterKeepsOrderList | src/main/java/digital/pragmatech/testing/BeanCreationProfiler.java:47-85 | the metric order lists every stored metric once |
| BeanProfiler.AfterKeepsOrdersDistinct | src/main/java/digital/pragmatech/testing/BeanCreationProfiler.java:47-85 | the stored metrics keep distinct order numbers |
| BeanProfiler.RecurringNameCountedTwice | src/main/java/digital/pragmatech/testing/BeanCreationProfiler.java:47-85 | a bean name initialised twice is counted twice but keeps one metric, the later one |
| BeanProfiler.SlowestOf | src/main/java/digital/pragmatech/testing/BeanCreationProfiler.java:111-116 | at most `limit` of the metrics, slowest first, drawn from the input without repeating any metric more often than it occurs |
| BeanProfiler.SlowestOfIsTop | src/main/java/digital/pragmatech/testing/BeanCreationProfiler.java:111-116 | a metric left out of the slowest list is no slower than any listed one |
| BeanProfiler.SlowerOrEqualIsTotalPreorder | src/main/java/digital/pragmatech/testing/BeanCreationProfiler.java:113 | the slowest-first comparator is a total preorder |
| BeanProfiler.ProfilerView.AllBeans | src/main/java/digital/pragmatech/testing/BeanCreationProfiler.java:90-99 | every stored metric once, in iteration order |
| BeanProfiler.BeanCreationProfiler.constructor | src/main/java/digital/pragmatech/testing/BeanCreationProfiler.java:35-37 | the new profiler is the empty one for its context, and valid |
| BeanProfiler.BeanCreationProfiler.PostProcessBeforeInitialization | src/main/java/digital/pragmatech/testing/BeanCreationProfiler.java:40-44 | on a valid profiler, returns the bean unchanged; the state becomes the modelled before-initialisation and the profiler stays valid |
| BeanProfiler.BeanCreationProfiler.PostProcessAfterInitialization | src/main/java/digital/pragmatech/testing/BeanCreationProfiler.java:47-85 | on a valid profiler, returns the bean unchanged; the state becomes the modelled after-initialisation and the profiler stays valid |
| BeanProfiler.BeanCreationProfiler.StoreMetric | src/main/java/digital/pragmatech/testing/BeanCreationProfiler.java:47-85 | the field updates of after-initialisation: the state becomes the modelled after-initialisation |
| BeanProfiler.BeanCreationProfiler.GetBeanMetric | src/main/java/digital/pragmatech/testing/BeanCreationProfiler.java:104-106 | present exactly for a bean with a stored metric, and then that metric |
| BeanProfiler.BeanCreationProfiler.GetSlowestBeans | src/main/java/digital/pragmatech/testing/BeanCreationProfiler.java:111-116 | the slowest `limit` of the stored metrics |
| BeanProfiler.BeanCreationProfiler.GetMetrics | src/main/java/digital/pragmatech/testing/BeanCreationProfiler.java:90-99 | the snapshot of the counters and metrics, never listing more beans than were counted |
| ContextProfile.PhaseElapsedMs | src/main/java/digital/pragmatech/testing/ContextProfileData.java:55-61 | -1 for a phase never recorded; otherwise the time from the start to the phase's timestamp |
| ContextProfile.SlowestBeans | src/main/java/digital/pragmatech/testing/ContextProfileData.java:81-89 | empty without bean metrics; otherwise at most `limit` of them, slowest first, drawn from the metrics without repeating any more often than it occurs |
| ContextProfile.LastPhaseRecordWins | src/main/java/digital/pragmatech/testing/ContextProfileData.java:42-61 | recording a phase twice keeps the later timestamp and leaves other phases alone |
| ContextProfile.ContextProfileData.constructor | src/main/java/digital/pragmatech/testing/ContextProfileData.java:35-39 | the start figures are stored; no end, no load time, no phases and no bean metrics |
| ContextProfile.ContextProfileData.RecordPhase | src/main/java/digital/pragmatech/testing/ContextProfileData.java:42-44 | the phase maps to its new timestamp and nothing else changes |
| ContextProfile.ContextProfileData.GetPhaseTime | src/main/java/digital/pragmatech/testing/ContextProfileData.java:46-48 | present exactly for a recorded phase, and then its timestamp |
| ContextProfile.ContextProfileData.GetAllPhases | src/main/java/digital/pragmatech/testing/ContextProfileData.java:50-52 | the recorded phases |
| ContextProfile.ContextProfileData.GetPhaseElapsedMs | src/main/java/digital/pragmatech/testing/ContextProfileData.java:55-61 | the elapsed time of the model |
| ContextProfile.ContextProfileData.GetBeanDefinitionRegistrationTimeMs | src/main/java/digital/pragmatech/testing/ContextProfileData.java:63-65 | the elapsed time of the bean-definition registration phase |
| ContextProfile.ContextProfileData.GetContextRefreshTimeMs | src/main/java/digital/pragmatech/testing/ContextProfileData.java:67-69 | the elapsed time of the context-refreshed phase |
| ContextProfile.ContextProfileData.GetSlowestBeans | src/main/java/digital/pragmatech/testing/ContextProfileData.java:81-89 | the slowest beans of the model |
| ContextProfile.ContextProfileData.GetSummary | src/main/java/digital/pragmatech/testing/ContextProfileData.java:107-118 | the summary copies the profile's figures; without bean metrics the bean figures are 0 and there is no slowest bean, otherwise they are the metrics' own |
| ContextProfile.ContextProfileData.SetEndTime | src/main/java/digital/pragmatech/testing/ContextProfileData.java:137-139 | only the end time changes |
| ContextProfile.ContextProfileData.SetTotalLoadTimeMs | src/main/java/digital/pragmatech/testing/ContextProfileData.java:153-155 | only the load time changes |
| ContextProfile.ContextProfileData.SetBeanCreationMetrics | src/main/java/digital/pragmatech/testing/ContextProfileData.java:177-179 | only the bean metrics change |
| ContextStatistics.EmptyStatistics | src/main/java/digital/pragmatech/testing/SpringContextStatistics.java:15-20 | fresh statistics are valid, count nothing and have a total load time of 0 |
| ContextStatistics.ContextLoadCounts | src/main/java/digital/pragmatech/testing/SpringContextStatistics.java:22-56 | a load keeps the statistics valid, counts one more load and one more miss but no hit, appends its event, adds its load time to the total and one miss to its key; a `null` key leaves the per-key maps alone |
| ContextStatistics.CacheHitCounts | src/main/java/digital/pragmatech/testing/SpringContextStatistics.java:33-56 | a hit keeps the statistics valid and counts one more hit, for its key too, leaving loads, misses and events alone |
| ContextStatistics.RunCounts | src/main/java/digital/pragmatech/testing/SpringContextStatistics.java:22-56 | over any sequence of calls, loads and misses count the loads, hits count the hits, and each key's hits, misses and total accesses count the hit calls, load calls and all calls made with that key |
| ContextStatistics.CacheKeyInfo.TotalAccesses | src/main/java/digital/pragmatech/testing/SpringContextStatistics.java:148-150 | the total is at least the hits and at least the misses |
| ContextStatistics.SpringContextStatistics.constructor | src/main/java/digital/pragmatech/testing/SpringContextStatistics.java:15-20 | a new object holds the empty statistics |
| ContextStatistics.SpringContextStatistics.RecordCacheKeyUsage | src/main/java/digital/pragmatech/testing/SpringContextStatistics.java:42-56 | the state becomes the modelled key usage |
| ContextStatistics.SpringContextStatistics.RecordContextLoad | src/main/java/digital/pragmatech/testing/SpringContextStatistics.java:22-31 | the state becomes the modelled load |
| ContextStatistics.SpringContextStatistics.RecordCacheHit | src/main/java/digital/pragmatech/testing/SpringContextStatistics.java:33-40 | the state becomes the modelled hit |
| ContextStatistics.SpringContextStatistics.GetTotalContextLoadTime | src/main/java/digital/pragmatech/testing/SpringContextStatistics.java:81-85 | the loop returns the sum of the events' load times |
| CacheKeyAggregation.AggregateCacheKeys | src/main/java/digital/pragmatech/testing/reporting/TemplateHelpers.java:232-247 | the loop builds the aggregate of the model |
| CacheKeyAggregation.NoteClassKeys | src/main/java/digital/pragmatech/testing/reporting/TemplateHelpers.java:238-242 | the inner loop notes the class under every one of its keys |
| CacheKeyAggregation.NoteClass | src/main/java/digital/pragmatech/testing/reporting/TemplateHelpers.java:238-242 | the keys are the old ones plus the class's keys |
| CacheKeyAggregation.AggregatedKeysPresent | src/main/java/digital/pragmatech/testing/reporting/TemplateHelpers.java:232-247 | a key is in the aggregate exactly when some class with statistics used it |
| CacheKeyAggregation.AggregatedKeysClasses | src/main/java/digital/pragmatech/testing/reporting/TemplateHelpers.java:232-247 | under a key, the aggregate lists exactly the names of the classes that used that key |
| CacheKeyAggregation.AggregateCacheKeyInfo | src/main/java/digital/pragmatech/testing/reporting/TemplateHelpers.java:249-279 | the loop builds the aggregate of the model |
| CacheKeyAggregation.AddClassInfo | src/main/java/digital/pragmatech/testing/reporting/TemplateHelpers.java:256-274 | the inner loop adds one class's counts for all its keys |
| CacheKeyAggregation.AddKeyInfo | src/main/java/digital/pragmatech/testing/reporting/TemplateHelpers.java:260-273 | one key's record gets the class's hits and misses, starting from a fresh record on first sight |
| CacheKeyAggregation.AddInfo | src/main/java/digital/pragmatech/testing/reporting/TemplateHelpers.java:256-274 | the keys are the old ones plus the class's keys |
| CacheKeyAggregation.AggregatedInfoMeaning | src/main/java/digital/pragmatech/testing/reporting/TemplateHelpers.java:249-279 | a key is present exactly when some class's statistics hold it; its record is named by the key and holds the hits and misses summed over all classes |
| ConfigurationDetector.ConfigurationDetails | spring-test-profiler-extension/src/main/java/digital/pragmatech/springtestinsight/ContextConfigurationDetector.java:94-142 | locations and classes are always present; each optional detail exactly when its source is set and not empty; the parent flag exactly with a parent |
| ConfigurationDetector.NamesIfGiven | spring-test-profiler-extension/src/main/java/digital/pragmatech/springtestinsight/ContextConfigurationDetector.java:94-142 | a list is put exactly when it is given and not empty |
| ConfigurationDetector.BareConfigurationDetails | spring-test-profiler-extension/src/main/java/digital/pragmatech/springtestinsight/ContextConfigurationDetector.java:94-142 | the smallest configuration has exactly the two keys that are always present |
| ConfigurationDetector.KeyNamesDistinct | spring-test-profiler-extension/src/main/java/digital/pragmatech/springtestinsight/ContextConfigurationDetector.java:94-142 | different detail keys have different names |
| ConfigurationDetector.EmptyRegistry | spring-test-profiler-extension/src/main/java/digital/pragmatech/springtestinsight/ContextConfigurationDetector.java:16-17 | the empty detector satisfies its invariant |
| ConfigurationDetector.AnalyzeKeepsValid | spring-test-profiler-extension/src/main/java/digital/pragmatech/springtestinsight/ContextConfigurationDetector.java:24-41 | analysis keeps the detector valid; a failure changes nothing; a success maps the class to its configuration and adds the class to that configuration's set |
| ConfigurationDetector.AnalyzeIdempotent | spring-test-profiler-extension/src/main/java/digital/pragmatech/springtestinsight/ContextConfigurationDetector.java:24-41 | analysing a class twice under the same configuration is analysing it once |
| ConfigurationDetector.ReanalysedClassStaysListed | spring-test-profiler-extension/src/main/java/digital/pragmatech/springtestinsight/ContextConfigurationDetector.java:24-41 | a class analysed again under another configuration maps to the new one but stays listed under the old one too |
| ConfigurationDetector.NumberedMeaning | spring-test-profiler-extension/src/main/java/digital/pragmatech/springtestinsight/ContextConfigurationDetector.java:46-67 | the keys are "context-1" to "context-n", each holding the value at that position |
| ConfigurationDetector.KeysCount | spring-test-profiler-extension/src/main/java/digital/pragmatech/springtestinsight/ContextConfigurationDetector.java:46-67 | the keys "context-1" to "context-n" are n different strings |
| ConfigurationDetector.ConfigKeyInjective | spring-test-profiler-extension/src/main/java/digital/pragmatech/springtestinsight/ContextConfigurationDetector.java:56 | different numbers give different keys |
| ConfigurationDetector.ListingCount | spring-test-profiler-extension/src/main/java/digital/pragmatech/springtestinsight/ContextConfigurationDetector.java:46-67 | a listing without repeats of the configurations has one per configuration |
| ConfigurationDetector.NumberedInfos | spring-test-profiler-extension/src/main/java/digital/pragmatech/springtestinsight/ContextConfigurationDetector.java:147-169 | one record per configuration, in iteration order, numbered from 1 |
| ConfigurationDetector.ContextConfigurationDetector.constructor | spring-test-profiler-extension/src/main/java/digital/pragmatech/springtestinsight/ContextConfigurationDetector.java:16-17 | a new detector is empty |
| ConfigurationDetector.ContextConfigurationDetector.AnalyzeTestClass | spring-test-profiler-extension/src/main/java/digital/pragmatech/springtestinsight/ContextConfigurationDetector.java:24-41 | the state becomes the modelled analysis |
| ConfigurationDetector.ContextConfigurationDetector.GetContextConfigurations | spring-test-profiler-extension/src/main/java/digital/pragmatech/springtestinsight/ContextConfigurationDetector.java:46-67 | one record per configuration, keyed "context-i" from 1, carrying the i-th configuration, its details and its test classes |
| ConfigurationDetector.ContextConfigurationDetector.GetConfigurationForTestClass | spring-test-profiler-extension/src/main/java/digital/pragmatech/springtestinsight/ContextConfigurationDetector.java:72-74 | the class's configuration, if analysed |
| ConfigurationDetector.ContextConfigurationDetector.Clear | spring-test-profiler-extension/src/main/java/digital/pragmatech/springtestinsight/ContextConfigurationDetector.java:79-84 | the detector is empty again |
| InsightExtension.DetectBuildTool | spring-test-profiler-extension/src/main/java/digital/pragmatech/springtestinsight/SpringTestInsightExtension.java:170-199 | always "maven", "gradle" or "unknown", and "maven" whenever Maven's home property is set |
| InsightExtension.DetectBuildToolPhase | spring-test-profiler-extension/src/main/java/digital/pragmatech/springtestinsight/SpringTestInsightExtension.java:147-165 | Maven gives failsafe or surefire and Gradle integration-test or test, by the class name; any other tool gives unknown |
| InsightExtension.IntegrationTestSuffixContainsIntegration | spring-test-profiler-extension/src/main/java/digital/pragmatech/springtestinsight/SpringTestInsightExtension.java:153-155 | a name ending in "IntegrationTest" already contains "Integration", so that test adds nothing |
| InsightExtension.DetectFromStackTrace | spring-test-profiler-extension/src/main/java/digital/pragmatech/springtestinsight/SpringTestInsightExtension.java:111-140 | the stack gives an IDE or unknown, never a build-tool phase |
| InsightExtension.StackMarkerPriority | spring-test-profiler-extension/src/main/java/digital/pragmatech/springtestinsight/SpringTestInsightExtension.java:111-140 | IntelliJ wins over Eclipse, Eclipse over VS Code, VS Code over NetBeans; each answer needs its marker; the build tools' runner markers alone give unknown |
| InsightExtension.DetectExecutionEnvironment | spring-test-profiler-extension/src/main/java/digital/pragmatech/springtestinsight/SpringTestInsightExtension.java:97-106 | the build tool is consulted only when the stack trace gives no answer |
| InsightExtension.PhaseFromEnvironmentInjective | spring-test-profiler-extension/src/main/java/digital/pragmatech/springtestinsight/SpringTestInsightExtension.java:204-226 | different environments report under different phase names |
| InsightExtension.CloseOnce | spring-test-profiler-extension/src/main/java/digital/pragmatech/springtestinsight/SpringTestInsightExtension.java:76-91 | after `close` the report flag is set, a second `close` changes nothing, and a first one adds one report for the current phase |
| InsightExtension.BeforeAllPhaseRule | spring-test-profiler-extension/src/main/java/digital/pragmatech/springtestinsight/SpringTestInsightExtension.java:33-63 | `beforeAll` never forgets the detected environment, resets the listener and clears the flag exactly when the phase changes, and otherwise leaves the flag and reports alone |
| InsightExtension.AtMostOneReport | spring-test-profiler-extension/src/main/java/digital/pragmatech/springtestinsight/SpringTestInsightExtension.java:33-91 | from the initial state, whatever the events, the phase never changes: at most one report and no listener reset |
| InsightExtension.CloseGeneratesReport | spring-test-profiler-extension/src/main/java/digital/pragmatech/springtestinsight/SpringTestInsightExtension.java:76-91 | one `close` event is enough for exactly one report |
| InsightExtension.SpringTestInsightExtension.constructor | spring-test-profiler-extension/src/main/java/digital/pragmatech/springtestinsight/SpringTestInsightExtension.java:14-30 | the extension starts in the initial state |
| InsightExtension.SpringTestInsightExtension.BeforeAll | spring-test-profiler-extension/src/main/java/digital/pragmatech/springtestinsight/SpringTestInsightExtension.java:33-63 | the state becomes the modelled `beforeAll` |
| InsightExtension.SpringTestInsightExtension.Close | spring-test-profiler-extension/src/main/java/digital/pragmatech/springtestinsight/SpringTestInsightExtension.java:76-91 | the state becomes the modelled `close` |
| InsightExtension.SpringTestInsightExtension.GetDetectedEnvironment | spring-test-profiler-extension/src/main/java/digital/pragmatech/springtestinsight/SpringTestInsightExtension.java:231-233 | the detected environment, if any |
| ExecutionData.NewExecution | spring-test-insight-extension/src/main/java/digital/pragmatech/springtestinsight/TestExecutionData.java:14-17 | a new record is running, with its id and start time and nothing else |
| ExecutionData.Duration | spring-test-insight-extension/src/main/java/digital/pragmatech/springtestinsight/TestExecutionData.java:35-40 | present exactly when the end time is set, and then start plus duration is the end |
| ExecutionData.TestMethodName | spring-test-insight-extension/src/main/java/digital/pragmatech/springtestinsight/TestExecutionData.java:66-68 | the text after the last '#', the whole id without one |
| ExecutionData.TestClassName | spring-test-insight-extension/src/main/java/digital/pragmatech/springtestinsight/TestExecutionData.java:70-72 | fails exactly when the id has no '#' |
| ExecutionData.TestIdRoundTrip | spring-test-insight-extension/src/main/java/digital/pragmatech/springtestinsight/TestExecutionData.java:66-72 | with a '#' in the id, class name, '#' and method name give back the id |
| ExecutionData.TestExecutionData.constructor | spring-test-insight-extension/src/main/java/digital/pragmatech/springtestinsight/TestExecutionData.java:14-17 | the object holds the new record |
| ExecutionData.TestExecutionData.SetEndTime | spring-test-insight-extension/src/main/java/digital/pragmatech/springtestinsight/TestExecutionData.java:31-33 | only the end time changes |
| ExecutionData.TestExecutionData.SetStatus | spring-test-insight-extension/src/main/java/digital/pragmatech/springtestinsight/TestExecutionData.java:46-48 | only the status changes |
| ExecutionData.TestExecutionData.SetThrowable | spring-test-insight-extension/src/main/java/digital/pragmatech/springtestinsight/TestExecutionData.java:54-56 | only the throwable changes |
| ExecutionData.TestExecutionData.SetReason | spring-test-insight-extension/src/main/java/digital/pragmatech/springtestinsight/TestExecutionData.java:62-64 | only the reason changes |
| ExecutionData.TestExecutionData.GetDuration | spring-test-insight-extension/src/main/java/digital/pragmatech/springtestinsight/TestExecutionData.java:35-40 | the duration of the model |
| ExecutionData.ClassExecutions.WithStatus | src/main/java/digital/pragmatech/testing/reporting/TestClassExecutionData.java:14-36 | exactly the executions that ended with the status |
| ExecutionData.StatusCountsWithinTotal | src/main/java/digital/pragmatech/testing/reporting/TestClassExecutionData.java:10-36 | the four status counts together never exceed the total |
| ExecutionData.EmptyCountsZero | src/test/java/digital/pragmatech/testing/TestClassExecutionDataTest.java:115-126 | an empty class counts zero tests of every status |
| ExecutionData.FixtureCounts | src/test/java/digital/pragmatech/testing/TestClassExecutionDataTest.java:60-112 | five executions, two passed and one each failed, disabled and aborted, count as such |
| ExecutionTracker.Elapsed | src/main/java/digital/pragmatech/testing/TestExecutionTracker.java:112-117 | zero unless both instants are set; otherwise start plus duration is the end |
| ExecutionTracker.NewMethodMetrics | src/main/java/digital/pragmatech/testing/TestExecutionTracker.java:147-149 | new method metrics are valid, with no status and no duration |
| ExecutionTracker.NewClassMetrics | src/main/java/digital/pragmatech/testing/TestExecutionTracker.java:85-87 | new class metrics are valid, with no methods and no duration |
| ExecutionTracker.PassedAndFailedWithinTotal | src/main/java/digital/pragmatech/testing/TestExecutionTracker.java:123-137 | passed and failed methods together are no more than the methods recorded |
| ExecutionTracker.MethodStartRecorded | src/main/java/digital/pragmatech/testing/TestExecutionTracker.java:97-99 | starting a method keeps the class valid and the other methods as they were, and records the method's start time |
| ExecutionTracker.MethodEndRecorded | src/main/java/digital/pragmatech/testing/TestExecutionTracker.java:101-106 | ending a method never started changes nothing; ending a started one sets its end time and status |
| ExecutionTracker.EmptyTracker | src/main/java/digital/pragmatech/testing/TestExecutionTracker.java:12-16 | a new tracker is valid with no classes, no methods and no duration |
| ExecutionTracker.ClassStartCounted | src/main/java/digital/pragmatech/testing/TestExecutionTracker.java:26-35 | starting a class keeps the tracker valid, counts the class only the first time and records its start time, keeping its methods |
| ExecutionTracker.MethodStartCounted | src/main/java/digital/pragmatech/testing/TestExecutionTracker.java:44-50 | starting a method of a known class counts one more method start, even for a repeated name; an unknown class changes nothing |
| ExecutionTracker.MethodEndRecordedInTracker | src/main/java/digital/pragmatech/testing/TestExecutionTracker.java:52-57 | ending a method of an unknown class, or one never started, changes nothing; otherwise the method gets its status |
| ExecutionTracker.ClassEndUnknownIsNoOp | src/main/java/digital/pragmatech/testing/TestExecutionTracker.java:37-42 | ending a class that never started changes nothing |
| ExecutionTracker.TestExecutionTracker.constructor | src/main/java/digital/pragmatech/testing/TestExecutionTracker.java:12-16 | the tracker starts empty |
| ExecutionTracker.TestExecutionTracker.StartTracking | src/main/java/digital/pragmatech/testing/TestExecutionTracker.java:18-20 | only the overall start changes |
| ExecutionTracker.TestExecutionTracker.StopTracking | src/main/java/digital/pragmatech/testing/TestExecutionTracker.java:22-24 | only the overall end changes |
| ExecutionTracker.TestExecutionTracker.RecordTestClassStart | src/main/java/digital/pragmatech/testing/TestExecutionTracker.java:26-35 | the state becomes the modelled class start |
| ExecutionTracker.TestExecutionTracker.RecordTestClassEnd | src/main/java/digital/pragmatech/testing/TestExecutionTracker.java:37-42 | the state becomes the modelled class end |
| ExecutionTracker.TestExecutionTracker.RecordTestMethodStart | src/main/java/digital/pragmatech/testing/TestExecutionTracker.java:44-50 | the state becomes the modelled method start |
| ExecutionTracker.TestExecutionTracker.RecordTestMethodEnd | src/main/java/digital/pragmatech/testing/TestExecutionTracker.java:52-57 | the state becomes the modelled method end |
| ContextIds.EmptyTable | src/main/java/digital/pragmatech/testing/ContextIdGenerator.java:13-15 | the empty table is valid with counter 0 |
| ContextIds.IdForKeepsValid | src/main/java/digital/pragmatech/testing/ContextIdGenerator.java:24-32 | a missing configuration gets "context-unknown" and changes nothing; a known hash gets its id again; a new hash gets the next number's id and raises the counter by one |
| ContextIds.SameHashSameId | src/main/java/digital/pragmatech/testing/ContextIdGenerator.java:24-32 | asking twice for one hash gives one id |
| ContextIds.DistinctHashesDistinctIds | src/main/java/digital/pragmatech/testing/ContextIdGenerator.java:24-32 | two different hashes get different ids |
| ContextIds.ContextIdInjective | src/main/java/digital/pragmatech/testing/ContextIdGenerator.java:28-30 | different numbers give different ids |
| ContextIds.UnknownIsNoNumberedId | src/main/java/digital/pragmatech/testing/ContextIdGenerator.java:24-32 | no numbered id is the unknown id |
| ContextIds.ContextIdGenerator.constructor | src/main/java/digital/pragmatech/testing/ContextIdGenerator.java:13-15 | the generator starts with the empty table |
| ContextIds.ContextIdGenerator.GetContextId | src/main/java/digital/pragmatech/testing/ContextIdGenerator.java:24-32 | the id and the new table are those of the model |
| ContextIds.ContextIdGenerator.GetCurrentCounter | src/main/java/digital/pragmatech/testing/ContextIdGenerator.java:35-37 | the counter |
| ContextIds.ContextIdGenerator.Reset | src/main/java/digital/pragmatech/testing/ContextIdGenerator.java:40-43 | the table is empty again |
| TemplateHelpers.StatusNamed | src/main/java/digital/pragmatech/testing/reporting/TemplateHelpers.java:27-34 | a status found under a name carries that name |
| TemplateHelpers.StatusNameRoundTrip | src/main/java/digital/pragmatech/testing/reporting/TemplateHelpers.java:27-34 | every status is found again under its name |
| TemplateHelpers.CountTestsByStatus | src/main/java/digital/pragmatech/testing/reporting/TemplateHelpers.java:27-34 | fails exactly for a name that is no status |
| TemplateHelpers.CountWithinMethodStarts | src/main/java/digital/pragmatech/testing/reporting/TemplateHelpers.java:27-34 | a tracker never counts more tests of one status than the method starts it recorded |
| TemplateHelpers.CountOfOneClass | src/main/java/digital/pragmatech/testing/reporting/TemplateHelpers.java:27-34 | with one class, the passed and failed counts are that class's own |
| TemplateHelpers.FormatDuration | src/main/java/digital/pragmatech/testing/reporting/TemplateHelpers.java:44-53 | below one second the text is the number of milliseconds followed by "ms"; the other branches are not modelled |
| TemplateHelpers.FormatDurationInjective | src/main/java/digital/pragmatech/testing/reporting/TemplateHelpers.java:44-53 | two different durations below one second are shown differently |
| TemplateHelpers.SimpleClassName | src/main/java/digital/pragmatech/testing/reporting/TemplateHelpers.java:57-60 | the text after the last '.', the whole name without one |
| TemplateHelpers.PackageName | src/main/java/digital/pragmatech/testing/reporting/TemplateHelpers.java:62-65 | empty without a '.', and shorter than a non-empty name |
| TemplateHelpers.ClassNameRoundTrip | src/main/java/digital/pragmatech/testing/reporting/TemplateHelpers.java:57-65 | with a '.' in the name, package, '.' and simple name give back the full name |
| TemplateHelpers.ClassStatusColor | src/main/java/digital/pragmatech/testing/reporting/TemplateHelpers.java:69-79 | always one of red, orange, gray and green |
| TemplateHelpers.AnyFailureIsRed | src/main/java/digital/pragmatech/testing/reporting/TemplateHelpers.java:69-79 | one failed test makes the class red |
| TemplateHelpers.AbortWithoutFailureIsOrange | src/main/java/digital/pragmatech/testing/reporting/TemplateHelpers.java:69-79 | without failures, one aborted test makes the class orange |
| TemplateHelpers.AllPassedIsGreen | src/main/java/digital/pragmatech/testing/reporting/TemplateHelpers.java:69-79 | a class whose tests all passed is green |
| TemplateHelpers.AllDisabledIsGray | src/main/java/digital/pragmatech/testing/reporting/TemplateHelpers.java:69-79 | a class with tests, all disabled, is gray |
| TemplateHelpers.StatusIconsDistinct | src/main/java/digital/pragmatech/testing/reporting/TemplateHelpers.java:83-95 | different statuses, and the missing one, get different icons |
| TemplateHelpers.ErrorWithoutStack | src/main/java/digital/pragmatech/testing/reporting/TemplateHelpers.java:99-123 | no throwable gives no text; a throwable without a stack gives only its header |
| TemplateHelpers.ShortStackListedWhole | src/main/java/digital/pragmatech/testing/reporting/TemplateHelpers.java:99-123 | a stack of at most five elements is listed whole, with no note |
| TemplateHelpers.LongStackTruncated | src/main/java/digital/pragmatech/testing/reporting/TemplateHelpers.java:99-123 | a longer stack shows its first five elements and how many were left out |
| TemplateHelpers.FormatError | src/main/java/digital/pragmatech/testing/reporting/TemplateHelpers.java:99-123 | the builder produces the formatted error of the model |
| TemplateHelpers.StackTraceText | src/main/java/digital/pragmatech/testing/reporting/TemplateHelpers.java:111-120 | the loop produces the stack part of the model |
| TemplateHelpers.SortTestMethods | src/main/java/digital/pragmatech/testing/reporting/TemplateHelpers.java:127-142 | the same executions, every failed one before every other, each group ordered by method name |
| TemplateHelpers.SortTestClasses | src/main/java/digital/pragmatech/testing/reporting/TemplateHelpers.java:146-148 | the same classes, ordered by class name |
| TemplateHelpers.CompareClassNames | src/main/java/digital/pragmatech/testing/reporting/TemplateHelpers.java:153-155 | zero exactly for equal names, and antisymmetric |
| TemplateHelpers.FailedFirstIsTotalPreorder | src/main/java/digital/pragmatech/testing/reporting/TemplateHelpers.java:127-142 | the failed-first comparator is a total preorder |
| TemplateHelpers.ByClassNameIsTotalPreorder | src/main/java/digital/pragmatech/testing/reporting/TemplateHelpers.java:146-155 | the class-name comparator is a total preorder |
| TemplateHelpers.StringLeqTotal | src/main/java/digital/pragmatech/testing/reporting/TemplateHelpers.java:153-155 | any two names are ordered one way or the other |
| TemplateHelpers.SummaryStatusesWithinTotal | src/main/java/digital/pragmatech/testing/reporting/TemplateHelpers.java:159-177 | over all classes, the four status totals never exceed the test total |
| TemplateHelpers.ExecutionTimeNonNegative | src/main/java/digital/pragmatech/testing/reporting/TemplateHelpers.java:187-192 | executions that end no earlier than they start add up to a non-negative time |
| TemplateHelpers.ExecutionTimeAppend | src/main/java/digital/pragmatech/testing/reporting/TemplateHelpers.java:187-192 | the time of two lists together is the sum of their times |
| TemplateHelpers.ExecutionTimePermutation | src/main/java/digital/pragmatech/testing/reporting/TemplateHelpers.java:187-192 | the time is the same in every order |
| TemplateHelpers.ExecutionsInOrder | src/main/java/digital/pragmatech/testing/reporting/TemplateHelpers.java:187-192 | the class's executions in the order the listing names them |
| TemplateHelpers.ListingsAgree | src/main/java/digital/pragmatech/testing/reporting/TemplateHelpers.java:187-192 | two listings of the same test ids hold the same executions |
| TemplateHelpers.MapPreservesMultiset | src/main/java/digital/pragmatech/testing/reporting/TemplateHelpers.java:187-192 | looking up the same multiset of ids gives the same multiset of executions |
| TemplateHelpers.ClassExecutionTimeOrderFree | src/main/java/digital/pragmatech/testing/reporting/TemplateHelpers.java:187-192 | a class's execution time does not depend on the map's iteration order |
| TemplateHelpers.TotalIsSumOfClassTimes | src/main/java/digital/pragmatech/testing/reporting/TemplateHelpers.java:179-192 | the total execution time is the sum of the classes' execution times |
| ReportScript.ArraysEqualIsSameItems | src/main/resources/static/js/report.js:630-635 | `arraysEqual` holds exactly when the arrays hold the same items, each as often, in any order, outside the null clash |
| ReportScript.ArraysEqual | src/main/resources/static/js/report.js:630-635 | equal arrays always have the same length and hold the same items, each as often |
| ReportScript.NoTiesWithoutClash | src/main/resources/static/js/report.js:630-635 | without the null clash, the default sort never ties two different items |
| ReportScript.NullClashIsOrderSensitive | src/main/resources/static/js/report.js:630-635 | a `null` and a "null" string sort as equals, so the same two items compare unequal in the other order |
| ReportScript.DefaultLeqIsTotalPreorder | src/main/resources/static/js/report.js:630-635 | the default sort's order is a total preorder |
| ReportScript.ArraysEqualExamples | src/main/resources/static/js/report.test.js:113-118 | ['a','b'] equals ['b','a'] and itself, not ['a','c'] nor ['a'] |
| ReportScript.TruncateString | src/main/resources/static/js/report.js:637-640 | missing stays missing; an empty or short string is kept; a longer one keeps its first `maxLength` characters and gains "..." |
| ReportScript.TruncateIdempotent | src/main/resources/static/js/report.js:637-640 | truncating twice is truncating once |
| ReportScript.TruncateExamples | src/main/resources/static/js/report.test.js:120-125 | a short string is kept, a long one cut to ten characters and "...", a missing one stays missing |
| ReportScript.FormatValueArray | src/main/resources/static/js/report.js:642-647 | "None" for a missing or empty array, otherwise the items joined by ", " and truncated |
| ReportScript.FormatValueArrayBound | src/main/resources/static/js/report.js:642-647 | the text is "None" or no longer than the limit plus three |
| ReportScript.FormatValueArrayExamples | src/main/resources/static/js/report.test.js:127-133 | three items are joined, an empty or missing array gives "None" |
| ReportScript.FeatureValueOfListKeys | src/main/resources/static/js/report.js:622-628 | apart from the loader and the parent a feature value is never missing: the stored value when truthy, an empty array for an absent key |
| ReportScript.FeatureValueExamples | src/main/resources/static/js/report.test.js:135-143 | the example configuration's loader, parent, locations and a missing key give the expected values |
| ReportScript.GetContextFeatures | src/main/resources/static/js/report.js:588-601 | nine features in a fixed order with their keys and names; the first seven carry the stored value, the loader is wrapped in an array and the parent is a yes/no flag |
| ReportScript.FeatureKeysDistinct | src/main/resources/static/js/report.js:588-601 | every feature has its own key and its own name |
| ReportScript.ContextFeaturesExample | src/main/resources/static/js/report.test.js:145-159 | the first feature is the locations and the fifth the profiles |
| ReportScript.GetFeatureColor | src/main/resources/static/js/report.js:603-620 | one of three colours, grey exactly while a context is unselected |
| ReportScript.FeatureColorMeaning | src/main/resources/static/js/report.js:603-620 | with both contexts selected a feature is green exactly when both hold the same items in any order, and swapping the contexts never changes a colour |
| ReportScript.CompareButtonDisabled | src/main/resources/static/js/report.js:336-344 | the button is enabled exactly when two different contexts are selected |
| ReportScript.CompareButtonExamples | src/main/resources/static/js/report.test.js:161-182 | comparing is symmetric, never of a context with itself, disabled with nothing selected and enabled for two contexts |
| ReportScript.SimpleNameMatchIsFullMatch | src/main/resources/static/js/report.js:117-122 | a term found in the simple name is found in the full name |
| ReportScript.CandidatesMeaning | src/main/resources/static/js/report.js:114-132 | the collected matches are exactly the records of the matching classes |
| ReportScript.ClassMatchesMeaning | src/main/resources/static/js/report.js:115-131 | within one context, the matches are exactly the records of its matching classes |
| ReportScript.FindMatches | src/main/resources/static/js/report.js:110-144 | the loops and the sort return the search of the model |
| ReportScript.CollectClassMatches | src/main/resources/static/js/report.js:115-131 | the inner loop appends one context's matches |
| ReportScript.SearchFindsMatches | src/main/resources/static/js/report.js:110-144 | the search returns the records of exactly the matching classes, each as often as found |
| ReportScript.Search | src/main/resources/static/js/report.js:110-144 | the sorted result holds the collected candidates, each as often as collected |
| ReportScript.SearchMatchesTerm | src/main/resources/static/js/report.js:110-144 | every match's full name, lower-cased, includes the lower-cased term |
| ReportScript.SearchOrder | src/main/resources/static/js/report.js:134-143 | every exact simple-name match comes before every other, and matches of one kind are in simple-name order |
| ReportScript.ExactFirstIsTotalPreorder | src/main/resources/static/js/report.js:134-143 | the exact-first comparator is a total preorder |
| ReportScript.SearchOnInput | src/main/resources/static/js/report.js:69-80 | a search runs exactly for a trimmed term of at least three characters, and searches for that term |
| ReportScript.Suggestions | src/main/resources/static/js/report.js:146-178 | hidden exactly when nothing matches; otherwise the first one to five matches |
| ReportScript.SuggestionsAreBest | src/main/resources/static/js/report.js:146-178 | when any match is exact the first suggestion is exact, and a match left out is preceded by five suggestions no later in order |
| Sorting.SortBy | src/main/java/digital/pragmatech/testing/reporting/TemplateHelpers.java:127-148 | the sort returns the same elements, as many of each; it is ordered by `SortBySorted` and stable by `SortByStable` |
| Sorting.SortBySorted | src/main/java/digital/pragmatech/testing/reporting/TemplateHelpers.java:127-148 | the sort's output is ordered by the comparator |
| Sorting.SortedUnique | src/main/java/digital/pragmatech/testing/reporting/TemplateHelpers.java:127-148 | two sorted arrangements of the same elements are one when no two elements tie |
| Sorting.TopOfSorted | src/main/java/digital/pragmatech/testing/BeanCreationProfiler.java:111-116 | the first `n` of a sorted copy are sorted, form a sub-multiset of the input, and precede every element left out |
| Sorting.Take | src/main/java/digital/pragmatech/testing/BeanCreationProfiler.java:111-116 | the first `n` elements, or all when there are fewer |
| Sorting.Filter | src/main/java/digital/pragmatech/testing/ContextCacheTracker.java:298-313 | keeps only elements that pass, keeps every element that passes, and never lists an element more often than it occurs |
| Sorting.FilterCount | src/main/java/digital/pragmatech/testing/ContextCacheTracker.java:298-313 | an element that passes is kept as often as it occurs, one that fails never |
| Sorting.FilterAppend | src/main/java/digital/pragmatech/testing/ContextCacheTracker.java:298-313 | filtering a concatenation is concatenating the filtered parts, so the kept elements stay in input order |
| Sorting.SortByStable | src/main/java/digital/pragmatech/testing/reporting/TemplateHelpers.java:127-148 | elements that tie under the comparator leave the sort in the order they entered, as with Java's stable list sort |
| Strings.LastIndexOf | src/main/java/digital/pragmatech/testing/reporting/TemplateHelpers.java:57-65 | -1 exactly when the character is absent; otherwise its last position |
| Strings.AfterLast | src/main/java/digital/pragmatech/testing/reporting/TemplateHelpers.java:57-60 | the suffix of the text that follows the last occurrence of the character: it holds no occurrence and is preceded by one; the whole text without one |
| Strings.NatToString | src/main/java/digital/pragmatech/testing/ContextIdGenerator.java:28-30 | a non-empty string of digits, one digit exactly below ten |
| Strings.NatToStringInjective | src/main/java/digital/pragmatech/testing/ContextIdGenerator.java:28-30 | different numbers are rendered differently |
| Strings.IntToString | src/main/java/digital/pragmatech/testing/reporting/TemplateHelpers.java:118 | a leading '-' exactly for a negative number |
| Strings.ToLowerAscii | src/main/resources/static/js/report.js:111 | the same length, each letter lower-cased |
| Strings.TrimStart | src/main/resources/static/js/report.js:69 | the suffix of the input left after removing the leading whitespace: everything removed is whitespace, and the result does not start with whitespace |
| Strings.TrimEnd | src/main/resources/static/js/report.js:69 | the prefix of the input left after removing the trailing whitespace: everything removed is whitespace, and the result does not end with whitespace |
| Strings.Join | src/main/resources/static/js/report.js:642-647 | empty for no parts, the part itself for one |
| Strings.JoinAppend | src/main/resources/static/js/report.js:642-647 | joining two non-empty lists of parts puts exactly one separator between their joins |
| Strings.CompareAntisymmetric | src/main/java/digital/pragmatech/testing/reporting/TemplateHelpers.java:153-155 | comparing the other way round flips the sign |
| Strings.CompareZeroIffEqual | src/main/java/digital/pragmatech/testing/reporting/TemplateHelpers.java:153-155 | the comparison is zero exactly for equal strings |
| Strings.CompareTransitive | src/main/java/digital/pragmatech/testing/reporting/TemplateHelpers.java:153-155 | the comparison is transitive |

## Left out

- Concurrency: atomics, concurrent maps, `synchronized` and `volatile`. Every operation is one sequential step, and `computeIfAbsent` is an atomic insert-if-absent.
- The clock: `Instant.now()` and `Duration` are integer milliseconds passed in. `Duration.toMillis` is exact, and Java `long` overflow is not modelled.
- Floating point: hit ratios and rates, the savings percentage, bean-creation efficiencies, average creation times, memory figures in MB and the seconds and minutes branches of `DurationFormatter`.
- `ContextProfileData` metadata (`setMetadata`/`getMetadata`) and the memory fields: these are plain stores with nothing to state beyond their setters.
- `getConfigurationSummary` of both entries and the detector, `ConfigurationHelper` and `JsonHelper`: they build JSON and summary maps with Jackson.
- Reflection-based cache access, the JVM diagnostics, report writing, templating and static-asset copying.
- `MergedContextConfiguration` equality is datatype equality. `hashCode` is a field of the configuration where the id generator needs it. A loader or initializer class is its name.
- Iteration order of the source's hash maps and sets is a sequence given to the model. The lemmas hold for every such order.
- `CacheTracker.ContextCacheTracker`: callers that keep an entry returned by `getCacheEntry` see later updates in Java. The model returns entry values, so this aliasing is not captured.
- `recordTestClassForContext` keeps an entry's test classes in first-seen order, so "the first test class" is well defined. Java takes the first element of a hash set.
- `ContextConfigurationDetector`: resolving a test class's configuration through Spring's bootstrapper is an input. It is either a configuration or a failure.
- `ConfigurationDetector.ConfigurationDetails`: the details map is keyed by an enumeration of the detail names, proved to spell different names. The `LinkedHashMap` insertion order of the details is not modelled.
- `ConfigurationDetector.ContextConfigurationDetector.GetContextConfigurations`: a record's test classes are a set. Java copies the set into a list in hash order.
- `InsightExtension`: the system properties and the printed stack trace are inputs. Calls to the listener's `generateReport` and `resetReportGeneration` are recorded as a list of reports and a reset counter.
- `InsightExtension.AtMostOneReport`: the environment is detected once and never changes, so the phase-change branch of `beforeAll` is unreachable from the initial state. The branch is still modelled and stated by `BeforeAllPhaseRule`.
- Legacy tracker: its creation carries no load time, so its entries are those of the main tracker with load time 0. Its `clear` is `CacheTracker.ContextCacheTracker.Clear`.
- Legacy tracker: `getAllContextToTestMethods` copies the method-list map, which the model reads directly. Its `getTotalContextsCreated`, `getCacheHits` and `getCacheMisses` are plain field reads.
- `ConfigurationDetector`: a test class analysed again under another configuration stays listed under the old one, as in the source.
- The listener's test-method and test-class hooks, its shutdown hook and its report generation are not part of this model. Only the decision after a context load is.
- `ExecutionData.TestClassName`: Java throws `StringIndexOutOfBoundsException` for an id without '#'. The model returns a failure.
- `BeanProfiler.SlowestOf` and `ContextProfile.SlowestBeans`: a negative `limit` makes Java's `Stream.limit` throw. The model takes a natural number.
- `ReportScript`: the DOM, event wiring, SVG and D3 rendering are left out. Only the pure helpers, the search gate and the compare-button predicate are modelled.
- `ReportScript`: JavaScript strings are UTF-16. The model compares code points and counts lengths in characters. `toLowerCase` and `trim` are restricted to ASCII letters and ASCII whitespace, and `localeCompare` is a code-point comparison.
- `ReportScript.GetContextFeatures`: array items cannot themselves be arrays in the model. A loader or parent that is an array is therefore flattened when wrapped, where JavaScript nests it.
- `ReportScript.ArraysEqualIsSameItems`: holds under the condition that the arrays do not mix a `null` and the string "null". The default sort orders these two as equals, so `arraysEqual` depends on their order (`NullClashIsOrderSensitive`).
- `TemplateHelpers`: Java's `String.compareTo` compares UTF-16 code units; the model compares characters.

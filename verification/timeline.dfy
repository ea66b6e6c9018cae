/**
 * The data behind the report's context timeline: the created contexts in order of
 * creation, each with a label, a colour, its offset from the first creation and its load
 * time, plus the bounds of the whole timeline.
 */
module Timeline {
  import opened Wrappers
  import opened Strings
  import opened Sorting
  import opened CacheEntry

  datatype TimelineEntry = TimelineEntry(
    contextLabel: string, phase: string, startTimeMs: int, endTimeMs: int,
    color: string, tooltip: string, contextId: int)
  {
    /** `getDurationMs()` */
    function DurationMs(): int
    {
      endTimeMs - startTimeMs
    }
  }

  datatype ContextTimelineEvent = ContextTimelineEvent(
    contextName: string, color: string, creationTimeSeconds: int, loadTimeMs: int,
    testClassCount: nat, cacheHitCount: nat, beanCount: nat)

  datatype TimelineData = TimelineData(
    entries: seq<TimelineEntry>, startTime: Option<int>, endTime: Option<int>, events: seq<ContextTimelineEvent>)

  const ContextColors: seq<string> := [
    "#e74c3c", "#3498db", "#27ae60", "#f39c12", "#9b59b6",
    "#e67e22", "#1abc9c", "#34495e", "#e91e63", "#ff5722"
  ]

  /** `getEarliestContextCreationTime()`: the first creation instant of a created context. */
  function EarliestCreationTime(entries: seq<EntryView>): (r: Option<int>)
    ensures r.None? <==> forall i :: 0 <= i < |entries| ==> !(entries[i].created && entries[i].creationTime.Some?)
    ensures r.Some? ==> exists i :: 0 <= i < |entries| && entries[i].created && entries[i].creationTime == r
    ensures r.Some? ==> forall i :: 0 <= i < |entries| && entries[i].created && entries[i].creationTime.Some?
                          ==> r.value <= entries[i].creationTime.value
  {
    if entries == [] then None
    else
      var prefix, last := entries[..|entries| - 1], entries[|entries| - 1];
      var before := EarliestCreationTime(prefix);
      assert forall i :: 0 <= i < |prefix| ==> entries[i] == prefix[i];
      if last.created && last.creationTime.Some? && (before.None? || last.creationTime.value < before.value)
      then last.creationTime
      else before
  }

  /** `getLatestContextAccessTime()`: the last instant any context was used. */
  function LatestAccessTime(entries: seq<EntryView>): (r: Option<int>)
    ensures r.None? <==> forall i :: 0 <= i < |entries| ==> entries[i].lastUsedTime.None?
    ensures r.Some? ==> exists i :: 0 <= i < |entries| && entries[i].lastUsedTime == r
    ensures r.Some? ==> forall i :: 0 <= i < |entries| && entries[i].lastUsedTime.Some?
                          ==> entries[i].lastUsedTime.value <= r.value
  {
    if entries == [] then None
    else
      var prefix, last := entries[..|entries| - 1], entries[|entries| - 1];
      var before := LatestAccessTime(prefix);
      assert forall i :: 0 <= i < |prefix| ==> entries[i] == prefix[i];
      if last.lastUsedTime.Some? && (before.None? || last.lastUsedTime.value > before.value)
      then last.lastUsedTime
      else before
  }

  /** Every created entry has a creation instant, as every valid entry does. */
  predicate CreationsTimed(entries: seq<EntryView>)
  {
    forall e :: e in entries && e.created ==> e.creationTime.Some?
  }

  /** The timeline's comparator: by creation instant, entries without one last. */
  predicate CreatedNoLater(a: EntryView, b: EntryView)
  {
    b.creationTime.None? || (a.creationTime.Some? && a.creationTime.value <= b.creationTime.value)
  }

  lemma CreatedNoLaterIsTotalPreorder()
    ensures TotalPreorder(CreatedNoLater)
  {
  }

  /** The created entries, earliest creation first. */
  function ByCreationTime(entries: seq<EntryView>): (r: seq<EntryView>)
    ensures multiset(r) == multiset(CreatedEntries(entries))
    ensures forall i :: 0 <= i < |r| ==> r[i] in entries && r[i].created
    ensures SortedBy(r, CreatedNoLater)
    ensures CreationsTimed(entries) ==> forall i :: 0 <= i < |r| ==> r[i].creationTime.Some?
  {
    var created := CreatedEntries(entries);
    var r := SortBy(created, CreatedNoLater);
    CreatedNoLaterIsTotalPreorder();
    SortBySorted(created, CreatedNoLater);
    assert forall i :: 0 <= i < |r| ==> r[i] in multiset(created);
    r
  }

  /** Java's `long` division, which truncates toward zero. */
  function JavaDivide(a: int, b: int): (q: int)
    requires b > 0
    ensures a >= 0 ==> q == a / b
  {
    if a >= 0 then a / b else -((-a) / b)
  }

  /** The simple name of the entry's first test class, or "Context <n>" when it has none. */
  function ContextLabel(i: nat, e: EntryView): string
  {
    if e.testClasses == [] then "Context " + NatToString(i + 1) else AfterLast(e.testClasses[0], '.')
  }

  /** The event of the `i`-th created context. */
  function EventAt(i: nat, e: EntryView, earliest: int): ContextTimelineEvent
    requires e.creationTime.Some?
  {
    ContextTimelineEvent(ContextLabel(i, e), ContextColors[i % |ContextColors|],
                         JavaDivide(e.creationTime.value - earliest, 1000), e.contextLoadTimeMs,
                         |e.testClasses|, e.hitCount, e.beanDefinitionCount)
  }

  /** The table row of a created context, labelled and coloured as its event. */
  function EntryAt(event: ContextTimelineEvent, e: EntryView, earliest: int): TimelineEntry
    requires e.creationTime.Some?
  {
    var start := e.creationTime.value - earliest;
    TimelineEntry(event.contextName, "Creation", start, start + e.contextLoadTimeMs, event.color,
                  IntToString(e.contextLoadTimeMs) + "ms load time", e.configuration.hashCode)
  }

  /** The events of the created contexts, in creation order. */
  function Events(sorted: seq<EntryView>, earliest: int): (r: seq<ContextTimelineEvent>)
    requires forall i :: 0 <= i < |sorted| ==> sorted[i].creationTime.Some?
    ensures |r| == |sorted| && forall i :: 0 <= i < |sorted| ==> r[i] == EventAt(i, sorted[i], earliest)
  {
    seq(|sorted|, i requires 0 <= i < |sorted| => EventAt(i, sorted[i], earliest))
  }

  /** The table rows, one per event. */
  function Rows(events: seq<ContextTimelineEvent>, sorted: seq<EntryView>, earliest: int): (r: seq<TimelineEntry>)
    requires |events| == |sorted| && forall i :: 0 <= i < |sorted| ==> sorted[i].creationTime.Some?
    ensures |r| == |sorted| && forall i :: 0 <= i < |sorted| ==> r[i] == EntryAt(events[i], sorted[i], earliest)
  {
    seq(|sorted|, i requires 0 <= i < |sorted| => EntryAt(events[i], sorted[i], earliest))
  }

  /**
   * `getTimelineData()`, with `now` standing for `Instant.now()`: one event and one row per
   * created context, starting at the earliest creation, with an end exactly when there is a
   * start.
   */
  function TimelineFor(entries: seq<EntryView>, now: int): (t: TimelineData)
    requires CreationsTimed(entries)
    ensures |t.events| == |t.entries| == |CreatedEntries(entries)|
    ensures t.startTime == EarliestCreationTime(entries)
    ensures t.startTime.None? <==> t.endTime.None?
  {
    var sorted := ByCreationTime(entries);
    ByCreationTimeStartsEarliest(entries);
    if sorted == [] then TimelineData([], None, None, [])
    else
      var earliest := sorted[0].creationTime.value;
      var events := Events(sorted, earliest);
      TimelineData(Rows(events, sorted, earliest), Some(earliest), Some(LatestAccessTime(sorted).GetOr(now)), events)
  }

  /** In creation order the creation instants never decrease. */
  lemma ByCreationTimeOrdered(entries: seq<EntryView>)
    requires CreationsTimed(entries)
    ensures var sorted := ByCreationTime(entries);
      (forall i :: 0 <= i < |sorted| ==> sorted[i].creationTime.Some?)
      && (forall i, j :: 0 <= i < j < |sorted| ==> sorted[i].creationTime.value <= sorted[j].creationTime.value)
  {
    var sorted := ByCreationTime(entries);
    forall i | 0 <= i < |sorted| ensures sorted[i].creationTime.Some? {
      assert sorted[i] in entries;
    }
    forall i, j | 0 <= i < j < |sorted| ensures sorted[i].creationTime.value <= sorted[j].creationTime.value {
      assert CreatedNoLater(sorted[i], sorted[j]);
    }
  }

  /** A created entry with its creation instant appears in the creation order. */
  lemma CreatedEntryIsListed(entries: seq<EntryView>, k: nat)
    requires k < |entries| && entries[k].created
    ensures entries[k] in ByCreationTime(entries)
  {
    assert entries[k] in CreatedEntries(entries);
    assert entries[k] in multiset(ByCreationTime(entries));
  }

  /** The first context in creation order was created no later than any other. */
  lemma FirstCreatedFirst(entries: seq<EntryView>, m: nat)
    requires CreationsTimed(entries)
    requires m < |ByCreationTime(entries)|
    ensures var sorted := ByCreationTime(entries);
      sorted[0].creationTime.Some? && sorted[m].creationTime.Some?
      && sorted[0].creationTime.value <= sorted[m].creationTime.value
  {
    var sorted := ByCreationTime(entries);
    assert sorted[0] in entries && sorted[m] in entries;
    if m > 0 {
      assert CreatedNoLater(sorted[0], sorted[m]);
    }
  }

  /** No created entry was created before the earliest creation instant. */
  lemma EarliestIsLowerBound(entries: seq<EntryView>, e: EntryView)
    requires CreationsTimed(entries) && EarliestCreationTime(entries).Some?
    requires e in entries && e.created
    ensures e.creationTime.Some? && EarliestCreationTime(entries).value <= e.creationTime.value
  {
    var j :| 0 <= j < |entries| && entries[j] == e;
  }

  /** When some context was created, the creation order starts with one created earliest. */
  lemma StartsAtEarliest(entries: seq<EntryView>)
    requires CreationsTimed(entries) && EarliestCreationTime(entries).Some?
    ensures ByCreationTime(entries) != []
    ensures ByCreationTime(entries)[0].creationTime == EarliestCreationTime(entries)
  {
    var sorted := ByCreationTime(entries);
    var first := EarliestCreationTime(entries);
    var k :| 0 <= k < |entries| && entries[k].created && entries[k].creationTime == first;
    CreatedEntryIsListed(entries, k);
    var m :| 0 <= m < |sorted| && sorted[m] == entries[k];
    FirstCreatedFirst(entries, m);
    assert sorted[m].creationTime == first;
    var head := sorted[0];
    EarliestIsLowerBound(entries, head);
    assert head.creationTime.value == first.value;
    assert head.creationTime == first;
  }

  /** When no context was created, the creation order is empty. */
  lemma EmptyWithoutCreations(entries: seq<EntryView>)
    requires CreationsTimed(entries) && EarliestCreationTime(entries).None?
    ensures ByCreationTime(entries) == []
  {
    forall e | e in entries ensures !e.created {
      var i :| 0 <= i < |entries| && entries[i] == e;
    }
    var created := CreatedEntries(entries);
    assert forall e :: e !in created;
    assert multiset(created) == multiset{};
    assert |multiset(ByCreationTime(entries))| == 0;
  }

  /** The first context in creation order was created at the earliest creation instant. */
  lemma ByCreationTimeStartsEarliest(entries: seq<EntryView>)
    requires CreationsTimed(entries)
    ensures var sorted := ByCreationTime(entries);
      |sorted| == |CreatedEntries(entries)|
      && (sorted == [] <==> EarliestCreationTime(entries).None?)
      && (sorted != [] ==> sorted[0].creationTime == EarliestCreationTime(entries))
  {
    assert |multiset(ByCreationTime(entries))| == |multiset(CreatedEntries(entries))|;
    if EarliestCreationTime(entries).Some? {
      StartsAtEarliest(entries);
    } else {
      EmptyWithoutCreations(entries);
    }
  }

  /** A context created no earlier than `earliest` gets a row that agrees with its event. */
  lemma RowMatchesEvent(i: nat, e: EntryView, earliest: int)
    requires e.creationTime.Some? && e.creationTime.value >= earliest
    ensures var event := EventAt(i, e, earliest);
      var row := EntryAt(event, e, earliest);
      row.startTimeMs == e.creationTime.value - earliest >= 0
      && event.creationTimeSeconds == row.startTimeMs / 1000
      && row.DurationMs() == event.loadTimeMs
      && event.color == row.color == ContextColors[i % 10]
      && row.contextLabel == event.contextName
  {
  }

  /**
   * Each row starts at its context's offset from the first creation, which is never
   * negative, lasts the context's load time, and shares its event's label and colour;
   * colours cycle through the palette of ten; the event gives the offset in whole seconds.
   */
  lemma TimelineRows(entries: seq<EntryView>, now: int)
    requires CreationsTimed(entries)
    ensures var t := TimelineFor(entries, now);
      forall i :: 0 <= i < |t.entries| ==>
        t.entries[i].startTimeMs >= 0
        && t.events[i].creationTimeSeconds == t.entries[i].startTimeMs / 1000
        && t.entries[i].DurationMs() == t.events[i].loadTimeMs
        && t.events[i].color == t.entries[i].color == ContextColors[i % 10]
        && t.entries[i].contextLabel == t.events[i].contextName
  {
    var sorted := ByCreationTime(entries);
    ByCreationTimeOrdered(entries);
    var t := TimelineFor(entries, now);
    if sorted != [] {
      var earliest := sorted[0].creationTime.value;
      forall i | 0 <= i < |t.entries|
        ensures t.entries[i].startTimeMs == sorted[i].creationTime.value - earliest >= 0
        ensures t.events[i].creationTimeSeconds == t.entries[i].startTimeMs / 1000
        ensures t.entries[i].DurationMs() == t.events[i].loadTimeMs
        ensures t.events[i].color == t.entries[i].color == ContextColors[i % 10]
        ensures t.entries[i].contextLabel == t.events[i].contextName
      {
        assert t.events[i] == EventAt(i, sorted[i], earliest);
        assert t.entries[i] == EntryAt(t.events[i], sorted[i], earliest);
        assert i == 0 || sorted[0].creationTime.value <= sorted[i].creationTime.value;
        RowMatchesEvent(i, sorted[i], earliest);
      }
    }
  }

  /** The rows are in order of creation: their start offsets never decrease. */
  lemma TimelineOrdered(entries: seq<EntryView>, now: int)
    requires CreationsTimed(entries)
    ensures var t := TimelineFor(entries, now);
      forall i, j :: 0 <= i < j < |t.entries| ==> t.entries[i].startTimeMs <= t.entries[j].startTimeMs
  {
    var sorted := ByCreationTime(entries);
    ByCreationTimeOrdered(entries);
    var t := TimelineFor(entries, now);
    if sorted != [] {
      var earliest := sorted[0].creationTime.value;
      forall i | 0 <= i < |t.entries| ensures t.entries[i].startTimeMs == sorted[i].creationTime.value - earliest {
        assert t.entries[i] == EntryAt(t.events[i], sorted[i], earliest);
      }
    }
  }

  /** The first loop of `getTimelineData()`: one event per created context. */
  method CollectEvents(sorted: seq<EntryView>, earliest: int) returns (events: seq<ContextTimelineEvent>)
    requires forall i :: 0 <= i < |sorted| ==> sorted[i].creationTime.Some?
    ensures events == Events(sorted, earliest)
  {
    events := [];
    var i := 0;
    while i < |sorted|
      invariant 0 <= i <= |sorted| && |events| == i
      invariant forall j :: 0 <= j < i ==> events[j] == EventAt(j, sorted[j], earliest)
    {
      events := events + [EventAt(i, sorted[i], earliest)];
      i := i + 1;
    }
  }

  /** The second loop of `getTimelineData()`: one table row per event. */
  method CollectRows(events: seq<ContextTimelineEvent>, sorted: seq<EntryView>, earliest: int) returns (rows: seq<TimelineEntry>)
    requires |events| == |sorted| && forall i :: 0 <= i < |sorted| ==> sorted[i].creationTime.Some?
    ensures rows == Rows(events, sorted, earliest)
  {
    rows := [];
    var i := 0;
    while i < |sorted|
      invariant 0 <= i <= |sorted| && |rows| == i
      invariant forall j :: 0 <= j < i ==> rows[j] == EntryAt(events[j], sorted[j], earliest)
    {
      rows := rows + [EntryAt(events[i], sorted[i], earliest)];
      i := i + 1;
    }
  }

  /** `getTimelineData()` over the listed entries, with `now` standing for `Instant.now()`. */
  method BuildTimeline(entries: seq<EntryView>, now: int) returns (data: TimelineData)
    requires CreationsTimed(entries)
    ensures data == TimelineFor(entries, now)
  {
    var sorted := ByCreationTime(entries);
    if sorted == [] {
      return TimelineData([], None, None, []);
    }
    var earliest := sorted[0].creationTime.value;
    var latest := LatestAccessTime(sorted).GetOr(now);
    var events := CollectEvents(sorted, earliest);
    var rows := CollectRows(events, sorted, earliest);
    data := TimelineData(rows, Some(earliest), Some(latest), events);
  }
}

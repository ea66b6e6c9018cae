/**
 * The Spring context statistics: how many contexts were loaded, how many lookups hit or
 * missed the cache, the load events in order, and for each cache key the test classes
 * that used it and its own hit and miss counts. A `None` key or class stands for `null`.
 */
module ContextStatistics {
  import opened Wrappers

  datatype ContextLoadEvent = ContextLoadEvent(contextKey: Option<string>, loadTimeMs: int, timestamp: int)

  /** The hits and misses of one cache key. */
  datatype CacheKeyInfo = CacheKeyInfo(cacheKey: string, hits: nat, misses: nat)
  {
    /** `getTotalAccesses()` */
    function TotalAccesses(): (n: nat)
      ensures n >= hits && n >= misses
    {
      hits + misses
    }
  }

  datatype StatisticsView = StatisticsView(
    contextLoads: nat,
    cacheHits: nat,
    cacheMisses: nat,
    contextLoadEvents: seq<ContextLoadEvent>,
    cacheKeyToTestClasses: map<string, set<string>>,
    cacheKeyInfoMap: map<string, CacheKeyInfo>)
  {
    /**
     * Every load is a miss and leaves one event; both per-key maps know the same keys;
     * each key's info names that key.
     */
    ghost predicate Valid()
    {
      contextLoads == cacheMisses == |contextLoadEvents|
      && cacheKeyToTestClasses.Keys == cacheKeyInfoMap.Keys
      && forall k :: k in cacheKeyInfoMap ==> cacheKeyInfoMap[k].cacheKey == k
    }

    /** `recordCacheKeyUsage`: nothing for a `null` key; otherwise the key is known, the class
     * (if any) joins its set, and its hit or miss count rises by one. */
    function RecordKeyUsage(contextKey: Option<string>, testClassName: Option<string>, wasHit: bool): StatisticsView
    {
      if contextKey.None? then this
      else
        var k := contextKey.value;
        var classes := if k in cacheKeyToTestClasses then cacheKeyToTestClasses[k] else {};
        var info := if k in cacheKeyInfoMap then cacheKeyInfoMap[k] else CacheKeyInfo(k, 0, 0);
        this.(cacheKeyToTestClasses := cacheKeyToTestClasses[k := if testClassName.Some? then classes + {testClassName.value} else classes],
              cacheKeyInfoMap := cacheKeyInfoMap[k := if wasHit then info.(hits := info.hits + 1) else info.(misses := info.misses + 1)])
    }

    /** `recordContextLoad(key, loadTime, testClassName)` at instant `now`. */
    function RecordContextLoad(contextKey: Option<string>, loadTimeMs: int, testClassName: Option<string>, now: int): StatisticsView
    {
      this.(contextLoads := contextLoads + 1, cacheMisses := cacheMisses + 1,
            contextLoadEvents := contextLoadEvents + [ContextLoadEvent(contextKey, loadTimeMs, now)])
        .RecordKeyUsage(contextKey, testClassName, false)
    }

    /** `recordCacheHit(key, testClassName)` */
    function RecordCacheHit(contextKey: Option<string>, testClassName: Option<string>): StatisticsView
    {
      this.(cacheHits := cacheHits + 1).RecordKeyUsage(contextKey, testClassName, true)
    }
  }

  /** A fresh statistics object. */
  function EmptyStatistics(): (s: StatisticsView)
    ensures s.Valid() && s.contextLoads == s.cacheHits == s.cacheMisses == 0 && s.contextLoadEvents == []
    ensures TotalLoadTime(s.contextLoadEvents) == 0
  {
    StatisticsView(0, 0, 0, [], map[], map[])
  }

  /** `getTotalContextLoadTime()`: the sum of the events' load times. */
  function TotalLoadTime(events: seq<ContextLoadEvent>): int
  {
    if events == [] then 0 else TotalLoadTime(events[..|events| - 1]) + events[|events| - 1].loadTimeMs
  }

  /**
   * A load keeps the statistics valid, counts one more load and one more miss but no hit,
   * appends its event and adds its load time to the total; a `null` key leaves both per-key
   * maps alone, and a class is recorded only when there is one.
   */
  lemma ContextLoadCounts(s: StatisticsView, contextKey: Option<string>, loadTimeMs: int,
                          testClassName: Option<string>, now: int)
    requires s.Valid()
    ensures var s' := s.RecordContextLoad(contextKey, loadTimeMs, testClassName, now);
      s'.Valid()
      && s'.contextLoads == s.contextLoads + 1 && s'.cacheMisses == s.cacheMisses + 1 && s'.cacheHits == s.cacheHits
      && s'.contextLoadEvents == s.contextLoadEvents + [ContextLoadEvent(contextKey, loadTimeMs, now)]
      && TotalLoadTime(s'.contextLoadEvents) == TotalLoadTime(s.contextLoadEvents) + loadTimeMs
      && (contextKey.None? ==> s'.cacheKeyToTestClasses == s.cacheKeyToTestClasses && s'.cacheKeyInfoMap == s.cacheKeyInfoMap)
      && (contextKey.Some? ==>
            var k := contextKey.value;
            k in s'.cacheKeyInfoMap && s'.cacheKeyInfoMap[k].misses == (if k in s.cacheKeyInfoMap then s.cacheKeyInfoMap[k].misses else 0) + 1
            && (forall c :: c in s'.cacheKeyToTestClasses[k] <==>
                  (k in s.cacheKeyToTestClasses && c in s.cacheKeyToTestClasses[k]) || testClassName == Some(c)))
  {
    var events := s.contextLoadEvents + [ContextLoadEvent(contextKey, loadTimeMs, now)];
    assert events[..|events| - 1] == s.contextLoadEvents;
  }

  /**
   * A hit keeps the statistics valid and counts one more hit, for the key too, while loads,
   * misses and the events stay as they were.
   */
  lemma CacheHitCounts(s: StatisticsView, contextKey: Option<string>, testClassName: Option<string>)
    requires s.Valid()
    ensures var s' := s.RecordCacheHit(contextKey, testClassName);
      s'.Valid()
      && s'.cacheHits == s.cacheHits + 1 && s'.contextLoads == s.contextLoads && s'.cacheMisses == s.cacheMisses
      && s'.contextLoadEvents == s.contextLoadEvents
      && (contextKey.None? ==> s'.cacheKeyToTestClasses == s.cacheKeyToTestClasses && s'.cacheKeyInfoMap == s.cacheKeyInfoMap)
      && (contextKey.Some? ==>
            var k := contextKey.value;
            k in s'.cacheKeyInfoMap && s'.cacheKeyInfoMap[k].hits == (if k in s.cacheKeyInfoMap then s.cacheKeyInfoMap[k].hits else 0) + 1)
  {
  }

  /** The calls the statistics receive. */
  datatype StatisticsCall =
    | Load(key: Option<string>, loadTimeMs: int, testClass: Option<string>, at: int)
    | Hit(key: Option<string>, testClass: Option<string>)

  function Perform(s: StatisticsView, call: StatisticsCall): StatisticsView
  {
    match call
    case Load(key, t, c, at) => s.RecordContextLoad(key, t, c, at)
    case Hit(key, c) => s.RecordCacheHit(key, c)
  }

  function Run(calls: seq<StatisticsCall>): StatisticsView
  {
    if calls == [] then EmptyStatistics() else Perform(Run(calls[..|calls| - 1]), calls[|calls| - 1])
  }

  /** The number of calls of each kind made with key `key` (or with any key when `key` is `None`). */
  function CountCalls(calls: seq<StatisticsCall>, hits: bool, key: Option<string>): nat
  {
    if calls == [] then 0
    else
      var last := calls[|calls| - 1];
      CountCalls(calls[..|calls| - 1], hits, key)
      + (if last.Hit? == hits && (key.None? || last.key == key) then 1 else 0)
  }

  /**
   * Over any sequence of calls: loads and misses both count the load calls, hits count the
   * hit calls, and each key's hits and misses count the hit and load calls made with that
   * key (a key never used has no info).
   */
  lemma {:induction false} RunCounts(calls: seq<StatisticsCall>, k: string)
    ensures var s := Run(calls);
      s.Valid()
      && s.contextLoads == s.cacheMisses == CountCalls(calls, false, None)
      && s.cacheHits == CountCalls(calls, true, None)
      && (k in s.cacheKeyInfoMap ==>
            s.cacheKeyInfoMap[k].hits == CountCalls(calls, true, Some(k))
            && s.cacheKeyInfoMap[k].misses == CountCalls(calls, false, Some(k))
            && s.cacheKeyInfoMap[k].TotalAccesses() == CountCalls(calls, true, Some(k)) + CountCalls(calls, false, Some(k)))
      && (k !in s.cacheKeyInfoMap ==> CountCalls(calls, true, Some(k)) == 0 && CountCalls(calls, false, Some(k)) == 0)
  {
    RunTotals(calls);
    RunKeyCounts(calls, k);
  }

  /** The run's counters count the calls of each kind. */
  lemma {:induction false} RunTotals(calls: seq<StatisticsCall>)
    ensures var s := Run(calls);
      s.Valid()
      && s.contextLoads == s.cacheMisses == CountCalls(calls, false, None)
      && s.cacheHits == CountCalls(calls, true, None)
  {
    if calls != [] {
      var prefix, last := calls[..|calls| - 1], calls[|calls| - 1];
      RunTotals(prefix);
      var before := Run(prefix);
      assert Run(calls) == Perform(before, last);
      match last
      case Load(key, t, c, at) => ContextLoadCounts(before, key, t, c, at);
      case Hit(key, c) => CacheHitCounts(before, key, c);
    }
  }

  /** The run's info for key `k` counts the calls made with `k`. */
  lemma {:induction false} RunKeyCounts(calls: seq<StatisticsCall>, k: string)
    ensures var s := Run(calls);
      (k in s.cacheKeyInfoMap ==>
         s.cacheKeyInfoMap[k].hits == CountCalls(calls, true, Some(k))
         && s.cacheKeyInfoMap[k].misses == CountCalls(calls, false, Some(k)))
      && (k !in s.cacheKeyInfoMap ==> CountCalls(calls, true, Some(k)) == 0 && CountCalls(calls, false, Some(k)) == 0)
  {
    if calls != [] {
      var prefix, last := calls[..|calls| - 1], calls[|calls| - 1];
      RunKeyCounts(prefix, k);
      var before := Run(prefix);
      assert Run(calls) == Perform(before, last);
      PerformKeyInfo(before, last, k);
    }
  }

  /** One call changes the info of key `k` only when it is made with `k`, by one hit or one miss. */
  lemma PerformKeyInfo(s: StatisticsView, call: StatisticsCall, k: string)
    ensures var s' := Perform(s, call);
      var hits := if k in s.cacheKeyInfoMap then s.cacheKeyInfoMap[k].hits else 0;
      var misses := if k in s.cacheKeyInfoMap then s.cacheKeyInfoMap[k].misses else 0;
      (k in s'.cacheKeyInfoMap <==> k in s.cacheKeyInfoMap || call.key == Some(k))
      && (k in s'.cacheKeyInfoMap ==>
            s'.cacheKeyInfoMap[k].hits == hits + (if call.Hit? && call.key == Some(k) then 1 else 0)
            && s'.cacheKeyInfoMap[k].misses == misses + (if call.Load? && call.key == Some(k) then 1 else 0))
  {
  }

  /** The statistics object; `View` is the value its fields hold. */
  class SpringContextStatistics {
    var contextLoads: nat
    var cacheHits: nat
    var cacheMisses: nat
    var contextLoadEvents: seq<ContextLoadEvent>
    var cacheKeyToTestClasses: map<string, set<string>>
    var cacheKeyInfoMap: map<string, CacheKeyInfo>

    function View(): StatisticsView
      reads this
    {
      StatisticsView(contextLoads, cacheHits, cacheMisses, contextLoadEvents, cacheKeyToTestClasses, cacheKeyInfoMap)
    }

    constructor ()
      ensures View() == EmptyStatistics()
    {
      contextLoads, cacheHits, cacheMisses := 0, 0, 0;
      contextLoadEvents := [];
      cacheKeyToTestClasses := map[];
      cacheKeyInfoMap := map[];
    }

    method RecordCacheKeyUsage(contextKey: Option<string>, testClassName: Option<string>, wasHit: bool)
      modifies this
      ensures View() == old(View()).RecordKeyUsage(contextKey, testClassName, wasHit)
    {
      if contextKey.None? {
        return;
      }
      var k := contextKey.value;
      if k !in cacheKeyToTestClasses {
        cacheKeyToTestClasses := cacheKeyToTestClasses[k := {}];
      }
      if testClassName.Some? {
        cacheKeyToTestClasses := cacheKeyToTestClasses[k := cacheKeyToTestClasses[k] + {testClassName.value}];
      }
      var info := if k in cacheKeyInfoMap then cacheKeyInfoMap[k] else CacheKeyInfo(k, 0, 0);
      if wasHit {
        info := info.(hits := info.hits + 1);
      } else {
        info := info.(misses := info.misses + 1);
      }
      cacheKeyInfoMap := cacheKeyInfoMap[k := info];
    }

    method RecordContextLoad(contextKey: Option<string>, loadTimeMs: int, testClassName: Option<string>, now: int)
      modifies this
      ensures View() == old(View()).RecordContextLoad(contextKey, loadTimeMs, testClassName, now)
    {
      contextLoads := contextLoads + 1;
      cacheMisses := cacheMisses + 1;
      contextLoadEvents := contextLoadEvents + [ContextLoadEvent(contextKey, loadTimeMs, now)];
      RecordCacheKeyUsage(contextKey, testClassName, false);
    }

    method RecordCacheHit(contextKey: Option<string>, testClassName: Option<string>)
      modifies this
      ensures View() == old(View()).RecordCacheHit(contextKey, testClassName)
    {
      cacheHits := cacheHits + 1;
      RecordCacheKeyUsage(contextKey, testClassName, true);
    }

    /** `getTotalContextLoadTime()`, the stream's reduction as a loop over the events. */
    method GetTotalContextLoadTime() returns (total: int)
      ensures total == TotalLoadTime(contextLoadEvents)
    {
      total := 0;
      var i := 0;
      while i < |contextLoadEvents|
        invariant 0 <= i <= |contextLoadEvents|
        invariant total == TotalLoadTime(contextLoadEvents[..i])
      {
        assert contextLoadEvents[..i + 1][..i] == contextLoadEvents[..i];
        total := total + contextLoadEvents[i].loadTimeMs;
        i := i + 1;
      }
      assert contextLoadEvents[..i] == contextLoadEvents;
    }
  }
}

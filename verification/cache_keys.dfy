/**
 * The report's `CacheKeyProcessor`: the context cache keys used across all test classes, with
 * the classes that used each key, and the per-key hit and miss counts summed over classes.
 */
module CacheKeyAggregation {
  import opened ExecutionData
  import opened ContextStatistics

  // ---- aggregateCacheKeys ----

  /** The cache keys a class's statistics saw; none without statistics. */
  function UsedKeys(c: ClassExecutions): set<string>
  {
    if c.contextStatistics.Some? then c.contextStatistics.value.cacheKeyToTestClasses.Keys else {}
  }

  /** `acc` after noting `className` under every key of `keys`. */
  function NoteClass(acc: map<string, set<string>>, className: string, keys: set<string>): (r: map<string, set<string>>)
    ensures r.Keys == acc.Keys + keys
  {
    map k | k in acc.Keys + keys :: (if k in acc then acc[k] else {}) + (if k in keys then {className} else {})
  }

  /** What `aggregateCacheKeys(classes)` returns. */
  function AggregatedKeys(classes: seq<ClassExecutions>): map<string, set<string>>
  {
    if classes == [] then map[]
    else
      var n := |classes| - 1;
      NoteClass(AggregatedKeys(classes[..n]), classes[n].className, UsedKeys(classes[n]))
  }

  /** One class's contribution to one key. */
  lemma NoteClassAt(acc: map<string, set<string>>, className: string, keys: set<string>, k: string, x: string)
    ensures k in NoteClass(acc, className, keys) <==> k in acc || k in keys
    ensures k in NoteClass(acc, className, keys) ==>
      (x in NoteClass(acc, className, keys)[k] <==> (k in acc && x in acc[k]) || (k in keys && x == className))
  {
  }

  /** Whether some class used `key`: the last class, or one before it. */
  lemma UsedSplit(classes: seq<ClassExecutions>, key: string)
    requires classes != []
    ensures var n := |classes| - 1;
      (exists i :: 0 <= i < |classes| && key in UsedKeys(classes[i]))
      <==> (exists i :: 0 <= i < n && key in UsedKeys(classes[..n][i])) || key in UsedKeys(classes[n])
  {
    var n := |classes| - 1;
    if exists i :: 0 <= i < |classes| && key in UsedKeys(classes[i]) {
      var i :| 0 <= i < |classes| && key in UsedKeys(classes[i]);
      if i < n {
        assert key in UsedKeys(classes[..n][i]);
      }
    }
    if exists i :: 0 <= i < n && key in UsedKeys(classes[..n][i]) {
      var i :| 0 <= i < n && key in UsedKeys(classes[..n][i]);
      assert classes[..n][i] == classes[i];
    }
  }

  /** Whether some class named `name` used `key`: the last class, or one before it. */
  lemma UsedByNameSplit(classes: seq<ClassExecutions>, key: string, name: string)
    requires classes != []
    ensures var n := |classes| - 1;
      (exists i :: 0 <= i < |classes| && key in UsedKeys(classes[i]) && classes[i].className == name)
      <==> (exists i :: 0 <= i < n && key in UsedKeys(classes[..n][i]) && classes[..n][i].className == name)
           || (key in UsedKeys(classes[n]) && classes[n].className == name)
  {
    var n := |classes| - 1;
    if exists i :: 0 <= i < |classes| && key in UsedKeys(classes[i]) && classes[i].className == name {
      var i :| 0 <= i < |classes| && key in UsedKeys(classes[i]) && classes[i].className == name;
      if i < n {
        assert key in UsedKeys(classes[..n][i]) && classes[..n][i].className == name;
      }
    }
    if exists i :: 0 <= i < n && key in UsedKeys(classes[..n][i]) && classes[..n][i].className == name {
      var i :| 0 <= i < n && key in UsedKeys(classes[..n][i]) && classes[..n][i].className == name;
      assert classes[..n][i] == classes[i];
    }
  }

  /** A key is in the aggregate exactly when some class used it. */
  lemma {:induction false} AggregatedKeysPresent(classes: seq<ClassExecutions>, key: string)
    ensures key in AggregatedKeys(classes) <==> exists i :: 0 <= i < |classes| && key in UsedKeys(classes[i])
  {
    if classes != [] {
      var n := |classes| - 1;
      AggregatedKeysPresent(classes[..n], key);
      NoteClassAt(AggregatedKeys(classes[..n]), classes[n].className, UsedKeys(classes[n]), key, "");
      UsedSplit(classes, key);
    }
  }

  /** Under a key, the aggregate lists exactly the names of the classes that used that key. */
  lemma {:induction false} AggregatedKeysClasses(classes: seq<ClassExecutions>, key: string, name: string)
    requires key in AggregatedKeys(classes)
    ensures name in AggregatedKeys(classes)[key]
      <==> exists i :: 0 <= i < |classes| && key in UsedKeys(classes[i]) && classes[i].className == name
  {
    var n := |classes| - 1;
    var prefix := classes[..n];
    NoteClassAt(AggregatedKeys(prefix), classes[n].className, UsedKeys(classes[n]), key, name);
    UsedByNameSplit(classes, key, name);
    if key in AggregatedKeys(prefix) {
      AggregatedKeysClasses(prefix, key, name);
    } else {
      AggregatedKeysPresent(prefix, key);
    }
  }

  lemma NoteOneMore(acc: map<string, set<string>>, className: string, done: set<string>, k: string,
                    all: map<string, set<string>>, all': map<string, set<string>>)
    requires k !in done && all == NoteClass(acc, className, done)
    requires all' == all[k := (if k in all then all[k] else {}) + {className}]
    ensures all' == NoteClass(acc, className, done + {k})
  {
    var m' := NoteClass(acc, className, done + {k});
    assert all'.Keys == m'.Keys;
    forall x | x in m'
      ensures all'[x] == m'[x]
    {
    }
  }

  lemma NoteNothing(acc: map<string, set<string>>, className: string)
    ensures NoteClass(acc, className, {}) == acc
  {
    var m := NoteClass(acc, className, {});
    assert m.Keys == acc.Keys;
    forall x | x in acc
      ensures m[x] == acc[x]
    {
      assert acc[x] + {} == acc[x];
    }
  }

  /** Moving one key from those remaining to those done keeps the two a partition of `keys`. */
  lemma MoveOne<T>(done: set<T>, remaining: set<T>, keys: set<T>, k: T)
    requires done !! remaining && done + remaining == keys && k in remaining
    ensures (done + {k}) !! (remaining - {k}) && (done + {k}) + (remaining - {k}) == keys
  {
  }

  /** The inner loop of `aggregateCacheKeys`: `computeIfAbsent(key, ...).add(className)` per key. */
  method NoteClassKeys(acc: map<string, set<string>>, className: string, keys: set<string>)
    returns (all: map<string, set<string>>)
    ensures all == NoteClass(acc, className, keys)
  {
    all := acc;
    var remaining := keys;
    ghost var done: set<string> := {};
    NoteNothing(acc, className);
    while remaining != {}
      invariant done !! remaining && done + remaining == keys
      invariant all == NoteClass(acc, className, done)
      decreases |remaining|
    {
      var k :| k in remaining;
      ghost var before := all;
      all := all[k := (if k in all then all[k] else {}) + {className}];
      NoteOneMore(acc, className, done, k, before, all);
      MoveOne(done, remaining, keys, k);
      done, remaining := done + {k}, remaining - {k};
    }
  }

  /** `aggregateCacheKeys`: the classes in list order, skipping those without statistics. */
  method AggregateCacheKeys(classes: seq<ClassExecutions>) returns (all: map<string, set<string>>)
    ensures all == AggregatedKeys(classes)
  {
    all := map[];
    for i := 0 to |classes|
      invariant all == AggregatedKeys(classes[..i])
    {
      assert classes[..i + 1][..i] == classes[..i];
      var c := classes[i];
      if c.contextStatistics.Some? {
        all := NoteClassKeys(all, c.className, c.contextStatistics.value.cacheKeyToTestClasses.Keys);
      } else {
        NoteNothing(all, c.className);
      }
    }
    assert classes[..|classes|] == classes;
  }

  // ---- aggregateCacheKeyInfo ----

  /** The per-key hit and miss counts of a class's statistics; none without statistics. */
  function UsedInfo(c: ClassExecutions): map<string, CacheKeyInfo>
  {
    if c.contextStatistics.Some? then c.contextStatistics.value.cacheKeyInfoMap else map[]
  }

  /**
   * `acc` after adding the counts `infos` holds for the keys of `keys`; a key met for the first
   * time starts as a fresh record named by the key.
   */
  function AddInfo(acc: map<string, CacheKeyInfo>, infos: map<string, CacheKeyInfo>, keys: set<string>)
    : (r: map<string, CacheKeyInfo>)
    requires keys <= infos.Keys
    ensures r.Keys == acc.Keys + keys
  {
    map k | k in acc.Keys + keys ::
      var base := if k in acc then acc[k] else CacheKeyInfo(k, 0, 0);
      if k in keys then CacheKeyInfo(base.cacheKey, base.hits + infos[k].hits, base.misses + infos[k].misses)
      else base
  }

  /** What `aggregateCacheKeyInfo(classes)` returns. */
  function AggregatedInfo(classes: seq<ClassExecutions>): map<string, CacheKeyInfo>
  {
    if classes == [] then map[]
    else
      var n := |classes| - 1;
      AddInfo(AggregatedInfo(classes[..n]), UsedInfo(classes[n]), UsedInfo(classes[n]).Keys)
  }

  /** The hits recorded for `key` over all classes. */
  function HitsOver(classes: seq<ClassExecutions>, key: string): nat
  {
    if classes == [] then 0
    else
      var c := classes[|classes| - 1];
      HitsOver(classes[..|classes| - 1], key) + (if key in UsedInfo(c) then UsedInfo(c)[key].hits else 0)
  }

  /** The misses recorded for `key` over all classes. */
  function MissesOver(classes: seq<ClassExecutions>, key: string): nat
  {
    if classes == [] then 0
    else
      var c := classes[|classes| - 1];
      MissesOver(classes[..|classes| - 1], key) + (if key in UsedInfo(c) then UsedInfo(c)[key].misses else 0)
  }

  /**
   * A key is in the aggregate exactly when some class's statistics hold it, and then its record
   * is named by the key and holds the hits and the misses summed over all classes.
   */
  lemma {:induction false} AggregatedInfoMeaning(classes: seq<ClassExecutions>, key: string)
    ensures key in AggregatedInfo(classes) <==> exists i :: 0 <= i < |classes| && key in UsedInfo(classes[i])
    ensures key in AggregatedInfo(classes) ==>
      AggregatedInfo(classes)[key] == CacheKeyInfo(key, HitsOver(classes, key), MissesOver(classes, key))
    ensures key !in AggregatedInfo(classes) ==> HitsOver(classes, key) == 0 && MissesOver(classes, key) == 0
  {
    if classes != [] {
      var n := |classes| - 1;
      var prefix := classes[..n];
      AggregatedInfoMeaning(prefix, key);
      InfoUsedSplit(classes, key);
      AddInfoAt(AggregatedInfo(prefix), UsedInfo(classes[n]), key);
    }
  }

  /** Whether some class's statistics hold `key`: the last class's, or one before it. */
  lemma InfoUsedSplit(classes: seq<ClassExecutions>, key: string)
    requires classes != []
    ensures var n := |classes| - 1;
      (exists i :: 0 <= i < |classes| && key in UsedInfo(classes[i]))
      <==> (exists i :: 0 <= i < n && key in UsedInfo(classes[..n][i])) || key in UsedInfo(classes[n])
  {
    var n := |classes| - 1;
    var prefix := classes[..n];
    if exists i :: 0 <= i < |classes| && key in UsedInfo(classes[i]) {
      var i :| 0 <= i < |classes| && key in UsedInfo(classes[i]);
      if i < n {
        assert key in UsedInfo(prefix[i]);
      }
    }
    if exists i :: 0 <= i < n && key in UsedInfo(prefix[i]) {
      var i :| 0 <= i < n && key in UsedInfo(prefix[i]);
      assert key in UsedInfo(classes[i]);
    }
  }

  /** One class's contribution to one key's record. */
  lemma AddInfoAt(acc: map<string, CacheKeyInfo>, infos: map<string, CacheKeyInfo>, key: string)
    ensures key in AddInfo(acc, infos, infos.Keys) <==> key in acc || key in infos
    ensures key in AddInfo(acc, infos, infos.Keys) ==>
      var base := if key in acc then acc[key] else CacheKeyInfo(key, 0, 0);
      AddInfo(acc, infos, infos.Keys)[key]
        == CacheKeyInfo(base.cacheKey, base.hits + (if key in infos then infos[key].hits else 0),
                        base.misses + (if key in infos then infos[key].misses else 0))
  {
  }

  /** `all` with the counts of `info` added to the record under `k`, a fresh one if none. */
  function Bumped(all: map<string, CacheKeyInfo>, k: string, info: CacheKeyInfo): (r: map<string, CacheKeyInfo>)
    ensures r.Keys == all.Keys + {k}
  {
    var base := if k in all then all[k] else CacheKeyInfo(k, 0, 0);
    all[k := CacheKeyInfo(base.cacheKey, base.hits + info.hits, base.misses + info.misses)]
  }

  lemma AddOneMore(acc: map<string, CacheKeyInfo>, infos: map<string, CacheKeyInfo>, done: set<string>, k: string,
                   all: map<string, CacheKeyInfo>, all': map<string, CacheKeyInfo>)
    requires done <= infos.Keys && k in infos && k !in done
    requires all == AddInfo(acc, infos, done)
    requires all' == Bumped(all, k, infos[k])
    ensures all' == AddInfo(acc, infos, done + {k})
  {
    var m' := AddInfo(acc, infos, done + {k});
    assert all'.Keys == m'.Keys;
    forall x | x in m'
      ensures all'[x] == m'[x]
    {
    }
  }

  lemma AddNothing(acc: map<string, CacheKeyInfo>, infos: map<string, CacheKeyInfo>)
    ensures AddInfo(acc, infos, {}) == acc
  {
    var m := AddInfo(acc, infos, {});
    assert m.Keys == acc.Keys;
    forall x | x in acc
      ensures m[x] == acc[x]
    {
    }
  }

  /** One key of the inner loop: a fresh record on first sight, then one increment per hit and miss. */
  method AddKeyInfo(all: map<string, CacheKeyInfo>, k: string, info: CacheKeyInfo)
    returns (all': map<string, CacheKeyInfo>)
    ensures all' == Bumped(all, k, info)
  {
    all' := all;
    if k !in all' {
      all' := all'[k := CacheKeyInfo(k, 0, 0)];
    }
    var existing := all'[k];
    var start := existing;
    for j := 0 to info.hits
      invariant existing == start.(hits := start.hits + j)
    {
      existing := existing.(hits := existing.hits + 1);
    }
    for j := 0 to info.misses
      invariant existing == start.(hits := start.hits + info.hits, misses := start.misses + j)
    {
      existing := existing.(misses := existing.misses + 1);
    }
    all' := all'[k := existing];
  }

  /** The inner loop of `aggregateCacheKeyInfo`, over one class's keys. */
  method AddClassInfo(acc: map<string, CacheKeyInfo>, infos: map<string, CacheKeyInfo>)
    returns (all: map<string, CacheKeyInfo>)
    ensures all == AddInfo(acc, infos, infos.Keys)
  {
    all := acc;
    var remaining := infos.Keys;
    ghost var done: set<string> := {};
    AddNothing(acc, infos);
    while remaining != {}
      invariant done !! remaining && done + remaining == infos.Keys
      invariant all == AddInfo(acc, infos, done)
      decreases |remaining|
    {
      var k :| k in remaining;
      ghost var before := all;
      all := AddKeyInfo(all, k, infos[k]);
      AddOneMore(acc, infos, done, k, before, all);
      MoveOne(done, remaining, infos.Keys, k);
      done, remaining := done + {k}, remaining - {k};
    }
  }

  /** `aggregateCacheKeyInfo`: the classes in list order, skipping those without statistics. */
  method AggregateCacheKeyInfo(classes: seq<ClassExecutions>) returns (all: map<string, CacheKeyInfo>)
    ensures all == AggregatedInfo(classes)
  {
    all := map[];
    for i := 0 to |classes|
      invariant all == AggregatedInfo(classes[..i])
    {
      assert classes[..i + 1][..i] == classes[..i];
      var c := classes[i];
      if c.contextStatistics.Some? {
        all := AddClassInfo(all, c.contextStatistics.value.cacheKeyInfoMap);
      } else {
        AddNothing(all, UsedInfo(c));
      }
    }
    assert classes[..|classes|] == classes;
  }
}

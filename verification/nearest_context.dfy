/**
 * Which created context a configuration is nearest to: the first, in the iteration order
 * of the cache entries, among the created contexts other than itself with the highest
 * positive similarity score.
 */
module NearestContext {
  import opened Wrappers
  import opened Configuration
  import opened Similarity
  import opened CacheEntry

  /** An entry the search may choose: another configuration whose context was created. */
  predicate Candidate(entries: map<MergedContextConfiguration, EntryView>, target: MergedContextConfiguration,
                      c: MergedContextConfiguration)
  {
    c != target && c in entries && entries[c].created
  }

  /** The search's two variables after visiting a prefix of the entries. */
  datatype Scan = Scan(nearest: Option<MergedContextConfiguration>, highestScore: nat)

  /** Each configuration's similarity score against the target. */
  function ScoresAgainst(target: MergedContextConfiguration): MergedContextConfiguration -> nat
  {
    c => SimilarityScore(target, c)
  }

  /** One iteration of the search, scoring candidates with `score`. */
  function ScanStep(entries: map<MergedContextConfiguration, EntryView>, target: MergedContextConfiguration,
                    score: MergedContextConfiguration -> nat, acc: Scan, c: MergedContextConfiguration): Scan
  {
    if Candidate(entries, target, c) && score(c) > acc.highestScore
    then Scan(Some(c), score(c))
    else acc
  }

  function ScanAll(entries: map<MergedContextConfiguration, EntryView>, order: seq<MergedContextConfiguration>,
                   target: MergedContextConfiguration, score: MergedContextConfiguration -> nat): Scan
  {
    if order == [] then Scan(None, 0)
    else ScanStep(entries, target, score, ScanAll(entries, order[..|order| - 1], target, score), order[|order| - 1])
  }

  /** `findNearestContext`, visiting the entries in `order`. */
  function Nearest(entries: map<MergedContextConfiguration, EntryView>, order: seq<MergedContextConfiguration>,
                   target: MergedContextConfiguration): Option<MergedContextConfiguration>
  {
    ScanAll(entries, order, target, ScoresAgainst(target)).nearest
  }

  /** The scan keeps the best score seen so far, and the candidate that scored it. */
  lemma {:induction false} ScanBound(entries: map<MergedContextConfiguration, EntryView>,
                                     order: seq<MergedContextConfiguration>, target: MergedContextConfiguration,
                                     score: MergedContextConfiguration -> nat)
    ensures var s := ScanAll(entries, order, target, score);
      (s.nearest.None? <==> s.highestScore == 0)
      && (s.nearest.Some? ==> Candidate(entries, target, s.nearest.value) && score(s.nearest.value) == s.highestScore)
      && (forall i :: 0 <= i < |order| && Candidate(entries, target, order[i]) ==> score(order[i]) <= s.highestScore)
  {
    if order != [] {
      var prefix := order[..|order| - 1];
      ScanBound(entries, prefix, target, score);
      assert forall i :: 0 <= i < |prefix| ==> order[i] == prefix[i];
    }
  }

  /** The candidate kept is the first one visited with the best score. */
  lemma {:induction false} ScanFirst(entries: map<MergedContextConfiguration, EntryView>,
                                     order: seq<MergedContextConfiguration>, target: MergedContextConfiguration,
                                     score: MergedContextConfiguration -> nat)
    ensures var s := ScanAll(entries, order, target, score);
      s.nearest.Some? ==>
        exists k :: 0 <= k < |order| && order[k] == s.nearest.value
          && forall i :: 0 <= i < k && Candidate(entries, target, order[i]) ==> score(order[i]) < s.highestScore
  {
    if order != [] {
      var prefix, c := order[..|order| - 1], order[|order| - 1];
      ScanFirst(entries, prefix, target, score);
      ScanBound(entries, prefix, target, score);
      var before := ScanAll(entries, prefix, target, score);
      var after := ScanAll(entries, order, target, score);
      if after != before {
        assert after.nearest == Some(c);
        forall i | 0 <= i < |order| - 1 && Candidate(entries, target, order[i])
          ensures score(order[i]) < after.highestScore
        {
          assert order[i] == prefix[i];
        }
      } else if before.nearest.Some? {
        var k :| 0 <= k < |prefix| && prefix[k] == before.nearest.value
          && forall i :: 0 <= i < k && Candidate(entries, target, prefix[i]) ==> score(prefix[i]) < before.highestScore;
        assert forall i :: 0 <= i < |prefix| ==> order[i] == prefix[i];
        assert order[k] == before.nearest.value;
      }
    }
  }

  /**
   * The nearest context is a created entry other than the target, scores highest of all
   * such entries, and no such entry visited before it scores as high; there is none
   * exactly when every such entry scores zero.
   */
  lemma NearestIsFirstBest(entries: map<MergedContextConfiguration, EntryView>,
                           order: seq<MergedContextConfiguration>, target: MergedContextConfiguration)
    ensures var r := Nearest(entries, order, target);
      (r.None? <==> forall i :: 0 <= i < |order| && Candidate(entries, target, order[i])
                      ==> SimilarityScore(target, order[i]) == 0)
      && (r.Some? ==>
            r.value != target && r.value in entries && entries[r.value].created
            && SimilarityScore(target, r.value) > 0
            && (forall i :: 0 <= i < |order| && Candidate(entries, target, order[i])
                  ==> SimilarityScore(target, order[i]) <= SimilarityScore(target, r.value))
            && exists k :: 0 <= k < |order| && order[k] == r.value
                 && forall i :: 0 <= i < k && Candidate(entries, target, order[i])
                      ==> SimilarityScore(target, order[i]) < SimilarityScore(target, r.value))
  {
    ScanBound(entries, order, target, ScoresAgainst(target));
    ScanFirst(entries, order, target, ScoresAgainst(target));
  }

  /** The search never looks at the target's own entry. */
  lemma {:induction false} NearestIgnoresTarget(entries: map<MergedContextConfiguration, EntryView>,
                                                order: seq<MergedContextConfiguration>,
                                                target: MergedContextConfiguration, v: EntryView)
    ensures Nearest(entries[target := v], order, target) == Nearest(entries, order, target)
  {
    ScanIgnoresTarget(entries, order, target, ScoresAgainst(target), v);
  }

  lemma {:induction false} ScanIgnoresTarget(entries: map<MergedContextConfiguration, EntryView>,
                                             order: seq<MergedContextConfiguration>, target: MergedContextConfiguration,
                                             score: MergedContextConfiguration -> nat, v: EntryView)
    ensures ScanAll(entries[target := v], order, target, score) == ScanAll(entries, order, target, score)
  {
    if order != [] {
      ScanIgnoresTarget(entries, order[..|order| - 1], target, score, v);
    }
  }

  /** The loop of `findNearestContext` over the cache entries, visited in `order`. */
  method FindNearestContext(cacheEntries: map<MergedContextConfiguration, EntryView>,
                            order: seq<MergedContextConfiguration>, target: MergedContextConfiguration)
    returns (nearestConfig: Option<MergedContextConfiguration>)
    ensures nearestConfig == Nearest(cacheEntries, order, target)
  {
    nearestConfig := None;
    var highestScore: nat := 0;
    var i := 0;
    while i < |order|
      invariant 0 <= i <= |order|
      invariant Scan(nearestConfig, highestScore) == ScanAll(cacheEntries, order[..i], target, ScoresAgainst(target))
    {
      var key := order[i];
      assert order[..i + 1][..i] == order[..i];
      if key != target && key in cacheEntries {
        var candidate := cacheEntries[key];
        if candidate.created {
          var score := SimilarityScore(target, key);
          if score > highestScore {
            highestScore := score;
            nearestConfig := Some(key);
          }
        }
      }
      i := i + 1;
    }
    assert order[..i] == order;
  }
}

/**
 * The optimisation statistics of a run: how long context creation took in total, how much
 * of it could be saved by merging contexts with their nearest neighbour, how much was spent
 * beyond one second per context, and the five slowest contexts with a recommendation each.
 * Entries are given in the iteration order of the cache-entry map.
 */
module Optimization {
  import opened Wrappers
  import opened Strings
  import opened Sorting
  import opened Configuration
  import opened CacheEntry

  datatype ContextOptimizationOpportunity = ContextOptimizationOpportunity(
    testClass: string, loadTimeMs: int, beanCount: nat, recommendation: string)

  datatype OptimizationStatistics = OptimizationStatistics(
    totalContextCreationTimeMs: int,
    potentialTimeSavingsMs: int,
    wastedTimeMs: int,
    totalContextsCreated: nat,
    topOpportunities: seq<ContextOptimizationOpportunity>)

  /** `calculateTotalContextCreationTime`: the sum of the load times. */
  function TotalLoadTime(entries: seq<EntryView>): (total: int)
    ensures (forall i :: 0 <= i < |entries| ==> entries[i].contextLoadTimeMs >= 0) ==> total >= 0
  {
    if entries == [] then 0
    else TotalLoadTime(entries[..|entries| - 1]) + entries[|entries| - 1].contextLoadTimeMs
  }

  /** The entry has a nearest context whose own context was created, so the two could be merged. */
  predicate CouldMerge(all: map<MergedContextConfiguration, EntryView>, e: EntryView)
  {
    e.nearestContext.Some? && e.nearestContext.value in all && all[e.nearestContext.value].created
  }

  /** `calculatePotentialTimeSavings`: the load times of the entries that could be merged. */
  function PotentialTimeSavings(all: map<MergedContextConfiguration, EntryView>, entries: seq<EntryView>): (savings: int)
    ensures (forall i :: 0 <= i < |entries| ==> entries[i].contextLoadTimeMs >= 0) ==>
      0 <= savings <= TotalLoadTime(entries)
    ensures (forall i :: 0 <= i < |entries| ==> !CouldMerge(all, entries[i])) ==> savings == 0
  {
    if entries == [] then 0
    else
      var last := entries[|entries| - 1];
      PotentialTimeSavings(all, entries[..|entries| - 1]) + (if CouldMerge(all, last) then last.contextLoadTimeMs else 0)
  }

  /** `calculateWastedTime`: what each load took beyond one second. */
  function WastedTime(entries: seq<EntryView>): (wasted: int)
    ensures (forall i :: 0 <= i < |entries| ==> entries[i].contextLoadTimeMs >= 0) ==>
      0 <= wasted <= TotalLoadTime(entries)
    ensures (forall i :: 0 <= i < |entries| ==> entries[i].contextLoadTimeMs <= 1000) ==> wasted == 0
  {
    if entries == [] then 0
    else
      var last := entries[|entries| - 1];
      WastedTime(entries[..|entries| - 1]) + (if last.contextLoadTimeMs > 1000 then last.contextLoadTimeMs - 1000 else 0)
  }

  // The four texts are split where they first differ: a long literal's characters are not
  // visible to the verifier.
  const HarmonizeAdvice: string := "Consider h" + "armonizing with similar context to save "
  const LargeAdvice: string := "Large context ("
  const SlowAdvice: string := "Slow context load ("
  const GenericAdvice: string := "Consider o" + "ptimizing test setup to reduce context load time"

  /**
   * `generateRecommendation`: a nearest context wins over a large bean count, which wins over
   * a slow load; the generic advice is left for the rest. The four texts start differently,
   * so the text names the rule that chose it.
   */
  function Recommendation(e: EntryView): (advice: string)
    ensures StartsWith(advice, HarmonizeAdvice) <==> e.nearestContext.Some?
    ensures StartsWith(advice, LargeAdvice) <==> e.nearestContext.None? && e.beanDefinitionCount > 100
    ensures StartsWith(advice, SlowAdvice) <==>
      e.nearestContext.None? && e.beanDefinitionCount <= 100 && e.contextLoadTimeMs > 2000
    ensures advice == GenericAdvice <==>
      e.nearestContext.None? && e.beanDefinitionCount <= 100 && e.contextLoadTimeMs <= 2000
  {
    if e.nearestContext.Some? then
      var t := IntToString(e.contextLoadTimeMs) + "ms";
      AdviceHeads(t);
      assert (HarmonizeAdvice + t)[..|HarmonizeAdvice|] == HarmonizeAdvice;
      HarmonizeAdvice + t
    else if e.beanDefinitionCount > 100 then
      var t := NatToString(e.beanDefinitionCount) + " beans) - consider using @TestConfiguration to reduce scope";
      AdviceHeads(t);
      assert (LargeAdvice + t)[..|LargeAdvice|] == LargeAdvice;
      LargeAdvice + t
    else if e.contextLoadTimeMs > 2000 then
      var t := IntToString(e.contextLoadTimeMs) + "ms) - review component scanning and auto-configuration";
      AdviceHeads(t);
      assert (SlowAdvice + t)[..|SlowAdvice|] == SlowAdvice;
      SlowAdvice + t
    else
      AdviceHeads([]);
      GenericAdvice
  }

  /** The characters that tell the four texts apart, whatever follows them. */
  lemma AdviceHeads(t: string)
    ensures (HarmonizeAdvice + t)[0] == 'C' && (HarmonizeAdvice + t)[9] == 'h'
    ensures (LargeAdvice + t)[0] == 'L' && (SlowAdvice + t)[0] == 'S'
    ensures GenericAdvice[0] == 'C' && GenericAdvice[9] == 'o'
    ensures HarmonizeAdvice[0] == 'C' && HarmonizeAdvice[9] == 'h' && LargeAdvice[0] == 'L' && SlowAdvice[0] == 'S'
  {
    assert HarmonizeAdvice[0] == "Consider h"[0] && HarmonizeAdvice[9] == "Consider h"[9];
    assert GenericAdvice[0] == "Consider o"[0] && GenericAdvice[9] == "Consider o"[9];
    assert (HarmonizeAdvice + t)[0] == HarmonizeAdvice[0] && (HarmonizeAdvice + t)[9] == HarmonizeAdvice[9];
    assert (LargeAdvice + t)[0] == LargeAdvice[0];
    assert (SlowAdvice + t)[0] == SlowAdvice[0];
  }

  predicate SlowerOrEqual(a: EntryView, b: EntryView)
  {
    a.contextLoadTimeMs >= b.contextLoadTimeMs
  }

  lemma SlowerOrEqualIsTotalPreorder()
    ensures TotalPreorder(SlowerOrEqual)
  {
  }

  /** The created entries slower than half a second. */
  function SlowEntries(entries: seq<EntryView>): (r: seq<EntryView>)
    ensures forall i :: 0 <= i < |r| ==> r[i] in entries && r[i].created && r[i].contextLoadTimeMs > 500
    ensures forall e :: e in entries && e.created && e.contextLoadTimeMs > 500 ==> e in r
    ensures |r| <= |CreatedEntries(entries)|
    ensures multiset(r) <= multiset(entries)
  {
    var created := CreatedEntries(entries);
    var r := Filter(created, (e: EntryView) => e.contextLoadTimeMs > 500);
    assert forall e :: e in created && e.contextLoadTimeMs > 500 ==> e in r by {
      forall e | e in created && e.contextLoadTimeMs > 500 ensures e in r {
        var k :| 0 <= k < |created| && created[k] == e;
      }
    }
    r
  }

  /** The slow entries, slowest first, at most five. */
  function Ranked(entries: seq<EntryView>): (ranked: seq<EntryView>)
    ensures |ranked| <= 5
    ensures forall i :: 0 <= i < |ranked| ==> ranked[i] in entries && ranked[i].created && ranked[i].contextLoadTimeMs > 500
    ensures forall i, j :: 0 <= i < j < |ranked| ==> ranked[i].contextLoadTimeMs >= ranked[j].contextLoadTimeMs
    ensures multiset(ranked) <= multiset(entries)
  {
    var slow := SlowEntries(entries);
    SlowerOrEqualIsTotalPreorder();
    TopOfSorted(slow, SlowerOrEqual, 5);
    var ranked := Take(SortBy(slow, SlowerOrEqual), 5);
    assert multiset(ranked) <= multiset(slow) <= multiset(entries);
    ranked
  }

  /**
   * The ranking is the top five: an entry over 500 ms that is left out is no slower than
   * any of five reported ones.
   */
  lemma RankedIsTopFive(entries: seq<EntryView>)
    ensures var ranked := Ranked(entries);
      forall e :: e in entries && e.created && e.contextLoadTimeMs > 500 ==>
        e in ranked || (|ranked| == 5 && forall i :: 0 <= i < 5 ==> ranked[i].contextLoadTimeMs >= e.contextLoadTimeMs)
  {
    var slow := SlowEntries(entries);
    SlowerOrEqualIsTotalPreorder();
    TopOfSorted(slow, SlowerOrEqual, 5);
  }

  /** One opportunity per ranked entry, in the ranking's order. */
  function Describe(ranked: seq<EntryView>): (r: seq<ContextOptimizationOpportunity>)
    requires forall i :: 0 <= i < |ranked| ==> ranked[i].testClasses != []
    ensures |r| == |ranked|
    ensures forall i :: 0 <= i < |r| ==>
      r[i].testClass in ranked[i].testClasses && r[i].loadTimeMs == ranked[i].contextLoadTimeMs
      && r[i].beanCount == ranked[i].beanDefinitionCount && r[i].recommendation == Recommendation(ranked[i])
  {
    seq(|ranked|, i requires 0 <= i < |ranked| =>
      ContextOptimizationOpportunity(ranked[i].testClasses[0], ranked[i].contextLoadTimeMs,
                                     ranked[i].beanDefinitionCount, Recommendation(ranked[i])))
  }

  /** `identifyOptimizationOpportunities`; every entry has a test class to name. */
  function Opportunities(entries: seq<EntryView>): (r: seq<ContextOptimizationOpportunity>)
    requires forall e :: e in entries ==> e.testClasses != []
    ensures var ranked := Ranked(entries);
      |r| == |ranked| <= 5
      && forall i :: 0 <= i < |r| ==>
        r[i].testClass in ranked[i].testClasses && r[i].loadTimeMs == ranked[i].contextLoadTimeMs
        && r[i].beanCount == ranked[i].beanDefinitionCount && r[i].recommendation == Recommendation(ranked[i])
  {
    Describe(Ranked(entries))
  }


  /**
   * `calculateOptimizationStatistics` over the entries and the map they come from: the
   * statistics count the created contexts, list no more opportunities than that, and with no
   * negative load time the savings and the waste are each at most the total creation time.
   */
  function Statistics(all: map<MergedContextConfiguration, EntryView>, entries: seq<EntryView>): (s: OptimizationStatistics)
    requires forall e :: e in entries ==> e.testClasses != []
    ensures s.totalContextsCreated == |CreatedEntries(entries)|
    ensures |s.topOpportunities| <= s.totalContextsCreated
    ensures s.totalContextsCreated == 0 <==> forall i :: 0 <= i < |entries| ==> !entries[i].created
    ensures (forall e :: e in entries ==> e.contextLoadTimeMs >= 0) ==>
      0 <= s.potentialTimeSavingsMs <= s.totalContextCreationTimeMs
      && 0 <= s.wastedTimeMs <= s.totalContextCreationTimeMs
  {
    var created := CreatedEntries(entries);
    CreatedFacts(entries);
    if created == [] then OptimizationStatistics(0, 0, 0, 0, [])
    else
      OpportunitiesWithinCreated(entries);
      OptimizationStatistics(TotalLoadTime(created), PotentialTimeSavings(all, created), WastedTime(created),
                             |created|, Opportunities(entries))
  }

  /** The created entries are none exactly when no entry is created, and inherit non-negative load times. */
  lemma CreatedFacts(entries: seq<EntryView>)
    ensures var created := CreatedEntries(entries);
      (created == [] <==> forall i :: 0 <= i < |entries| ==> !entries[i].created)
      && ((forall e :: e in entries ==> e.contextLoadTimeMs >= 0) ==>
            forall i :: 0 <= i < |created| ==> created[i].contextLoadTimeMs >= 0)
  {
    var created := CreatedEntries(entries);
    if created != [] {
      assert created[0] in entries;
    }
  }

  /** There are never more opportunities than created contexts. */
  lemma OpportunitiesWithinCreated(entries: seq<EntryView>)
    requires forall e :: e in entries ==> e.testClasses != []
    ensures |Opportunities(entries)| <= |CreatedEntries(entries)|
  {
    var slow := SlowEntries(entries);
    assert |Ranked(entries)| <= |SortBy(slow, SlowerOrEqual)| == |slow| <= |CreatedEntries(entries)|;
  }
}

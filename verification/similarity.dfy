/**
 * How similar two context configurations are: the score that decides which earlier
 * context a newly created one is "nearest" to, and so which contexts could be merged.
 */
module Similarity {
  import opened Wrappers
  import opened Configuration

  /** The number of configuration classes both declare. */
  function CommonClasses(a: MergedContextConfiguration, b: MergedContextConfiguration): nat
  {
    |ToSet(a.classes) * ToSet(b.classes)|
  }

  /** The number of inlined property-source properties both declare. */
  function CommonProperties(a: MergedContextConfiguration, b: MergedContextConfiguration): nat
  {
    |ToSet(a.propertySourceProperties) * ToSet(b.propertySourceProperties)|
  }

  predicate SameProfiles(a: MergedContextConfiguration, b: MergedContextConfiguration)
  {
    ToSet(a.activeProfiles) == ToSet(b.activeProfiles)
  }

  /** Both have a context loader, and the loaders are of the same class. */
  predicate SameLoader(a: MergedContextConfiguration, b: MergedContextConfiguration)
  {
    a.contextLoader.Some? && b.contextLoader.Some? && a.contextLoader.value == b.contextLoader.value
  }

  predicate SameInitializers(a: MergedContextConfiguration, b: MergedContextConfiguration)
  {
    a.contextInitializerClasses == b.contextInitializerClasses
  }

  /**
   * Ten points per shared configuration class, five for the same set of active profiles,
   * three for context loaders of the same class, one per shared inlined property and two
   * for the same set of context initializers.
   */
  function SimilarityScore(a: MergedContextConfiguration, b: MergedContextConfiguration): (score: nat)
    ensures score >= 10 * CommonClasses(a, b)
  {
    10 * CommonClasses(a, b)
    + (if SameProfiles(a, b) then 5 else 0)
    + (if SameLoader(a, b) then 3 else 0)
    + CommonProperties(a, b)
    + (if SameInitializers(a, b) then 2 else 0)
  }

  /** The score does not depend on which of the two is the target. */
  lemma SimilaritySymmetric(a: MergedContextConfiguration, b: MergedContextConfiguration)
    ensures SimilarityScore(a, b) == SimilarityScore(b, a)
  {
    assert ToSet(a.classes) * ToSet(b.classes) == ToSet(b.classes) * ToSet(a.classes);
    assert ToSet(a.propertySourceProperties) * ToSet(b.propertySourceProperties)
        == ToSet(b.propertySourceProperties) * ToSet(a.propertySourceProperties);
  }

  /** Two lists share no element exactly when their sets have an empty intersection. */
  lemma DisjointIffNoCommon(a: seq<string>, b: seq<string>)
    ensures (forall x :: x in a ==> x !in b) <==> |ToSet(a) * ToSet(b)| == 0
  {
    var common := ToSet(a) * ToSet(b);
    if common != {} {
      var x :| x in common;
      assert x in a && x in b;
    }
  }

  /** A score of zero means the two have nothing the score rewards in common. */
  lemma SimilarityZeroIffNothingShared(a: MergedContextConfiguration, b: MergedContextConfiguration)
    ensures SimilarityScore(a, b) == 0 <==>
      (forall c :: c in a.classes ==> c !in b.classes)
      && (forall p :: p in a.propertySourceProperties ==> p !in b.propertySourceProperties)
      && !SameProfiles(a, b) && !SameLoader(a, b) && !SameInitializers(a, b)
  {
    DisjointIffNoCommon(a.classes, b.classes);
    DisjointIffNoCommon(a.propertySourceProperties, b.propertySourceProperties);
  }

  /** No configuration scores higher against `a` than `a` itself. */
  lemma {:induction false} SelfIsMostSimilar(a: MergedContextConfiguration, b: MergedContextConfiguration)
    ensures SimilarityScore(a, b) <= SimilarityScore(a, a)
  {
    IntersectionNoLarger(ToSet(a.classes), ToSet(b.classes));
    IntersectionNoLarger(ToSet(a.propertySourceProperties), ToSet(b.propertySourceProperties));
    assert ToSet(a.classes) * ToSet(a.classes) == ToSet(a.classes);
    assert ToSet(a.propertySourceProperties) * ToSet(a.propertySourceProperties) == ToSet(a.propertySourceProperties);
  }
}

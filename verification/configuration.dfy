/**
 * The merged context configuration Spring's test framework uses as the context-cache key.
 * Two test classes share a cached application context exactly when their configurations
 * are equal; the profiler uses the configuration as the key of all its per-context maps.
 */
module Configuration {
  import opened Wrappers

  /**
   * Class objects are represented by their fully qualified names. Spring's arrays become
   * sequences (their order matters for the report), its sets stay sets. The context loader
   * is represented by the name of its class, which is all the profiler compares; `hashCode`
   * is the configuration's `hashCode()`, which equal configurations share.
   */
  datatype MergedContextConfiguration = MergedContextConfiguration(
    locations: seq<string>,
    classes: seq<string>,
    contextInitializerClasses: set<string>,
    activeProfiles: seq<string>,
    propertySourceLocations: seq<string>,
    propertySourceProperties: seq<string>,
    contextCustomizers: set<string>,
    contextLoader: Option<string>,
    parent: Option<MergedContextConfiguration>,
    hashCode: int)

  /** `new HashSet<>(Arrays.asList(array))` */
  function ToSet(s: seq<string>): (r: set<string>)
    ensures forall x :: x in r <==> x in s
    ensures |r| <= |s|
  {
    if s == [] then {}
    else
      assert s == [s[0]] + s[1..];
      {s[0]} + ToSet(s[1..])
  }

  /** A common part is never larger than either side. */
  lemma {:induction false} IntersectionNoLarger(a: set<string>, b: set<string>)
    ensures |a * b| <= |a|
  {
    if a != {} {
      var x :| x in a;
      IntersectionNoLarger(a - {x}, b);
      if x in b {
        assert a * b == (a - {x}) * b + {x};
      } else {
        assert a * b == (a - {x}) * b;
      }
    }
  }
}

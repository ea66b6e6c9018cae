/**
 * The pure helpers of the report page's script: the test-class search (matching, ordering,
 * the length gate, the suggestion cap) and the context comparison (features and their
 * values, order-insensitive array equality, truncation, the compare-button predicate).
 */
module ReportScript {
  import opened Wrappers
  import opened Strings
  import opened Sorting

  // ---------------------------------------------------------------------------------------
  // JavaScript values and the report's context data

  /** A value that is not an array: `undefined`, `null` or a string. */
  datatype Item = Undefined | Null | Text(text: string)

  /** A configuration value: one item, or an array of items. */
  datatype JsValue = Scalar(item: Item) | Array(items: seq<Item>)

  /** JavaScript truthiness: an array always, a string when not empty, never null or undefined. */
  predicate Truthy(v: JsValue)
  {
    v.Array? || (v.item.Text? && v.item.text != "")
  }

  /** `config[key]`: undefined when the key is absent. */
  function Lookup(config: map<string, JsValue>, key: string): JsValue
  {
    if key in config then config[key] else Scalar(Undefined)
  }

  /** One entry of the injected context statistics, as far as the helpers read it. */
  datatype ContextData = ContextData(
    contextKey: string,
    numberOfBeans: Option<int>,
    testClasses: Option<seq<string>>,
    contextConfiguration: map<string, JsValue>)

  // ---------------------------------------------------------------------------------------
  // arraysEqual

  /** `String(x)`, the form the default array sort compares. */
  function SortKey(x: Item): string
  {
    match x
    case Undefined => "undefined"
    case Null => "null"
    case Text(s) => s
  }

  /** The default `Array.prototype.sort` order: `undefined` last, the rest by string form. */
  predicate DefaultLeq(x: Item, y: Item)
  {
    y.Undefined? || (!x.Undefined? && StringLeq(SortKey(x), SortKey(y)))
  }

  lemma DefaultLeqIsTotalPreorder()
    ensures TotalPreorder(DefaultLeq)
  {
    forall a, b ensures DefaultLeq(a, b) || DefaultLeq(b, a) {
      CompareAntisymmetric(SortKey(a), SortKey(b));
    }
    forall a, b, c | DefaultLeq(a, b) && DefaultLeq(b, c) ensures DefaultLeq(a, c) {
      if !c.Undefined? {
        CompareTransitive(SortKey(a), SortKey(b), SortKey(c));
      }
    }
  }

  /** `arraysEqual`: same length, and equal item by item once both copies are sorted. */
  function ArraysEqual(a: seq<Item>, b: seq<Item>): (equal: bool)
    ensures equal ==> |a| == |b| && multiset(a) == multiset(b)
  {
    if |a| != |b| then false
    else
      var sa, sb := SortBy(a, DefaultLeq), SortBy(b, DefaultLeq);
      var equal := forall i :: 0 <= i < |sa| ==> sa[i] == sb[i];
      assert equal ==> sa == sb;
      equal
  }

  /** No `null` beside a "null" string: items with one string form are then one item. */
  predicate NoNullClash(s: seq<Item>)
  {
    !(Null in s && Text("null") in s)
  }

  /**
   * `arraysEqual` holds exactly when the arrays hold the same items, each as often, in any
   * order. The one exception is the clash below, where the default sort cannot tell the items
   * apart.
   */
  lemma ArraysEqualIsSameItems(a: seq<Item>, b: seq<Item>)
    requires NoNullClash(a + b)
    ensures ArraysEqual(a, b) <==> multiset(a) == multiset(b)
  {
    var sa, sb := SortBy(a, DefaultLeq), SortBy(b, DefaultLeq);
    if ArraysEqual(a, b) {
      assert sa == sb;
    }
    if multiset(a) == multiset(b) {
      DefaultLeqIsTotalPreorder();
      SortBySorted(a, DefaultLeq);
      SortBySorted(b, DefaultLeq);
      NoTiesWithoutClash(a, b);
      SortedUnique(sa, sb, DefaultLeq);
    }
  }

  /** Without the clash, two items ordered both ways are one item. */
  lemma NoTiesWithoutClash(a: seq<Item>, b: seq<Item>)
    requires NoNullClash(a + b)
    ensures AntisymmetricOn(SortBy(a, DefaultLeq), DefaultLeq)
  {
    var sa := SortBy(a, DefaultLeq);
    forall x, y | x in sa && y in sa && DefaultLeq(x, y) && DefaultLeq(y, x) ensures x == y {
      assert x in multiset(a) && y in multiset(a);
      assert x in a + b && y in a + b;
      if !x.Undefined? && !y.Undefined? {
        CompareAntisymmetric(SortKey(x), SortKey(y));
        CompareZeroIffEqual(SortKey(x), SortKey(y));
      }
    }
  }

  /** A `null` and a "null" string sort as equals, so their order decides the outcome. */
  lemma NullClashIsOrderSensitive()
    ensures multiset([Null, Text("null")]) == multiset([Text("null"), Null])
    ensures !ArraysEqual([Null, Text("null")], [Text("null"), Null])
  {
    NullFirstSorted();
    NullTextFirstSorted();
  }

  lemma NullFirstSorted()
    ensures SortBy([Null, Text("null")], DefaultLeq) == [Null, Text("null")]
  {
    assert StringLeq("null", "null");
    assert SortBy([Text("null")], DefaultLeq) == [Text("null")];
  }

  lemma NullTextFirstSorted()
    ensures SortBy([Text("null"), Null], DefaultLeq) == [Text("null"), Null]
  {
    assert StringLeq("null", "null");
    assert SortBy([Null], DefaultLeq) == [Null];
  }

  /** The script's own examples: ['a','b'] equals ['b','a'] and itself, not ['a','c'] or ['a']. */
  lemma ArraysEqualExamples()
    ensures ArraysEqual([Text("a"), Text("b")], [Text("b"), Text("a")])
    ensures ArraysEqual([Text("a"), Text("b")], [Text("a"), Text("b")])
    ensures !ArraysEqual([Text("a"), Text("b")], [Text("a"), Text("c")])
    ensures !ArraysEqual([Text("a")], [Text("a"), Text("b")])
  {
    SwappedArraysEqual();
    ArraysEqualIsSameItems([Text("a"), Text("b")], [Text("a"), Text("b")]);
    DifferentArraysUnequal();
  }

  lemma SwappedArraysEqual()
    ensures ArraysEqual([Text("a"), Text("b")], [Text("b"), Text("a")])
  {
    SortedPair();
    SwappedPairSorted();
  }

  lemma SortedPair()
    ensures SortBy([Text("a"), Text("b")], DefaultLeq) == [Text("a"), Text("b")]
  {
    assert StringLeq("a", "b");
    assert SortBy([Text("b")], DefaultLeq) == [Text("b")];
  }

  lemma SwappedPairSorted()
    ensures SortBy([Text("b"), Text("a")], DefaultLeq) == [Text("a"), Text("b")]
  {
    assert !StringLeq("b", "a");
    assert SortBy([Text("a")], DefaultLeq) == [Text("a")];
  }

  lemma DifferentArraysUnequal()
    ensures !ArraysEqual([Text("a"), Text("b")], [Text("a"), Text("c")])
  {
    var a, b := [Text("a"), Text("b")], [Text("a"), Text("c")];
    assert multiset(a)[Text("b")] == 1;
    assert multiset(b)[Text("b")] == 0;
  }

  // ---------------------------------------------------------------------------------------
  // truncateString and formatValueArray

  /** The default `maxLength` of both helpers. */
  const DefaultMaxLength := 200

  /**
   * `truncateString`: `None` is `null` or `undefined`. A falsy or short enough string comes
   * back as it was; a longer one keeps its first `maxLength` characters (none when
   * `maxLength` is negative, as `substring` clamps it to 0) followed by "...".
   */
  function TruncateString(str: Option<string>, maxLength: int): (r: Option<string>)
    ensures r.None? <==> str.None?
    ensures str.Some? && (str.value == "" || |str.value| <= maxLength) ==> r == str
    ensures str.Some? && str.value != "" && |str.value| > maxLength ==>
      |r.value| == Max(maxLength, 0) + 3
      && r.value[..Max(maxLength, 0)] == str.value[..Max(maxLength, 0)]
      && r.value[Max(maxLength, 0)..] == "..."
  {
    if str.None? || str.value == "" || |str.value| <= maxLength then str
    else Some(str.value[..Max(maxLength, 0)] + "...")
  }

  /** Truncating twice is truncating once. */
  lemma TruncateIdempotent(str: Option<string>, maxLength: int)
    ensures TruncateString(TruncateString(str, maxLength), maxLength) == TruncateString(str, maxLength)
  {
    var r := TruncateString(str, maxLength);
    if r != str {
      var m := Max(maxLength, 0);
      assert r.value == r.value[..m] + r.value[m..];
      assert r.value[..m] + "..." == r.value;
    }
  }

  /** The script's own examples. */
  lemma TruncateExamples()
    ensures TruncateString(Some("short"), 10) == Some("short")
    ensures TruncateString(Some("this is a very long string"), 10) == Some("this is a ...")
    ensures TruncateString(None, DefaultMaxLength) == None
  {
    var long := "this is a very long string";
    assert |long| == 26 && long != "";
    assert long[..10] == "this is a ";
    assert long[..10] + "..." == "this is a ...";
  }

  /** `formatValueArray`: "None" for a missing or empty array, else the items joined by ", " and truncated. */
  function FormatValueArray(values: Option<seq<string>>, maxLength: int): (r: string)
    ensures values.None? || values.value == [] ==> r == "None"
    ensures values.Some? && values.value != [] ==> Some(r) == TruncateString(Some(Join(values.value, ", ")), maxLength)
  {
    if values.None? || values.value == [] then "None"
    else TruncateString(Some(Join(values.value, ", ")), maxLength).value
  }

  /** The text shown is "None", or no longer than the limit plus the three-dot marker. */
  lemma FormatValueArrayBound(values: Option<seq<string>>, maxLength: int)
    ensures var r := FormatValueArray(values, maxLength);
      r == "None" || |r| <= Max(maxLength, 0) + 3
  {
  }

  /** The script's own examples. */
  lemma FormatValueArrayExamples()
    ensures FormatValueArray(Some(["a", "b", "c"]), DefaultMaxLength) == "a, b, c"
    ensures FormatValueArray(Some([]), DefaultMaxLength) == "None"
    ensures FormatValueArray(None, DefaultMaxLength) == "None"
  {
    assert Join(["c"], ", ") == "c";
    assert ["a", "b", "c"][1..] == ["b", "c"] && ["b", "c"][1..] == ["c"];
    assert Join(["a", "b", "c"], ", ") == "a, b, c";
  }

  // ---------------------------------------------------------------------------------------
  // getFeatureValue, getContextFeatures, getFeatureColor

  /**
   * `getFeatureValue`: the context loader and the parent as stored, anything else as stored
   * when truthy and an empty array otherwise.
   */
  function GetFeatureValue(config: map<string, JsValue>, key: string): JsValue
  {
    if key == "contextLoader" || key == "parent" then Lookup(config, key)
    else if Truthy(Lookup(config, key)) then Lookup(config, key)
    else Array([])
  }

  /**
   * Apart from the loader and the parent, a feature value is never null or undefined: it is
   * the stored value when that is truthy, and an empty array when the key is absent, null,
   * undefined or the empty string.
   */
  lemma FeatureValueOfListKeys(config: map<string, JsValue>, key: string)
    requires key != "contextLoader" && key != "parent"
    ensures Truthy(GetFeatureValue(config, key))
    ensures Truthy(Lookup(config, key)) ==> GetFeatureValue(config, key) == config[key]
    ensures key !in config ==> GetFeatureValue(config, key) == Array([])
  {
  }

  /** The configuration of the script's examples. */
  function ExampleConfig(): map<string, JsValue>
  {
    map[
      "locations" := Array([Text("classpath:test1.xml")]),
      "classes" := Array([Text("com.example.Config1")]),
      "contextInitializerClasses" := Array([]),
      "activeProfiles" := Array([Text("test")]),
      "propertySourceLocations" := Array([]),
      "propertySourceProperties" := Array([]),
      "contextCustomizers" := Array([]),
      "contextLoader" := Scalar(Text("org.springframework.test.context.support.DelegatingSmartContextLoader")),
      "parent" := Scalar(Null)]
  }

  lemma FeatureValueExamples()
    ensures GetFeatureValue(ExampleConfig(), "contextLoader")
      == Scalar(Text("org.springframework.test.context.support.DelegatingSmartContextLoader"))
    ensures GetFeatureValue(ExampleConfig(), "parent") == Scalar(Null)
    ensures GetFeatureValue(ExampleConfig(), "locations") == Array([Text("classpath:test1.xml")])
    ensures GetFeatureValue(ExampleConfig(), "nonexistent") == Array([])
  {
    assert "nonexistent" !in ExampleConfig();
  }

  datatype Feature = Feature(name: string, value: JsValue, key: string)

  /** The keys of the compared features, in display order. */
  const FeatureKeys: seq<string> := ["locations", "propertySourceProperties", "classes",
    "contextInitializerClasses", "activeProfiles", "propertySourceLocations", "contextCustomizers",
    "contextLoader", "parent"]

  /** The names shown for them. */
  const FeatureNames: seq<string> := ["Locations", "Property Source Properties", "Classes",
    "Context Initializer Classes", "Active Profiles", "Property Source Locations", "Context Customizers",
    "Context Loader", "Parent"]

  /** The item a non-array value holds; an array keeps its items. */
  function Wrapped(v: JsValue): seq<Item>
  {
    if v.Scalar? then [v.item] else v.items
  }

  /**
   * `getContextFeatures`: nine features in a fixed order, each named and keyed; the first
   * seven carry the stored value, the loader is wrapped in an array and the parent is wrapped
   * when truthy and an empty array otherwise.
   */
  function GetContextFeatures(context: ContextData): (features: seq<Feature>)
    ensures |features| == 9
    ensures forall i :: 0 <= i < 9 ==> features[i].key == FeatureKeys[i]
    ensures forall i :: 0 <= i < 9 ==> features[i].name == FeatureNames[i]
    ensures forall i :: 0 <= i < 7 ==> features[i].value == Lookup(context.contextConfiguration, FeatureKeys[i])
    ensures features[7].value == Array(Wrapped(Lookup(context.contextConfiguration, "contextLoader")))
    ensures var parent := Lookup(context.contextConfiguration, "parent");
      features[8].value == if Truthy(parent) then Array(Wrapped(parent)) else Array([])
  {
    var config := context.contextConfiguration;
    var parent := Lookup(config, "parent");
    [Feature("Locations", Lookup(config, "locations"), "locations"),
     Feature("Property Source Properties", Lookup(config, "propertySourceProperties"), "propertySourceProperties"),
     Feature("Classes", Lookup(config, "classes"), "classes"),
     Feature("Context Initializer Classes", Lookup(config, "contextInitializerClasses"), "contextInitializerClasses"),
     Feature("Active Profiles", Lookup(config, "activeProfiles"), "activeProfiles"),
     Feature("Property Source Locations", Lookup(config, "propertySourceLocations"), "propertySourceLocations"),
     Feature("Context Customizers", Lookup(config, "contextCustomizers"), "contextCustomizers"),
     Feature("Context Loader", Array(Wrapped(Lookup(config, "contextLoader"))), "contextLoader"),
     Feature("Parent", if Truthy(parent) then Array(Wrapped(parent)) else Array([]), "parent")]
  }

  /** Every feature has its own key and its own name. */
  lemma FeatureKeysDistinct()
    ensures NoDuplicates(FeatureKeys) && NoDuplicates(FeatureNames)
  {
  }

  /** The script's own example: the first feature is the locations, the fifth the profiles. */
  lemma ContextFeaturesExample()
    ensures var features := GetContextFeatures(ContextData("context-1", Some(50), Some(["com.example.Test1", "com.example.Test2"]), ExampleConfig()));
      features[0] == Feature("Locations", Array([Text("classpath:test1.xml")]), "locations")
      && features[4] == Feature("Active Profiles", Array([Text("test")]), "activeProfiles")
  {
  }

  const UnselectedColor := "#95a5a6"
  const SameColor := "#27ae60"
  const DifferentColor := "#e74c3c"

  /**
   * `getFeatureColor`: grey until both contexts are selected; then green when the two feature
   * values, each taken as an array, are equal by `arraysEqual`, and red otherwise.
   */
  function GetFeatureColor(selectedA: Option<ContextData>, selectedB: Option<ContextData>, key: string): (color: string)
    ensures color in {UnselectedColor, SameColor, DifferentColor}
    ensures color == UnselectedColor <==> selectedA.None? || selectedB.None?
  {
    if selectedA.None? || selectedB.None? then UnselectedColor
    else
      var arrayA := Wrapped(GetFeatureValue(selectedA.value.contextConfiguration, key));
      var arrayB := Wrapped(GetFeatureValue(selectedB.value.contextConfiguration, key));
      if ArraysEqual(arrayA, arrayB) then SameColor else DifferentColor
  }

  /**
   * With both contexts selected, a feature is green exactly when both sides hold the same items
   * in any order, and swapping the two contexts never changes a colour.
   */
  lemma FeatureColorMeaning(a: ContextData, b: ContextData, key: string)
    requires NoNullClash(Wrapped(GetFeatureValue(a.contextConfiguration, key))
                         + Wrapped(GetFeatureValue(b.contextConfiguration, key)))
    ensures GetFeatureColor(Some(a), Some(b), key) == SameColor
      <==> multiset(Wrapped(GetFeatureValue(a.contextConfiguration, key)))
           == multiset(Wrapped(GetFeatureValue(b.contextConfiguration, key)))
    ensures GetFeatureColor(Some(a), Some(b), key) == GetFeatureColor(Some(b), Some(a), key)
  {
    var arrayA := Wrapped(GetFeatureValue(a.contextConfiguration, key));
    var arrayB := Wrapped(GetFeatureValue(b.contextConfiguration, key));
    ArraysEqualIsSameItems(arrayA, arrayB);
    assert multiset(arrayB + arrayA) == multiset(arrayA + arrayB);
    ArraysEqualIsSameItems(arrayB, arrayA);
  }

  // ---------------------------------------------------------------------------------------
  // updateCompareButton

  /** `canCompare`: both contexts selected, and they are different contexts. */
  predicate CanCompare(selectedA: Option<ContextData>, selectedB: Option<ContextData>)
  {
    selectedA.Some? && selectedB.Some? && selectedA.value.contextKey != selectedB.value.contextKey
  }

  /** The button's `disabled` flag after `updateCompareButton`. */
  function CompareButtonDisabled(selectedA: Option<ContextData>, selectedB: Option<ContextData>): (disabled: bool)
    ensures !disabled ==> selectedA.Some? && selectedB.Some? && selectedA.value != selectedB.value
    ensures disabled <==> !CanCompare(selectedA, selectedB)
  {
    !CanCompare(selectedA, selectedB)
  }

  /**
   * The comparison is symmetric, a context is never compared with itself, and the script's
   * own example: disabled with nothing selected, enabled for contexts 1 and 2, disabled again
   * for context 1 against itself.
   */
  lemma CompareButtonExamples(c1: ContextData, c2: ContextData)
    requires c1.contextKey == "context-1" && c2.contextKey == "context-2"
    ensures CanCompare(Some(c1), Some(c2)) == CanCompare(Some(c2), Some(c1))
    ensures CompareButtonDisabled(None, None)
    ensures !CompareButtonDisabled(Some(c1), Some(c2))
    ensures CompareButtonDisabled(Some(c1), Some(c1))
  {
    assert c1.contextKey[8] == '1' && c2.contextKey[8] == '2';
  }

  // ---------------------------------------------------------------------------------------
  // The test-class search

  /** The input handler searches only for a trimmed term of at least this length. */
  const MinSearchLength := 3

  /** At most this many suggestions are shown. */
  const MaxSuggestions := 5

  datatype Match = Match(testClass: string, simpleClassName: string, contextKey: string, contextBeans: int)

  /** `testClass.split('.').pop()`: the text after the last dot, all of it without a dot. */
  function SimpleName(testClass: string): string
  {
    AfterLast(testClass, '.')
  }

  /** A class matches when its full or simple name, lower-cased, includes the lower-cased term. */
  predicate Matches(testClass: string, termLower: string)
  {
    Contains(ToLowerAscii(testClass), termLower) || Contains(ToLowerAscii(SimpleName(testClass)), termLower)
  }

  /** The record pushed for a matching class: `numberOfBeans || 0` for the bean count. */
  function MatchOf(context: ContextData, testClass: string): Match
  {
    Match(testClass, SimpleName(testClass), context.contextKey, context.numberOfBeans.GetOr(0))
  }

  /** The matches among `classes`, in their order. */
  function ClassMatches(context: ContextData, classes: seq<string>, termLower: string): seq<Match>
  {
    if classes == [] then []
    else
      var last := classes[|classes| - 1];
      ClassMatches(context, classes[..|classes| - 1], termLower)
      + (if Matches(last, termLower) then [MatchOf(context, last)] else [])
  }

  /** The classes of a context, when it has some. */
  function ClassesOf(context: ContextData): seq<string>
  {
    if context.testClasses.Some? && |context.testClasses.value| > 0 then context.testClasses.value else []
  }

  /** The matches of every context in turn, before sorting. */
  function Candidates(contexts: seq<ContextData>, termLower: string): seq<Match>
  {
    if contexts == [] then []
    else
      var last := contexts[|contexts| - 1];
      Candidates(contexts[..|contexts| - 1], termLower) + ClassMatches(last, ClassesOf(last), termLower)
  }

  /** The simple name, lower-cased, equals the term. */
  predicate IsExact(termLower: string, m: Match)
  {
    ToLowerAscii(m.simpleClassName) == termLower
  }

  /**
   * The comparator gives at most 0: an exact simple-name match before any other, else by
   * simple name.
   */
  predicate ExactFirst(termLower: string, a: Match, b: Match)
  {
    (IsExact(termLower, a) && !IsExact(termLower, b))
    || (IsExact(termLower, a) == IsExact(termLower, b) && StringLeq(a.simpleClassName, b.simpleClassName))
  }

  function ExactFirstOrder(termLower: string): (Match, Match) -> bool
  {
    (a, b) => ExactFirst(termLower, a, b)
  }

  lemma ExactFirstIsTotalPreorder(termLower: string)
    ensures TotalPreorder(ExactFirstOrder(termLower))
  {
    var leq := ExactFirstOrder(termLower);
    forall a, b ensures leq(a, b) || leq(b, a) {
      CompareAntisymmetric(a.simpleClassName, b.simpleClassName);
    }
    forall a, b, c | leq(a, b) && leq(b, c) ensures leq(a, c) {
      if IsExact(termLower, a) == IsExact(termLower, b) == IsExact(termLower, c) {
        CompareTransitive(a.simpleClassName, b.simpleClassName, c.simpleClassName);
      }
    }
  }

  /** What `findMatches` returns: the candidates, sorted by the comparator. */
  function Search(contexts: seq<ContextData>, searchTerm: string): (matches: seq<Match>)
    ensures multiset(matches) == multiset(Candidates(contexts, ToLowerAscii(searchTerm)))
  {
    var termLower := ToLowerAscii(searchTerm);
    SortBy(Candidates(contexts, termLower), ExactFirstOrder(termLower))
  }

  /**
   * `findMatches`: walks the contexts and their classes, collects every match, then sorts the
   * collected matches with the comparator.
   */
  method FindMatches(contextData: seq<ContextData>, searchTerm: string) returns (matches: seq<Match>)
    ensures matches == Search(contextData, searchTerm)
  {
    var searchTermLower := ToLowerAscii(searchTerm);
    var found: seq<Match> := [];
    for i := 0 to |contextData|
      invariant found == Candidates(contextData[..i], searchTermLower)
    {
      var context := contextData[i];
      assert contextData[..i + 1][..i] == contextData[..i];
      if context.testClasses.Some? && |context.testClasses.value| > 0 {
        found := CollectClassMatches(found, context, searchTermLower);
      }
    }
    assert contextData[..|contextData|] == contextData;
    matches := SortBy(found, ExactFirstOrder(searchTermLower));
  }

  /** The inner walk over one context's classes, pushing each match. */
  method CollectClassMatches(found: seq<Match>, context: ContextData, termLower: string) returns (found': seq<Match>)
    requires context.testClasses.Some?
    ensures found' == found + ClassMatches(context, context.testClasses.value, termLower)
  {
    var classes := context.testClasses.value;
    found' := found;
    for j := 0 to |classes|
      invariant found' == found + ClassMatches(context, classes[..j], termLower)
    {
      var testClass := classes[j];
      assert classes[..j + 1][..j] == classes[..j];
      if Matches(testClass, termLower) {
        found' := found' + [MatchOf(context, testClass)];
      }
    }
    assert classes[..|classes|] == classes;
  }

  /** `m` is the record of `classes[k]` in `context`, and that class matches. */
  predicate MatchAmong(context: ContextData, classes: seq<string>, termLower: string, m: Match, k: int)
  {
    0 <= k < |classes| && Matches(classes[k], termLower) && m == MatchOf(context, classes[k])
  }

  /** A match is the record of one matching class of one of the contexts. */
  ghost predicate FoundIn(contexts: seq<ContextData>, termLower: string, m: Match)
  {
    exists i, k :: 0 <= i < |contexts| && MatchAmong(contexts[i], ClassesOf(contexts[i]), termLower, m, k)
  }

  lemma {:induction false} ClassMatchesMeaning(context: ContextData, classes: seq<string>, termLower: string, m: Match)
    ensures m in ClassMatches(context, classes, termLower) <==> exists k :: MatchAmong(context, classes, termLower, m, k)
  {
    if classes != [] {
      var rest := classes[..|classes| - 1];
      ClassMatchesMeaning(context, rest, termLower, m);
      var last := classes[|classes| - 1];
      if Matches(last, termLower) && m == MatchOf(context, last) {
        assert MatchAmong(context, classes, termLower, m, |classes| - 1);
      }
      if exists k :: MatchAmong(context, classes, termLower, m, k) {
        var k :| MatchAmong(context, classes, termLower, m, k);
        if k < |classes| - 1 {
          assert rest[k] == classes[k];
          assert MatchAmong(context, rest, termLower, m, k);
        }
      }
      if exists k :: MatchAmong(context, rest, termLower, m, k) {
        var k :| MatchAmong(context, rest, termLower, m, k);
        assert classes[k] == rest[k];
        assert MatchAmong(context, classes, termLower, m, k);
      }
    }
  }

  /** The classes of `context` that match, as records. */
  ghost predicate FoundInContext(context: ContextData, termLower: string, m: Match)
  {
    exists k :: MatchAmong(context, ClassesOf(context), termLower, m, k)
  }

  /** Splits "found in the contexts" into "found in all but the last" or "found in the last". */
  lemma FoundInSplit(contexts: seq<ContextData>, termLower: string, m: Match)
    requires contexts != []
    ensures FoundIn(contexts, termLower, m)
      <==> FoundIn(contexts[..|contexts| - 1], termLower, m) || FoundInContext(contexts[|contexts| - 1], termLower, m)
  {
    var rest, last := contexts[..|contexts| - 1], contexts[|contexts| - 1];
    if FoundIn(contexts, termLower, m) {
      var i, k :| 0 <= i < |contexts| && MatchAmong(contexts[i], ClassesOf(contexts[i]), termLower, m, k);
      if i < |rest| {
        assert rest[i] == contexts[i];
      }
    }
    if FoundIn(rest, termLower, m) {
      var i, k :| 0 <= i < |rest| && MatchAmong(rest[i], ClassesOf(rest[i]), termLower, m, k);
      assert contexts[i] == rest[i];
    }
  }

  /** The candidates are exactly the records of the matching classes. */
  lemma {:induction false} CandidatesMeaning(contexts: seq<ContextData>, termLower: string, m: Match)
    ensures m in Candidates(contexts, termLower) <==> FoundIn(contexts, termLower, m)
  {
    if contexts != [] {
      var rest, last := contexts[..|contexts| - 1], contexts[|contexts| - 1];
      CandidatesMeaning(rest, termLower, m);
      ClassMatchesMeaning(last, ClassesOf(last), termLower, m);
      FoundInSplit(contexts, termLower, m);
      assert Candidates(contexts, termLower) == Candidates(rest, termLower) + ClassMatches(last, ClassesOf(last), termLower);
    }
  }

  /** The simple name is the end of the full name, so lower-cased it is the end of the lower-cased full name. */
  lemma SimpleNameIsSuffix(testClass: string)
    ensures var full, simple := ToLowerAscii(testClass), ToLowerAscii(SimpleName(testClass));
      |simple| <= |full| && full[|full| - |simple|..] == simple
  {
  }

  /**
   * A term found in the simple name is found in the full name: the simple-name test never adds
   * a match, and every match's full name includes the term.
   */
  lemma SimpleNameMatchIsFullMatch(testClass: string, termLower: string)
    ensures Matches(testClass, termLower) <==> Contains(ToLowerAscii(testClass), termLower)
  {
    var full, simple := ToLowerAscii(testClass), ToLowerAscii(SimpleName(testClass));
    SimpleNameIsSuffix(testClass);
    SuffixContains(full, simple, termLower);
  }

  /** What a suffix contains, the whole text contains. */
  lemma SuffixContains(full: string, simple: string, term: string)
    requires |simple| <= |full| && full[|full| - |simple|..] == simple
    ensures Contains(simple, term) ==> Contains(full, term)
  {
    if Contains(simple, term) {
      var i :| 0 <= i <= |simple| && OccursAt(simple, term, i);
      var offset := |full| - |simple|;
      assert full[offset + i..offset + i + |term|] == simple[i..i + |term|];
      assert OccursAt(full, term, offset + i);
    }
  }

  /** The search returns the records of exactly the matching classes, each as often as it was found. */
  lemma SearchFindsMatches(contexts: seq<ContextData>, searchTerm: string)
    ensures var termLower, r := ToLowerAscii(searchTerm), Search(contexts, searchTerm);
      multiset(r) == multiset(Candidates(contexts, termLower))
      && forall m :: m in r <==> FoundIn(contexts, termLower, m)
  {
    var termLower, r := ToLowerAscii(searchTerm), Search(contexts, searchTerm);
    var candidates := Candidates(contexts, termLower);
    forall m ensures m in r <==> FoundIn(contexts, termLower, m) {
      assert m in r <==> m in multiset(candidates);
      CandidatesMeaning(contexts, termLower, m);
    }
  }

  /** Every match's full name, lower-cased, includes the lower-cased term. */
  lemma SearchMatchesTerm(contexts: seq<ContextData>, searchTerm: string)
    ensures var termLower, r := ToLowerAscii(searchTerm), Search(contexts, searchTerm);
      forall m :: m in r ==> Contains(ToLowerAscii(m.testClass), termLower)
  {
    var termLower, r := ToLowerAscii(searchTerm), Search(contexts, searchTerm);
    SearchFindsMatches(contexts, searchTerm);
    forall m | m in r ensures Contains(ToLowerAscii(m.testClass), termLower) {
      var i, k :| 0 <= i < |contexts| && MatchAmong(contexts[i], ClassesOf(contexts[i]), termLower, m, k);
      var testClass := ClassesOf(contexts[i])[k];
      SimpleNameMatchIsFullMatch(testClass, termLower);
      assert m.testClass == testClass;
    }
  }

  /**
   * Every exact simple-name match comes before every other, and matches of one kind are in
   * simple-name order.
   */
  lemma SearchOrder(contexts: seq<ContextData>, searchTerm: string)
    ensures var termLower, r := ToLowerAscii(searchTerm), Search(contexts, searchTerm);
      (forall i, j :: 0 <= i < j < |r| && IsExact(termLower, r[j]) ==> IsExact(termLower, r[i]))
      && (forall i, j :: 0 <= i < j < |r| && IsExact(termLower, r[i]) == IsExact(termLower, r[j]) ==>
            StringLeq(r[i].simpleClassName, r[j].simpleClassName))
  {
    var termLower, r := ToLowerAscii(searchTerm), Search(contexts, searchTerm);
    ExactFirstIsTotalPreorder(termLower);
    SortBySorted(Candidates(contexts, termLower), ExactFirstOrder(termLower));
    forall i, j | 0 <= i < j < |r| ensures ExactFirst(termLower, r[i], r[j]) {
      assert ExactFirstOrder(termLower)(r[i], r[j]);
    }
  }

  /** The input handler's gate: a search runs only for a trimmed term of at least three characters. */
  function SearchOnInput(contexts: seq<ContextData>, input: string): (results: Option<seq<Match>>)
    ensures results.Some? <==> |Trim(input)| >= MinSearchLength
    ensures results.Some? ==> results.value == Search(contexts, Trim(input))
  {
    var searchTerm := Trim(input);
    if |searchTerm| >= MinSearchLength then Some(Search(contexts, searchTerm)) else None
  }

  /** `showSuggestions`: hidden when nothing matches, else the first five matches. */
  function Suggestions(matches: seq<Match>): (shown: Option<seq<Match>>)
    ensures shown.None? <==> matches == []
    ensures shown.Some? ==> 1 <= |shown.value| <= MaxSuggestions && |shown.value| <= |matches|
    ensures shown.Some? ==> shown.value == matches[..|shown.value|]
  {
    if |matches| == 0 then None else Some(Take(matches, MaxSuggestions))
  }

  /**
   * The suggestions for a term are its best matches: when any match is exact, the first
   * suggestion is exact, and a match left out is preceded by five suggestions no later than it.
   */
  lemma SuggestionsAreBest(contexts: seq<ContextData>, searchTerm: string)
    ensures var termLower, r := ToLowerAscii(searchTerm), Search(contexts, searchTerm);
      var shown := Suggestions(r);
      (exists m :: m in r && IsExact(termLower, m)) ==> shown.Some? && IsExact(termLower, shown.value[0])
    ensures var termLower, r := ToLowerAscii(searchTerm), Search(contexts, searchTerm);
      var shown := Suggestions(r);
      forall m :: m in r && shown.Some? && m !in shown.value ==>
        |shown.value| == MaxSuggestions
        && forall i :: 0 <= i < MaxSuggestions ==> ExactFirst(termLower, shown.value[i], m)
  {
    var termLower, r := ToLowerAscii(searchTerm), Search(contexts, searchTerm);
    SearchOrder(contexts, searchTerm);
    if m :| m in r && IsExact(termLower, m) {
      var j :| 0 <= j < |r| && r[j] == m;
      if j > 0 {
        assert IsExact(termLower, r[0]);
      }
    }
    var candidates := Candidates(contexts, termLower);
    ExactFirstIsTotalPreorder(termLower);
    TopOfSorted(candidates, ExactFirstOrder(termLower), MaxSuggestions);
    forall m | m in r && Suggestions(r).Some? && m !in Suggestions(r).value
      ensures forall i :: 0 <= i < MaxSuggestions ==> ExactFirst(termLower, Suggestions(r).value[i], m)
    {
      assert m in multiset(r);
      assert m in candidates;
      forall i | 0 <= i < MaxSuggestions ensures ExactFirst(termLower, Suggestions(r).value[i], m) {
        assert ExactFirstOrder(termLower)(Suggestions(r).value[i], m);
      }
    }
  }
}

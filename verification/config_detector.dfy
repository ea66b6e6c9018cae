/**
 * The registry of which context configuration each analysed test class uses, and the numbered
 * configuration list with its details that the report shows.
 */
module ConfigurationDetector {
  import opened Wrappers
  import opened Strings

  /**
   * What the report reads of a merged context configuration. A `None` array or list is Java's
   * `null`; `classes` and the initializers and customizers are given by class name.
   */
  datatype MergedConfig = MergedConfig(
    locations: seq<string>,
    classes: seq<string>,
    contextLoader: Option<string>,
    propertySourceLocations: Option<seq<string>>,
    propertySourceProperties: Option<seq<string>>,
    activeProfiles: Option<seq<string>>,
    contextInitializers: Option<seq<string>>,
    contextCustomizers: Option<seq<string>>,
    hasParent: bool)

  /** A value in the details map. */
  datatype Detail = Names(names: seq<string>) | Name(name: string) | Flag(flag: bool)

  /** The keys of the details map. */
  datatype DetailKey =
    | Locations | Classes | ContextLoader | PropertySourceLocations | PropertySourceProperties
    | ActiveProfiles | ContextInitializers | ContextCustomizers | HasParentConfiguration

  /** The key as the details map spells it. */
  function KeyName(key: DetailKey): string
  {
    match key
    case Locations => "locations"
    case Classes => "classes"
    case ContextLoader => "contextLoader"
    case PropertySourceLocations => "propertySourceLocations"
    case PropertySourceProperties => "propertySourceProperties"
    case ActiveProfiles => "activeProfiles"
    case ContextInitializers => "contextInitializers"
    case ContextCustomizers => "contextCustomizers"
    case HasParentConfiguration => "hasParentConfiguration"
  }

  /** Different keys are spelled differently, so the map keyed by `DetailKey` is the string-keyed one. */
  lemma KeyNamesDistinct(a: DetailKey, b: DetailKey)
    requires a != b
    ensures KeyName(a) != KeyName(b)
  {
  }

  /** Present, and not empty. */
  predicate Given(values: Option<seq<string>>)
  {
    values.Some? && |values.value| > 0
  }

  /**
   * `getConfigurationDetails`: locations and classes always; each optional key only when its
   * source is set and not empty, and the parent flag only with a parent.
   */
  function ConfigurationDetails(config: MergedConfig): (details: map<DetailKey, Detail>)
    ensures Locations in details && details[Locations] == Names(config.locations)
    ensures Classes in details && details[Classes] == Names(config.classes)
    ensures ContextLoader in details <==> config.contextLoader.Some?
    ensures PropertySourceLocations in details <==> Given(config.propertySourceLocations)
    ensures PropertySourceProperties in details <==> Given(config.propertySourceProperties)
    ensures ActiveProfiles in details <==> Given(config.activeProfiles)
    ensures ContextInitializers in details <==> Given(config.contextInitializers)
    ensures ContextCustomizers in details <==> Given(config.contextCustomizers)
    ensures HasParentConfiguration in details <==> config.hasParent
  {
    map key | key in AllKeys && DetailOf(config, key).Some? :: DetailOf(config, key).value
  }

  const AllKeys: set<DetailKey> := {Locations, Classes, ContextLoader, PropertySourceLocations,
    PropertySourceProperties, ActiveProfiles, ContextInitializers, ContextCustomizers, HasParentConfiguration}

  /** What `getConfigurationDetails` puts under `key`, if anything. */
  function DetailOf(config: MergedConfig, key: DetailKey): Option<Detail>
  {
    match key
    case Locations => Some(Names(config.locations))
    case Classes => Some(Names(config.classes))
    case ContextLoader => if config.contextLoader.Some? then Some(Name(config.contextLoader.value)) else None
    case PropertySourceLocations => NamesIfGiven(config.propertySourceLocations)
    case PropertySourceProperties => NamesIfGiven(config.propertySourceProperties)
    case ActiveProfiles => NamesIfGiven(config.activeProfiles)
    case ContextInitializers => NamesIfGiven(config.contextInitializers)
    case ContextCustomizers => NamesIfGiven(config.contextCustomizers)
    case HasParentConfiguration => if config.hasParent then Some(Flag(true)) else None
  }

  /** A list is put only when it is given and not empty. */
  function NamesIfGiven(values: Option<seq<string>>): (r: Option<Detail>)
    ensures r.Some? <==> Given(values)
  {
    if Given(values) then Some(Names(values.value)) else None
  }

  /** The smallest configuration has exactly the two keys that are always there. */
  lemma BareConfigurationDetails()
    ensures ConfigurationDetails(MergedConfig([], [], None, None, None, None, None, None, false)).Keys
      == {Locations, Classes}
  {
  }

  /** "context-N", the key of the N-th configuration counting from 1. */
  function ConfigKey(n: nat): string
  {
    "context-" + NatToString(n)
  }

  lemma ConfigKeyInjective(a: nat, b: nat)
    requires ConfigKey(a) == ConfigKey(b)
    ensures a == b
  {
    PrefixCancel("context-", NatToString(a), NatToString(b));
    NatToStringInjective(a, b);
  }

  /** `ContextConfigurationInfo` */
  datatype ConfigurationInfo = ConfigurationInfo(id: string, configuration: map<DetailKey, Detail>, testClasses: set<string>)

  /** The detector's two maps. */
  datatype Registry = Registry(configToTestClasses: map<MergedConfig, set<string>>,
                               testClassToConfig: map<string, MergedConfig>)
  {
    /**
     * Every analysed class is listed under the configuration it maps to, every configuration
     * has a class, and every listed class was analysed.
     */
    ghost predicate Valid()
    {
      (forall c :: c in testClassToConfig ==>
         testClassToConfig[c] in configToTestClasses && c in configToTestClasses[testClassToConfig[c]])
      && (forall m :: m in configToTestClasses ==> configToTestClasses[m] != {})
      && (forall m, c :: m in configToTestClasses && c in configToTestClasses[m] ==> c in testClassToConfig)
    }

    /**
     * `analyzeTestClass`, given the outcome of resolving the class's configuration: a failure
     * records nothing; else the class maps to the configuration and joins its class set.
     */
    function Analyze(className: string, resolved: Result<MergedConfig, string>): Registry
    {
      if resolved.Failure? then this
      else
        var config := resolved.value;
        var classes := if config in configToTestClasses then configToTestClasses[config] else {};
        Registry(configToTestClasses[config := classes + {className}], testClassToConfig[className := config])
    }

    /** `getConfigurationForTestClass` */
    function ConfigurationFor(className: string): Option<MergedConfig>
    {
      if className in testClassToConfig then Some(testClassToConfig[className]) else None
    }
  }

  function EmptyRegistry(): (r: Registry)
    ensures r.Valid()
  {
    Registry(map[], map[])
  }

  /**
   * Analysis keeps the registry valid. A failure changes nothing; a success makes the class's
   * configuration the resolved one and adds the class to that configuration's classes and to
   * no other, leaving every other class's configuration as it was.
   */
  lemma AnalyzeKeepsValid(r: Registry, className: string, resolved: Result<MergedConfig, string>)
    requires r.Valid()
    ensures var r' := r.Analyze(className, resolved);
      r'.Valid()
      && (resolved.Failure? ==> r' == r)
      && (resolved.Success? ==>
            r'.ConfigurationFor(className) == Some(resolved.value)
            && className in r'.configToTestClasses[resolved.value]
            && (forall c :: c != className ==> r'.ConfigurationFor(c) == r.ConfigurationFor(c))
            && r'.configToTestClasses.Keys == r.configToTestClasses.Keys + {resolved.value}
            && (forall m :: m in r.configToTestClasses && m != resolved.value ==>
                  r'.configToTestClasses[m] == r.configToTestClasses[m]))
  {
  }

  /** Analysing a class twice under the same configuration is the same as analysing it once. */
  lemma AnalyzeIdempotent(r: Registry, className: string, config: MergedConfig)
    ensures r.Analyze(className, Success(config)).Analyze(className, Success(config))
      == r.Analyze(className, Success(config))
  {
    var r1 := r.Analyze(className, Success(config));
    assert r1.configToTestClasses[config] + {className} == r1.configToTestClasses[config];
  }

  /**
   * A class analysed again under another configuration maps to the new one but stays listed
   * under the old one too: the old class set is never pruned.
   */
  lemma ReanalysedClassStaysListed(className: string, first: MergedConfig, second: MergedConfig)
    requires first != second
    ensures var r := EmptyRegistry().Analyze(className, Success(first)).Analyze(className, Success(second));
      r.ConfigurationFor(className) == Some(second)
      && className in r.configToTestClasses[first] && className in r.configToTestClasses[second]
  {
  }

  /** `order` lists the configurations, each once: an iteration order of the map. */
  ghost predicate ListsConfigs(r: Registry, order: seq<MergedConfig>)
  {
    NoDuplicates(order) && forall m :: m in order <==> m in r.configToTestClasses
  }

  /** A listing holds as many configurations as the map. */
  lemma {:induction false} ListingCount(keys: set<MergedConfig>, order: seq<MergedConfig>)
    requires NoDuplicates(order) && forall m :: m in order <==> m in keys
    ensures |order| == |keys|
  {
    if order != [] {
      var last := order[|order| - 1];
      var rest := order[..|order| - 1];
      assert NoDuplicates(rest);
      assert last !in rest;
      assert forall m :: m in rest <==> m in keys - {last} by {
        forall m ensures m in rest <==> m in keys - {last} {
          if m in rest {
            var i :| 0 <= i < |rest| && rest[i] == m;
            assert order[i] == m;
          }
          if m in keys - {last} {
            var i :| 0 <= i < |order| && order[i] == m;
            assert i != |order| - 1;
            assert rest[i] == m;
          }
        }
      }
      ListingCount(keys - {last}, rest);
    } else {
      assert forall m :: m !in keys;
      assert keys == {};
    }
  }

  /** The detector (static state in Java, an object here). */
  class ContextConfigurationDetector {
    var configToTestClasses: map<MergedConfig, set<string>>
    var testClassToConfig: map<string, MergedConfig>

    function Maps(): Registry
      reads this
    {
      Registry(configToTestClasses, testClassToConfig)
    }

    constructor ()
      ensures Maps() == EmptyRegistry()
    {
      configToTestClasses := map[];
      testClassToConfig := map[];
    }

    method AnalyzeTestClass(className: string, resolved: Result<MergedConfig, string>)
      modifies this
      ensures Maps() == old(Maps()).Analyze(className, resolved)
    {
      if resolved.Success? {
        var config := resolved.value;
        testClassToConfig := testClassToConfig[className := config];
        var classes := if config in configToTestClasses then configToTestClasses[config] else {};
        configToTestClasses := configToTestClasses[config := classes + {className}];
      }
    }

    /**
     * `getContextConfigurations()`, iterating the configurations in `order`: the i-th gets the
     * key "context-i" counting from 1, its details and its classes.
     */
    method GetContextConfigurations(order: seq<MergedConfig>) returns (result: map<string, ConfigurationInfo>)
      requires ListsConfigs(Maps(), order)
      ensures |result| == |configToTestClasses|
      ensures result.Keys == KeysUpTo(|order|)
      ensures forall n :: 1 <= n <= |order| ==>
        result[ConfigKey(n)] == ConfigurationInfo(ConfigKey(n), ConfigurationDetails(order[n - 1]), configToTestClasses[order[n - 1]])
    {
      result := map[];
      var configId := 1;
      for i := 0 to |order|
        invariant configId == i + 1
        invariant result == Numbered(NumberedInfos(order, configToTestClasses)[..i])
      {
        ghost var infos := NumberedInfos(order, configToTestClasses);
        assert infos[..i + 1][..i] == infos[..i];
        var config := order[i];
        var configKey := ConfigKey(configId);
        configId := configId + 1;
        result := result[configKey := ConfigurationInfo(configKey, ConfigurationDetails(config), configToTestClasses[config])];
      }
      ghost var infos := NumberedInfos(order, configToTestClasses);
      assert infos[..|order|] == infos;
      NumberedMeaning(infos);
      ListingCount(configToTestClasses.Keys, order);
      KeysCount(|order|);
    }

    method GetConfigurationForTestClass(className: string) returns (config: Option<MergedConfig>)
      ensures config == Maps().ConfigurationFor(className)
    {
      config := if className in testClassToConfig then Some(testClassToConfig[className]) else None;
    }

    method Clear()
      modifies this
      ensures Maps() == EmptyRegistry()
    {
      configToTestClasses := map[];
      testClassToConfig := map[];
    }
  }

  /** Each value of `values` under its position counting from 1: "context-1", "context-2", ... */
  function Numbered<V>(values: seq<V>): map<string, V>
  {
    if values == [] then map[]
    else Numbered(values[..|values| - 1])[ConfigKey(|values|) := values[|values| - 1]]
  }

  /** The record of every configuration of `order`, in that order. */
  ghost function NumberedInfos(order: seq<MergedConfig>, classes: map<MergedConfig, set<string>>): (infos: seq<ConfigurationInfo>)
    requires forall m :: m in order ==> m in classes
    ensures |infos| == |order| && forall j :: 0 <= j < |order| ==> infos[j] == NumberedInfo(order, classes, j + 1)
  {
    seq(|order|, j requires 0 <= j < |order| => NumberedInfo(order, classes, j + 1))
  }

  /** The record of the `n`-th configuration of `order`, counting from 1. */
  function NumberedInfo(order: seq<MergedConfig>, classes: map<MergedConfig, set<string>>, n: nat): ConfigurationInfo
    requires 1 <= n <= |order| && forall m :: m in order ==> m in classes
  {
    ConfigurationInfo(ConfigKey(n), ConfigurationDetails(order[n - 1]), classes[order[n - 1]])
  }

  /** The keys are "context-1" to "context-n", each holding the value at that position. */
  lemma {:induction false} NumberedMeaning<V>(values: seq<V>)
    ensures Numbered(values).Keys == KeysUpTo(|values|)
    ensures forall k :: 1 <= k <= |values| ==> Numbered(values)[ConfigKey(k)] == values[k - 1]
  {
    if values != [] {
      var n := |values|;
      var rest := values[..n - 1];
      var before, after := Numbered(rest), Numbered(values);
      NumberedMeaning(rest);
      KeysUpToStep(n - 1);
      assert after.Keys == before.Keys + {ConfigKey(n)};
      forall k | 1 <= k <= n
        ensures after[ConfigKey(k)] == values[k - 1]
      {
        if k < n {
          assert ConfigKey(k) != ConfigKey(n);
          assert after[ConfigKey(k)] == before[ConfigKey(k)] == rest[k - 1];
        }
      }
    }
  }

  /** The keys "context-1" to "context-n". */
  function KeysUpTo(n: nat): set<string>
  {
    set k | 1 <= k <= n :: ConfigKey(k)
  }

  /** The next key is new, and joins the keys before it. */
  lemma KeysUpToStep(n: nat)
    ensures KeysUpTo(n + 1) == KeysUpTo(n) + {ConfigKey(n + 1)}
    ensures ConfigKey(n + 1) !in KeysUpTo(n)
    ensures forall k :: 1 <= k <= n ==> ConfigKey(k) != ConfigKey(n + 1)
  {
    forall k | 1 <= k <= n
      ensures ConfigKey(k) != ConfigKey(n + 1)
    {
      if ConfigKey(k) == ConfigKey(n + 1) {
        ConfigKeyInjective(k, n + 1);
      }
    }
  }

  /** The keys "context-1" to "context-n" are n different strings. */
  lemma {:induction false} KeysCount(n: nat)
    ensures |KeysUpTo(n)| == n
  {
    if n > 0 {
      KeysCount(n - 1);
      KeysUpToStep(n - 1);
    }
  }
}

/**
 * The JUnit extension's phase logic: which execution environment the tests run in (from the
 * call stack, the system properties and the test class's name), the report phase named after
 * it, and the rule that generates the report once per phase.
 */
module InsightExtension {
  import opened Wrappers
  import opened Strings

  datatype ExecutionEnvironment =
    | MavenSurefire | MavenFailsafe | GradleTest | GradleIntegrationTest
    | IntelliJ | Eclipse | VSCode | NetBeans | Unknown

  /** The naming convention for integration tests, applied to a simple class name. */
  predicate IsIntegrationTest(simpleName: string)
  {
    EndsWith(simpleName, "IT") || EndsWith(simpleName, "IntegrationTest") || Contains(simpleName, "Integration")
  }

  /** A name ending in "IntegrationTest" already contains "Integration": that test adds nothing. */
  lemma IntegrationTestSuffixContainsIntegration(simpleName: string)
    requires EndsWith(simpleName, "IntegrationTest")
    ensures Contains(simpleName, "Integration")
  {
    var i := |simpleName| - |"IntegrationTest"|;
    assert simpleName[i..][..|"Integration"|] == "Integration";
    assert OccursAt(simpleName, "Integration", i);
  }

  /** A property's value, `null` when it is not set. */
  function Property(properties: map<string, string>, name: string): Option<string>
  {
    if name in properties then Some(properties[name]) else None
  }

  /** `detectBuildTool()`: Maven's properties, then Gradle's, then the class path's markers. */
  function DetectBuildTool(properties: map<string, string>): (tool: string)
    ensures tool in {"maven", "gradle", "unknown"}
    ensures "maven.home" in properties ==> tool == "maven"
  {
    var basedir := Property(properties, "basedir");
    if "maven.home" in properties || "maven.version" in properties || "surefire.test.class.path" in properties
       || (basedir.Some? && Contains(basedir.value, "target"))
    then "maven"
    else if "gradle.home" in properties || "gradle.version" in properties || "org.gradle.test.worker" in properties
            || "gradle.user.home" in properties
    then "gradle"
    else
      var classpath := Property(properties, "java.class.path").GetOr("");
      if Contains(classpath, "/target/") || Contains(classpath, "\\target\\") || Contains(classpath, "maven") then "maven"
      else if Contains(classpath, "/build/") || Contains(classpath, "\\build\\") || Contains(classpath, "gradle") then "gradle"
      else "unknown"
  }

  /** `detectBuildToolPhase`: the build tool picks the pair, the class name picks within it. */
  function DetectBuildToolPhase(buildTool: string, simpleName: string): (env: ExecutionEnvironment)
    ensures buildTool == "maven" ==> env == (if IsIntegrationTest(simpleName) then MavenFailsafe else MavenSurefire)
    ensures buildTool == "gradle" ==> env == (if IsIntegrationTest(simpleName) then GradleIntegrationTest else GradleTest)
    ensures buildTool !in {"maven", "gradle"} ==> env == Unknown
  {
    if buildTool == "maven" then (if IsIntegrationTest(simpleName) then MavenFailsafe else MavenSurefire)
    else if buildTool == "gradle" then (if IsIntegrationTest(simpleName) then GradleIntegrationTest else GradleTest)
    else Unknown
  }

  /** `detectFromStackTrace()`, given the printed stack: an IDE's runner marker, else `UNKNOWN`. */
  function DetectFromStackTrace(stackTrace: string): (env: ExecutionEnvironment)
    ensures env in {IntelliJ, Eclipse, VSCode, NetBeans, Unknown}
  {
    if Contains(stackTrace, "com.intellij.rt.junit") then IntelliJ
    else if Contains(stackTrace, "org.eclipse.jdt.internal.junit") then Eclipse
    else if Contains(stackTrace, "com.microsoft.java.test.runner") then VSCode
    else if Contains(stackTrace, "org.netbeans.modules") then NetBeans
    else if Contains(stackTrace, "org.apache.maven.surefire") then Unknown
    else if Contains(stackTrace, "org.gradle.api.internal.tasks.testing") then Unknown
    else Unknown
  }

  /**
   * The IDE markers win in the order IntelliJ, Eclipse, VS Code, NetBeans, and the build
   * tools' runner markers alone give no answer.
   */
  lemma StackMarkerPriority(stackTrace: string)
    ensures Contains(stackTrace, "com.intellij.rt.junit") ==> DetectFromStackTrace(stackTrace) == IntelliJ
    ensures !Contains(stackTrace, "com.intellij.rt.junit") && Contains(stackTrace, "org.eclipse.jdt.internal.junit")
      ==> DetectFromStackTrace(stackTrace) == Eclipse
    ensures DetectFromStackTrace(stackTrace) == VSCode ==> Contains(stackTrace, "com.microsoft.java.test.runner")
    ensures DetectFromStackTrace(stackTrace) == NetBeans ==> Contains(stackTrace, "org.netbeans.modules")
    ensures DetectFromStackTrace(stackTrace) == Unknown ==>
      !Contains(stackTrace, "com.intellij.rt.junit") && !Contains(stackTrace, "org.eclipse.jdt.internal.junit")
      && !Contains(stackTrace, "com.microsoft.java.test.runner") && !Contains(stackTrace, "org.netbeans.modules")
  {
  }

  /** `detectExecutionEnvironment`: the build tool is consulted only when the stack gives no answer. */
  function DetectExecutionEnvironment(stackTrace: string, properties: map<string, string>, simpleName: string)
    : (env: ExecutionEnvironment)
    ensures DetectFromStackTrace(stackTrace) != Unknown ==> env == DetectFromStackTrace(stackTrace)
    ensures DetectFromStackTrace(stackTrace) == Unknown ==>
      env == DetectBuildToolPhase(DetectBuildTool(properties), simpleName)
  {
    var fromStack := DetectFromStackTrace(stackTrace);
    if fromStack != Unknown then fromStack else DetectBuildToolPhase(DetectBuildTool(properties), simpleName)
  }

  /** `getPhaseFromEnvironment` */
  function PhaseFromEnvironment(env: ExecutionEnvironment): string
  {
    match env
    case MavenSurefire => "surefire"
    case MavenFailsafe => "failsafe"
    case GradleTest => "gradle-test"
    case GradleIntegrationTest => "gradle-integrationTest"
    case IntelliJ => "intellij"
    case Eclipse => "eclipse"
    case VSCode => "vscode"
    case NetBeans => "netbeans"
    case Unknown => "unknown"
  }

  /** Different environments report under different phase names. */
  lemma PhaseFromEnvironmentInjective(a: ExecutionEnvironment, b: ExecutionEnvironment)
    requires PhaseFromEnvironment(a) == PhaseFromEnvironment(b)
    ensures a == b
  {
    var pa, pb := PhaseFromEnvironment(a), PhaseFromEnvironment(b);
    assert |pa| == |pb| && pa[0] == pb[0] && pa[|pa| - 1] == pb[|pb| - 1];
  }

  /**
   * The extension's static state, and the reports it asked for (the phases passed to the
   * listener's report generation) and the listener resets it made, in order.
   */
  datatype ExtensionState = ExtensionState(
    detectedEnvironment: Option<ExecutionEnvironment>,
    currentPhase: Option<string>,
    reportGenerated: bool,
    reports: seq<string>,
    listenerResets: nat)
  {
    /**
     * `beforeAll`: the environment is detected on the first call only; the first phase is
     * taken as is, and a different phase later clears the report flag.
     */
    function BeforeAll(stackTrace: string, properties: map<string, string>, simpleName: string): ExtensionState
    {
      var env := if detectedEnvironment.Some? then detectedEnvironment.value
                 else DetectExecutionEnvironment(stackTrace, properties, simpleName);
      var phase := PhaseFromEnvironment(env);
      var s := this.(detectedEnvironment := Some(env));
      if currentPhase.None? then s.(currentPhase := Some(phase))
      else if currentPhase.value != phase then
        s.(reportGenerated := false, listenerResets := listenerResets + 1, currentPhase := Some(phase))
      else s
    }

    /** `close`: a report for the current phase ("unknown" before any) unless one was made. */
    function Close(): ExtensionState
    {
      if reportGenerated then this
      else this.(reports := reports + [currentPhase.GetOr("unknown")], reportGenerated := true)
    }
  }

  function InitialState(): ExtensionState
  {
    ExtensionState(None, None, false, [], 0)
  }

  /** The flag is set after `close`, and a second `close` changes nothing. */
  lemma CloseOnce(s: ExtensionState)
    ensures s.Close().reportGenerated
    ensures s.Close().Close() == s.Close()
    ensures !s.reportGenerated ==> s.Close().reports == s.reports + [s.currentPhase.GetOr("unknown")]
  {
  }

  /**
   * `beforeAll` never forgets the detected environment, clears the flag exactly when the
   * phase changes, and otherwise leaves the flag and the reports alone.
   */
  lemma BeforeAllPhaseRule(s: ExtensionState, stackTrace: string, properties: map<string, string>, simpleName: string)
    ensures var s' := s.BeforeAll(stackTrace, properties, simpleName);
      s'.detectedEnvironment.Some?
      && (s.detectedEnvironment.Some? ==> s'.detectedEnvironment == s.detectedEnvironment)
      && s'.currentPhase == Some(PhaseFromEnvironment(s'.detectedEnvironment.value))
      && s'.reports == s.reports
      && (s'.reportGenerated != s.reportGenerated ==> s.currentPhase.Some? && s.currentPhase != s'.currentPhase)
      && (s.currentPhase.Some? && s.currentPhase != s'.currentPhase ==> !s'.reportGenerated)
  {
  }

  /** The events that drive the extension: a test class starting, and the run ending. */
  datatype ExtensionEvent =
    | BeforeAllEvent(stackTrace: string, properties: map<string, string>, simpleName: string)
    | CloseEvent

  function Step(s: ExtensionState, e: ExtensionEvent): ExtensionState
  {
    match e
    case BeforeAllEvent(st, p, n) => s.BeforeAll(st, p, n)
    case CloseEvent => s.Close()
  }

  function Run(s: ExtensionState, events: seq<ExtensionEvent>): ExtensionState
  {
    if events == [] then s else Step(Run(s, events[..|events| - 1]), events[|events| - 1])
  }

  /**
   * What every reachable state satisfies: the flag says whether the one report was made, and a
   * phase, once set, is the phase of the environment detected.
   */
  ghost predicate Reachable(s: ExtensionState)
  {
    (s.reportGenerated <==> |s.reports| == 1)
    && |s.reports| <= 1
    && s.listenerResets == 0
    && (s.currentPhase.Some? ==>
          s.detectedEnvironment.Some? && s.currentPhase.value == PhaseFromEnvironment(s.detectedEnvironment.value))
  }

  /**
   * Since the environment is detected once and never changes, neither does the phase: from the
   * initial state, whatever the events, the listener is never reset and at most one report is
   * generated.
   */
  lemma {:induction false} AtMostOneReport(events: seq<ExtensionEvent>)
    ensures Reachable(Run(InitialState(), events))
    ensures |Run(InitialState(), events).reports| <= 1
    ensures Run(InitialState(), events).listenerResets == 0
  {
    if events != [] {
      AtMostOneReport(events[..|events| - 1]);
    }
  }

  /** One `close` event is enough for the report to be generated. */
  lemma {:induction false} CloseGeneratesReport(events: seq<ExtensionEvent>)
    requires CloseEvent in events
    ensures |Run(InitialState(), events).reports| == 1
  {
    var n := |events| - 1;
    AtMostOneReport(events);
    if events[n] != CloseEvent {
      assert CloseEvent in events[..n];
      CloseGeneratesReport(events[..n]);
    }
  }

  /** The extension's static fields, as one object. */
  class SpringTestInsightExtension {
    var detectedEnvironment: Option<ExecutionEnvironment>
    var currentPhase: Option<string>
    var reportGenerated: bool
    var reports: seq<string>
    var listenerResets: nat

    function State(): ExtensionState
      reads this
    {
      ExtensionState(detectedEnvironment, currentPhase, reportGenerated, reports, listenerResets)
    }

    constructor ()
      ensures State() == InitialState()
    {
      detectedEnvironment := None;
      currentPhase := None;
      reportGenerated := false;
      reports := [];
      listenerResets := 0;
    }

    method BeforeAll(stackTrace: string, properties: map<string, string>, simpleName: string)
      modifies this
      ensures State() == old(State()).BeforeAll(stackTrace, properties, simpleName)
    {
      if detectedEnvironment.None? {
        detectedEnvironment := Some(DetectExecutionEnvironment(stackTrace, properties, simpleName));
      }
      var detectedPhase := PhaseFromEnvironment(detectedEnvironment.value);
      if currentPhase.None? {
        currentPhase := Some(detectedPhase);
      } else if currentPhase.value != detectedPhase {
        reportGenerated := false;
        listenerResets := listenerResets + 1;
        currentPhase := Some(detectedPhase);
      }
    }

    method Close()
      modifies this
      ensures State() == old(State()).Close()
    {
      if !reportGenerated {
        var phase := if currentPhase.Some? then currentPhase.value else "unknown";
        reports := reports + [phase];
        reportGenerated := true;
      }
    }

    /** `getDetectedEnvironment()` */
    method GetDetectedEnvironment() returns (env: Option<ExecutionEnvironment>)
      ensures env == detectedEnvironment
    {
      env := detectedEnvironment;
    }
  }
}

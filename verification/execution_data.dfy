/** The outcome of one test, as the test engine reports it. */
module TestStatuses {
  datatype TestStatus = Passed | Failed | Disabled | Aborted | Running | Pending
}

/**
 * One test method's execution (`TestExecutionData`) and one test class's executions
 * (`TestClassExecutionData`).
 */
module ExecutionData {
  import opened Wrappers
  import opened Strings
  import opened TestStatuses
  import opened ContextStatistics

  /** What the reports use of a `Throwable`: its class's simple name, message and stack. */
  datatype ThrowableInfo = ThrowableInfo(simpleName: string, message: Option<string>, stackTrace: seq<string>)

  /** The value held by a `TestExecutionData` object. */
  datatype ExecutionView = ExecutionView(
    testId: string,
    startTime: int,
    endTime: Option<int>,
    status: TestStatus,
    throwable: Option<ThrowableInfo>,
    reason: Option<string>)

  /** A record just created for a test starting at `startTime`. */
  function NewExecution(testId: string, startTime: int): (e: ExecutionView)
    ensures e.testId == testId && e.startTime == startTime
    ensures e.status == Running && e.endTime.None? && e.throwable.None? && e.reason.None?
  {
    ExecutionView(testId, startTime, None, Running, None, None)
  }

  /** `getDuration()`: none until the end time is set. */
  function Duration(e: ExecutionView): (d: Option<int>)
    ensures d.Some? <==> e.endTime.Some?
    ensures d.Some? ==> e.startTime + d.value == e.endTime.value
  {
    if e.endTime.Some? then Some(e.endTime.value - e.startTime) else None
  }

  /** `getTestMethodName()`: the text after the last '#', the whole id when there is none. */
  function TestMethodName(testId: string): (name: string)
    ensures '#' !in name
    ensures '#' !in testId ==> name == testId
    ensures |name| <= |testId| && name == testId[|testId| - |name|..]
    ensures '#' in testId ==> testId[|testId| - |name| - 1] == '#'
  {
    AfterLast(testId, '#')
  }

  /**
   * `getTestClassName()`: the text before the last '#'. Without a '#' the substring's end is
   * -1 and Java throws, which is the failure here.
   */
  function TestClassName(testId: string): (r: Result<string, string>)
    ensures r.Failure? <==> '#' !in testId
  {
    var i := LastIndexOf(testId, '#');
    if i < 0 then Failure("StringIndexOutOfBoundsException") else Success(testId[..i])
  }

  /** With a '#' in the id, the class name, a '#' and the method name give back the id. */
  lemma TestIdRoundTrip(testId: string)
    requires '#' in testId
    ensures TestClassName(testId).Success?
    ensures TestClassName(testId).value + "#" + TestMethodName(testId) == testId
  {
    var i := LastIndexOf(testId, '#');
    assert testId == testId[..i] + "#" + testId[i + 1..];
  }

  /** The insight extension's execution record; every setter replaces one field. */
  class TestExecutionData {
    const testId: string
    const startTime: int
    var endTime: Option<int>
    var status: TestStatus
    var throwable: Option<ThrowableInfo>
    var reason: Option<string>

    function View(): ExecutionView
      reads this
    {
      ExecutionView(testId, startTime, endTime, status, throwable, reason)
    }

    constructor (testId: string, startTime: int)
      ensures View() == NewExecution(testId, startTime)
    {
      this.testId := testId;
      this.startTime := startTime;
      endTime := None;
      status := Running;
      throwable := None;
      reason := None;
    }

    method SetEndTime(endTime: Option<int>)
      modifies this
      ensures View() == old(View()).(endTime := endTime)
    {
      this.endTime := endTime;
    }

    method SetStatus(status: TestStatus)
      modifies this
      ensures View() == old(View()).(status := status)
    {
      this.status := status;
    }

    method SetThrowable(throwable: Option<ThrowableInfo>)
      modifies this
      ensures View() == old(View()).(throwable := throwable)
    {
      this.throwable := throwable;
    }

    method SetReason(reason: Option<string>)
      modifies this
      ensures View() == old(View()).(reason := reason)
    {
      this.reason := reason;
    }

    /** `getDuration()` on the object. */
    method GetDuration() returns (d: Option<int>)
      ensures d == Duration(View())
    {
      d := if endTime.Some? then Some(endTime.value - startTime) else None;
    }
  }

  /**
   * `TestClassExecutionData`: a class name, its executions by test id and the context
   * statistics gathered for it, if any.
   */
  datatype ClassExecutions = ClassExecutions(className: string, testExecutions: map<string, ExecutionView>,
                                             contextStatistics: Option<StatisticsView>)
  {
    /** `getTotalTests()` */
    function TotalTests(): nat
    {
      |testExecutions|
    }

    /** The ids of the executions that ended with `status`. */
    function WithStatus(status: TestStatus): (ids: set<string>)
      ensures ids <= testExecutions.Keys
      ensures forall id :: id in ids <==> id in testExecutions && testExecutions[id].status == status
    {
      set id | id in testExecutions && testExecutions[id].status == status
    }

    /** `getPassedTests()`, `getFailedTests()`, `getDisabledTests()`, `getAbortedTests()` */
    function CountStatus(status: TestStatus): nat
    {
      |WithStatus(status)|
    }
  }

  /** Different statuses count different executions, so the four counts never exceed the total. */
  lemma StatusCountsWithinTotal(d: ClassExecutions)
    ensures d.CountStatus(Passed) + d.CountStatus(Failed) + d.CountStatus(Disabled) + d.CountStatus(Aborted)
      <= d.TotalTests()
  {
    var p, f, x, a := d.WithStatus(Passed), d.WithStatus(Failed), d.WithStatus(Disabled), d.WithStatus(Aborted);
    assert p * f == {} && (p + f) * x == {} && (p + f + x) * a == {};
    assert |p + f| == |p| + |f|;
    assert |p + f + x| == |p + f| + |x|;
    assert |p + f + x + a| == |p + f + x| + |a|;
    assert p + f + x + a <= d.testExecutions.Keys;
    SubsetCardinality(p + f + x + a, d.testExecutions.Keys);
  }

  lemma SubsetCardinality<T>(a: set<T>, b: set<T>)
    requires a <= b
    ensures |a| <= |b|
  {
    assert b == a + (b - a);
  }

  /** An empty execution map counts zero for every status. */
  lemma EmptyCountsZero(className: string, status: TestStatus)
    ensures ClassExecutions(className, map[], None).TotalTests() == 0
    ensures ClassExecutions(className, map[], None).CountStatus(status) == 0
  {
    assert ClassExecutions(className, map[], None).WithStatus(status) == {};
  }

  /** Five executions, two passed and one each failed, disabled and aborted. */
  function Fixture(): ClassExecutions
  {
    ClassExecutions("com.example.TestClass", map[
      "test1" := ExecutionView("test1", 0, Some(1), Passed, None, None),
      "test2" := ExecutionView("test2", 0, Some(1), Failed, None, None),
      "test3" := ExecutionView("test3", 0, Some(1), Disabled, None, None),
      "test4" := ExecutionView("test4", 0, Some(1), Aborted, None, None),
      "test5" := ExecutionView("test5", 0, Some(1), Passed, None, None)], None)
  }

  lemma FixtureCounts()
    ensures Fixture().TotalTests() == 5
    ensures Fixture().CountStatus(Passed) == 2 && Fixture().CountStatus(Failed) == 1
    ensures Fixture().CountStatus(Disabled) == 1 && Fixture().CountStatus(Aborted) == 1
  {
    var d := Fixture();
    assert d.testExecutions.Keys == {"test1", "test2", "test3", "test4", "test5"};
    assert d.WithStatus(Passed) == {"test1", "test5"};
    assert d.WithStatus(Failed) == {"test2"};
    assert d.WithStatus(Disabled) == {"test3"};
    assert d.WithStatus(Aborted) == {"test4"};
  }
}
